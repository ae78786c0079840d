/**
 The steps of the protocol as the services take them: what each transaction demands, and what
 it leaves in the store and of the process that runs it.
 */
module ProtocolSteps {
  import opened Base
  import opened Upload
  import opened Reconciliation
  import opened Protocol

  // ---- the uploader ----

  /** Only the rows, objects and processes named here differ. */
  ghost predicate SameButUploader(s: System, t: System, p: nat) {
    && t.clock == s.clock && t.workers == s.workers && t.condemned == s.condemned && t.leases == s.leases
    && t.uploaders - {p} == s.uploaders - {p}
  }

  lemma OthersStay(m: map<nat, Uploader>, p: nat, u: Uploader)
    ensures m[p := u] - {p} == m - {p} && (m - {p}) - {p} == m - {p}
  {
  }

  /** A command reaches an upload never with a time beyond the clock, and only if it is allowed. */
  lemma CanApplyExactly(s: System, id: nat, c: Command)
    requires id in s.uploads && ValidIntent(s.uploads[id])
    ensures CanApply(s, id, c) <==> c.now <= s.clock && Allowed(s.uploads[id], c)
  {
    SucceedsExactly(s.uploads[id], c);
  }

  /**
   The write-ahead insert opens a pending obligation where the attempt has none. It is reported
   as done only if the stored obligation is that of this object, pending and unclaimed, whether
   written now or before; otherwise the object is discarded.
   */
  lemma WriteExactly(s: System, p: nat, now: Time, written: bool, reported: bool)
    requires Enabled(s, Write(p, now, written, reported)) && ValidIntent(s.uploaders[p].claim)
    ensures var t, u := Next(s, Write(p, now, written, reported)), s.uploaders[p];
            var k := Attempt(u.claim.id, u.claim.attempt);
            && SameButUploader(s, t, p) && t.uploads == s.uploads && t.assets == s.assets
            && t.inventory == s.inventory && t.puts == s.puts
            && p in t.uploaders && t.uploaders[p] == Uploader(u.claim,
                 if reported then Recorded else Discarding(false), u.asset, now)
            && (written ==> k !in s.obligations && k in t.obligations)
            && t.obligations == (if written then s.obligations[k := t.obligations[k]] else s.obligations)
            && (written || reported ==>
                  k in t.obligations && ForObject(u.claim, u.asset.cipher, now) == Some(t.obligations[k]))
  {
    OthersStay(s.uploaders, p, s.uploaders[p].(at := now, phase := if reported then Recorded else Discarding(false)));
    hide ForObject;
  }

  /** The acceptance transaction opens for the claimed attempt and the declared body, while the lease runs. */
  lemma LockExactly(s: System, p: nat, bytes: nat)
    requires p in s.uploaders && s.uploaders[p].phase == Recorded
    requires s.uploaders[p].claim.id in s.uploads && ValidIntent(s.uploads[s.uploaders[p].claim.id])
    ensures var u := s.uploaders[p]; var current := s.uploads[u.claim.id];
            Enabled(s, Lock(p, bytes)) <==>
              && Allowed(current, AcceptAsset(u.claim.version, u.claim.attempt, u.asset, bytes, u.at))
              && u.at <= s.clock && current.lease.Some? && s.clock < current.lease.value && s.clock < current.expiresAt
    ensures Enabled(s, Lock(p, bytes)) ==>
      Next(s, Lock(p, bytes)) == s.(uploaders := s.uploaders[p := s.uploaders[p].(phase := Accepting)])
  {
    var u := s.uploaders[p];
    SucceedsExactly(s.uploads[u.claim.id], AcceptAsset(u.claim.version, u.claim.attempt, u.asset, bytes, u.at));
    hide ValidIntent;
  }

  /**
   The commit needs the same, no asset for the evidence, and the attempt's obligation pending for
   this object; it accepts the upload, adds the asset and retains the obligation together.
   */
  lemma CommitExactly(s: System, p: nat, bytes: nat)
    requires p in s.uploaders && s.uploaders[p].phase == Accepting
    requires s.uploaders[p].claim.id in s.uploads && ValidIntent(s.uploads[s.uploaders[p].claim.id])
    ensures var u := s.uploaders[p]; var current, k := s.uploads[u.claim.id], Attempt(u.claim.id, u.claim.attempt);
            Enabled(s, Commit(p, bytes)) <==>
              && Allowed(current, AcceptAsset(u.claim.version, u.claim.attempt, u.asset, bytes, u.at))
              && current.evidence !in s.assets
              && k in s.obligations && s.obligations[k].state == Pending && s.obligations[k].cipher == u.asset.cipher
    ensures Enabled(s, Commit(p, bytes)) ==>
      var t, u := Next(s, Commit(p, bytes)), s.uploaders[p];
      var current, k := s.uploads[u.claim.id], Attempt(u.claim.id, u.claim.attempt);
      var o := s.obligations[k];
      t == s.(uploaders := s.uploaders - {p}, assets := s.assets[u.asset.evidence := u.asset],
              uploads := s.uploads[u.claim.id := current.(state := Accepted, version := current.version + 1,
                updatedAt := u.at, lease := None, acceptedAt := Some(u.at))],
              obligations := s.obligations[k := o.(state := Retained, version := o.version + 1,
                lease := None, updatedAt := u.at, resolvedAt := Some(u.at))])
  {
    var u := s.uploaders[p];
    SucceedsExactly(s.uploads[u.claim.id], AcceptAsset(u.claim.version, u.claim.attempt, u.asset, bytes, u.at));
    hide ValidIntent;
  }

  /** A refused body leads to discarding. */
  lemma RefusingExactly(s: System, p: nat)
    ensures Enabled(s, RefuseBody(p)) <==> p in s.uploaders && s.uploaders[p].phase == Recorded
    ensures Enabled(s, RefuseBody(p)) ==>
      Next(s, RefuseBody(p)) == s.(uploaders := s.uploaders[p := s.uploaders[p].(phase := Discarding(true))])
  {
  }

  /** So does a commit known to have done nothing; one of unknown outcome ends the process. */
  lemma NothingCommittedExactly(s: System, p: nat)
    requires p in s.uploaders
    ensures Enabled(s, CommitNothing(p, false)) ==>
      Next(s, CommitNothing(p, false)) == s.(uploaders := s.uploaders[p := s.uploaders[p].(phase := Discarding(true))])
    ensures Enabled(s, CommitNothing(p, true)) ==>
      Next(s, CommitNothing(p, true)) == s.(uploaders := s.uploaders - {p})
  {
  }

  /** Where the discarding uploader goes, depending on whether its obligation was written and its delete reported. */
  function AfterDiscard(recorded: bool, reported: bool): Phase {
    match (recorded, reported)
    case (true, true) => Resolving
    case (false, false) => RecordingOrphan
    case _ => Failing
  }

  lemma DiscardExactly(s: System, p: nat, gone: bool, reported: bool)
    requires Enabled(s, Discard(p, gone, reported))
    ensures p in s.uploaders && s.uploaders[p].phase.Discarding? && (reported ==> gone)
    ensures var u := s.uploaders[p];
            Next(s, Discard(p, gone, reported))
              == s.(inventory := if gone then s.inventory - {u.asset.cipher} else s.inventory,
                    uploaders := s.uploaders[p := u.(phase := AfterDiscard(u.phase.recorded, reported))])
  {
  }

  /** The discarding uploader resolves exactly its own object's obligation, as deleted, if it is not so already. */
  lemma ResolveDiscardedExactly(s: System, p: nat)
    requires Enabled(s, ResolveDiscarded(p, true))
    ensures var u := s.uploaders[p]; var k := Attempt(u.claim.id, u.claim.attempt);
            && k in s.obligations && s.obligations[k].cipher == u.asset.cipher
            && var o := s.obligations[k];
               var n := if o.state == Deleted then Some(o) else Resolve(o, Deleted, u.at);
               n.Some? && Next(s, ResolveDiscarded(p, true))
                 == s.(obligations := s.obligations[k := n.value], uploaders := s.uploaders[p := u.(phase := Failing)])
  {
    hide Resolve;
    var u := s.uploaders[p];
    var k := Attempt(u.claim.id, u.claim.attempt);
    assert s.obligations[k := s.obligations[k]] == s.obligations;
  }

  /** A failed put of unknown effect is recorded before the attempt is given up; if that fails too, the process ends. */
  lemma WriteOrphanExactly(s: System, p: nat, now: Time, written: bool, reported: bool)
    requires Enabled(s, WriteOrphan(p, now, written, reported))
    ensures var t, u := Next(s, WriteOrphan(p, now, written, reported)), s.uploaders[p];
            var k := Attempt(u.claim.id, u.claim.attempt);
            && t == s.(obligations := t.obligations, uploaders := t.uploaders)
            && t.uploaders == (if reported then s.uploaders[p := u.(phase := Failing)] else s.uploaders - {p})
            && (written ==> k !in s.obligations && k in t.obligations)
            && t.obligations == (if written then s.obligations[k := t.obligations[k]] else s.obligations)
            && (written || reported ==>
                  k in t.obligations && ForObject(u.claim, u.asset.cipher, now) == Some(t.obligations[k]))
  {
    hide ForObject;
  }

  /**
   The attempt is given up by rejecting the upload for a classified reason while the lease runs,
   and otherwise by releasing the attempt; both only for the very claim the uploader holds.
   */
  lemma ReleaseExactly(s: System, p: nat, reason: string, now: Time)
    requires Enabled(s, Release(p, reason, now, true)) && ValidIntent(s.uploads[s.uploaders[p].claim.id])
    ensures var t, claim := Next(s, Release(p, reason, now, true)), s.uploaders[p].claim;
            && claim.id in s.uploads && claim.id in t.uploads
            && var u, w := s.uploads[claim.id], t.uploads[claim.id];
               && t == s.(uploads := s.uploads[claim.id := w], uploaders := s.uploaders - {p})
               && u.version == claim.version && u.attempt == claim.attempt && u.state == Uploading
               && w.version == u.version + 1 && w.updatedAt == now <= s.clock && w.lease.None?
               && w.state == (if reason != "" && now < claim.expiresAt && claim.lease.Some? && now < claim.lease.value
                              then Rejected else if now < u.expiresAt then Issued else Expired)
               && (w.state == Rejected ==> w.rejectionReason == reason)
  {
  }

  // ---- the recovery worker ----

  /** What a worker does about an obligation, given the upload it has read and the assets there are. */
  lemma JudgeExactly(s: System, o: Obligation, seen: Intent)
    ensures Judge(s, o, seen) == Completing(o, Retained) <==>
      && seen.evidence == o.evidence && seen.state == Accepted && seen.attempt == o.attempt
      && o.evidence in s.assets && s.assets[o.evidence].cipher == o.cipher
    ensures Judge(s, o, seen) == Deleting(o) <==>
      seen.evidence == o.evidence && seen.state != Accepted && o.evidence !in s.assets
    ensures Judge(s, o, seen) in {Completing(o, Retained), Deleting(o), Retrying(o)}
  {
  }

  /** A worker claims one obligation for recovery and then reads its upload and its asset. */
  lemma RecoveringExactly(s: System, w: nat, key: Attempt, now: Time, timeout: Time)
    ensures Enabled(s, Recover(w, key, now, timeout)) <==>
      && key in s.obligations && now <= s.clock && w !in s.workers
      && ClaimForRecovery(s.obligations[key], now, timeout).Some?
    ensures Enabled(s, Recover(w, key, now, timeout)) ==>
      var o := ClaimForRecovery(s.obligations[key], now, timeout).value;
      Next(s, Recover(w, key, now, timeout))
        == s.(obligations := s.obligations[key := o], workers := s.workers[w := Inspecting(o)])
    ensures Enabled(s, ReadFails(w)) ==>
      w in s.workers && Next(s, ReadFails(w)) == s.(workers := s.workers[w := Retrying(s.workers[w].o)])
  {
    hide ClaimForRecovery;
  }

  lemma ReadingExactly(s: System, w: nat)
    requires w in s.workers
    ensures Enabled(s, ReadUpload(w)) ==>
      && s.workers[w].o.upload in s.uploads
      && Next(s, ReadUpload(w))
         == s.(workers := s.workers[w := Judging(s.workers[w].o, s.uploads[s.workers[w].o.upload])])
    ensures Enabled(s, ReadAsset(w)) ==>
      && s.workers[w].Judging?
      && Next(s, ReadAsset(w)) == s.(workers := s.workers[w := Judge(s, s.workers[w].o, s.workers[w].seen)])
  {
    hide Judge;
  }

  /** A delete not known to have worked is retried. */
  lemma DeletingExactly(s: System, w: nat, gone: bool, reported: bool)
    requires Enabled(s, DeleteObject(w, gone, reported))
    ensures w in s.workers && s.workers[w].Deleting? && (reported ==> gone)
    ensures var o := s.workers[w].o;
            Next(s, DeleteObject(w, gone, reported))
              == s.(inventory := if gone then s.inventory - {o.cipher} else s.inventory,
                    workers := s.workers[w := if reported then Completing(o, Deleted) else Retrying(o)])
  {
  }

  /** A worker's result is written only under the version and claim it holds, and then replaces its obligation. */
  lemma FencedExactly(s: System, w: nat, now: Time, delay: Time)
    requires w in s.workers
    ensures var o := s.workers[w].o; var k := Attempt(o.upload, o.attempt);
            var held := k in s.obligations
                && s.obligations[k].version == o.version && s.obligations[k].claim == o.claim;
            && (Enabled(s, Complete(w, now, true)) <==>
                  held && now <= s.clock && s.workers[w].Completing?
                  && Resolve(s.obligations[k], s.workers[w].verdict, now).Some?)
            && (Enabled(s, Complete(w, now, true)) ==>
                  var n := Resolve(s.obligations[k], s.workers[w].verdict, now).value;
                  Next(s, Complete(w, now, true))
                    == s.(obligations := s.obligations[k := n], workers := s.workers - {w}))
            && (Enabled(s, PutBack(w, now, delay, true)) <==>
                  held && now <= s.clock && s.workers[w].Retrying? && Retry(s.obligations[k], now, delay).Some?)
            && (Enabled(s, PutBack(w, now, delay, true)) ==>
                  var n := Retry(s.obligations[k], now, delay).value;
                  Next(s, PutBack(w, now, delay, true))
                    == s.(obligations := s.obligations[k := n], workers := s.workers - {w}))
  {
    hide Resolve, Retry;
  }

  // ---- the orphan sweeper ----

  /** A version is protected by an asset, or by an obligation that has not ended with its deletion. */
  lemma ReferencedExactly(s: System, c: Object)
    ensures !Referenced(s, c) <==>
      && (forall e :: e in s.assets ==> s.assets[e].cipher != c)
      && forall k :: k in s.obligations && s.obligations[k].cipher == c ==>
           s.obligations[k].state !in {Pending, Disposition.Claimed, Retained}
  {
  }

  /** The sweeper may set out to delete an old unreferenced version, and its delete takes effect or not. */
  lemma SweepExactly(s: System, z: nat, c: Object, now: Time, age: Time, gone: bool)
    ensures Enabled(s, Condemn(z, c, now, age)) <==>
      && z !in s.condemned && c in s.puts && age >= 1_200_000_000 && now <= s.clock
      && s.puts[c].modifiedAt + age <= now && !Referenced(s, c)
    ensures Enabled(s, Condemn(z, c, now, age)) ==>
      Next(s, Condemn(z, c, now, age)) == s.(condemned := s.condemned[z := c])
    ensures Enabled(s, Sweep(z, gone)) ==>
      && z in s.condemned
      && Next(s, Sweep(z, gone)) == s.(inventory := if gone then s.inventory - {s.condemned[z]} else s.inventory,
                                       condemned := s.condemned - {z})
  {
    hide Referenced;
  }

  /** A put adds one version, new to the store, under the evidence of the claim, for this attempt. */
  lemma StoreExactly(s: System, p: nat, asset: Asset, modifiedAt: Time, after: Phase)
    requires Enabled(s, Store(p, asset, modifiedAt, after))
    ensures var t := Next(s, Store(p, asset, modifiedAt, after));
            && p in s.uploaders && s.uploaders[p].phase == Streaming && after in {Staged, Discarding(false), Failing}
            && var u := s.uploaders[p];
               && asset.cipher !in s.puts && asset.evidence == asset.cipher.evidence == u.claim.evidence
               && s.clock <= modifiedAt + 300_000_000 && modifiedAt <= s.clock + 300_000_000
               && t == s.(inventory := s.inventory + {asset.cipher},
                          puts := s.puts[asset.cipher :=
                            Put(Attempt(u.claim.id, u.claim.attempt), s.clock, modifiedAt)],
                          uploaders := s.uploaders[p := Uploader(u.claim, after, asset, u.at)])
  {
  }
}
