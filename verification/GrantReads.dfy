/**
 What one read of a grant does, step by step: when a claim consumes a use, what becomes of
 plaintext of the wrong digest, what is recorded; and that every use and every outcome can occur.
 */
module GrantReads {
  import opened Base
  import opened Grants

  /** A grant is issued unused and unrevoked, for one to thirty-two uses within at most an hour. */
  lemma IssueExactly(s: System, g: nat, grant: Grant)
    ensures Enabled(s, Issue(g, grant)) <==>
      && g !in s.grants && grant.uses == 0 && grant.revokedAt.None? && 1 <= grant.maximumUses <= 32
      && 0 < grant.createdAt < grant.expiresAt <= grant.createdAt + 3_600_000_000
    ensures Enabled(s, Issue(g, grant)) ==> Next(s, Issue(g, grant)) == s.(grants := s.grants[g := grant])
  {
  }

  /** Until it goes on, a reader may be denied, whatever outcome it was given; it then finishes as denied. */
  lemma DenyExactly(s: System, p: nat)
    ensures Enabled(s, Deny(p)) <==> p in s.readers && s.readers[p].phase.Holding?
    ensures Enabled(s, Deny(p)) ==>
      Next(s, Deny(p)) == s.(readers := s.readers[p := Reader(s.readers[p].redemption, Finishing(Denied))])
  {
  }

  /** A new identifier consumes a use exactly for the runner, inside the window, unrevoked and below the maximum. */
  lemma ClaimExactly(s: System, p: nat, g: nat, id: nat, runner: string, now: Time)
    requires Enabled(s, Claim(p, g, id, runner, now))
    ensures var t, grant := Next(s, Claim(p, g, id, runner, now)), s.grants[g];
            var allowed := runner == grant.runner && grant.createdAt <= now < grant.expiresAt
                && grant.revokedAt.None? && grant.uses < grant.maximumUses;
            && t.redemptions == s.redemptions[id := Redemption(g, runner, allowed, now, None)]
            && t.released == s.released && t.quarantined == s.quarantined
            && (if allowed
                then t.grants == s.grants[g := grant.(uses := grant.uses + 1)]
                  && t.readers == s.readers[p := Reader(id, Holding(None))]
                else t.grants == s.grants && t.readers == s.readers)
  {
  }

  /**
   Produced plaintext is committed exactly when its digest is the asset's and the receiver has not
   committed this identifier yet; of any other digest nothing is committed and quarantine follows.
   */
  lemma ReleaseExactly(s: System, p: nat, digest: string)
    requires Enabled(s, Release(p, digest))
    ensures var t, r := Next(s, Release(p, digest)), s.readers[p];
            var id := r.redemption;
            var expected := s.grants[s.redemptions[id].grant].digest;
            && t.grants == s.grants && t.redemptions == s.redemptions && t.quarantined == s.quarantined
            && p in t.readers && t.readers == s.readers[p := t.readers[p]]
            && (id in s.released ==> t.released == s.released && t.readers[p] == Reader(id, Finishing(Succeeded)))
            && (id !in s.released && digest == expected ==>
                  t.released == s.released[id := digest] && t.readers[p] == Reader(id, Finishing(Succeeded)))
            && (id !in s.released && digest != expected ==>
                  t.released == s.released && t.readers[p] == Reader(id, Quarantining))
  {
  }

  /** An integrity fault goes to quarantine without committing anything; any other fault ends as failed. */
  lemma BreakExactly(s: System, p: nat, integrity: bool)
    requires Enabled(s, Break(p, integrity))
    ensures var t := Next(s, Break(p, integrity));
            && t == s.(readers := t.readers)
            && t.readers == s.readers[p := Reader(s.readers[p].redemption,
                 if integrity then Quarantining else Finishing(Failed))]
  {
  }

  /**
   A reader in quarantine leaves it only by crashing, by blocking the asset durably, which ends as
   an integrity failure, or by failing to, which ends as failed: never by releasing anything.
   */
  lemma QuarantineIsLeftExactly(s: System, e: Event, p: nat)
    requires Enabled(s, e) && p in s.readers && s.readers[p].phase == Quarantining
    ensures var t, id := Next(s, e), s.readers[p].redemption;
            || (p in t.readers && t.readers[p] == s.readers[p])
            || (e == Crash(p) && p !in t.readers)
            || (e == Quarantine(p, true) && id in t.quarantined && p in t.readers
                && t.readers[p] == Reader(id, Finishing(IntegrityFailed)))
            || (e == Quarantine(p, false) && t.quarantined == s.quarantined && p in t.readers
                && t.readers[p] == Reader(id, Finishing(Failed)))
    ensures e.Quarantine? || e.Crash? ==> Next(s, e).released == s.released
  {
  }

  /** A reader that finishes records its own outcome where none is recorded, and changes nothing else. */
  lemma RecordExactly(es: seq<Event>, s: System, p: nat)
    requires Run(EMPTY, es, s) && p in s.readers && s.readers[p].phase.Finishing?
    ensures Enabled(s, Record(p)) && s.readers[p].redemption in s.redemptions
    ensures var t, id := Next(s, Record(p)), s.readers[p].redemption;
            && t == s.(readers := s.readers - {p}, redemptions := t.redemptions)
            && t.redemptions == s.redemptions[id := Outcoming(s.redemptions[id], s.readers[p].phase.outcome)]
  {
    RunKeeps(EMPTY, es, s);
    assert ReaderGood(s, s.readers[p]);
    hide Inv, Run;
    RecordShows(s, p);
  }

  /** The redemption with this outcome, unless it has one already. */
  function Outcoming(r: Redemption, outcome: Outcome): Redemption {
    if r.outcome.None? then r.(outcome := Some(outcome)) else r
  }

  lemma RecordShows(s: System, p: nat)
    requires p in s.readers && s.readers[p].phase.Finishing? && s.readers[p].redemption in s.redemptions
    ensures var t, id := Next(s, Record(p)), s.readers[p].redemption;
            && t == s.(readers := s.readers - {p}, redemptions := t.redemptions)
            && t.redemptions == s.redemptions[id := Outcoming(s.redemptions[id], s.readers[p].phase.outcome)]
  {
    var id := s.readers[p].redemption;
    assert s.redemptions[id := s.redemptions[id]] == s.redemptions;
  }

  /** A repeated identifier consumes nothing; the runner it was claimed for gets the recorded outcome, if any. */
  lemma ReplayExactly(s: System, p: nat, g: nat, id: nat, runner: string)
    ensures Enabled(s, Replay(p, g, id, runner)) <==>
      && p !in s.readers && id in s.redemptions && s.redemptions[id].claimed
      && s.redemptions[id].grant == g && s.redemptions[id].runner == runner
    ensures Enabled(s, Replay(p, g, id, runner)) ==>
      Next(s, Replay(p, g, id, runner)) == s.(readers := s.readers[p := Reader(id, Holding(s.redemptions[id].outcome))])
  {
  }

  /** A reader that was given a recorded outcome neither releases plaintext nor blocks the asset. */
  lemma TerminalReplayReleasesNothing(s: System, e: Event, p: nat)
    requires Enabled(s, e) && p in s.readers && s.readers[p].phase.Holding? && s.readers[p].phase.seen.Some?
    ensures !(e.Release? && e.p == p) && !(e.Break? && e.p == p) && !(e.Quarantine? && e.p == p)
  {
  }

  /** Revocation needs a time from creation on, happens once, and stamps the grant. */
  lemma RevokeExactly(s: System, g: nat, now: Time)
    ensures Enabled(s, Revoke(g, now)) <==>
      g in s.grants && s.grants[g].revokedAt.None? && s.grants[g].createdAt <= now
    ensures Enabled(s, Revoke(g, now)) ==>
      Next(s, Revoke(g, now)) == s.(grants := s.grants[g := s.grants[g].(revokedAt := Some(now))])
  {
  }

  // ---- every use and every outcome can occur ----

  function Used(grant: Grant, n: nat): Grant { grant.(uses := n) }

  /** n claims at the start of the window, each by a reader of its own. */
  lemma {:induction false} UsesAreReachable(grant: Grant, n: nat) returns (s: System)
    requires ValidGrant(grant) && grant.uses == 0 && grant.revokedAt.None? && n <= grant.maximumUses
    ensures Reaches(EMPTY, s) && s.grants == map[0 := Used(grant, n)]
    ensures forall i :: i in s.readers || i in s.redemptions ==> i < n
    decreases n
  {
    hide Reaches;
    if n == 0 {
      s := Next(EMPTY, Issue(0, grant));
      ReachesItself(s);
      ReachesAfter(EMPTY, Issue(0, grant), s);
    } else {
      var before := UsesAreReachable(grant, n - 1);
      var e := Claim(n - 1, 0, n - 1, grant.runner, grant.createdAt);
      s := Next(before, e);
      ReachesThen(EMPTY, before, e);
    }
  }

  lemma ReachesThen(r: System, s: System, e: Event)
    requires Reaches(r, s) && Enabled(s, e)
    ensures Reaches(r, Next(s, e))
  {
    hide Enabled, Next;
    var es :| Run(r, es, s);
    RunThen(r, es, s, e);
  }

  lemma {:induction false} RunThen(r: System, es: seq<Event>, s: System, e: Event)
    requires Run(r, es, s) && Enabled(s, e)
    ensures Run(r, es + [e], Next(s, e))
    decreases |es|
  {
    hide Enabled, Next;
    if es == [] {
      assert es + [e] == [e] && [e][1..] == [];
    } else {
      assert (es + [e])[0] == es[0] && (es + [e])[1..] == es[1..] + [e];
      RunThen(Next(r, es[0]), es[1..], s, e);
    }
  }

  /** All uses of a grant can be claimed, and then no more. */
  lemma MaximumIsReachedExactly(grant: Grant) returns (s: System)
    requires ValidGrant(grant) && grant.uses == 0 && grant.revokedAt.None?
    ensures Reaches(EMPTY, s) && 0 in s.grants && s.grants[0].uses == grant.maximumUses
    ensures forall p, id, runner, now :: Enabled(s, Claim(p, 0, id, runner, now)) ==>
      Next(s, Claim(p, 0, id, runner, now)).grants == s.grants
  {
    s := UsesAreReachable(grant, grant.maximumUses);
    hide Reaches;
  }

  /** Every outcome can be recorded for every grant, integrity failure by plaintext of any other digest. */
  lemma EveryOutcomeIsReachable(grant: Grant, outcome: Outcome, other: string) returns (s: System)
    requires ValidGrant(grant) && grant.uses == 0 && grant.revokedAt.None? && other != grant.digest
    ensures Reaches(EMPTY, s) && 0 in s.redemptions && s.redemptions[0].outcome == Some(outcome)
    ensures 0 in s.released <==> outcome == Succeeded
    ensures 0 in s.quarantined <==> outcome == IntegrityFailed
  {
    var issued := Next(EMPTY, Issue(0, grant));
    var claimed := Next(issued, Claim(0, 0, 0, grant.runner, grant.createdAt));
    s := Finished(claimed, grant, outcome, other);
    hide Reaches;
    ReachesAfter(issued, Claim(0, 0, 0, grant.runner, grant.createdAt), s);
    ReachesAfter(EMPTY, Issue(0, grant), s);
  }

  lemma Finished(claimed: System, grant: Grant, outcome: Outcome, other: string) returns (s: System)
    requires claimed == System(map[0 := Used(grant, 1)],
      map[0 := Redemption(0, grant.runner, true, grant.createdAt, None)],
      map[0 := Reader(0, Holding(None))], map[], {})
    requires other != grant.digest
    ensures Reaches(claimed, s) && 0 in s.redemptions && s.redemptions[0].outcome == Some(outcome)
    ensures 0 in s.released <==> outcome == Succeeded
    ensures 0 in s.quarantined <==> outcome == IntegrityFailed
  {
    hide Reaches;
    var first := if outcome == Denied then Deny(0)
        else Release(0, if outcome == Succeeded then grant.digest else other);
    var t := Next(claimed, first);
    if outcome == IntegrityFailed || outcome == Failed {
      var e := Quarantine(0, outcome == IntegrityFailed);
      var u := Next(t, e);
      s := Next(u, Record(0));
      ReachesItself(s);
      ReachesAfter(u, Record(0), s);
      ReachesAfter(t, e, s);
    } else {
      s := Next(t, Record(0));
      ReachesItself(s);
      ReachesAfter(t, Record(0), s);
    }
    ReachesAfter(claimed, first, s);
  }
}
