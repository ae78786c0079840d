/** The theorems about whole runs of the upload protocol. */
module ProtocolRuns {
  import opened Base
  import opened Upload
  import opened Reconciliation
  import opened Protocol
  import opened ProtocolSafety

  lemma IntentEventKeeps(s: System, e: Event)
    requires Inv(s) && Enabled(s, e) && (e.Tick? || e.Issue? || e.Lapse? || e.Claim?)
    ensures Inv(Next(s, e))
  {
    hide Inv, CanIssue, ClaimEffect, CanApply, Transition;
    match e
    case Tick(t) => TickKeeps(s, t);
    case Issue(u) => IssueKeeps(s, u);
    case Lapse(id, v, now) => TransitionKeeps(s, id, Close(v, now));
    case Claim(p, id, v, now) => ClaimKeeps(s, p, id, v, now);
  }

  lemma StagingEventKeeps(s: System, e: Event)
    requires Inv(s) && Enabled(s, e) && (e.Store? || e.StoreNothing? || e.Write? || e.RefuseBody?)
    ensures Inv(Next(s, e))
  {
    hide Inv, CanStore, CanWrite, WriteEffect, StoreEffect;
    match e
    case Store(p, asset, modifiedAt, after) =>
      assert CanStore(s, p, asset, modifiedAt, after);
      StoreKeeps(s, p, asset, modifiedAt, after);
    case StoreNothing(p) => PhaseKeeps(s, p, Failing);
    case Write(p, now, written, reported) => WriteKeeps(s, p, now, written, reported);
    case RefuseBody(p) => PhaseKeeps(s, p, Discarding(true));
  }

  /** The condition on acceptances under which every step is sound. */
  predicate Sound(s: System, e: Event) { e.Commit? ==> Safe(s, e.p) }

  lemma ReleaseKeeps(s: System, p: nat, c: Command)
    requires Inv(s) && p in s.uploaders && CanApply(s, s.uploaders[p].claim.id, c) && !c.Claim? && !c.AcceptAsset?
    ensures Inv(DropUploader(Transition(s, s.uploaders[p].claim.id, c), p))
  {
    hide Inv;
    TransitionKeeps(s, s.uploaders[p].claim.id, c);
    DropUploaderKeeps(Transition(s, s.uploaders[p].claim.id, c), p);
  }

  lemma CommitEventKeeps(s: System, e: Event)
    requires Inv(s) && Enabled(s, e) && Sound(s, e) && (e.Lock? || e.Commit? || e.CommitNothing?)
    ensures Inv(Next(s, e))
  {
    hide Inv, Safe, CanLock, CanCommit, CommitEffect;
    match e
    case Lock(p, bytes) => LockKeeps(s, p, bytes);
    case Commit(p, bytes) => CommitKeeps(s, p, bytes);
    case CommitNothing(p, unknown) =>
      if unknown { DropUploaderKeeps(s, p); } else { PhaseKeeps(s, p, Discarding(true)); }
  }

  lemma DiscardEventKeeps(s: System, e: Event)
    requires Inv(s) && Enabled(s, e) && (e.Discard? || e.ResolveDiscarded? || e.WriteOrphan?)
    ensures Inv(Next(s, e))
  {
    hide Inv, DiscardEffect, ResolveDiscardedEffect, CanResolveDiscarded, WriteOrphanEffect, CanWrite;
    match e
    case Discard(p, gone, reported) => DiscardKeeps(s, p, gone, reported);
    case ResolveDiscarded(p, applied) => ResolveDiscardedKeeps(s, p, applied);
    case WriteOrphan(p, now, written, reported) => WriteOrphanKeeps(s, p, now, written, reported);
  }

  lemma FailureEventKeeps(s: System, e: Event)
    requires Inv(s) && Enabled(s, e) && (e.Release? || e.UploaderCrash?)
    ensures Inv(Next(s, e))
  {
    hide Inv, Transition, CanApply;
    match e
    case Release(p, reason, now, applied) =>
      if applied {
        ReleaseKeeps(s, p, FailureCommand(s.uploaders[p].claim, reason, now));
      } else {
        DropUploaderKeeps(s, p);
      }
    case UploaderCrash(p) => DropUploaderKeeps(s, p);
  }

  lemma WorkerEventKeeps(s: System, e: Event)
    requires Inv(s) && Enabled(s, e)
    requires ByWorker(e)
    ensures Inv(Next(s, e))
  {
    hide Inv, CanRecover, RecoverEffect, CanComplete, CompleteEffect, CanPutBack, PutBackEffect, DeleteEffect, Judge;
    match e
    case Recover(w, k, now, timeout) => RecoverKeeps(s, w, k, now, timeout);
    case ReadUpload(w) => ReadUploadKeeps(s, w);
    case ReadAsset(w) => ReadAssetKeeps(s, w);
    case ReadFails(w) => ReadFailsKeeps(s, w);
    case DeleteObject(w, gone, reported) => DeleteObjectKeeps(s, w, gone, reported);
    case Complete(w, now, applied) => CompleteKeeps(s, w, now, applied);
    case PutBack(w, now, delay, applied) => PutBackKeeps(s, w, now, delay, applied);
    case WorkerCrash(w) => DropWorkerKeeps(s, w);
  }

  lemma SweeperEventKeeps(s: System, e: Event)
    requires Inv(s) && Enabled(s, e)
    requires BySweeper(e)
    ensures Inv(Next(s, e))
  {
    hide Inv, CanCondemn, Remove;
    match e
    case Condemn(z, c, now, age) => CondemnKeeps(s, z, c, now, age);
    case Sweep(z, gone) => SweepKeeps(s, z, gone);
    case SweeperCrash(z) => UncondemnKeeps(s, z);
  }

  /** Every event of every actor keeps the invariant, an acceptance if it is safe. */
  lemma EventKeeps(s: System, e: Event)
    requires Inv(s) && Enabled(s, e) && Sound(s, e)
    ensures Inv(Next(s, e))
  {
    hide Inv, Enabled, Next, Sound;
    if BySweeper(e) {
      SweeperEventKeeps(s, e);
    } else if ByWorker(e) {
      WorkerEventKeeps(s, e);
    } else if e.Tick? || e.Issue? || e.Lapse? || e.Claim? {
      IntentEventKeeps(s, e);
    } else if e.Store? || e.StoreNothing? || e.Write? || e.RefuseBody? {
      StagingEventKeeps(s, e);
    } else if e.Lock? || e.Commit? || e.CommitNothing? {
      CommitEventKeeps(s, e);
    } else if e.Discard? || e.ResolveDiscarded? || e.WriteOrphan? {
      DiscardEventKeeps(s, e);
    } else {
      FailureEventKeeps(s, e);
    }
  }

  /** Any finite interleaving from a state. */
  ghost predicate Path(s: System, events: seq<Event>, states: seq<System>) {
    && |states| == |events| + 1 && states[0] == s
    && forall i :: 0 <= i < |events| ==> Enabled(states[i], events[i]) && states[i + 1] == Next(states[i], events[i])
  }

  /** An interleaving in which every acceptance that commits is safe when it commits. */
  ghost predicate Guarded(s: System, events: seq<Event>, states: seq<System>) {
    Path(s, events, states) && forall i :: 0 <= i < |events| ==> Sound(states[i], events[i])
  }

  ghost predicate Run(events: seq<Event>, states: seq<System>) { Guarded(INITIAL, events, states) }

  lemma {:induction false} PathKeeps(s: System, events: seq<Event>, states: seq<System>, n: nat)
    requires Inv(s) && Guarded(s, events, states) && n <= |events|
    ensures Inv(states[n])
  {
    hide Inv, Enabled, Next, Sound;
    if n > 0 {
      PathKeeps(s, events, states, n - 1);
      assert Enabled(states[n - 1], events[n - 1]) && states[n] == Next(states[n - 1], events[n - 1]);
      assert Sound(states[n - 1], events[n - 1]);
      EventKeeps(states[n - 1], events[n - 1]);
    }
  }

  lemma Reachable(events: seq<Event>, states: seq<System>, n: nat)
    requires Run(events, states) && n <= |events|
    ensures Inv(states[n])
  {
    InitiallyTrue();
    hide Inv;
    PathKeeps(INITIAL, events, states, n);
  }

  lemma InitiallyTrue()
    ensures Inv(INITIAL)
  {
  }

  predicate CommitsUntouched(s: System, e: Event) {
    e.Commit? && e.p in s.uploaders ==> Untouched(s, KeyOf(s.uploaders[e.p].claim))
  }

  predicate CommitsInLease(s: System, e: Event) {
    e.Commit? && e.p in s.uploaders ==> !LeaseOver(s, KeyOf(s.uploaders[e.p].claim))
  }

  /** One step that commits while its lease runs, or before any worker claimed its obligation, is sound. */
  lemma PromptStepIsSound(s: System, e: Event)
    requires Inv(s) && Enabled(s, e) && (CommitsUntouched(s, e) || CommitsInLease(s, e))
    ensures Sound(s, e)
  {
    hide Enabled, Inv, Safe, Untouched, LeaseOver, At, CanCommit;
    if e.Commit? {
      CommitGuard(s, e.p, e.bytes);
      if CommitsInLease(s, e) { LeaseMeansUntouched(s, e.p, e.bytes); }
      UntouchedIsSafe(s, e.p);
    }
  }

  lemma CommitGuard(s: System, p: nat, bytes: nat)
    requires Enabled(s, Commit(p, bytes))
    ensures p in s.uploaders && At(s, p, Accepting) && CanCommit(s, s.uploaders[p], bytes)
  {
    hide CanCommit;
  }

  /** Committing while the lease runs, or before any worker claimed the obligation, makes any interleaving a run. */
  lemma {:induction false} PromptCommitsMakeARun(events: seq<Event>, states: seq<System>, n: nat)
    requires Path(INITIAL, events, states) && n <= |events|
    requires forall i :: 0 <= i < |events| ==>
      CommitsUntouched(states[i], events[i]) || CommitsInLease(states[i], events[i])
    ensures Run(events[..n], states[..n + 1])
  {
    hide Enabled, Next, Sound, CommitsInLease, CommitsUntouched;
    if n > 0 {
      PromptCommitsMakeARun(events, states, n - 1);
      var before, after := events[..n - 1], events[..n];
      Reachable(before, states[..n], n - 1);
      hide Inv;
      assert states[..n][n - 1] == states[n - 1];
      PromptStepIsSound(states[n - 1], events[n - 1]);
      forall i | 0 <= i < n ensures Sound(states[..n + 1][i], after[i]) {
        if i < n - 1 { assert states[..n][i] == states[i] && before[i] == events[i]; }
      }
    }
  }

  // ---- what no event undoes ----

  lemma UploadValid(s: System, id: nat)
    requires Inv(s) && id in s.uploads
    ensures ValidIntent(s.uploads[id])
  {
    assert UploadInv(s, id);
  }

  lemma ClaimEventEvolves(s: System, p: nat, id: nat, v: nat, now: Time)
    requires Inv(s) && CanApply(s, id, Command.Claim(v, now))
    ensures Evolves(s, ClaimEffect(s, p, id, v, now))
  {
    ClaimHasShape(s, p, id, v, now);
    hide Evolves, ClaimEffect, ClaimShape;
    ClaimStep(s, ClaimEffect(s, p, id, v, now), p, id, now);
  }

  lemma CommitEventEvolves(s: System, p: nat, bytes: nat)
    requires Inv(s) && At(s, p, Accepting) && CanCommit(s, s.uploaders[p], bytes) && Safe(s, p)
    ensures Evolves(s, CommitEffect(s, p, bytes))
  {
    CommitHitsClaim(s, p, bytes);
    hide Inv, Evolves, CommitShape;
    CommitEvolves(s, p, bytes);
  }

  lemma ClaimOrCommitEvolves(s: System, e: Event)
    requires Inv(s) && Enabled(s, e) && Sound(s, e) && (e.Claim? || e.Commit? || e.Lock?)
    ensures Evolves(s, Next(s, e))
  {
    hide Inv, Evolves, CommitEffect, ClaimEffect, CanCommit, CanLock, Safe;
    match e
    case Claim(p, id, v, now) => ClaimEventEvolves(s, p, id, v, now);
    case Commit(p, bytes) => CommitEventEvolves(s, p, bytes);
    case Lock(p, bytes) => LockEvolves(s, p, bytes);
  }

  lemma LockEvolves(s: System, p: nat, bytes: nat)
    requires Inv(s) && At(s, p, Recorded) && CanLock(s, s.uploaders[p], bytes)
    ensures Evolves(s, WithPhase(s, p, Accepting))
  {
    hide Inv, Evolves;
    UploaderOf(s, p);
    LockInLease(s, p, bytes);
    hide UploaderInv, AcceptanceOpens, CanLock;
    ActorsOnlyEvolves(s, WithPhase(s, p, Accepting));
  }

  /** Only actors and the clock move. */
  predicate ActorsOnly(s: System, t: System) {
    && s.clock <= t.clock && t.uploads == s.uploads && t.assets == s.assets && t.obligations == s.obligations
    && t.leases == s.leases && t.puts == s.puts && t.inventory == s.inventory && AcceptancesEvolve(s, t)
  }

  lemma ActorsOnlyEvolves(s: System, t: System)
    requires ActorsOnly(s, t)
    ensures Evolves(s, t)
  {
  }

  /** One obligation is created, or moves without changing what it protects. */
  predicate ObligationOnly(s: System, t: System, k: Attempt) {
    && t == s.(obligations := t.obligations, uploaders := t.uploaders, workers := t.workers)
    && k in t.obligations && t.obligations == s.obligations[k := t.obligations[k]]
    && (k in s.obligations ==> ObligationEvolves(s.obligations[k], t.obligations[k])) && AcceptancesEvolve(s, t)
  }

  lemma ObligationOnlyEvolves(s: System, t: System, k: Attempt)
    requires ObligationOnly(s, t, k)
    ensures Evolves(s, t)
  {
  }

  lemma LapseEvolves(s: System, id: nat, v: nat, now: Time)
    requires Inv(s) && CanApply(s, id, Close(v, now))
    ensures Evolves(s, Transition(s, id, Close(v, now)))
  {
    UploadValid(s, id);
    hide Inv, ValidIntent;
    TransitionEvolves(s, id, Close(v, now));
  }

  lemma ReleaseEvolves(s: System, p: nat, c: Command)
    requires Inv(s) && p in s.uploaders && CanApply(s, s.uploaders[p].claim.id, c)
    ensures Evolves(s, DropUploader(Transition(s, s.uploaders[p].claim.id, c), p))
  {
    UploadValid(s, s.uploaders[p].claim.id);
    hide Inv, ValidIntent, Evolves, Apply;
    TransitionEvolves(s, s.uploaders[p].claim.id, c);
    DroppingEvolves(s, Transition(s, s.uploaders[p].claim.id, c), p);
  }

  lemma DroppingEvolves(s: System, t: System, p: nat)
    requires Evolves(s, t)
    ensures Evolves(s, DropUploader(t, p))
  {
  }

  lemma TransitionEventEvolves(s: System, e: Event)
    requires Inv(s) && Enabled(s, e) && (e.Lapse? || e.Release? || e.Issue?)
    ensures Evolves(s, Next(s, e))
  {
    hide Inv, Evolves, Apply, Fresh;
    match e
    case Lapse(id, v, now) => LapseEvolves(s, id, v, now);
    case Issue(u) => IssueEvolves(s, u);
    case Release(p, reason, now, applied) =>
      if applied { ReleaseEvolves(s, p, FailureCommand(s.uploaders[p].claim, reason, now)); }
      else { ActorsOnlyEvolves(s, Next(s, e)); }
  }

  lemma WriteEvolves(s: System, p: nat, t: System, now: Time, written: bool)
    requires p in s.uploaders
    requires var u := s.uploaders[p];
             written ==> ForObject(u.claim, u.asset.cipher, now).Some? && KeyOf(u.claim) !in s.obligations
    requires t == AddObligation(s, s.uploaders[p], now, written).(uploaders := t.uploaders) && AcceptancesEvolve(s, t)
    ensures Evolves(s, t)
  {
    hide Evolves, ForObject;
    if written { ObligationOnlyEvolves(s, t, KeyOf(s.uploaders[p].claim)); } else { ActorsOnlyEvolves(s, t); }
  }

  lemma ResolveDiscardedEvolves(s: System, p: nat, applied: bool)
    requires CanResolveDiscarded(s, p, applied)
    ensures Evolves(s, ResolveDiscardedEffect(s, p, applied))
  {
    hide Evolves, Resolve, ObligationEvolves, AcceptanceOpens;
    var u := s.uploaders[p];
    var k := KeyOf(u.claim);
    if applied && s.obligations[k].state != Deleted {
      ResolveEvolves(s.obligations[k], Deleted, u.at);
      ObligationOnlyEvolves(s, ResolveDiscardedEffect(s, p, applied), k);
    } else {
      ActorsOnlyEvolves(s, ResolveDiscardedEffect(s, p, applied));
    }
  }

  lemma ResolveEvolves(o: Obligation, d: Disposition, now: Time)
    requires Resolve(o, d, now).Some?
    ensures ObligationEvolves(o, Resolve(o, d, now).value)
  {
  }

  lemma CompleteEvolves(s: System, w: nat, now: Time, applied: bool)
    requires CanComplete(s, w, now, applied)
    ensures Evolves(s, CompleteEffect(s, w, now, applied))
  {
    hide Evolves;
    if applied { ObligationOnlyEvolves(s, CompleteEffect(s, w, now, applied), KeyOfObligation(s.workers[w].o)); }
    else { ActorsOnlyEvolves(s, CompleteEffect(s, w, now, applied)); }
  }

  lemma PutBackEvolves(s: System, w: nat, now: Time, delay: Time, applied: bool)
    requires CanPutBack(s, w, now, delay, applied)
    ensures Evolves(s, PutBackEffect(s, w, now, delay, applied))
  {
    hide Evolves;
    if applied { ObligationOnlyEvolves(s, PutBackEffect(s, w, now, delay, applied), KeyOfObligation(s.workers[w].o)); }
    else { ActorsOnlyEvolves(s, PutBackEffect(s, w, now, delay, applied)); }
  }

  lemma RecoverEvolves(s: System, w: nat, k: Attempt, now: Time, timeout: Time)
    requires CanRecover(s, w, k, now, timeout)
    ensures Evolves(s, RecoverEffect(s, w, k, now, timeout))
  {
    hide Evolves;
    ObligationOnlyEvolves(s, RecoverEffect(s, w, k, now, timeout), k);
  }

  lemma WriteStepEvolves(s: System, p: nat, now: Time, written: bool, reported: bool)
    requires p in s.uploaders && CanWrite(s, s.uploaders[p], now, written, reported)
    ensures Evolves(s, WriteEffect(s, p, now, written, reported))
    ensures Evolves(s, WriteOrphanEffect(s, p, now, written, reported))
  {
    hide Evolves, ForObject;
    WriteEvolves(s, p, WriteEffect(s, p, now, written, reported), now, written);
    WriteEvolves(s, p, WriteOrphanEffect(s, p, now, written, reported), now, written);
  }

  lemma WriteEventEvolves(s: System, e: Event)
    requires Enabled(s, e) && (e.Write? || e.WriteOrphan?)
    ensures Evolves(s, Next(s, e))
  {
    hide Evolves, CanWrite, WriteEffect, WriteOrphanEffect;
    WriteStepEvolves(s, e.p, e.now, e.written, e.reported);
  }

  lemma UploaderEventEvolves(s: System, e: Event)
    requires Enabled(s, e) && (e.StoreNothing? || e.RefuseBody? || e.CommitNothing? || e.UploaderCrash?)
    ensures Evolves(s, Next(s, e))
  {
    hide Evolves;
    match e
    case StoreNothing(p) => MoveEvolves(s, p, Failing);
    case RefuseBody(p) => MoveEvolves(s, p, Discarding(true));
    case CommitNothing(p, _) => MoveEvolves(s, p, Discarding(true));
    case UploaderCrash(p) => MoveEvolves(s, p, Failing);
  }

  lemma TickOrResolveEvolves(s: System, e: Event)
    requires Enabled(s, e) && (e.Tick? || e.ResolveDiscarded?)
    ensures Evolves(s, Next(s, e))
  {
    hide Evolves, ResolveDiscardedEffect, CanResolveDiscarded;
    match e
    case Tick(t) => ActorsOnlyEvolves(s, s.(clock := t));
    case ResolveDiscarded(p, applied) => ResolveDiscardedEvolves(s, p, applied);
  }

  lemma MoveEvolves(s: System, p: nat, phase: Phase)
    requires p in s.uploaders && phase != Accepting
    ensures Evolves(s, WithPhase(s, p, phase)) && Evolves(s, DropUploader(s, p))
  {
    hide Evolves;
    ActorsOnlyEvolves(s, WithPhase(s, p, phase));
    ActorsOnlyEvolves(s, DropUploader(s, p));
  }

  lemma WorkerEventEvolves(s: System, e: Event)
    requires Enabled(s, e)
    requires e.Recover? || e.ReadUpload? || e.ReadAsset? || e.ReadFails? || e.Complete? || e.PutBack? || e.WorkerCrash?
    ensures Evolves(s, Next(s, e))
  {
    hide Evolves, Judge, CompleteEffect, CanComplete, PutBackEffect, CanPutBack, RecoverEffect, CanRecover;
    match e
    case Recover(w, k, now, timeout) => RecoverEvolves(s, w, k, now, timeout);
    case Complete(w, now, applied) => CompleteEvolves(s, w, now, applied);
    case PutBack(w, now, delay, applied) => PutBackEvolves(s, w, now, delay, applied);
    case ReadUpload(_) => ActorsOnlyEvolves(s, Next(s, e));
    case ReadAsset(_) => ActorsOnlyEvolves(s, Next(s, e));
    case ReadFails(_) => ActorsOnlyEvolves(s, Next(s, e));
    case WorkerCrash(_) => ActorsOnlyEvolves(s, Next(s, e));
  }

  /** Only the object store loses a version. */
  lemma RemovalEvolves(s: System, t: System, c: Object, gone: bool)
    requires t == Remove(s, c, gone).(uploaders := t.uploaders, workers := t.workers, condemned := t.condemned)
    requires AcceptancesEvolve(s, t)
    ensures Evolves(s, t)
  {
  }

  lemma DiscardEvolves(s: System, p: nat, gone: bool, reported: bool)
    requires p in s.uploaders && s.uploaders[p].phase.Discarding?
    ensures Evolves(s, DiscardEffect(s, p, gone, reported))
  {
    hide Evolves;
    RemovalEvolves(s, DiscardEffect(s, p, gone, reported), s.uploaders[p].asset.cipher, gone);
  }

  lemma DeleteEvolves(s: System, w: nat, gone: bool, reported: bool)
    requires w in s.workers
    ensures Evolves(s, DeleteEffect(s, w, gone, reported))
  {
    hide Evolves;
    RemovalEvolves(s, DeleteEffect(s, w, gone, reported), s.workers[w].o.cipher, gone);
  }

  lemma SweeperEvolves(s: System, z: nat, c: Object, gone: bool)
    ensures Evolves(s, Remove(s, c, gone).(condemned := s.condemned - {z}))
    ensures Evolves(s, s.(condemned := s.condemned[z := c]))
    ensures Evolves(s, s.(condemned := s.condemned - {z}))
  {
    hide Evolves;
    RemovalEvolves(s, Remove(s, c, gone).(condemned := s.condemned - {z}), c, gone);
    ActorsOnlyEvolves(s, s.(condemned := s.condemned[z := c]));
    ActorsOnlyEvolves(s, s.(condemned := s.condemned - {z}));
  }

  lemma ObjectEventEvolves(s: System, e: Event)
    requires Enabled(s, e) && (e.Store? || e.Discard? || e.DeleteObject? || e.Condemn? || e.Sweep? || e.SweeperCrash?)
    ensures Evolves(s, Next(s, e))
  {
    hide Evolves, CanCondemn, CanStore, StoreEffect, DiscardEffect, DeleteEffect, Remove;
    match e
    case Store(p, asset, modifiedAt, after) => StoreEvolves(s, p, asset, modifiedAt, after);
    case Discard(p, gone, reported) => DiscardEvolves(s, p, gone, reported);
    case DeleteObject(w, gone, reported) => DeleteEvolves(s, w, gone, reported);
    case Sweep(z, gone) => SweeperEvolves(s, z, s.condemned[z], gone);
    case Condemn(z, c, _, _) => SweeperEvolves(s, z, c, false);
    case SweeperCrash(z) => SweeperEvolves(s, z, s.condemned[z], false);
  }

  lemma EventEvolves(s: System, e: Event)
    requires Inv(s) && Enabled(s, e) && Sound(s, e)
    ensures Evolves(s, Next(s, e))
  {
    hide Inv, Enabled, Next, Evolves, Sound;
    if e.Claim? || e.Commit? || e.Lock? {
      ClaimOrCommitEvolves(s, e);
    } else if e.Lapse? || e.Release? || e.Issue? {
      TransitionEventEvolves(s, e);
    } else if e.Store? || e.Discard? || e.DeleteObject? || e.Condemn? || e.Sweep? || e.SweeperCrash? {
      ObjectEventEvolves(s, e);
    } else if e.Recover? || e.ReadUpload? || e.ReadAsset? || e.ReadFails? || e.Complete? || e.PutBack?
        || e.WorkerCrash? {
      WorkerEventEvolves(s, e);
    } else if e.Write? || e.WriteOrphan? {
      WriteEventEvolves(s, e);
    } else if e.Tick? || e.ResolveDiscarded? {
      TickOrResolveEvolves(s, e);
    } else {
      UploaderEventEvolves(s, e);
    }
  }

  /** Durable facts only accumulate: assets and accepted uploads stay, and a deleted version never returns. */
  predicate Persists(s: System, t: System) {
    && (forall e :: e in s.assets ==> e in t.assets && t.assets[e] == s.assets[e])
    && (forall id :: id in s.uploads && s.uploads[id].state == Accepted ==>
        id in t.uploads && t.uploads[id] == s.uploads[id])
    && s.puts.Keys <= t.puts.Keys
    && (forall c :: c in s.puts && c !in s.inventory ==> c !in t.inventory)
  }

  lemma StepEvolves(s: System, events: seq<Event>, states: seq<System>, n: nat)
    requires Inv(s) && Guarded(s, events, states) && n < |events|
    ensures Evolves(states[n], states[n + 1])
  {
    PathKeeps(s, events, states, n);
    hide Inv, Enabled, Next, Evolves, Sound;
    assert Enabled(states[n], events[n]) && states[n + 1] == Next(states[n], events[n]) && Sound(states[n], events[n]);
    EventEvolves(states[n], events[n]);
  }

  lemma EvolvesPersists(r: System, s: System, t: System)
    requires Persists(r, s) && Evolves(s, t)
    ensures Persists(r, t)
  {
  }

  lemma {:induction false} PathPersists(s: System, events: seq<Event>, states: seq<System>, n: nat, m: nat)
    requires Inv(s) && Guarded(s, events, states) && n <= m <= |events|
    ensures Persists(states[n], states[m])
    decreases m
  {
    hide Enabled, Next, Evolves, Inv, Sound;
    if n < m {
      PathPersists(s, events, states, n, m - 1);
      StepEvolves(s, events, states, m - 1);
      hide Persists;
      EvolvesPersists(states[n], states[m - 1], states[m]);
    }
  }

  lemma RunPersists(events: seq<Event>, states: seq<System>, n: nat, m: nat)
    requires Run(events, states) && n <= m <= |events|
    ensures Persists(states[n], states[m])
  {
    InitiallyTrue();
    hide Inv, Persists;
    PathPersists(INITIAL, events, states, n, m);
  }

  /** The exact version an accepted upload names. */
  predicate Accepts(s: System, id: nat, c: Object) {
    id in s.uploads && s.uploads[id].state == Accepted && s.uploads[id].evidence in s.assets
    && s.assets[s.uploads[id].evidence].cipher == c
  }

  /**
   Main safety theorem. In every interleaving of uploaders, discards, crashes, unknown
   commit outcomes, recovery workers and orphan sweeps whose acceptances are safe when they
   commit, an accepted upload stays accepted, keeps naming the same version, that version
   is present in the object store ever after, and its obligation retains it.
   */
  lemma AcceptedObjectIsNeverDeleted(events: seq<Event>, states: seq<System>, n: nat, m: nat, id: nat)
    requires Run(events, states) && n <= m <= |events|
    requires id in states[n].uploads && states[n].uploads[id].state == Accepted
    ensures var u := states[n].uploads[id];
            && u.evidence in states[n].assets
            && var c := states[n].assets[u.evidence].cipher;
               Accepts(states[m], id, c) && c in states[m].inventory && Holds(states[m], KeyOf(u), c)
  {
    Reachable(events, states, n);
    Reachable(events, states, m);
    RunPersists(events, states, n, m);
    assert UploadInv(states[n], id) && UploadInv(states[m], id);
    assert AssetInv(states[m], states[n].uploads[id].evidence);
  }

  /**
   The same from a condition on the rows alone: in any interleaving from the empty system whose
   acceptances commit while their lease runs, or find that no worker has claimed their obligation,
   no accepted object is ever lost.
   */
  lemma PromptAcceptancesKeepTheirObjects(events: seq<Event>, states: seq<System>, n: nat, m: nat, id: nat)
    requires Path(INITIAL, events, states) && n <= m <= |events|
    requires forall i :: 0 <= i < |events| ==>
      CommitsUntouched(states[i], events[i]) || CommitsInLease(states[i], events[i])
    requires id in states[n].uploads && states[n].uploads[id].state == Accepted
    ensures var u := states[n].uploads[id];
            && u.evidence in states[n].assets
            && var c := states[n].assets[u.evidence].cipher;
               Accepts(states[m], id, c) && c in states[m].inventory && Holds(states[m], KeyOf(u), c)
  {
    hide CommitsUntouched, CommitsInLease, Enabled, Next;
    PromptCommitsMakeARun(events, states, |events|);
    assert events[..|events|] == events && states[..|events| + 1] == states;
    AcceptedObjectIsNeverDeleted(events, states, n, m, id);
  }

  /** The last state of an interleaving. */
  function Last(states: seq<System>): System
    requires states != []
  {
    states[|states| - 1]
  }

  /** Every guarded continuation keeps the object stored. */
  ghost predicate Keeps(s: System, c: Object) {
    forall events, states :: Guarded(s, events, states) ==> c in Last(states).inventory
  }

  /**
   Exactly when an acceptance may commit: its object survives every continuation if and only
   if it is stored and no worker is deleting it at that moment. The lease plays no part.
   */
  lemma CommitKeepsItsObjectExactly(events: seq<Event>, states: seq<System>, p: nat, bytes: nat)
    requires Run(events, states) && Enabled(Last(states), Commit(p, bytes))
    ensures Keeps(Next(Last(states), Commit(p, bytes)), Last(states).uploaders[p].asset.cipher) <==>
      Safe(Last(states), p)
  {
    var s := Last(states);
    Reachable(events, states, |events|);
    hide Inv, Keeps, NoDeleter, Run;
    if Safe(s, p) {
      CommittedStays(s, p, bytes);
    } else if s.uploaders[p].asset.cipher !in s.inventory {
      AbsentIsNotKept(s, p, bytes);
    } else {
      CommitLoses(s, p, bytes);
    }
  }

  lemma AbsentIsNotKept(s: System, p: nat, bytes: nat)
    requires Enabled(s, Commit(p, bytes)) && s.uploaders[p].asset.cipher !in s.inventory
    ensures !Keeps(Next(s, Commit(p, bytes)), s.uploaders[p].asset.cipher)
  {
    var t := Next(s, Commit(p, bytes));
    assert t.inventory == s.inventory;
    hide Enabled, Next;
    assert Guarded(t, [], [t]) && Last([t]) == t;
  }

  lemma CommitShown(s: System, p: nat, bytes: nat)
    requires Inv(s) && Enabled(s, Commit(p, bytes)) && Safe(s, p)
    ensures var t := Next(s, Commit(p, bytes));
            Inv(t) && s.uploaders[p].asset.evidence in t.assets
              && t.assets[s.uploaders[p].asset.evidence] == s.uploaders[p].asset
  {
    hide Inv;
    CommitKeeps(s, p, bytes);
  }

  lemma CommittedStays(s: System, p: nat, bytes: nat)
    requires Inv(s) && Enabled(s, Commit(p, bytes)) && Safe(s, p)
    ensures Keeps(Next(s, Commit(p, bytes)), s.uploaders[p].asset.cipher)
  {
    CommitShown(s, p, bytes);
    var t, a := Next(s, Commit(p, bytes)), s.uploaders[p].asset;
    hide Enabled, Next, Inv, Guarded;
    forall events, states | Guarded(t, events, states) ensures states != [] && a.cipher in Last(states).inventory {
      PathHasStates(t, events, states);
      AssetStays(t, events, states, a.evidence);
    }
  }

  lemma PathHasStates(s: System, events: seq<Event>, states: seq<System>)
    requires Guarded(s, events, states)
    ensures |states| == |events| + 1
  {
  }

  lemma AssetStays(s: System, events: seq<Event>, states: seq<System>, e: nat)
    requires Inv(s) && Guarded(s, events, states) && e in s.assets
    ensures s.assets[e].cipher in Last(states).inventory
  {
    hide Enabled, Next, Sound;
    PathPersists(s, events, states, 0, |events|);
    PathKeeps(s, events, states, |events|);
    assert AssetInv(Last(states), e);
  }

  lemma CommitLoses(s: System, p: nat, bytes: nat)
    requires Enabled(s, Commit(p, bytes)) && !NoDeleter(s, s.uploaders[p].asset.cipher)
    ensures !Keeps(Next(s, Commit(p, bytes)), s.uploaders[p].asset.cipher)
  {
    var t, c := Next(s, Commit(p, bytes)), s.uploaders[p].asset.cipher;
    var w :| w in s.workers && s.workers[w].Deleting? && s.workers[w].o.cipher == c;
    assert t.workers == s.workers;
    hide Next;
    DeleterLoses(t, w);
  }

  /** A worker about to delete an object may do so. */
  lemma DeleterLoses(t: System, w: nat)
    requires w in t.workers && t.workers[w].Deleting?
    ensures !Keeps(t, t.workers[w].o.cipher)
  {
    var e := DeleteObject(w, true, true);
    assert Enabled(t, e);
    assert t.workers[w].o.cipher !in Next(t, e).inventory;
    hide Enabled, Next;
    assert Guarded(t, [e], [t, Next(t, e)]) && Last([t, Next(t, e)]) == Next(t, e);
  }

  /**
   A version deleted by anyone, at any moment, is referenced by no asset in any
   state of the run: not before the deletion and not by any later acceptance.
   */
  lemma DeletedVersionIsNeverReferenced(events: seq<Event>, states: seq<System>, i: nat, j: nat, m: nat, c: Object)
    requires Run(events, states) && i <= j <= |events| && m <= |events|
    requires c in states[i].inventory && c !in states[j].inventory
    ensures Unreferenced(states[m], c)
  {
    Reachable(events, states, i);
    Reachable(events, states, j);
    Reachable(events, states, m);
    RunPersists(events, states, i, j);
    if m <= j { RunPersists(events, states, m, j); } else { RunPersists(events, states, j, m); }
    forall e | e in states[m].assets ensures states[m].assets[e].cipher != c {
      assert AssetInv(states[m], e);
      if m <= j { assert AssetInv(states[j], e); }
    }
  }

  /**
   Recorded dispositions are truthful in every reachable state: Retained means the
   upload was accepted by this very attempt with this exact version; Deleted means
   this exact version is gone and no upload is accepted with it.
   */
  lemma DispositionsAreTruthful(events: seq<Event>, states: seq<System>, n: nat, k: Attempt)
    requires Run(events, states) && n <= |events| && k in states[n].obligations
    ensures var s := states[n]; var o := s.obligations[k];
            && (o.state == Retained ==>
                Accepts(s, k.upload, o.cipher) && s.uploads[k.upload].attempt == k.number && o.cipher in s.inventory)
            && (o.state == Deleted ==> o.cipher !in s.inventory && forall id :: !Accepts(s, id, o.cipher))
  {
    Reachable(events, states, n);
    var s := states[n];
    var o := s.obligations[k];
    assert ObligationInv(s, k);
    if o.state == Retained { assert AssetInv(s, o.evidence); }
    if o.state == Deleted {
      assert forall e :: e in s.assets ==> AssetInv(s, e);
    }
  }

  /**
   What MinimumOrphanAge buys: with provider and application clocks within the skew
   allowance, a version that the sweeper may condemn belongs to an attempt whose lease is
   over, and no state of the run, earlier or later, references it.
   */
  lemma CondemnableIsNeverReferenced(
    events: seq<Event>, states: seq<System>, n: nat, m: nat, c: Object, now: Time, age: Time)
    requires Run(events, states) && n <= |events| && m <= |events| && Condemnable(states[n], c, now, age)
    ensures Unreferenced(states[m], c)
    ensures LeaseOver(states[n], states[n].puts[c].owner)
  {
    Reachable(events, states, n);
    hide Enabled, Next, Inv, Condemnable;
    CondemnedIsDead(states[n], c, now, age);
    if m <= n {
      RunPersists(events, states, m, n);
    } else {
      InitiallyTrue();
      PathKeepsDead(INITIAL, events, states, n, m, c);
    }
  }

  lemma CondemnedVersionCannotBeAccepted(events: seq<Event>, states: seq<System>, n: nat, m: nat)
    requires Run(events, states) && n < |events| && events[n].Condemn? && m <= |events|
    ensures Unreferenced(states[m], events[n].cipher)
  {
    CondemnGuard(events, states, n);
    hide Run, Condemnable;
    CondemnableIsNeverReferenced(events, states, n, m, events[n].cipher, events[n].now, events[n].age);
  }

  lemma CondemnGuard(events: seq<Event>, states: seq<System>, n: nat)
    requires Run(events, states) && n < |events| && events[n].Condemn?
    ensures Condemnable(states[n], events[n].cipher, events[n].now, events[n].age)
  {
    hide Next, Condemnable, Sound;
    assert Enabled(states[n], events[n]);
  }

  lemma {:induction false} PathKeepsDead(s: System, events: seq<Event>, states: seq<System>, n: nat, m: nat, c: Object)
    requires Inv(s) && Guarded(s, events, states) && n <= m <= |events| && Dead(states[n], c)
    ensures Dead(states[m], c)
    decreases m
  {
    hide Enabled, Next, Evolves, Dead, Inv, Sound;
    if n < m {
      PathKeepsDead(s, events, states, n, m - 1, c);
      StepEvolves(s, events, states, m - 1);
      DeadStaysDead(states[m - 1], states[m], c);
    }
  }
}
