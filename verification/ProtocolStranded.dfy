/**
 What becomes of an unresolved obligation once its upload was accepted by another
 attempt: exactly when it can still be settled, and exactly when its object can still go.
 */
module ProtocolStranded {
  import opened Base
  import opened Upload
  import opened Reconciliation
  import opened Protocol
  import opened ProtocolSafety
  import opened ProtocolRuns

  ghost predicate Superseded(s: System, k: Attempt) {
    k.upload in s.uploads && s.uploads[k.upload].state == Accepted && s.uploads[k.upload].attempt != k.number
  }

  ghost predicate Unsettled(s: System, k: Attempt) { k in s.obligations && !Resolved(s.obligations[k].state) }

  ghost predicate Finishing(w: Worker) { w.Deleting? || (w.Completing? && w.verdict == Deleted) }

  ghost predicate WorksOn(s: System, w: nat, k: Attempt) { w in s.workers && KeyOfObligation(s.workers[w].o) == k }

  /** The attempt's own uploader still knows of the obligation, or its claim holder is about to delete. */
  ghost predicate Settler(s: System, k: Attempt) {
    || (exists p :: p in s.uploaders && KeyOf(s.uploaders[p].claim) == k && Written(s.uploaders[p].phase))
    || (exists w :: WorksOn(s, w, k) && HoldsClaim(s, s.workers[w].o) && Finishing(s.workers[w]))
  }

  ghost predicate Removing(phase: Phase) { phase == Recorded || phase == Accepting || phase.Discarding? }

  ghost predicate Discards(s: System, p: nat, k: Attempt) {
    p in s.uploaders && KeyOf(s.uploaders[p].claim) == k && Removing(s.uploaders[p].phase)
  }

  /** Someone may still delete the obligation's object. */
  ghost predicate Remover(s: System, k: Attempt)
    requires k in s.obligations
  {
    var c := s.obligations[k].cipher;
    || (exists p :: Discards(s, p, k) && s.uploaders[p].asset.cipher == c)
    || (exists w :: WorksOn(s, w, k) && s.workers[w].Deleting?)
    || (exists z :: z in s.condemned && s.condemned[z] == c)
  }

  ghost predicate Inert(s: System, k: Attempt) { Superseded(s, k) && Unsettled(s, k) && !Settler(s, k) }

  // ---- what a step may change for one attempt ----

  ghost predicate UploaderCalm(u: Uploader, v: Uploader) {
    && (Written(v.phase) ==> Written(u.phase))
    && (Removing(v.phase) ==> Removing(u.phase) && v.asset == u.asset)
  }

  ghost predicate WorkerCalm(a: Worker, b: Worker) {
    b.o == a.o && (b.Deleting? ==> a.Deleting?) && (Finishing(b) ==> Finishing(a))
  }

  ghost predicate UploadersCalm(s: System, t: System, k: Attempt) {
    forall p :: p in t.uploaders && KeyOf(t.uploaders[p].claim) == k ==>
      p in s.uploaders && s.uploaders[p].claim == t.uploaders[p].claim && UploaderCalm(s.uploaders[p], t.uploaders[p])
  }

  ghost predicate WorkersCalm(s: System, t: System, k: Attempt) {
    forall w :: w in t.workers && KeyOfObligation(t.workers[w].o) == k && Finishing(t.workers[w]) ==>
      w in s.workers && WorkerCalm(s.workers[w], t.workers[w])
  }

  ghost predicate Calm(s: System, t: System, k: Attempt)
    requires k in s.obligations
  {
    var c := s.obligations[k].cipher;
    && Unsettled(t, k) && UploadersCalm(s, t, k) && WorkersCalm(s, t, k)
    && (forall z :: z in t.condemned && t.condemned[z] == c ==> z in s.condemned && s.condemned[z] == c)
    && (c in s.inventory && !Remover(s, k) ==> c in t.inventory)
  }

  lemma HolderBefore(s: System, t: System, w: nat)
    requires Inv(s) && Evolves(s, t) && w in s.workers && HoldsClaim(t, s.workers[w].o)
    ensures HoldsClaim(s, s.workers[w].o)
  {
    WorkerOf(s, w);
    hide Inv, ObligationInv;
    assert ObligationEvolves(s.obligations[KeyOfObligation(s.workers[w].o)],
        t.obligations[KeyOfObligation(s.workers[w].o)]);
    hide Evolves;
  }

  /** No step of a calm kind brings a settler. */
  lemma CalmKeepsInert(s: System, t: System, k: Attempt)
    requires Inv(s) && Evolves(s, t) && Inert(s, k) && Calm(s, t, k)
    ensures Inert(t, k)
  {
    hide Inv;
    assert Superseded(t, k);
    hide Evolves;
    NoWorkerSettles(s, t, k);
    hide HoldsClaim, Finishing, WorkersCalm, Remover;
  }

  lemma NoWorkerSettles(s: System, t: System, k: Attempt)
    requires Inv(s) && Evolves(s, t) && Inert(s, k) && Calm(s, t, k)
    ensures forall w :: w in t.workers && KeyOfObligation(t.workers[w].o) == k && Finishing(t.workers[w]) ==>
      !HoldsClaim(t, t.workers[w].o)
  {
    hide Inv, Evolves, HoldsClaim;
    forall w | w in t.workers && KeyOfObligation(t.workers[w].o) == k && Finishing(t.workers[w])
      ensures !HoldsClaim(t, t.workers[w].o)
    {
      if HoldsClaim(t, t.workers[w].o) { HolderBefore(s, t, w); }
    }
  }

  /** Nor, without a remover, one. */
  lemma CalmKeepsObject(s: System, t: System, k: Attempt)
    requires Evolves(s, t) && k in s.obligations && Calm(s, t, k) && !Remover(s, k)
    ensures k in t.obligations && t.obligations[k].cipher == s.obligations[k].cipher && !Remover(t, k)
    ensures s.obligations[k].cipher in s.inventory ==> s.obligations[k].cipher in t.inventory
  {
  }

  // ---- uploaders ----

  /** One uploader moves; it touches at most its own obligation and its own object. */
  ghost predicate OneUploader(s: System, t: System, p: nat) {
    && t.workers == s.workers && t.condemned == s.condemned && p in s.uploaders
    && (forall q :: q in t.uploaders ==> q in s.uploaders && t.uploaders[q].claim == s.uploaders[q].claim)
    && (forall q :: q in t.uploaders && q != p ==> t.uploaders[q] == s.uploaders[q])
    && (forall k :: k in s.obligations && k != KeyOf(s.uploaders[p].claim) ==>
        k in t.obligations && t.obligations[k] == s.obligations[k])
    && (forall c :: c in s.inventory && c !in t.inventory ==>
        c == s.uploaders[p].asset.cipher && HasObject(s.uploaders[p].phase))
  }

  /** Replacing or dropping one uploader, its obligation and its object is such a move. */
  lemma MovesOne(s: System, t: System, p: nat)
    requires p in s.uploaders && t.workers == s.workers && t.condemned == s.condemned
    requires t.uploaders == s.uploaders - {p}
      || (p in t.uploaders && t.uploaders == s.uploaders[p := t.uploaders[p]]
          && t.uploaders[p].claim == s.uploaders[p].claim)
    requires var k := KeyOf(s.uploaders[p].claim);
             || t.obligations == s.obligations
             || (k in t.obligations && t.obligations == s.obligations[k := t.obligations[k]])
    requires s.inventory <= t.inventory
      || (HasObject(s.uploaders[p].phase) && s.inventory - {s.uploaders[p].asset.cipher} <= t.inventory)
    ensures OneUploader(s, t, p)
  {
  }

  /** What the attempt's own uploader does to its obligation and object. */
  ghost predicate OwnCalm(s: System, t: System, p: nat)
    requires p in s.uploaders
  {
    var u := s.uploaders[p]; var k := KeyOf(u.claim);
    && (k in s.obligations ==> k in t.obligations && t.obligations[k] == s.obligations[k])
    && (p in t.uploaders ==> UploaderCalm(u, t.uploaders[p]))
    && (Removing(u.phase) || s.inventory <= t.inventory)
  }

  lemma OneUploaderCalm(s: System, t: System, p: nat, k: Attempt)
    requires Inv(s) && Inert(s, k) && OneUploader(s, t, p) && (KeyOf(s.uploaders[p].claim) == k ==> OwnCalm(s, t, p))
    ensures k in s.obligations && Calm(s, t, k)
  {
    hide Inv, Settler;
    OnlyRemoverRemoves(s, t, p, k);
    hide HasObject, Remover;
  }

  lemma OnlyRemoverRemoves(s: System, t: System, p: nat, k: Attempt)
    requires Inv(s) && k in s.obligations && OneUploader(s, t, p)
    requires (KeyOf(s.uploaders[p].claim) == k ==> OwnCalm(s, t, p))
    ensures s.obligations[k].cipher in s.inventory && !Remover(s, k) ==> s.obligations[k].cipher in t.inventory
  {
    hide Inv;
    UploaderOf(s, p);
    ObligationOf(s, k);
    hide ClaimInv, UploaderCalm;
    var c := s.obligations[k].cipher;
    if c in s.inventory && c !in t.inventory {
      assert s.uploaders[p].asset.cipher == c && KeyOf(s.uploaders[p].claim) == k;
      assert Removing(s.uploaders[p].phase);
    }
  }

  /** The attempt of a written obligation has no early uploader, and an inert one none that knows of it. */
  lemma NotEarly(s: System, p: nat, k: Attempt)
    requires Inv(s) && Inert(s, k) && p in s.uploaders && KeyOf(s.uploaders[p].claim) == k
    ensures !Early(s.uploaders[p].phase) && !Written(s.uploaders[p].phase)
  {
    UploaderOf(s, p);
  }

  lemma PhaseCalm(s: System, p: nat, phase: Phase, k: Attempt)
    requires Inv(s) && Inert(s, k) && p in s.uploaders && !Written(phase)
    requires KeyOf(s.uploaders[p].claim) == k ==> !Removing(phase)
    ensures k in s.obligations && Calm(s, WithPhase(s, p, phase), k) && Calm(s, DropUploader(s, p), k)
  {
    hide Inv, Inert, Calm, OneUploader, OwnCalm;
    PhaseMoves(s, p, phase);
    OneUploaderCalm(s, WithPhase(s, p, phase), p, k);
    OneUploaderCalm(s, DropUploader(s, p), p, k);
  }

  lemma PhaseMoves(s: System, p: nat, phase: Phase)
    requires p in s.uploaders
    ensures OneUploader(s, WithPhase(s, p, phase), p) && OneUploader(s, DropUploader(s, p), p)
    ensures OwnCalm(s, DropUploader(s, p), p)
    ensures !Written(phase) && !Removing(phase) ==> OwnCalm(s, WithPhase(s, p, phase), p)
  {
  }

  /** An uploader that knows of its obligation works on another attempt. */
  lemma WrittenIsOther(s: System, p: nat, phase: Phase, k: Attempt)
    requires Inv(s) && Inert(s, k) && p in s.uploaders && Written(s.uploaders[p].phase)
    ensures KeyOf(s.uploaders[p].claim) != k
    ensures k in s.obligations && Calm(s, WithPhase(s, p, phase), k) && Calm(s, DropUploader(s, p), k)
  {
    hide Inv, Inert, Calm, OneUploader, OwnCalm;
    if KeyOf(s.uploaders[p].claim) == k { NotEarly(s, p, k); }
    PhaseMoves(s, p, phase);
    OneUploaderCalm(s, WithPhase(s, p, phase), p, k);
    OneUploaderCalm(s, DropUploader(s, p), p, k);
  }

  lemma ReleaseCalm(s: System, p: nat, c: Command, k: Attempt)
    requires Inv(s) && Inert(s, k) && p in s.uploaders && CanApply(s, s.uploaders[p].claim.id, c)
    ensures k in s.obligations && Calm(s, DropUploader(Transition(s, s.uploaders[p].claim.id, c), p), k)
  {
    hide Inv, Inert, Calm, Apply;
    OneUploaderCalm(s, DropUploader(Transition(s, s.uploaders[p].claim.id, c), p), p, k);
  }

  lemma StoreCalm(s: System, p: nat, asset: Asset, modifiedAt: Time, after: Phase, k: Attempt)
    requires Inv(s) && Inert(s, k) && At(s, p, Streaming)
    ensures k in s.obligations && Calm(s, StoreEffect(s, p, asset, modifiedAt, after), k)
  {
    hide Inv, Inert, Calm;
    if KeyOf(s.uploaders[p].claim) == k { NotEarly(s, p, k); }
    OneUploaderCalm(s, StoreEffect(s, p, asset, modifiedAt, after), p, k);
  }

  lemma WriteCalm(s: System, p: nat, now: Time, written: bool, reported: bool, k: Attempt)
    requires Inv(s) && Inert(s, k) && At(s, p, Staged) && CanWrite(s, s.uploaders[p], now, written, reported)
    ensures k in s.obligations && Calm(s, WriteEffect(s, p, now, written, reported), k)
  {
    hide Inv, Inert, Calm, OneUploader, OwnCalm;
    if KeyOf(s.uploaders[p].claim) == k { NotEarly(s, p, k); }
    WriteMovesOne(s, p, now, written, reported);
    OneUploaderCalm(s, WriteEffect(s, p, now, written, reported), p, k);
  }

  lemma WriteMovesOne(s: System, p: nat, now: Time, written: bool, reported: bool)
    requires p in s.uploaders && CanWrite(s, s.uploaders[p], now, written, reported)
    ensures OneUploader(s, WriteEffect(s, p, now, written, reported), p)
  {
    hide OneUploader, ForObject;
    MovesOne(s, WriteEffect(s, p, now, written, reported), p);
  }

  lemma WriteOrphanMoves(s: System, p: nat, now: Time, written: bool, reported: bool)
    requires At(s, p, RecordingOrphan) && CanWrite(s, s.uploaders[p], now, written, reported)
    ensures OneUploader(s, WriteOrphanEffect(s, p, now, written, reported), p)
    ensures OwnCalm(s, WriteOrphanEffect(s, p, now, written, reported), p)
  {
    hide OneUploader, ForObject;
    MovesOne(s, WriteOrphanEffect(s, p, now, written, reported), p);
  }

  lemma WriteOrphanCalm(s: System, p: nat, now: Time, written: bool, reported: bool, k: Attempt)
    requires Inv(s) && Inert(s, k) && At(s, p, RecordingOrphan) && CanWrite(s, s.uploaders[p], now, written, reported)
    ensures k in s.obligations && Calm(s, WriteOrphanEffect(s, p, now, written, reported), k)
  {
    hide Inv, Inert, Calm, OneUploader, OwnCalm;
    WriteOrphanMoves(s, p, now, written, reported);
    OneUploaderCalm(s, WriteOrphanEffect(s, p, now, written, reported), p, k);
  }

  lemma CommitCalm(s: System, p: nat, bytes: nat, k: Attempt)
    requires Inv(s) && Inert(s, k) && At(s, p, Accepting) && CanCommit(s, s.uploaders[p], bytes)
    ensures k in s.obligations && Calm(s, CommitEffect(s, p, bytes), k)
  {
    hide Inv, Inert, Calm, CanAccept;
    WrittenIsOther(s, p, Failing, k);
    OneUploaderCalm(s, CommitEffect(s, p, bytes), p, k);
  }

  lemma DiscardMoves(s: System, p: nat, gone: bool, reported: bool)
    requires p in s.uploaders && s.uploaders[p].phase.Discarding?
    ensures OneUploader(s, DiscardEffect(s, p, gone, reported), p)
    ensures !Written(s.uploaders[p].phase) ==> OwnCalm(s, DiscardEffect(s, p, gone, reported), p)
  {
    hide OneUploader;
    MovesOne(s, DiscardEffect(s, p, gone, reported), p);
    if !Written(s.uploaders[p].phase) { DiscardOwn(s, p, gone, reported); }
    hide OwnCalm, DiscardEffect;
  }

  lemma DiscardOwn(s: System, p: nat, gone: bool, reported: bool)
    requires p in s.uploaders && s.uploaders[p].phase == Discarding(false)
    ensures OwnCalm(s, DiscardEffect(s, p, gone, reported), p)
  {
  }

  lemma DiscardCalm(s: System, p: nat, gone: bool, reported: bool, k: Attempt)
    requires Inv(s) && Inert(s, k) && p in s.uploaders && s.uploaders[p].phase.Discarding?
    ensures k in s.obligations && Calm(s, DiscardEffect(s, p, gone, reported), k)
  {
    hide Inv, Inert, Calm, OneUploader, OwnCalm;
    if KeyOf(s.uploaders[p].claim) == k { NotEarly(s, p, k); }
    DiscardMoves(s, p, gone, reported);
    OneUploaderCalm(s, DiscardEffect(s, p, gone, reported), p, k);
  }

  lemma ResolveCalm(s: System, p: nat, applied: bool, k: Attempt)
    requires Inv(s) && Inert(s, k) && CanResolveDiscarded(s, p, applied)
    ensures k in s.obligations && Calm(s, ResolveDiscardedEffect(s, p, applied), k)
  {
    hide Inv, Inert, Calm, OneUploader, Resolve;
    WrittenIsOther(s, p, Failing, k);
    MovesOne(s, ResolveDiscardedEffect(s, p, applied), p);
    OneUploaderCalm(s, ResolveDiscardedEffect(s, p, applied), p, k);
  }

  /** A claim opens a new attempt. */
  lemma ClaimCalm(s: System, p: nat, id: nat, v: nat, now: Time, k: Attempt)
    requires Inv(s) && Inert(s, k) && p !in s.uploaders && CanApply(s, id, Command.Claim(v, now))
    ensures k in s.obligations && Calm(s, ClaimEffect(s, p, id, v, now), k)
  {
    ClaimHasShape(s, p, id, v, now);
    hide Inv, Settler, CanApply, ClaimEffect;
    ObligationOf(s, k);
    ShapeCalm(s, ClaimEffect(s, p, id, v, now), p, id, now, k);
  }

  lemma ShapeCalm(s: System, t: System, p: nat, id: nat, now: Time, k: Attempt)
    requires k in s.obligations && ObligationInv(s, k) && Unsettled(s, k) && ClaimShape(s, t, p, id, now)
    ensures Calm(s, t, k)
  {
    hide ValidIntent, Remover;
  }

  lemma OthersCalm(s: System, t: System, k: Attempt)
    requires Inert(s, k) && t == s.(clock := t.clock, uploads := t.uploads)
    ensures k in s.obligations && Calm(s, t, k)
  {
  }

  lemma IntentEventCalm(s: System, e: Event, k: Attempt)
    requires Inv(s) && Inert(s, k) && Enabled(s, e) && (e.Tick? || e.Issue? || e.Lapse? || e.Claim?)
    ensures k in s.obligations && Calm(s, Next(s, e), k)
  {
    hide Inv, Inert, Calm, CanIssue, CanApply, ClaimEffect, Apply;
    match e
    case Tick(_) => OthersCalm(s, Next(s, e), k);
    case Issue(_) => OthersCalm(s, Next(s, e), k);
    case Lapse(_, _, _) => OthersCalm(s, Next(s, e), k);
    case Claim(p, id, v, now) => ClaimCalm(s, p, id, v, now, k);
  }

  lemma StagingEventCalm(s: System, e: Event, k: Attempt)
    requires Inv(s) && Inert(s, k) && Enabled(s, e) && (e.Store? || e.StoreNothing? || e.Write?)
    ensures k in s.obligations && Calm(s, Next(s, e), k)
  {
    hide Inv, Inert, Calm, CanWrite, WriteEffect, StoreEffect;
    match e
    case Store(p, asset, at, after) => StoreCalm(s, p, asset, at, after, k);
    case StoreNothing(p) => PhaseCalm(s, p, Failing, k);
    case Write(p, now, written, reported) => WriteCalm(s, p, now, written, reported, k);
  }

  lemma AcceptEventCalm(s: System, e: Event, k: Attempt)
    requires Inv(s) && Inert(s, k) && Enabled(s, e) && (e.RefuseBody? || e.Lock? || e.Commit? || e.CommitNothing?)
    ensures k in s.obligations && Calm(s, Next(s, e), k)
  {
    hide Inv, Inert, Calm, CanLock, CanCommit, CommitEffect;
    match e
    case RefuseBody(p) => WrittenIsOther(s, p, Discarding(true), k);
    case Lock(p, _) => WrittenIsOther(s, p, Accepting, k);
    case Commit(p, bytes) => CommitCalm(s, p, bytes, k);
    case CommitNothing(p, _) => WrittenIsOther(s, p, Discarding(true), k);
  }

  lemma DiscardEventCalm(s: System, e: Event, k: Attempt)
    requires Inv(s) && Inert(s, k) && Enabled(s, e) && (e.Discard? || e.ResolveDiscarded? || e.WriteOrphan?)
    ensures k in s.obligations && Calm(s, Next(s, e), k)
  {
    hide Inv, Inert, Calm, CanWrite, DiscardEffect, ResolveDiscardedEffect, CanResolveDiscarded, WriteOrphanEffect;
    match e
    case Discard(p, gone, reported) => DiscardCalm(s, p, gone, reported, k);
    case ResolveDiscarded(p, applied) => ResolveCalm(s, p, applied, k);
    case WriteOrphan(p, now, written, reported) => WriteOrphanCalm(s, p, now, written, reported, k);
  }

  lemma FailureEventCalm(s: System, e: Event, k: Attempt)
    requires Inv(s) && Inert(s, k) && Enabled(s, e) && (e.Release? || e.UploaderCrash?)
    ensures k in s.obligations && Calm(s, Next(s, e), k)
  {
    hide Inv, Inert, Calm, CanApply, Transition;
    match e
    case Release(p, reason, now, applied) =>
      if applied {
        ReleaseCalm(s, p, FailureCommand(s.uploaders[p].claim, reason, now), k);
      } else {
        PhaseCalm(s, p, Failing, k);
      }
    case UploaderCrash(p) => PhaseCalm(s, p, Failing, k);
  }

  // ---- workers and the sweeper ----

  /** One worker moves, and perhaps the obligation it holds. */
  ghost predicate OneWorker(s: System, t: System, w: nat) {
    && t.uploaders == s.uploaders && t.condemned == s.condemned
    && (forall x :: x in t.workers && x != w ==> x in s.workers && t.workers[x] == s.workers[x])
  }

  lemma OneWorkerCalm(s: System, t: System, w: nat, k: Attempt)
    requires k in s.obligations && OneWorker(s, t, w) && Unsettled(t, k)
    requires w in t.workers && KeyOfObligation(t.workers[w].o) == k && Finishing(t.workers[w]) ==>
      w in s.workers && WorkerCalm(s.workers[w], t.workers[w])
    requires s.obligations[k].cipher in s.inventory && !Remover(s, k) ==> s.obligations[k].cipher in t.inventory
    ensures Calm(s, t, k)
  {
  }

  lemma RecoverCalm(s: System, w: nat, key: Attempt, now: Time, timeout: Time, k: Attempt)
    requires Inert(s, k) && CanRecover(s, w, key, now, timeout)
    ensures k in s.obligations && Calm(s, RecoverEffect(s, w, key, now, timeout), k)
  {
    hide Calm, Settler;
    OneWorkerCalm(s, RecoverEffect(s, w, key, now, timeout), w, k);
  }

  lemma TurnCalm(s: System, w: nat, worker: Worker, k: Attempt)
    requires Inert(s, k) && w in s.workers && worker.o == s.workers[w].o
    requires (KeyOfObligation(worker.o) == k ==> !Finishing(worker))
    ensures k in s.obligations && Calm(s, SetWorker(s, w, worker), k) && Calm(s, DropWorker(s, w), k)
  {
    hide Calm, Settler;
    OneWorkerCalm(s, SetWorker(s, w, worker), w, k);
    OneWorkerCalm(s, DropWorker(s, w), w, k);
  }

  /** Whatever it has read of the upload, a worker of a superseded attempt ends up retrying. */
  lemma JudgeRetries(s: System, w: nat, k: Attempt)
    requires Inv(s) && Superseded(s, k) && w in s.workers && s.workers[w].Judging?
    requires KeyOfObligation(s.workers[w].o) == k
    ensures Judge(s, s.workers[w].o, s.workers[w].seen) == Retrying(s.workers[w].o)
  {
    WorkerOf(s, w);
    assert UploadInv(s, k.upload);
    hide Inv;
  }

  lemma JudgeCalm(s: System, w: nat, k: Attempt)
    requires Inv(s) && Inert(s, k) && w in s.workers && s.workers[w].Judging?
    ensures k in s.obligations && Calm(s, SetWorker(s, w, Judge(s, s.workers[w].o, s.workers[w].seen)), k)
  {
    if KeyOfObligation(s.workers[w].o) == k { JudgeRetries(s, w, k); }
    JudgeShape(s, s.workers[w].o, s.workers[w].seen);
    hide Inv, Inert, Calm, Judge;
    TurnCalm(s, w, Judge(s, s.workers[w].o, s.workers[w].seen), k);
  }

  /** A worker deletes only the object of its own attempt. */
  lemma DeletesOwn(s: System, w: nat, k: Attempt)
    requires Inv(s) && k in s.obligations && w in s.workers && s.workers[w].o.cipher == s.obligations[k].cipher
    ensures KeyOfObligation(s.workers[w].o) == k
  {
    WorkerOf(s, w);
    ObligationOf(s, k);
    hide Inv;
  }

  lemma DeleteCalm(s: System, w: nat, gone: bool, reported: bool, k: Attempt)
    requires Inv(s) && Inert(s, k) && w in s.workers && s.workers[w].Deleting?
    ensures k in s.obligations && Calm(s, DeleteEffect(s, w, gone, reported), k)
  {
    hide Inv, Calm, Settler;
    if s.workers[w].o.cipher == s.obligations[k].cipher { DeletesOwn(s, w, k); }
    OneWorkerCalm(s, DeleteEffect(s, w, gone, reported), w, k);
  }

  /** A holder of an inert obligation has nothing to complete. */
  lemma CompleteSpares(s: System, w: nat, now: Time, k: Attempt)
    requires Inv(s) && Inert(s, k) && CanComplete(s, w, now, true)
    ensures KeyOfObligation(s.workers[w].o) != k
  {
    WorkerOf(s, w);
    assert forall e :: e in s.assets ==> AssetInv(s, e);
    hide UploadInv;
  }

  lemma CompleteMoves(s: System, w: nat, now: Time, applied: bool, k: Attempt)
    requires Inert(s, k) && CanComplete(s, w, now, applied) && (applied ==> KeyOfObligation(s.workers[w].o) != k)
    ensures var t := CompleteEffect(s, w, now, applied);
        OneWorker(s, t, w) && Unsettled(t, k) && t.inventory == s.inventory && w !in t.workers
  {
  }

  lemma CompleteCalm(s: System, w: nat, now: Time, applied: bool, k: Attempt)
    requires Inv(s) && Inert(s, k) && CanComplete(s, w, now, applied)
    ensures k in s.obligations && Calm(s, CompleteEffect(s, w, now, applied), k)
  {
    hide Inv, Calm, CompleteEffect, OneWorker;
    if applied { CompleteSpares(s, w, now, k); }
    CompleteMoves(s, w, now, applied, k);
    hide CanComplete;
    OneWorkerCalm(s, CompleteEffect(s, w, now, applied), w, k);
  }

  lemma PutBackCalm(s: System, w: nat, now: Time, delay: Time, applied: bool, k: Attempt)
    requires Inert(s, k) && CanPutBack(s, w, now, delay, applied)
    ensures k in s.obligations && Calm(s, PutBackEffect(s, w, now, delay, applied), k)
  {
    hide Calm, Settler;
    OneWorkerCalm(s, PutBackEffect(s, w, now, delay, applied), w, k);
  }

  lemma WorkerEventCalm(s: System, e: Event, k: Attempt)
    requires Inv(s) && Inert(s, k) && Enabled(s, e)
    requires ByWorker(e)
    ensures k in s.obligations && Calm(s, Next(s, e), k)
  {
    hide Inv, Inert, Calm, Judge, CompleteEffect, CanComplete, PutBackEffect, CanPutBack, RecoverEffect, CanRecover,
        DeleteEffect;
    match e
    case Recover(w, key, now, timeout) => RecoverCalm(s, w, key, now, timeout, k);
    case ReadUpload(w) => TurnCalm(s, w, Judging(s.workers[w].o, s.uploads[s.workers[w].o.upload]), k);
    case ReadAsset(w) => JudgeCalm(s, w, k);
    case ReadFails(w) => TurnCalm(s, w, Retrying(s.workers[w].o), k);
    case DeleteObject(w, gone, reported) => DeleteCalm(s, w, gone, reported, k);
    case Complete(w, now, applied) => CompleteCalm(s, w, now, applied, k);
    case PutBack(w, now, delay, applied) => PutBackCalm(s, w, now, delay, applied, k);
    case WorkerCrash(w) => TurnCalm(s, w, Retrying(s.workers[w].o), k);
  }

  lemma SweeperCalm(s: System, z: nat, gone: bool, k: Attempt)
    requires Inert(s, k) && z in s.condemned
    ensures k in s.obligations && Calm(s, Remove(s, s.condemned[z], gone).(condemned := s.condemned - {z}), k)
  {
  }

  lemma CondemnCalm(s: System, z: nat, c: Object, now: Time, age: Time, k: Attempt)
    requires Inert(s, k) && CanCondemn(s, z, c, now, age)
    ensures k in s.obligations && Calm(s, s.(condemned := s.condemned[z := c]), k)
  {
  }

  lemma SweeperEventCalm(s: System, e: Event, k: Attempt)
    requires Inert(s, k) && Enabled(s, e) && BySweeper(e)
    ensures k in s.obligations && Calm(s, Next(s, e), k)
  {
    hide Inert, Calm, CanCondemn;
    match e
    case Condemn(z, c, now, age) => CondemnCalm(s, z, c, now, age, k);
    case Sweep(z, gone) => SweeperCalm(s, z, gone, k);
    case SweeperCrash(z) => SweeperCalm(s, z, false, k);
  }

  lemma EventCalm(s: System, e: Event, k: Attempt)
    requires Inv(s) && Inert(s, k) && Enabled(s, e)
    ensures k in s.obligations && Calm(s, Next(s, e), k)
  {
    hide Inv, Inert, Enabled, Next, Calm;
    if BySweeper(e) {
      SweeperEventCalm(s, e, k);
    } else if ByWorker(e) {
      WorkerEventCalm(s, e, k);
    } else if e.Tick? || e.Issue? || e.Lapse? || e.Claim? {
      IntentEventCalm(s, e, k);
    } else if e.Store? || e.StoreNothing? || e.Write? {
      StagingEventCalm(s, e, k);
    } else if e.RefuseBody? || e.Lock? || e.Commit? || e.CommitNothing? {
      AcceptEventCalm(s, e, k);
    } else if e.Discard? || e.ResolveDiscarded? || e.WriteOrphan? {
      DiscardEventCalm(s, e, k);
    } else {
      FailureEventCalm(s, e, k);
    }
  }

  // ---- continuations ----

  lemma InertStep(s: System, e: Event, k: Attempt)
    requires Inv(s) && Inert(s, k) && Enabled(s, e) && Sound(s, e)
    ensures Inert(Next(s, e), k)
    ensures k in s.obligations && Calm(s, Next(s, e), k)
  {
    hide Inv, Inert, Enabled, Next, Calm, Evolves, Sound;
    EventCalm(s, e, k);
    EventEvolves(s, e);
    CalmKeepsInert(s, Next(s, e), k);
  }

  lemma {:induction false} InertForever(s: System, events: seq<Event>, states: seq<System>, n: nat, k: Attempt)
    requires Inv(s) && Inert(s, k) && Guarded(s, events, states) && n <= |events|
    ensures Inert(states[n], k)
  {
    hide Inv, Inert, Enabled, Next, Calm, Sound;
    if n > 0 {
      InertForever(s, events, states, n - 1, k);
      PathKeeps(s, events, states, n - 1);
      assert Enabled(states[n - 1], events[n - 1]) && Sound(states[n - 1], events[n - 1])
          && states[n] == Next(states[n - 1], events[n - 1]);
      InertStep(states[n - 1], events[n - 1], k);
    }
  }

  ghost predicate Settled(s: System, k: Attempt) { k in s.obligations && Resolved(s.obligations[k].state) }

  /** Some continuation resolves the obligation. */
  ghost predicate MaySettle(s: System, k: Attempt) {
    exists events, states :: Guarded(s, events, states) && states != [] && Settled(Last(states), k)
  }

  lemma PrependPath(s: System, e: Event, events: seq<Event>, states: seq<System>)
    requires Enabled(s, e) && Sound(s, e) && Guarded(Next(s, e), events, states)
    ensures Guarded(s, [e] + events, [s] + states) && Last([s] + states) == Last(states)
  {
    hide Enabled, Next, Sound;
    var es, ss := [e] + events, [s] + states;
    forall i | 0 <= i < |es| ensures Enabled(ss[i], es[i]) && ss[i + 1] == Next(ss[i], es[i]) && Sound(ss[i], es[i]) {
      if i > 0 { assert es[i] == events[i - 1] && ss[i] == states[i - 1] && ss[i + 1] == states[i]; }
    }
  }

  lemma SettleAfter(s: System, e: Event, k: Attempt)
    requires Enabled(s, e) && Sound(s, e) && MaySettle(Next(s, e), k)
    ensures MaySettle(s, k)
  {
    hide Enabled, Next, Sound, Guarded;
    var events, states :| Guarded(Next(s, e), events, states) && states != [] && Settled(Last(states), k);
    PrependPath(s, e, events, states);
  }

  lemma SettledNow(s: System, k: Attempt)
    requires Settled(s, k)
    ensures MaySettle(s, k)
  {
    assert Guarded(s, [], [s]) && Last([s]) == s;
  }

  lemma CanResolve(s: System, k: Attempt, at: Time)
    requires Inv(s) && Unsettled(s, k) && s.obligations[k].createdAt <= at
    ensures Resolve(s.obligations[k], Deleted, at).Some?
  {
    ObligationOf(s, k);
  }

  lemma CompleteStep(s: System, w: nat, k: Attempt)
    requires Unsettled(s, k) && w in s.workers && KeyOfObligation(s.workers[w].o) == k && HoldsClaim(s, s.workers[w].o)
    requires s.workers[w].Completing? && s.workers[w].verdict == Deleted
    requires Resolve(s.obligations[k], Deleted, s.clock).Some?
    ensures var e := Complete(w, s.clock, true); Enabled(s, e) && Sound(s, e) && Settled(Next(s, e), k)
  {
  }

  lemma CompleterSettles(s: System, w: nat, k: Attempt)
    requires Inv(s) && Unsettled(s, k) && w in s.workers && KeyOfObligation(s.workers[w].o) == k
    requires HoldsClaim(s, s.workers[w].o)
    requires s.workers[w].Completing? && s.workers[w].verdict == Deleted
    ensures MaySettle(s, k)
  {
    hide Inv, MaySettle, ObligationInv, Resolve;
    ObligationOf(s, k);
    ObligationBorn(s, k);
    CanResolve(s, k, s.clock);
    CompleteStep(s, w, k);
    hide Enabled, Next;
    SettledNow(Next(s, Complete(w, s.clock, true)), k);
    SettleAfter(s, Complete(w, s.clock, true), k);
  }

  lemma ObligationBorn(s: System, k: Attempt)
    requires k in s.obligations && ObligationInv(s, k)
    ensures s.obligations[k].createdAt <= s.clock
  {
  }

  lemma DeleteStep(s: System, w: nat)
    requires w in s.workers && s.workers[w].Deleting?
    ensures var e := DeleteObject(w, true, true);
            Enabled(s, e) && Sound(s, e)
              && Next(s, e) == SetWorker(Remove(s, s.workers[w].o.cipher, true), w, Completing(s.workers[w].o, Deleted))
  {
  }

  lemma DeleterSettles(s: System, w: nat, k: Attempt)
    requires Inv(s) && Unsettled(s, k) && w in s.workers && KeyOfObligation(s.workers[w].o) == k
    requires HoldsClaim(s, s.workers[w].o)
    requires s.workers[w].Deleting?
    ensures MaySettle(s, k)
  {
    hide Inv, MaySettle;
    var e := DeleteObject(w, true, true);
    DeleteStep(s, w);
    DeleteObjectKeeps(s, w, true, true);
    hide Next, Enabled;
    CompleterSettles(Next(s, e), w, k);
    SettleAfter(s, e, k);
  }

  lemma ResolveStep(s: System, p: nat, k: Attempt)
    requires At(s, p, Resolving) && KeyOf(s.uploaders[p].claim) == k && k in s.obligations
    requires s.obligations[k].cipher == s.uploaders[p].asset.cipher
    requires Resolve(s.obligations[k], Deleted, s.uploaders[p].at).Some?
    ensures var e := ResolveDiscarded(p, true); Enabled(s, e) && Sound(s, e) && Settled(Next(s, e), k)
  {
  }

  lemma KnowsObligation(s: System, p: nat)
    requires Inv(s) && p in s.uploaders && Written(s.uploaders[p].phase)
    ensures var k := KeyOf(s.uploaders[p].claim);
            k in s.obligations && s.obligations[k].cipher == s.uploaders[p].asset.cipher
              && s.obligations[k].createdAt == s.uploaders[p].at
  {
    UploaderOf(s, p);
    hide Inv, ClaimInv;
  }

  lemma ResolverSettles(s: System, p: nat, k: Attempt)
    requires Inv(s) && Unsettled(s, k) && At(s, p, Resolving) && KeyOf(s.uploaders[p].claim) == k
    ensures MaySettle(s, k)
  {
    hide Inv, MaySettle, Resolve;
    KnowsObligation(s, p);
    CanResolve(s, k, s.uploaders[p].at);
    ResolveStep(s, p, k);
    hide Enabled, Next;
    SettledNow(Next(s, ResolveDiscarded(p, true)), k);
    SettleAfter(s, ResolveDiscarded(p, true), k);
  }

  lemma DiscardStep(s: System, p: nat)
    requires At(s, p, Discarding(true))
    ensures var e := Discard(p, true, true);
            Enabled(s, e) && Sound(s, e)
              && Next(s, e) == WithPhase(Remove(s, s.uploaders[p].asset.cipher, true), p, Resolving)
            && Next(s, e) == DiscardEffect(s, p, true, true)
  {
  }

  lemma DiscarderSettles(s: System, p: nat, k: Attempt)
    requires Inv(s) && Unsettled(s, k) && At(s, p, Discarding(true)) && KeyOf(s.uploaders[p].claim) == k
    ensures MaySettle(s, k)
  {
    hide Inv, MaySettle;
    var e := Discard(p, true, true);
    DiscardStep(s, p);
    DiscardKeeps(s, p, true, true);
    hide Next, Enabled, DiscardEffect;
    ResolverSettles(Next(s, e), p, k);
    SettleAfter(s, e, k);
  }

  lemma AbortStep(s: System, p: nat)
    requires At(s, p, Recorded) || At(s, p, Accepting)
    ensures var e := CommitNothing(p, false);
        Enabled(s, e) && Sound(s, e) && Next(s, e) == WithPhase(s, p, Discarding(true))
  {
  }

  lemma RecorderSettles(s: System, p: nat, k: Attempt)
    requires Inv(s) && Unsettled(s, k) && (At(s, p, Recorded) || At(s, p, Accepting))
    requires KeyOf(s.uploaders[p].claim) == k
    ensures MaySettle(s, k)
  {
    hide Inv, MaySettle;
    var e := CommitNothing(p, false);
    AbortStep(s, p);
    PhaseKeeps(s, p, Discarding(true));
    hide Next, Enabled;
    DiscarderSettles(Next(s, e), p, k);
    SettleAfter(s, e, k);
  }

  lemma SettlerSettles(s: System, k: Attempt)
    requires Inv(s) && Unsettled(s, k) && Settler(s, k)
    ensures MaySettle(s, k)
  {
    hide Inv, MaySettle, HoldsClaim, Unsettled;
    if p :| p in s.uploaders && KeyOf(s.uploaders[p].claim) == k && Written(s.uploaders[p].phase) {
      if s.uploaders[p].phase == Resolving {
        ResolverSettles(s, p, k);
      } else if s.uploaders[p].phase == Discarding(true) {
        DiscarderSettles(s, p, k);
      } else {
        RecorderSettles(s, p, k);
      }
    } else {
      var w :| WorksOn(s, w, k) && HoldsClaim(s, s.workers[w].o) && Finishing(s.workers[w]);
      if s.workers[w].Deleting? { DeleterSettles(s, w, k); } else { CompleterSettles(s, w, k); }
    }
  }

  /**
   In every reachable state, an unresolved obligation of a superseded attempt can still be
   settled if and only if the attempt's own uploader knows of it and has not finished, or the
   worker that holds its claim is about to delete its object or to record the deletion.
   */
  lemma SupersededSettlesExactly(events: seq<Event>, states: seq<System>, k: Attempt)
    requires Run(events, states) && Superseded(Last(states), k) && Unsettled(Last(states), k)
    ensures MaySettle(Last(states), k) <==> Settler(Last(states), k)
  {
    var s := Last(states);
    Reachable(events, states, |events|);
    hide Inv, Run;
    if Settler(s, k) {
      SettlerSettles(s, k);
    } else {
      forall es, ss | Guarded(s, es, ss) ensures !Settled(Last(ss), k) {
        InertForever(s, es, ss, |es|, k);
      }
    }
  }

  // ---- the object of the obligation ----

  /** Some continuation removes the obligation's object. */
  ghost predicate MayRemove(s: System, c: Object) {
    exists events, states :: Guarded(s, events, states) && states != [] && c !in Last(states).inventory
  }

  lemma RemovedAfter(s: System, e: Event, c: Object)
    requires Enabled(s, e) && Sound(s, e) && MayRemove(Next(s, e), c)
    ensures MayRemove(s, c)
  {
    hide Enabled, Next, Sound, Guarded;
    var events, states :| Guarded(Next(s, e), events, states) && states != [] && c !in Last(states).inventory;
    PrependPath(s, e, events, states);
  }

  lemma RemovedNow(s: System, c: Object)
    requires c !in s.inventory
    ensures MayRemove(s, c)
  {
    assert Guarded(s, [], [s]) && Last([s]) == s;
  }

  lemma DiscarderRemoves(s: System, p: nat)
    requires p in s.uploaders && s.uploaders[p].phase.Discarding?
    ensures MayRemove(s, s.uploaders[p].asset.cipher)
  {
    var e, c := Discard(p, true, true), s.uploaders[p].asset.cipher;
    assert Enabled(s, e) && Sound(s, e) && c !in Next(s, e).inventory;
    hide Enabled, Next, MayRemove;
    RemovedNow(Next(s, e), c);
    RemovedAfter(s, e, c);
  }

  lemma RecorderRemoves(s: System, p: nat)
    requires At(s, p, Recorded) || At(s, p, Accepting)
    ensures MayRemove(s, s.uploaders[p].asset.cipher)
  {
    AbortStep(s, p);
    hide Enabled, Next, MayRemove;
    DiscarderRemoves(Next(s, CommitNothing(p, false)), p);
    RemovedAfter(s, CommitNothing(p, false), s.uploaders[p].asset.cipher);
  }

  lemma DeleterRemoves(s: System, w: nat)
    requires w in s.workers && s.workers[w].Deleting?
    ensures MayRemove(s, s.workers[w].o.cipher)
  {
    DeleteStep(s, w);
    hide Enabled, Next, MayRemove;
    RemovedNow(Next(s, DeleteObject(w, true, true)), s.workers[w].o.cipher);
    RemovedAfter(s, DeleteObject(w, true, true), s.workers[w].o.cipher);
  }

  lemma SweeperRemoves(s: System, z: nat)
    requires z in s.condemned
    ensures MayRemove(s, s.condemned[z])
  {
    var e := Sweep(z, true);
    assert Enabled(s, e) && Sound(s, e) && s.condemned[z] !in Next(s, e).inventory;
    hide Enabled, Next, MayRemove;
    RemovedNow(Next(s, e), s.condemned[z]);
    RemovedAfter(s, e, s.condemned[z]);
  }

  lemma RemoverRemoves(s: System, k: Attempt)
    requires Inv(s) && k in s.obligations && Remover(s, k)
    ensures MayRemove(s, s.obligations[k].cipher)
  {
    hide Inv, MayRemove;
    var c := s.obligations[k].cipher;
    if p :| Discards(s, p, k) && s.uploaders[p].asset.cipher == c {
      if s.uploaders[p].phase.Discarding? { DiscarderRemoves(s, p); } else { RecorderRemoves(s, p); }
    } else if w :| WorksOn(s, w, k) && s.workers[w].Deleting? {
      CopiesObject(s, w);
      DeleterRemoves(s, w);
    } else {
      var z :| z in s.condemned && s.condemned[z] == c;
      SweeperRemoves(s, z);
    }
  }

  lemma CopiesObject(s: System, w: nat)
    requires Inv(s) && w in s.workers
    ensures var k := KeyOfObligation(s.workers[w].o);
        k in s.obligations && s.obligations[k].cipher == s.workers[w].o.cipher
    ensures s.workers[w].Completing? && s.workers[w].verdict == Deleted ==> s.workers[w].o.cipher !in s.inventory
  {
    WorkerOf(s, w);
    hide Inv;
  }

  lemma ResolverHasDeleted(s: System, p: nat)
    requires Inv(s) && At(s, p, Resolving)
    ensures s.uploaders[p].asset.cipher !in s.inventory
  {
    UploaderOf(s, p);
    hide Inv;
  }

  ghost predicate Kept(s: System, k: Attempt) {
    Superseded(s, k) && Unsettled(s, k) && s.obligations[k].cipher in s.inventory && !Remover(s, k)
  }

  /** Who could settle the obligation of a stored object could also remove the object. */
  lemma KeptIsInert(s: System, k: Attempt)
    requires Inv(s) && Kept(s, k)
    ensures Inert(s, k)
  {
    hide Inv;
    forall p | p in s.uploaders && KeyOf(s.uploaders[p].claim) == k ensures !Written(s.uploaders[p].phase) {
      if Written(s.uploaders[p].phase) {
        KnowsObligation(s, p);
        if s.uploaders[p].phase == Resolving { ResolverHasDeleted(s, p); }
        assert false;
      }
    }
    forall w | w in s.workers && KeyOfObligation(s.workers[w].o) == k ensures !Finishing(s.workers[w]) {
      CopiesObject(s, w);
    }
  }

  lemma {:induction false} KeptForever(s: System, events: seq<Event>, states: seq<System>, n: nat, k: Attempt)
    requires Inv(s) && Kept(s, k) && Guarded(s, events, states) && n <= |events|
    ensures Kept(states[n], k) && states[n].obligations[k].cipher == s.obligations[k].cipher
  {
    hide Inv, Enabled, Next, Sound;
    if n > 0 {
      KeptForever(s, events, states, n - 1, k);
      PathKeeps(s, events, states, n - 1);
      assert Enabled(states[n - 1], events[n - 1]) && Sound(states[n - 1], events[n - 1])
          && states[n] == Next(states[n - 1], events[n - 1]);
      KeptStep(states[n - 1], events[n - 1], k);
    }
  }

  lemma KeptStep(s: System, e: Event, k: Attempt)
    requires Inv(s) && Kept(s, k) && Enabled(s, e) && Sound(s, e)
    ensures Kept(Next(s, e), k) && Next(s, e).obligations[k].cipher == s.obligations[k].cipher
  {
    hide Inv, Enabled, Next, Calm, Evolves, Sound, Remover, Settler;
    KeptIsInert(s, k);
    InertStep(s, e, k);
    EventEvolves(s, e);
    CalmKeepsObject(s, Next(s, e), k);
  }

  /**
   The stored object of such an obligation can still disappear if and only if its uploader has
   not released it, a worker of the attempt is deleting it, or a sweeper has condemned it.
   */
  lemma SupersededObjectRemovedExactly(events: seq<Event>, states: seq<System>, k: Attempt)
    requires Run(events, states) && Superseded(Last(states), k) && Unsettled(Last(states), k)
    requires Last(states).obligations[k].cipher in Last(states).inventory
    ensures MayRemove(Last(states), Last(states).obligations[k].cipher) <==> Remover(Last(states), k)
  {
    var s := Last(states);
    Reachable(events, states, |events|);
    hide Inv, Run;
    if Remover(s, k) {
      RemoverRemoves(s, k);
    } else {
      forall es, ss | Guarded(s, es, ss) ensures ss != [] && s.obligations[k].cipher in Last(ss).inventory {
        PathHasStates(s, es, ss);
        KeptForever(s, es, ss, |es|, k);
      }
    }
  }
}
