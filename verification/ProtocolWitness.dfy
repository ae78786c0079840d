/**
 Two concrete runs of the protocol: one leaves an obligation that nothing will ever settle,
 the other reaches an acceptance that may commit although its object is gone.
 */
module ProtocolWitness {
  import opened Base
  import opened Upload
  import opened Reconciliation
  import opened Protocol
  import opened ProtocolSafety
  import opened ProtocolRuns
  import opened ProtocolStranded

  /** A run passes through the one state and ends in the other. */
  ghost predicate Leads(s: System, t: System) {
    exists events, states, n :: Passes(events, states, n, s) && Last(states) == t
  }

  ghost predicate Passes(events: seq<Event>, states: seq<System>, n: nat, s: System) {
    Run(events, states) && n <= |events| && states[n] == s
  }

  ghost predicate Attainable(s: System) { Leads(INITIAL, s) }

  lemma Begin()
    ensures Attainable(INITIAL)
  {
    assert Passes([], [INITIAL], 0, INITIAL) && Last([INITIAL]) == INITIAL;
  }

  /** What is reached can be passed. */
  lemma Resume(s: System)
    requires Attainable(s)
    ensures Leads(s, s)
  {
    var events, states, n :| Passes(events, states, n, INITIAL) && Last(states) == s;
    assert Passes(events, states, |events|, s);
  }

  lemma Extend(from: System, s: System, e: Event)
    requires Leads(from, s) && Enabled(s, e) && Sound(s, e)
    ensures Leads(from, Next(s, e))
  {
    hide Enabled, Next, Sound;
    var events, states, n :| Passes(events, states, n, from) && Last(states) == s;
    var es, ss := events + [e], states + [Next(s, e)];
    forall i | 0 <= i < |es| ensures Enabled(ss[i], es[i]) && ss[i + 1] == Next(ss[i], es[i]) && Sound(ss[i], es[i]) {
      if i < |events| { assert es[i] == events[i] && ss[i] == states[i] && ss[i + 1] == states[i + 1]; }
    }
    assert Passes(es, ss, n, from) && Last(ss) == Next(s, e);
  }

  // ---- one step further ----

  lemma Waits(from: System, s: System, now: Time)
    requires Leads(from, s) && s.clock <= now
    ensures Leads(from, s.(clock := now))
  {
    hide Leads;
    Extend(from, s, Tick(now));
  }

  lemma Issues(from: System, s: System, u: Intent)
    requires Leads(from, s) && CanIssue(s, u)
    ensures Leads(from, s.(uploads := s.uploads[u.id := u]))
  {
    hide Leads, CanIssue;
    Extend(from, s, Issue(u));
  }

  lemma Claims(from: System, s: System, p: nat, id: nat, version: nat, now: Time)
    requires Leads(from, s) && p !in s.uploaders && CanApply(s, id, Command.Claim(version, now))
    ensures Leads(from, ClaimEffect(s, p, id, version, now))
  {
    hide Leads, CanApply, ClaimEffect;
    Extend(from, s, Event.Claim(p, id, version, now));
  }

  lemma Puts(from: System, s: System, p: nat, asset: Asset, modifiedAt: Time)
    requires Leads(from, s) && CanStore(s, p, asset, modifiedAt, Staged)
    ensures p in s.uploaders && Leads(from, StoreEffect(s, p, asset, modifiedAt, Staged))
  {
    hide Leads, StoreEffect;
    Extend(from, s, Store(p, asset, modifiedAt, Staged));
  }

  lemma Writes(from: System, s: System, p: nat, now: Time)
    requires Leads(from, s) && At(s, p, Staged) && CanWrite(s, s.uploaders[p], now, true, true)
    ensures Leads(from, WriteEffect(s, p, now, true, true))
  {
    hide Leads, CanWrite, WriteEffect;
    Extend(from, s, Write(p, now, true, true));
  }

  lemma Locks(from: System, s: System, p: nat, bytes: nat)
    requires Leads(from, s) && At(s, p, Recorded) && CanLock(s, s.uploaders[p], bytes)
    ensures Leads(from, WithPhase(s, p, Accepting))
  {
    hide Leads, CanLock, WithPhase;
    Extend(from, s, Lock(p, bytes));
  }

  lemma Commits(from: System, s: System, p: nat, bytes: nat)
    requires Leads(from, s) && At(s, p, Accepting) && CanCommit(s, s.uploaders[p], bytes) && Safe(s, p)
    ensures Leads(from, CommitEffect(s, p, bytes))
  {
    hide Leads, CanCommit, Safe, CommitEffect;
    Extend(from, s, Commit(p, bytes));
  }

  lemma Crashes(from: System, s: System, p: nat)
    requires Leads(from, s) && p in s.uploaders
    ensures Leads(from, DropUploader(s, p))
  {
    hide Leads, DropUploader;
    Extend(from, s, UploaderCrash(p));
  }

  const PLACE := Binding("s", "v", "r", "g", "t", "a", "m", [], "e", "c")
  const NOON: Time := 1 + MINUTE
  const FIRST := Attempt(0, 1)
  const SECOND := Attempt(0, 2)

  function Fresh0(): Intent {
    Intent(0, 0, PLACE, 1, "d", "i", Issued, 1, 0, MINUTE, None, 1, 1, 1 + 10 * MINUTE, None, "")
  }

  function Claimed(version: nat, attempt: nat, at: Time): Intent {
    Intent(0, 0, PLACE, 1, "d", "i", Uploading, version, attempt, MINUTE, Some(at + MINUTE), 1, at, 1 + 10 * MINUTE,
      None, "")
  }

  function Cipher(version: nat): Object { Object(0, version) }

  function Asset0(version: nat): Asset { Asset(0, PLACE, 1, true, true, 1, Cipher(version), "d", "i") }

  function Written0(number: nat, at: Time): Obligation {
    Obligation(0, 0, number, Cipher(number), Pending, 1, 0, at + MINUTE, None, at, at, None)
  }

  // ---- the common beginning: the first attempt stores and records ----

  function Streams(): System {
    System(1, map[0 := Claimed(2, 1, 1)], map[], map[], {},
      map[0 := Uploader(Claimed(2, 1, 1), Streaming, NO_ASSET, 1)],
           map[], map[], map[], map[FIRST := 1 + MINUTE])
  }

  function Stages(): System {
    Streams().(inventory := {Cipher(1)}, puts := map[Cipher(1) := Put(FIRST, 1, 1)],
               uploaders := map[0 := Uploader(Claimed(2, 1, 1), Staged, Asset0(1), 1)])
  }

  function Records(): System {
    Stages().(obligations := map[FIRST := Written0(1, 1)],
      uploaders := map[0 := Uploader(Claimed(2, 1, 1), Recorded, Asset0(1), 1)])
  }

  lemma IssuedFirst()
    ensures Attainable(INITIAL.(clock := 1, uploads := map[0 := Fresh0()]))
  {
    Begin();
    hide Leads;
    Waits(INITIAL, INITIAL, 1);
    Issues(INITIAL, INITIAL.(clock := 1), Fresh0());
  }

  lemma ReachStreams()
    ensures Attainable(Streams())
  {
    IssuedFirst();
    hide Leads;
    var s := INITIAL.(clock := 1, uploads := map[0 := Fresh0()]);
    Claims(INITIAL, s, 0, 0, 1, 1);
    assert ClaimEffect(s, 0, 0, 1, 1) == Streams();
  }

  lemma ReachStages()
    ensures Attainable(Stages())
  {
    ReachStreams();
    hide Leads;
    Puts(INITIAL, Streams(), 0, Asset0(1), 1);
    assert StoreEffect(Streams(), 0, Asset0(1), 1, Staged) == Stages();
  }

  lemma ReachRecords()
    ensures Attainable(Records())
  {
    ReachStages();
    hide Leads;
    assert ForObject(Claimed(2, 1, 1), Cipher(1), 1) == Some(Written0(1, 1));
    Writes(INITIAL, Stages(), 0, 1);
    assert WriteEffect(Stages(), 0, 1, true, true) == Records();
  }

  // ---- the second attempt is accepted after the first uploader crashed ----

  function Crashed(): System { Records().(uploaders := map[], clock := NOON) }

  function StreamsAgain(): System {
    Crashed().(uploads := map[0 := Claimed(3, 2, NOON)], leases := map[FIRST := 1 + MINUTE, SECOND := NOON + MINUTE],
               uploaders := map[1 := Uploader(Claimed(3, 2, NOON), Streaming, NO_ASSET, NOON)])
  }

  function RecordsAgain(phase: Phase): System {
    StreamsAgain().(inventory := {Cipher(1), Cipher(2)},
                    puts := map[Cipher(1) := Put(FIRST, 1, 1), Cipher(2) := Put(SECOND, NOON, NOON)],
                    obligations := map[FIRST := Written0(1, 1), SECOND := Written0(2, NOON)],
                    uploaders := map[1 := Uploader(Claimed(3, 2, NOON), phase, Asset0(2), NOON)])
  }

  lemma ReachCrashed()
    ensures Attainable(Crashed())
  {
    ReachAbandoned();
    hide Leads;
    Waits(INITIAL, Abandoned(), NOON);
  }

  function Abandoned(): System { Records().(uploaders := map[]) }

  lemma ReachAbandoned()
    ensures Attainable(Abandoned())
  {
    ReachRecords();
    hide Leads;
    Crashes(INITIAL, Records(), 0);
    assert DropUploader(Records(), 0) == Abandoned();
  }

  lemma ReachStreamsAgain()
    ensures Attainable(StreamsAgain())
  {
    ReachCrashed();
    hide Leads;
    Claims(INITIAL, Crashed(), 1, 0, 2, NOON);
    assert ClaimEffect(Crashed(), 1, 0, 2, NOON) == StreamsAgain();
  }

  function StagesAgain(): System { RecordsAgain(Staged).(obligations := map[FIRST := Written0(1, 1)]) }

  lemma ReachStagesAgain()
    ensures Attainable(StagesAgain())
  {
    ReachStreamsAgain();
    hide Leads;
    Puts(INITIAL, StreamsAgain(), 1, Asset0(2), NOON);
    assert StoreEffect(StreamsAgain(), 1, Asset0(2), NOON, Staged) == StagesAgain();
  }

  lemma ReachRecordsAgain()
    ensures Attainable(RecordsAgain(Recorded))
  {
    ReachStagesAgain();
    hide Leads;
    assert ForObject(Claimed(3, 2, NOON), Cipher(2), NOON) == Some(Written0(2, NOON));
    Writes(INITIAL, StagesAgain(), 1, NOON);
    assert WriteEffect(StagesAgain(), 1, NOON, true, true) == RecordsAgain(Recorded);
  }

  lemma ReachAccepting()
    ensures Attainable(RecordsAgain(Accepting))
  {
    ReachRecordsAgain();
    hide Leads;
    Locks(INITIAL, RecordsAgain(Recorded), 1, 1);
    assert WithPhase(RecordsAgain(Recorded), 1, Accepting) == RecordsAgain(Accepting);
  }

  /**
   A run leaves the first attempt's obligation pending and superseded, its object stored, with
   nobody who could settle the one or remove the other: by the exact conditions, both stay so.
   */
  lemma StrandedObligationIsReachable() returns (s: System)
    ensures Attainable(s) && Superseded(s, FIRST) && Unsettled(s, FIRST) && s.obligations[FIRST].cipher in s.inventory
    ensures !MaySettle(s, FIRST) && !MayRemove(s, s.obligations[FIRST].cipher)
  {
    s := AcceptedAgain();
    var events, states, n :| Passes(events, states, n, INITIAL) && Last(states) == s;
    hide Run, MaySettle, MayRemove;
    SupersededSettlesExactly(events, states, FIRST);
    SupersededObjectRemovedExactly(events, states, FIRST);
  }

  function Accepts2(): System {
    RecordsAgain(Accepting).(
      uploads := map[0 := Claimed(3, 2, NOON).(state := Accepted, version := 4, lease := None,
        acceptedAt := Some(NOON))],
      assets := map[0 := Asset0(2)], uploaders := map[],
      obligations := map[FIRST := Written0(1, 1), SECOND := RetainedBy(Written0(2, NOON), NOON)])
  }

  lemma SecondCommits()
    ensures At(RecordsAgain(Accepting), 1, Accepting)
    ensures CanCommit(RecordsAgain(Accepting), RecordsAgain(Accepting).uploaders[1], 1)
    ensures CommitEffect(RecordsAgain(Accepting), 1, 1) == Accepts2()
  {
    var s := RecordsAgain(Accepting);
    var u := s.uploaders[1];
    assert Accept(s.uploads[0], 3, 2, u.asset, 1, NOON) == Success(Accepts2().uploads[0]);
    assert CanCommit(s, u, 1);
    assert CommitEffect(s, 1, 1).obligations == Accepts2().obligations;
  }

  lemma ReachAccepts2()
    ensures Attainable(Accepts2())
  {
    ReachAccepting();
    hide Leads;
    SecondCommits();
    assert Safe(RecordsAgain(Accepting), 1);
    hide CanCommit, CommitEffect, Safe;
    Commits(INITIAL, RecordsAgain(Accepting), 1, 1);
  }

  lemma AcceptedAgain() returns (s: System)
    ensures Attainable(s) && Superseded(s, FIRST) && Unsettled(s, FIRST) && s.obligations[FIRST].cipher in s.inventory
    ensures !Settler(s, FIRST) && !Remover(s, FIRST)
  {
    ReachAccepts2();
    hide Leads;
    s := Accepts2();
  }

  // ---- the first attempt's acceptance is overtaken by a worker ----

  function Opens(clock: Time): System {
    Records().(clock := clock, uploaders := map[0 := Uploader(Claimed(2, 1, 1), Accepting, Asset0(1), 1)])
  }

  function Recovered(): Obligation {
    Written0(1, 1).(state := Reconciliation.Claimed, version := 2, claim := 1, updatedAt := NOON,
      lease := Some(NOON + MINUTE))
  }

  function Recovers(w: Worker): System {
    Opens(NOON).(obligations := map[FIRST := Recovered()], workers := map[0 := w])
  }

  /** The delete took effect, was reported as failed, and the obligation was put back. */
  function Overtaken(): System {
    Opens(NOON).(inventory := {},
                 obligations := map[FIRST :=
                   Recovered().(state := Pending, version := 3, availableAt := NOON + 1, lease := None)])
  }

  lemma ReachLocked()
    ensures Attainable(Opens(1))
  {
    ReachRecords();
    hide Leads;
    Locks(INITIAL, Records(), 0, 1);
    assert WithPhase(Records(), 0, Accepting) == Opens(1);
  }

  lemma ReachOpens()
    ensures Attainable(Opens(NOON))
  {
    ReachLocked();
    hide Leads;
    Waits(INITIAL, Opens(1), NOON);
  }

  lemma ReachInspects()
    ensures Attainable(Recovers(Inspecting(Recovered())))
  {
    hide Leads;
    ReachOpens();
    var e := Recover(0, FIRST, NOON, MINUTE);
    assert ClaimForRecovery(Written0(1, 1), NOON, MINUTE) == Some(Recovered());
    assert Enabled(Opens(NOON), e) && Next(Opens(NOON), e) == Recovers(Inspecting(Recovered()));
    Extend(INITIAL, Opens(NOON), e);
  }

  lemma ReachJudges()
    ensures Attainable(Recovers(Judging(Recovered(), Claimed(2, 1, 1))))
  {
    hide Leads;
    ReachInspects();
    var s, t := Recovers(Inspecting(Recovered())), Recovers(Judging(Recovered(), Claimed(2, 1, 1)));
    assert Enabled(s, ReadUpload(0)) && Next(s, ReadUpload(0)) == t;
    Extend(INITIAL, s, ReadUpload(0));
  }

  lemma ReachDeletes()
    ensures Attainable(Recovers(Deleting(Recovered())))
  {
    hide Leads;
    ReachJudges();
    var t := Recovers(Judging(Recovered(), Claimed(2, 1, 1)));
    assert Enabled(t, ReadAsset(0)) && Next(t, ReadAsset(0)) == Recovers(Deleting(Recovered()));
    Extend(INITIAL, t, ReadAsset(0));
  }

  function Lost(): System { Recovers(Retrying(Recovered())).(inventory := {}) }

  lemma ReachLost()
    ensures Attainable(Lost())
  {
    hide Leads;
    ReachDeletes();
    var s, e := Recovers(Deleting(Recovered())), DeleteObject(0, true, false);
    assert Enabled(s, e) && Next(s, e) == Lost();
    Extend(INITIAL, s, e);
  }

  lemma ReachOvertaken()
    ensures Attainable(Overtaken())
  {
    hide Leads;
    ReachLost();
    var e := PutBack(0, NOON, 1, true);
    assert Enabled(Lost(), e) && Next(Lost(), e) == Overtaken();
    Extend(INITIAL, Lost(), e);
  }

  /**
   The lease and the pending obligation do not make an acceptance safe: a run reaches one that
   may commit long after its clock reading, its obligation pending again, its object gone.
   */
  lemma OvertakenAcceptanceMayCommit() returns (s: System)
    ensures Attainable(s) && Enabled(s, Commit(0, 1)) && !Safe(s, 0)
    ensures var t := Next(s, Commit(0, 1)); Accepts(t, 0, Cipher(1)) && Cipher(1) !in t.inventory
  {
    ReachOvertaken();
    hide Leads;
    s := Overtaken();
  }
}
