/**
 The minimum orphan age is exact: at that age and above, a version that a reference check
 finds unprotected is never referenced; below it, a run accepts one after the check.
 */
module OrphanAge {
  import opened Base
  import opened Upload
  import opened Reconciliation
  import opened Protocol
  import opened ProtocolSafety
  import opened ProtocolRuns
  import opened ProtocolWitness

  /** Whatever is found unprotected at this age is referenced in no state of any run. */
  ghost predicate SafeAge(age: Time) {
    forall events, states, n: nat, m: nat, c, now ::
      Run(events, states) && n <= |events| && m <= |events| && Unprotected(states[n], c, now, age) ==>
        Unreferenced(states[m], c)
  }

  // ---- the longest lease, stored under the slowest provider clock, checked just before it ends ----

  const START: Time := 1 + CLOCK_SKEW_ALLOWANCE
  const CHECK: Time := START + MAXIMUM_ATTEMPT_TIMEOUT - 1

  function Longest(): Intent {
    Intent(0, 0, PLACE, 1, "d", "i", Issued, 1, 0, MAXIMUM_ATTEMPT_TIMEOUT, None, START, START,
      START + MAXIMUM_INTENT_LIFETIME, None, "")
  }

  function Attempted(): Intent {
    Longest().(state := Uploading, version := 2, attempt := 1, lease := Some(START + MAXIMUM_ATTEMPT_TIMEOUT))
  }

  function Begun(): System {
    INITIAL.(clock := START, uploads := map[0 := Attempted()],
             uploaders := map[0 := Uploader(Attempted(), Streaming, NO_ASSET, START)],
             leases := map[FIRST := START + MAXIMUM_ATTEMPT_TIMEOUT])
  }

  /** The state of the check, and those after it: stored, recorded, open, accepted. */
  function Checked(phase: Phase, at: Time, obligations: map<Attempt, Obligation>): System {
    Begun().(clock := CHECK, inventory := {Cipher(1)},
             puts := map[Cipher(1) := Put(FIRST, START, START - CLOCK_SKEW_ALLOWANCE)],
             uploaders := map[0 := Uploader(Attempted(), phase, Asset0(1), at)], obligations := obligations)
  }

  function Stored(): System { Checked(Staged, START, map[]) }

  function Late(): Obligation {
    Obligation(0, 0, 1, Cipher(1), Pending, 1, 0, START + MAXIMUM_ATTEMPT_TIMEOUT, None, CHECK, CHECK, None)
  }

  function Open(phase: Phase): System { Checked(phase, CHECK, map[FIRST := Late()]) }

  lemma ReachBegun()
    ensures Leads(INITIAL, Begun())
  {
    ProtocolWitness.Begin();
    hide Leads;
    Waits(INITIAL, INITIAL, START);
    Issues(INITIAL, INITIAL.(clock := START), Longest());
    var s := INITIAL.(clock := START, uploads := map[0 := Longest()]);
    Claims(INITIAL, s, 0, 0, 1, START);
    assert ClaimEffect(s, 0, 0, 1, START) == Begun();
  }

  lemma ReachStored()
    ensures Attainable(Stored())
  {
    ReachBegun();
    hide Leads;
    var stamp := START - CLOCK_SKEW_ALLOWANCE;
    Puts(INITIAL, Begun(), 0, Asset0(1), stamp);
    var s := StoreEffect(Begun(), 0, Asset0(1), stamp, Staged);
    Waits(INITIAL, s, CHECK);
    assert s.(clock := CHECK) == Stored();
  }

  lemma LateObligation()
    ensures At(Stored(), 0, Staged) && CanWrite(Stored(), Stored().uploaders[0], CHECK, true, true)
    ensures WriteEffect(Stored(), 0, CHECK, true, true) == Open(Recorded)
  {
    assert ForObject(Attempted(), Cipher(1), CHECK) == Some(Late());
  }

  lemma ThenRecorded()
    ensures Leads(Stored(), Open(Recorded))
  {
    ReachStored();
    Resume(Stored());
    hide Leads;
    LateObligation();
    hide Stored, CanWrite, WriteEffect;
    Writes(Stored(), Stored(), 0, CHECK);
  }

  lemma ThenOpen()
    ensures Leads(Stored(), Open(Accepting))
  {
    ThenRecorded();
    hide Leads;
    assert CanLock(Open(Recorded), Open(Recorded).uploaders[0], 1);
    assert WithPhase(Open(Recorded), 0, Accepting) == Open(Accepting);
    hide CanLock, WithPhase;
    Locks(Stored(), Open(Recorded), 0, 1);
  }

  /** One microsecond below the minimum, a version found unprotected is accepted afterwards. */
  lemma YoungerMayBeAccepted() returns (t: System)
    ensures Leads(Stored(), t) && Unprotected(Stored(), Cipher(1), CHECK, MINIMUM_ORPHAN_AGE - 1)
    ensures Accepts(t, 0, Cipher(1)) && !Unreferenced(t, Cipher(1))
  {
    ThenOpen();
    hide Leads;
    var s := Open(Accepting);
    assert CanCommit(s, s.uploaders[0], 1) && Safe(s, 0);
    t := CommitEffect(s, 0, 1);
    assert t.assets[0].cipher == Cipher(1);
    hide CommitEffect, CanCommit, Safe;
    Commits(Stored(), s, 0, 1);
  }

  lemma PassedAndAccepted(s: System, t: System, c: Object, now: Time, age: Time)
    requires Leads(s, t) && Unprotected(s, c, now, age) && !Unreferenced(t, c)
    ensures !SafeAge(age)
  {
    hide Unprotected, Unreferenced, Enabled, Next, Sound;
    var events, states, n :| Passes(events, states, n, s) && Last(states) == t;
    assert states[|events|] == t;
  }

  lemma OldEnoughIsSafe(age: Time)
    requires MINIMUM_ORPHAN_AGE <= age
    ensures SafeAge(age)
  {
    hide Unprotected, Unreferenced, Enabled, Next, Sound;
    forall events, states, n: nat, m: nat, c, now |
      Run(events, states) && n <= |events| && m <= |events| && Unprotected(states[n], c, now, age)
      ensures Unreferenced(states[m], c)
    {
      CondemnableIsNeverReferenced(events, states, n, m, c, now, age);
    }
  }

  /** The ages at which the sweep is safe are exactly those that its constructor admits. */
  lemma SafeAgeExactly(age: Time)
    ensures SafeAge(age) <==> MINIMUM_ORPHAN_AGE <= age
  {
    hide SafeAge, Leads, Unprotected, Unreferenced, Accepts;
    if MINIMUM_ORPHAN_AGE <= age {
      OldEnoughIsSafe(age);
    } else {
      var t := YoungerMayBeAccepted();
      YoungerStill(Stored(), Cipher(1), CHECK, MINIMUM_ORPHAN_AGE - 1, age);
      PassedAndAccepted(Stored(), t, Cipher(1), CHECK, age);
    }
  }

  lemma YoungerStill(s: System, c: Object, now: Time, older: Time, age: Time)
    requires Unprotected(s, c, now, older) && age <= older
    ensures Unprotected(s, c, now, age)
  {
  }
}
