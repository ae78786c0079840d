/**
 Grant redemption: a grant admits a bounded number of uses by one runner inside a time
 window; each redemption identifier is one use and ends in at most one outcome. Readers
 race, retry, crash and lose answers between any two steps.
 */
module Grants {
  import opened Base

  const MAX_USES := 32
  const MAX_LIFETIME: Time := 60 * MINUTE

  /** `digest` is the plaintext digest of the one asset the grant names. */
  datatype Grant = Grant(runner: string, maximumUses: nat, uses: nat, createdAt: Time, expiresAt: Time,
      revokedAt: Option<Time>, digest: string)

  datatype Outcome = Succeeded | Denied | IntegrityFailed | Failed

  /** A recorded redemption; `claimed` is false for one that was refused. */
  datatype Redemption = Redemption(grant: nat, runner: string, claimed: bool, at: Time, outcome: Option<Outcome>)

  datatype Phase = Holding(seen: Option<Outcome>) | Quarantining | Finishing(outcome: Outcome)

  datatype Reader = Reader(redemption: nat, phase: Phase)

  /** `released` is what receivers committed; `quarantined` the redemptions whose asset was durably blocked. */
  datatype System = System(
    grants: map<nat, Grant>, redemptions: map<nat, Redemption>, readers: map<nat, Reader>,
    released: map<nat, string>, quarantined: set<nat>)

  datatype Event =
    | Issue(g: nat, grant: Grant)
    | Revoke(g: nat, now: Time)
    | Claim(p: nat, g: nat, id: nat, runner: string, now: Time)
    | Replay(p: nat, g: nat, id: nat, runner: string)
    | Deny(p: nat)
    | Release(p: nat, digest: string)
    | Break(p: nat, integrity: bool)
    | Quarantine(p: nat, done: bool)
    | Record(p: nat)
    | Crash(p: nat)

  const EMPTY := System(map[], map[], map[], map[], {})

  predicate ValidGrant(g: Grant) {
    && 0 < g.maximumUses <= MAX_USES && g.uses <= g.maximumUses
    && g.createdAt != 0 && g.createdAt < g.expiresAt <= g.createdAt + MAX_LIFETIME
    && (g.revokedAt.Some? ==> g.createdAt <= g.revokedAt.value)
  }

  // ---- the grant ----

  function ClaimUse(g: Grant, runner: string, now: Time): Option<Grant> {
    if runner != g.runner || now < g.createdAt || !(now < g.expiresAt) || g.revokedAt.Some? || g.uses >= g.maximumUses
        then None
    else Some(g.(uses := g.uses + 1))
  }

  function RevokeGrant(g: Grant, now: Time): Option<Grant> {
    if g.revokedAt.Some? || now < g.createdAt then None else Some(g.(revokedAt := Some(now)))
  }

  /** A pending redemption may complete; a terminal one only repeats itself. */
  function Complete(r: Redemption, outcome: Outcome): Option<Redemption> {
    if r.outcome == None then Some(r.(outcome := Some(outcome)))
    else if r.outcome == Some(outcome) then Some(r) else None
  }

  // ---- steps ----

  predicate At(s: System, p: nat, phase: Phase) { p in s.readers && s.readers[p].phase == phase }

  predicate CanRelease(s: System, p: nat) {
    && At(s, p, Holding(None))
    && var id := s.readers[p].redemption;
       id in s.redemptions && s.redemptions[id].grant in s.grants
  }

  predicate Enabled(s: System, e: Event) {
    match e
    case Issue(g, grant) => g !in s.grants && ValidGrant(grant) && grant.uses == 0 && grant.revokedAt.None?
    case Revoke(g, now) => g in s.grants && RevokeGrant(s.grants[g], now).Some?
    case Claim(p, g, id, _, _) => p !in s.readers && g in s.grants && id !in s.redemptions
    case Replay(p, g, id, runner) =>
      && p !in s.readers && id in s.redemptions && s.redemptions[id].claimed
      && s.redemptions[id].grant == g && s.redemptions[id].runner == runner
    case Deny(p) => p in s.readers && s.readers[p].phase.Holding?
    case Release(p, _) => CanRelease(s, p)
    case Break(p, _) => At(s, p, Holding(None))
    case Quarantine(p, _) => At(s, p, Quarantining)
    case Record(p) => p in s.readers && s.readers[p].phase.Finishing?
    case Crash(p) => p in s.readers
  }

  function SetPhase(s: System, p: nat, phase: Phase): System
    requires p in s.readers
  {
    s.(readers := s.readers[p := s.readers[p].(phase := phase)])
  }

  /** A new identifier: one use is consumed, or the refusal is recorded under the identifier. */
  function ClaimEffect(s: System, p: nat, g: nat, id: nat, runner: string, now: Time): System
    requires g in s.grants
  {
    match ClaimUse(s.grants[g], runner, now)
    case None => s.(redemptions := s.redemptions[id := Redemption(g, runner, false, now, None)])
    case Some(grant) =>
      s.(grants := s.grants[g := grant], redemptions := s.redemptions[id := Redemption(g, runner, true, now, None)],
         readers := s.readers[p := Reader(id, Holding(None))])
  }

  /**
   A receiver that has committed this identifier only resumes the audit. Otherwise plaintext is produced:
   of the asset's digest, it is committed; of any other, nothing is, and the asset goes to quarantine.
   */
  function ReleaseEffect(s: System, p: nat, digest: string): System
    requires CanRelease(s, p)
  {
    var id := s.readers[p].redemption;
    if id in s.released then SetPhase(s, p, Finishing(Succeeded))
    else if digest == s.grants[s.redemptions[id].grant].digest
    then SetPhase(s.(released := s.released[id := digest]), p, Finishing(Succeeded))
    else SetPhase(s, p, Quarantining)
  }

  function RecordEffect(s: System, p: nat): System
    requires p in s.readers && s.readers[p].phase.Finishing?
  {
    var id, outcome := s.readers[p].redemption, s.readers[p].phase.outcome;
    var t := s.(readers := s.readers - {p});
    if id in s.redemptions && Complete(s.redemptions[id], outcome).Some?
    then t.(redemptions := s.redemptions[id := Complete(s.redemptions[id], outcome).value]) else t
  }

  function Next(s: System, e: Event): System
    requires Enabled(s, e)
  {
    match e
    case Issue(g, grant) => s.(grants := s.grants[g := grant])
    case Revoke(g, now) => s.(grants := s.grants[g := RevokeGrant(s.grants[g], now).value])
    case Claim(p, g, id, runner, now) => ClaimEffect(s, p, g, id, runner, now)
    case Replay(p, _, id, _) => s.(readers := s.readers[p := Reader(id, Holding(s.redemptions[id].outcome))])
    case Deny(p) => SetPhase(s, p, Finishing(Denied))
    case Release(p, digest) => ReleaseEffect(s, p, digest)
    case Break(p, integrity) => SetPhase(s, p, if integrity then Quarantining else Finishing(Failed))
    case Quarantine(p, done) =>
      SetPhase(if done then s.(quarantined := s.quarantined + {s.readers[p].redemption}) else s,
               p, Finishing(if done then IntegrityFailed else Failed))
    case Record(p) => RecordEffect(s, p)
    case Crash(p) => s.(readers := s.readers - {p})
  }

  // ---- the invariant ----

  ghost function Uses(redemptions: map<nat, Redemption>, g: nat): set<nat> {
    set id | id in redemptions && redemptions[id].claimed && redemptions[id].grant == g
  }

  /** What an outcome rests on. */
  ghost predicate Justified(s: System, id: nat, o: Outcome) {
    && (o == Succeeded ==> id in s.released)
    && (o == IntegrityFailed ==> id in s.quarantined)
  }

  ghost predicate GrantGood(s: System, g: nat)
    requires g in s.grants
  {
    s.grants[g].uses == |Uses(s.redemptions, g)| && ValidGrant(s.grants[g])
  }

  ghost predicate RedemptionGood(s: System, id: nat)
    requires id in s.redemptions
  {
    var r := s.redemptions[id];
    && r.grant in s.grants
    && (r.claimed ==> r.runner == s.grants[r.grant].runner)
    && (r.claimed ==> s.grants[r.grant].createdAt <= r.at < s.grants[r.grant].expiresAt)
    && (r.outcome.Some? ==> r.claimed && Justified(s, id, r.outcome.value))
    && (id in s.released ==> r.claimed && s.released[id] == s.grants[r.grant].digest)
  }

  ghost predicate ReaderGood(s: System, r: Reader) {
    && r.redemption in s.redemptions && s.redemptions[r.redemption].claimed
    && (r.phase.Finishing? ==> Justified(s, r.redemption, r.phase.outcome))
  }

  ghost predicate GrantsGood(s: System) { forall g :: g in s.grants ==> GrantGood(s, g) }

  ghost predicate RedemptionsGood(s: System) {
    && (forall id :: id in s.redemptions ==> RedemptionGood(s, id))
    && (forall id :: id in s.released ==> id in s.redemptions)
  }

  ghost predicate ReadersGood(s: System) { forall p :: p in s.readers ==> ReaderGood(s, s.readers[p]) }

  ghost predicate Inv(s: System) { GrantsGood(s) && RedemptionsGood(s) && ReadersGood(s) }

  lemma UsesGrow(redemptions: map<nat, Redemption>, id: nat, r: Redemption, g: nat)
    requires id !in redemptions
    ensures |Uses(redemptions[id := r], g)| == |Uses(redemptions, g)| + (if r.claimed && r.grant == g then 1 else 0)
  {
    if r.claimed && r.grant == g {
      assert Uses(redemptions[id := r], g) == Uses(redemptions, g) + {id};
    } else {
      assert Uses(redemptions[id := r], g) == Uses(redemptions, g);
    }
  }

  lemma UsesSame(redemptions: map<nat, Redemption>, id: nat, r: Redemption, g: nat)
    requires id in redemptions && r.claimed == redemptions[id].claimed && r.grant == redemptions[id].grant
    ensures Uses(redemptions[id := r], g) == Uses(redemptions, g)
  {
  }

  lemma IssueKeeps(s: System, g: nat, grant: Grant)
    requires Inv(s) && Enabled(s, Issue(g, grant))
    ensures Inv(Next(s, Issue(g, grant)))
  {
    var t := Next(s, Issue(g, grant));
    GrantsAfterIssue(s, t, g, grant);
    RedemptionsAfterIssue(s, t, g, grant);
    hide GrantsGood, RedemptionsGood;
  }

  lemma GrantsAfterIssue(s: System, t: System, g: nat, grant: Grant)
    requires GrantsGood(s) && RedemptionsGood(s) && g !in s.grants && ValidGrant(grant) && grant.uses == 0
    requires t == s.(grants := s.grants[g := grant])
    ensures GrantsGood(t)
  {
    hide ValidGrant;
    assert Uses(s.redemptions, g) == {};
  }

  lemma RedemptionsAfterIssue(s: System, t: System, g: nat, grant: Grant)
    requires RedemptionsGood(s) && g !in s.grants && t == s.(grants := s.grants[g := grant])
    ensures RedemptionsGood(t)
  {
    forall id | id in t.redemptions ensures RedemptionGood(t, id) { assert RedemptionGood(s, id); }
  }

  lemma RevokeKeeps(s: System, g: nat, now: Time)
    requires Inv(s) && Enabled(s, Revoke(g, now))
    ensures Inv(Next(s, Revoke(g, now)))
  {
    hide Uses;
  }

  lemma ClaimKeeps(s: System, p: nat, g: nat, id: nat, runner: string, now: Time)
    requires Inv(s) && Enabled(s, Claim(p, g, id, runner, now))
    ensures Inv(Next(s, Claim(p, g, id, runner, now)))
  {
    if ClaimUse(s.grants[g], runner, now).Some? {
      ClaimGranted(s, g, id, runner, now);
      hide Inv;
      PhaseKeeps(Next(s, Claim(p, g, id, runner, now)).(readers := s.readers), p, Reader(id, Holding(None)));
    } else {
      RedemptionAdded(s, id, Redemption(g, runner, false, now, None));
    }
  }

  /** A refused redemption changes no use. */
  lemma RedemptionAdded(s: System, id: nat, r: Redemption)
    requires Inv(s) && id !in s.redemptions && !r.claimed && r.outcome.None? && r.grant in s.grants
    ensures Inv(s.(redemptions := s.redemptions[id := r]))
  {
    forall h { UsesGrow(s.redemptions, id, r, h); }
    hide Uses, ValidGrant, Justified;
  }

  lemma ClaimGranted(s: System, g: nat, id: nat, runner: string, now: Time)
    requires Inv(s) && g in s.grants && id !in s.redemptions && ClaimUse(s.grants[g], runner, now).Some?
    ensures Inv(s.(grants := s.grants[g := ClaimUse(s.grants[g], runner, now).value],
                   redemptions := s.redemptions[id := Redemption(g, runner, true, now, None)]))
  {
    var r, grant := Redemption(g, runner, true, now, None), ClaimUse(s.grants[g], runner, now).value;
    var t := s.(grants := s.grants[g := grant], redemptions := s.redemptions[id := r]);
    GrantsAfterClaim(s, t, g, id, r, grant);
    RedemptionsAfterClaim(s, t, g, id, r, grant);
    hide GrantsGood, RedemptionsGood, Justified;
  }

  lemma GrantsAfterClaim(s: System, t: System, g: nat, id: nat, r: Redemption, grant: Grant)
    requires GrantsGood(s) && g in s.grants && id !in s.redemptions && r.claimed && r.grant == g
    requires ClaimUse(s.grants[g], r.runner, r.at) == Some(grant)
    requires t.grants == s.grants[g := grant] && t.redemptions == s.redemptions[id := r]
    ensures GrantsGood(t)
  {
    hide Uses;
    assert GrantGood(s, g);
    UseCounted(s, g, id, r);
  }

  lemma RedemptionsAfterClaim(s: System, t: System, g: nat, id: nat, r: Redemption, grant: Grant)
    requires RedemptionsGood(s) && g in s.grants && id !in s.redemptions && r.claimed && r.grant == g
    requires ClaimUse(s.grants[g], r.runner, r.at) == Some(grant) && r.outcome.None?
    requires t == s.(grants := s.grants[g := grant], redemptions := s.redemptions[id := r])
    ensures RedemptionsGood(t)
  {
    forall i | i in s.redemptions ensures RedemptionGood(t, i) {
      assert RedemptionGood(s, i);
    }
  }

  /** A claimed redemption is one more use of its grant, and of no other. */
  lemma UseCounted(s: System, g: nat, id: nat, r: Redemption)
    requires id !in s.redemptions && r.claimed && r.grant == g
    ensures |Uses(s.redemptions[id := r], g)| == |Uses(s.redemptions, g)| + 1
    ensures forall h {:trigger Uses(s.redemptions, h)} :: h != g ==>
              |Uses(s.redemptions[id := r], h)| == |Uses(s.redemptions, h)|
  {
    hide Uses;
    forall h { UsesGrow(s.redemptions, id, r, h); }
  }

  lemma PhaseKeeps(s: System, p: nat, r: Reader)
    requires Inv(s) && ReaderGood(s, r)
    ensures Inv(s.(readers := s.readers[p := r]))
  {
    hide Uses, ValidGrant;
  }

  lemma CrashKeeps(s: System, p: nat)
    requires Inv(s)
    ensures Inv(s.(readers := s.readers - {p}))
  {
    hide Uses, ValidGrant;
  }

  lemma ReleaseKeeps(s: System, p: nat, digest: string)
    requires Inv(s) && CanRelease(s, p)
    ensures Inv(ReleaseEffect(s, p, digest))
  {
    var id := s.readers[p].redemption;
    assert ReaderGood(s, s.readers[p]);
    if id in s.released {
      hide Inv;
      PhaseKeeps(s, p, Reader(id, Finishing(Succeeded)));
    } else if digest == s.grants[s.redemptions[id].grant].digest {
      var t := s.(released := s.released[id := digest]);
      ReleasedGrows(s, id, digest);
      hide Inv;
      PhaseKeeps(t, p, Reader(id, Finishing(Succeeded)));
    } else {
      hide Inv;
      HoldingKeeps(s, p, Quarantining);
    }
  }

  lemma ReleasedGrows(s: System, id: nat, digest: string)
    requires Inv(s) && id in s.redemptions && s.redemptions[id].claimed && s.redemptions[id].grant in s.grants
    requires digest == s.grants[s.redemptions[id].grant].digest && id !in s.released
    ensures Inv(s.(released := s.released[id := digest]))
  {
    hide Uses, ValidGrant;
  }

  lemma QuarantineKeeps(s: System, p: nat, done: bool)
    requires Inv(s) && Enabled(s, Quarantine(p, done))
    ensures Inv(Next(s, Quarantine(p, done)))
  {
    hide Inv;
    if done {
      var id := s.readers[p].redemption;
      QuarantinedGrows(s, id);
      SettlesKeeps(s.(quarantined := s.quarantined + {id}), p, IntegrityFailed);
    } else {
      SettlesKeeps(s, p, Failed);
    }
  }

  lemma SettlesKeeps(s: System, p: nat, outcome: Outcome)
    requires Inv(s) && p in s.readers && Justified(s, s.readers[p].redemption, outcome)
    ensures Inv(SetPhase(s, p, Finishing(outcome)))
  {
    assert ReaderGood(s, s.readers[p]);
    hide Inv;
    PhaseKeeps(s, p, s.readers[p].(phase := Finishing(outcome)));
  }

  lemma QuarantinedGrows(s: System, id: nat)
    requires Inv(s)
    ensures Inv(s.(quarantined := s.quarantined + {id}))
  {
    hide Uses, ValidGrant;
  }

  lemma ReplayKeeps(s: System, p: nat, g: nat, id: nat, runner: string)
    requires Inv(s) && Enabled(s, Replay(p, g, id, runner))
    ensures Inv(Next(s, Replay(p, g, id, runner)))
  {
    hide Inv;
    PhaseKeeps(s, p, Reader(id, Holding(s.redemptions[id].outcome)));
  }

  /** Denial and plain failure need nothing; a suspected integrity fault goes to quarantine first. */
  lemma HoldingKeeps(s: System, p: nat, phase: Phase)
    requires Inv(s) && p in s.readers && phase in {Finishing(Denied), Finishing(Failed), Quarantining}
    ensures Inv(SetPhase(s, p, phase))
  {
    assert ReaderGood(s, s.readers[p]);
    hide Inv;
    PhaseKeeps(s, p, s.readers[p].(phase := phase));
  }

  lemma RecordKeeps(s: System, p: nat)
    requires Inv(s) && Enabled(s, Record(p))
    ensures Inv(Next(s, Record(p)))
  {
    var id, outcome := s.readers[p].redemption, s.readers[p].phase.outcome;
    assert ReaderGood(s, s.readers[p]);
    CrashKeeps(s, p);
    hide Inv;
    if Complete(s.redemptions[id], outcome).Some? { OutcomeRecorded(s.(readers := s.readers - {p}), id, outcome); }
  }

  lemma OutcomeRecorded(s: System, id: nat, outcome: Outcome)
    requires Inv(s) && id in s.redemptions && Complete(s.redemptions[id], outcome).Some?
    requires s.redemptions[id].claimed && Justified(s, id, outcome)
    ensures Inv(s.(redemptions := s.redemptions[id := Complete(s.redemptions[id], outcome).value]))
  {
    hide GrantsGood, RedemptionsGood;
    var r := Complete(s.redemptions[id], outcome).value;
    var t := s.(redemptions := s.redemptions[id := r]);
    GrantsAfterOutcome(s, t, id, r);
    RedemptionsAfterOutcome(s, t, id, r);
  }

  lemma GrantsAfterOutcome(s: System, t: System, id: nat, r: Redemption)
    requires GrantsGood(s) && id in s.redemptions && t == s.(redemptions := s.redemptions[id := r])
    requires r.claimed == s.redemptions[id].claimed && r.grant == s.redemptions[id].grant
    ensures GrantsGood(t)
  {
    hide Uses, ValidGrant;
    forall h { UsesSame(s.redemptions, id, r, h); }
  }

  lemma RedemptionsAfterOutcome(s: System, t: System, id: nat, r: Redemption)
    requires RedemptionsGood(s) && id in s.redemptions && t == s.(redemptions := s.redemptions[id := r])
    requires r == s.redemptions[id].(outcome := r.outcome)
    requires r.outcome.Some? && r.claimed && Justified(s, id, r.outcome.value)
    ensures RedemptionsGood(t)
  {
    assert RedemptionGood(s, id);
  }

  lemma StepKeeps(s: System, e: Event)
    requires Inv(s) && Enabled(s, e)
    ensures Inv(Next(s, e))
  {
    hide Inv;
    match e {
      case Issue(g, grant) => IssueKeeps(s, g, grant);
      case Revoke(g, now) => RevokeKeeps(s, g, now);
      case Claim(p, g, id, runner, now) => ClaimKeeps(s, p, g, id, runner, now);
      case Replay(p, g, id, runner) => ReplayKeeps(s, p, g, id, runner);
      case Deny(p) => HoldingKeeps(s, p, Finishing(Denied));
      case Release(p, digest) => ReleaseKeeps(s, p, digest);
      case Break(p, integrity) => HoldingKeeps(s, p, if integrity then Quarantining else Finishing(Failed));
      case Quarantine(p, done) => QuarantineKeeps(s, p, done);
      case Record(p) => RecordKeeps(s, p);
      case Crash(p) => CrashKeeps(s, p);
    }
  }

  // ---- runs ----

  ghost predicate Run(s: System, es: seq<Event>, t: System)
    decreases |es|
  {
    if es == [] then s == t else Enabled(s, es[0]) && Run(Next(s, es[0]), es[1..], t)
  }

  lemma {:induction false} RunKeeps(s: System, es: seq<Event>, t: System)
    requires Inv(s) && Run(s, es, t)
    ensures Inv(t)
    decreases |es|
  {
    if es != [] {
      StepKeeps(s, es[0]);
      RunKeeps(Next(s, es[0]), es[1..], t);
    }
  }

  /**
   In every run a grant's uses are its distinct claimed identifiers, never more than allowed, all
   inside its window.
   */
  lemma UsesAreDistinctRedemptions(es: seq<Event>, t: System, g: nat)
    requires Run(EMPTY, es, t) && g in t.grants
    ensures t.grants[g].uses == |Uses(t.redemptions, g)| <= t.grants[g].maximumUses <= 32
    ensures 0 < t.grants[g].expiresAt - t.grants[g].createdAt <= 3_600_000_000
    ensures forall id :: id in Uses(t.redemptions, g) ==>
      t.redemptions[id].runner == t.grants[g].runner
        && t.grants[g].createdAt <= t.redemptions[id].at < t.grants[g].expiresAt
  {
    RunKeeps(EMPTY, es, t);
    assert GrantGood(t, g);
  }

  /**
   Success is recorded only after a receiver committed plaintext of the asset's digest, integrity
   failure only after quarantine.
   */
  lemma OutcomesAreJustified(es: seq<Event>, t: System, id: nat)
    requires Run(EMPTY, es, t) && id in t.redemptions && t.redemptions[id].outcome.Some?
    ensures t.redemptions[id].claimed && t.redemptions[id].grant in t.grants
    ensures t.redemptions[id].outcome == Some(Succeeded) ==>
      id in t.released && t.released[id] == t.grants[t.redemptions[id].grant].digest
    ensures t.redemptions[id].outcome == Some(IntegrityFailed) ==> id in t.quarantined
  {
    RunKeeps(EMPTY, es, t);
    assert RedemptionGood(t, id);
  }

  /** Each redemption has at most one terminal outcome: once recorded it never changes. */
  lemma {:induction false} OutcomeIsFinal(s: System, es: seq<Event>, t: System, id: nat)
    requires Run(s, es, t) && id in s.redemptions && s.redemptions[id].outcome.Some?
    ensures id in t.redemptions && t.redemptions[id] == s.redemptions[id]
    decreases |es|
  {
    if es != [] { OutcomeIsFinal(Next(s, es[0]), es[1..], t, id); }
  }

  /** After revocation no new use starts, for good. */
  lemma {:induction false} RevocationIsFinal(s: System, es: seq<Event>, t: System, g: nat)
    requires Run(s, es, t) && g in s.grants && s.grants[g].revokedAt.Some? && forall id :: id in s.redemptions ==>
        s.redemptions[id].grant in s.grants
    ensures g in t.grants && t.grants[g] == s.grants[g] && Uses(t.redemptions, g) == Uses(s.redemptions, g)
    decreases |es|
  {
    if es != [] {
      var n := Next(s, es[0]);
      RevokedStep(s, es[0], g);
      RevocationIsFinal(n, es[1..], t, g);
    }
  }

  lemma RevokedStep(s: System, e: Event, g: nat)
    requires Enabled(s, e) && g in s.grants && s.grants[g].revokedAt.Some? && forall id :: id in s.redemptions ==>
        s.redemptions[id].grant in s.grants
    ensures var n := Next(s, e);
            && g in n.grants && n.grants[g] == s.grants[g] && Uses(n.redemptions, g) == Uses(s.redemptions, g)
            && forall id :: id in n.redemptions ==> n.redemptions[id].grant in n.grants
  {
    hide Uses;
    match e {
      case Claim(p, h, id, runner, now) => RevokedClaim(s, p, h, id, runner, now, g);
      case Record(p) => RevokedRecord(s, p, g);
      case _ =>
    }
  }

  lemma RevokedClaim(s: System, p: nat, h: nat, id: nat, runner: string, now: Time, g: nat)
    requires h in s.grants && id !in s.redemptions && g in s.grants && s.grants[g].revokedAt.Some?
    ensures var n := ClaimEffect(s, p, h, id, runner, now);
            && n.grants.Keys == s.grants.Keys && n.grants[g] == s.grants[g]
            && Uses(n.redemptions, g) == Uses(s.redemptions, g)
            && n.redemptions.Keys == s.redemptions.Keys + {id} && n.redemptions[id].grant == h
            && forall i :: i in s.redemptions ==> n.redemptions[i] == s.redemptions[i]
  {
  }

  lemma RevokedRecord(s: System, p: nat, g: nat)
    requires p in s.readers && s.readers[p].phase.Finishing?
    ensures var n := RecordEffect(s, p);
            && n.grants == s.grants && Uses(n.redemptions, g) == Uses(s.redemptions, g)
            && n.redemptions.Keys == s.redemptions.Keys
            && forall i :: i in s.redemptions ==> n.redemptions[i].grant == s.redemptions[i].grant
  {
  }

  // ---- a committed receiver does not settle the redemption ----

  ghost predicate Reaches(s: System, t: System) { exists es :: Run(s, es, t) }

  lemma ReachesItself(s: System)
    ensures Reaches(s, s)
  {
    assert Run(s, [], s);
  }

  lemma ReachesAfter(s: System, e: Event, t: System)
    requires Enabled(s, e) && Reaches(Next(s, e), t)
    ensures Reaches(s, t)
  {
    var es :| Run(Next(s, e), es, t);
    assert ([e] + es)[1..] == es;
    assert Run(s, [e] + es, t);
  }

  /** The redemption ended, and not in success. */
  predicate EndedOtherwise(s: System, id: nat) {
    id in s.redemptions && s.redemptions[id].outcome.Some? && s.redemptions[id].outcome != Some(Succeeded)
  }

  /** Some continuation records another outcome than success. */
  ghost predicate MayEndOtherwise(s: System, id: nat) { exists t :: Reaches(s, t) && EndedOtherwise(t, id) }

  /** A retry that is denied: the grant expired or was revoked, or the asset can no longer be read. */
  lemma RetryMayBeDenied(s: System, id: nat) returns (t: System)
    requires id in s.redemptions && s.redemptions[id].claimed && s.redemptions[id].outcome.None?
    ensures Reaches(s, t) && t.released == s.released
    ensures id in t.redemptions && t.redemptions[id].outcome == Some(Denied)
  {
    hide Reaches;
    var p := Unused(s.readers.Keys);
    var r := s.redemptions[id];
    var held := Next(s, Replay(p, r.grant, id, r.runner));
    var denied := Next(held, Deny(p));
    t := Next(denied, Record(p));
    ReachesItself(t);
    ReachesAfter(denied, Record(p), t);
    ReachesAfter(held, Deny(p), t);
    ReachesAfter(s, Replay(p, r.grant, id, r.runner), t);
  }

  /**
   A redemption whose plaintext a receiver committed can still end other than in success
   exactly as long as its success is not recorded.
   */
  lemma ReleasedEndsOtherwiseExactly(es: seq<Event>, s: System, id: nat)
    requires Run(EMPTY, es, s) && id in s.released
    ensures id in s.redemptions
    ensures MayEndOtherwise(s, id) <==> s.redemptions[id].outcome != Some(Succeeded)
  {
    RunKeeps(EMPTY, es, s);
    assert RedemptionGood(s, id);
    hide Inv, RedemptionGood;
    if s.redemptions[id].outcome == Some(Succeeded) {
      forall es, t | Run(s, es, t) ensures !EndedOtherwise(t, id) { OutcomeIsFinal(s, es, t, id); }
    } else if s.redemptions[id].outcome.None? {
      hide Reaches;
      var t := RetryMayBeDenied(s, id);
    } else {
      ReachesItself(s);
    }
  }

  /** Every grant has a run in which its plaintext is released to a receiver and the redemption ends as denied. */
  lemma ReleasedMayBeDenied(grant: Grant, id: nat)
    requires ValidGrant(grant) && grant.uses == 0 && grant.revokedAt.None?
    ensures exists t :: Reaches(EMPTY, t) && id in t.released && t.released[id] == grant.digest
              && id in t.redemptions && t.redemptions[id].outcome == Some(Denied)
  {
    hide Reaches;
    var issued := Next(EMPTY, Issue(0, grant));
    var claimed := Next(issued, Claim(0, 0, id, grant.runner, grant.createdAt));
    var released := Next(claimed, Release(0, grant.digest));
    var crashed := Next(released, Crash(0));
    var t := RetryMayBeDenied(crashed, id);
    ReachesAfter(released, Crash(0), t);
    ReachesAfter(claimed, Release(0, grant.digest), t);
    ReachesAfter(issued, Claim(0, 0, id, grant.runner, grant.createdAt), t);
    ReachesAfter(EMPTY, Issue(0, grant), t);
  }
}
