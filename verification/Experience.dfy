/**
 The lifecycle of one tenant experience: the plans, the service gates around them and
 the repository that applies them under an expected revision, with any number of
 commands in flight.
 */
module Experience {
  import opened Base

  datatype State = Draft | Approved | Published | Revoked

  datatype RevisionState = RevisionDraft | RevisionApproved | RevisionPublished | RevisionSuperseded | RevisionRevoked

  datatype Operation = Update | Approve | Publish | Revoke | Rollback

  datatype Aggregate = Aggregate(state: State, revision: nat, latest: nat, approved: nat, published: nat)

  datatype Plan = Plan(
    state: State, latest: nat, approved: nat, published: nat,
    superseded: nat, supersededAs: RevisionState, target: nat, targetAs: RevisionState)

  datatype Error = Invalid | Conflict | IsRevoked

  /** An applied plan, or an idempotent replay that changes nothing. */
  datatype Outcome = Applied(plan: Plan) | Replay | Refused(error: Error)

  // ---- plans ----

  function PlanUpdate(a: Aggregate, version: nat): Outcome {
    if a.state == Revoked then Refused(IsRevoked)
    else if version != a.latest + 1 then Refused(Invalid)
    else Applied(Plan(Draft, version, 0, a.published, 0, RevisionDraft, version, RevisionDraft))
  }

  function PlanApprove(a: Aggregate): Outcome {
    if a.state == Revoked then Refused(IsRevoked)
    else if a.latest == 0 then Refused(Invalid)
    else if a.approved == a.latest then Replay
    else Applied(Plan(Approved, a.latest, a.latest, a.published, 0, RevisionDraft, a.latest, RevisionApproved))
  }

  function PlanPublish(a: Aggregate): Outcome {
    if a.state == Revoked then Refused(IsRevoked)
    else if a.approved == 0 || a.approved != a.latest then Refused(Conflict)
    else if a.published == a.latest then Replay
    else Applied(Plan(Published, a.latest, a.approved, a.latest, a.published, RevisionSuperseded, a.latest,
      RevisionPublished))
  }

  function PlanRevoke(a: Aggregate): Outcome {
    if a.state == Revoked then Replay
    else if a.published == 0 then Refused(Conflict)
    else Applied(Plan(Revoked, a.latest, a.approved, a.published, a.published, RevisionRevoked, a.published,
      RevisionRevoked))
  }

  function PlanRollback(a: Aggregate, target: nat): Outcome {
    if a.state != Published && a.state != Revoked then Refused(Conflict)
    else if target == 0 then Refused(Invalid)
    else if a.state == Published && a.published == target then Replay
    else
      Applied(Plan(Published, a.latest, a.approved, target,
                   if a.published != target then a.published else 0, RevisionSuperseded, target, RevisionPublished))
  }

  function PlanTransition(a: Aggregate, op: Operation, target: nat): Outcome {
    match op
    case Update => PlanUpdate(a, target)
    case Approve => PlanApprove(a)
    case Publish => PlanPublish(a)
    case Revoke => PlanRevoke(a)
    case Rollback => PlanRollback(a, target)
  }

  // ---- the service and the repository ----

  /** A command between its read of the aggregate and its write. */
  datatype Command = Command(found: Aggregate, op: Operation, target: nat, gated: bool)

  /** `approvals` records which versions were ever explicitly approved, `last` the last operation applied. */
  datatype System = System(
    aggregate: Option<Aggregate>, revisions: map<nat, RevisionState>, commands: map<nat, Command>,
    approvals: set<nat>, last: Option<Operation>)

  datatype Event =
    | Create
    | Find(c: nat, op: Operation, target: nat, expectedRevision: nat)
    | Gate(c: nat)
    | Apply(c: nat)
    | Abandon(c: nat)

  const EMPTY := System(None, map[], map[], {}, None)

  predicate Passes(s: System, target: nat) {
    target in s.revisions && s.revisions[target] != RevisionDraft && s.revisions[target] != RevisionRevoked
  }

  /** The write is reached only with a plan to apply, past the gate for a rollback, and under the expected revision. */
  predicate CanApply(s: System, c: nat) {
    && c in s.commands && s.aggregate.Some?
    && var m := s.commands[c];
       && (m.op == Rollback ==> m.gated) && PlanTransition(m.found, m.op, m.target).Applied?
       && s.aggregate.value.revision == m.found.revision && PlanTransition(s.aggregate.value, m.op, m.target).Applied?
  }

  predicate Enabled(s: System, e: Event) {
    match e
    case Create => s.aggregate.None?
    case Find(c, op, target, expected) =>
      && c !in s.commands && s.aggregate.Some? && s.aggregate.value.revision == expected
      && (op == Update ==> target == s.aggregate.value.latest + 1)
    case Gate(c) => c in s.commands && s.commands[c].op == Rollback && Passes(s, s.commands[c].target)
    case Apply(c) => CanApply(s, c)
    case Abandon(c) => c in s.commands
  }

  function Relabel(revisions: map<nat, RevisionState>, p: Plan): map<nat, RevisionState> {
    var superseded := if p.superseded != 0 then revisions[p.superseded := p.supersededAs] else revisions;
    superseded[p.target := p.targetAs]
  }

  function Commit(s: System, p: Plan, op: Operation): System
    requires s.aggregate.Some?
  {
    s.(aggregate := Some(Aggregate(p.state, s.aggregate.value.revision + 1, p.latest, p.approved, p.published)),
       revisions := Relabel(s.revisions, p),
       approvals := if op == Approve then s.approvals + {p.target} else s.approvals, last := Some(op))
  }

  function Next(s: System, e: Event): System
    requires Enabled(s, e)
  {
    match e
    case Create => s.(aggregate := Some(Aggregate(Draft, 1, 1, 0, 0)), revisions := map[1 := RevisionDraft])
    case Find(c, op, target, _) => s.(commands := s.commands[c := Command(s.aggregate.value, op, target, false)])
    case Gate(c) => s.(commands := s.commands[c := s.commands[c].(gated := true)])
    case Apply(c) =>
      var m := s.commands[c];
      Commit(s, PlanTransition(s.aggregate.value, m.op, m.target).plan, m.op).(commands := s.commands - {c})
    case Abandon(c) => s.(commands := s.commands - {c})
  }

  // ---- the invariant ----

  ghost predicate Consistent(a: Aggregate, revisions: map<nat, RevisionState>, approvals: set<nat>) {
    && 1 <= a.latest && (forall v :: v in revisions <==> 1 <= v <= a.latest)
    && (a.approved == 0 || a.approved == a.latest) && a.published <= a.latest
    && (a.published == a.latest ==> a.approved == a.latest)
    && (forall v :: v in revisions ==> (revisions[v] == RevisionPublished <==> v == a.published && a.state != Revoked))
    && (a.state == Revoked ==> a.published != 0 && revisions[a.published] == RevisionRevoked)
    && (a.state == Published ==> a.published != 0)
    && (a.approved == a.latest <==> revisions[a.latest] != RevisionDraft)
    && (forall v :: v in revisions && revisions[v] != RevisionDraft ==> v in approvals)
  }

  /** A command that would still pass the revision check saw the present state, and its gate still holds. */
  ghost predicate Fenced(s: System, m: Command) {
    && s.aggregate.Some? && m.found.revision <= s.aggregate.value.revision
    && (m.found.revision == s.aggregate.value.revision ==>
        m.found == s.aggregate.value && (m.op == Rollback && m.gated ==> Passes(s, m.target)))
  }

  /** The last applied operation determines the aggregate's state. */
  ghost predicate Follows(state: State, last: Option<Operation>) {
    match state
    case Draft => last == None || last == Some(Update)
    case Approved => last == Some(Approve)
    case Published => last == Some(Publish) || last == Some(Rollback)
    case Revoked => last == Some(Revoke)
  }

  ghost predicate Inv(s: System) {
    && (s.aggregate.Some? ==>
        Consistent(s.aggregate.value, s.revisions, s.approvals) && Follows(s.aggregate.value.state, s.last))
    && (s.aggregate.None? ==> s.revisions == map[] && s.last == None)
    && (forall c :: c in s.commands ==> Fenced(s, s.commands[c]))
  }

  lemma PlanKeeps(s: System, op: Operation, target: nat)
    requires s.aggregate.Some? && Consistent(s.aggregate.value, s.revisions, s.approvals)
    requires PlanTransition(s.aggregate.value, op, target).Applied? && (op == Rollback ==> Passes(s, target))
    ensures var t := Commit(s, PlanTransition(s.aggregate.value, op, target).plan, op);
            Consistent(t.aggregate.value, t.revisions, t.approvals) && Follows(t.aggregate.value.state, t.last)
  {
    var a := s.aggregate.value;
    match op {
      case Update => UpdateKeeps(a, s.revisions, s.approvals);
      case Approve =>
      case Publish =>
      case Revoke =>
      case Rollback =>
    }
  }

  lemma UpdateKeeps(a: Aggregate, revisions: map<nat, RevisionState>, approvals: set<nat>)
    requires Consistent(a, revisions, approvals) && a.state != Revoked
    ensures Consistent(Aggregate(Draft, a.revision + 1, a.latest + 1, 0, a.published),
        revisions[a.latest + 1 := RevisionDraft], approvals)
  {
  }

  lemma ApplyKeeps(s: System, c: nat)
    requires Inv(s) && CanApply(s, c)
    ensures Inv(Next(s, Apply(c)))
  {
    var m := s.commands[c];
    assert Fenced(s, m);
    PlanKeeps(s, m.op, m.target);
    hide Consistent, Follows, PlanTransition, Relabel;
  }

  lemma StepKeeps(s: System, e: Event)
    requires Inv(s) && Enabled(s, e)
    ensures Inv(Next(s, e))
  {
    match e {
      case Create =>
      case Find(_, _, _, _) => hide Consistent;
      case Gate(c) =>
        assert Fenced(s, s.commands[c]);
        hide Consistent;
      case Apply(c) =>
        hide Inv;
        ApplyKeeps(s, c);
      case Abandon(_) => hide Consistent;
    }
  }

  // ---- runs ----

  ghost predicate Run(s: System, es: seq<Event>, t: System)
    decreases |es|
  {
    if es == [] then s == t else Enabled(s, es[0]) && Run(Next(s, es[0]), es[1..], t)
  }

  lemma {:induction false} RunKeeps(s: System, es: seq<Event>, t: System)
    requires Inv(s) && Run(s, es, t)
    ensures Inv(t)
    decreases |es|
  {
    if es != [] {
      StepKeeps(s, es[0]);
      RunKeeps(Next(s, es[0]), es[1..], t);
    }
  }

  /**
   In every run: one revision is published exactly when the aggregate is unrevoked and has one, and
   it is that version.
   */
  lemma PublishedRevisionIsTheAggregates(es: seq<Event>, t: System, v: nat)
    requires Run(EMPTY, es, t) && t.aggregate.Some? && v in t.revisions
    ensures t.revisions[v] == RevisionPublished <==>
      v == t.aggregate.value.published && t.aggregate.value.state != Revoked
    ensures t.aggregate.value.approved == 0 || t.aggregate.value.approved == t.aggregate.value.latest
    ensures 1 <= v <= t.aggregate.value.latest
  {
    RunKeeps(EMPTY, es, t);
  }

  /** No version goes live, or keeps any trace of having been live, without an explicit approval of it before. */
  lemma LiveWasApproved(es: seq<Event>, t: System, v: nat)
    requires Run(EMPTY, es, t) && v in t.revisions && t.revisions[v] != RevisionDraft
    ensures v in t.approvals
  {
    RunKeeps(EMPTY, es, t);
  }

  /** What resolution serves: the published version of an aggregate whose own state is published. */
  predicate Served(s: System, v: nat) {
    s.aggregate.Some? && s.aggregate.value.state == Published && s.aggregate.value.published == v && v > 0
  }

  /**
   A version is served exactly when it is published and the last thing that happened was a
   publication or a rollback.
   */
  lemma ServedVersusPublished(es: seq<Event>, t: System, v: nat)
    requires Run(EMPTY, es, t) && t.aggregate.Some? && v in t.revisions
    ensures Served(t, v) <==> t.revisions[v] == RevisionPublished && t.last in {Some(Publish), Some(Rollback)}
  {
    RunKeeps(EMPTY, es, t);
  }

  /**
   From a revoked aggregate, exactly an applied rollback leads out, and never straight back to the
   revoked version.
   */
  lemma OnlyRollbackEndsRevocation(es: seq<Event>, s: System, e: Event)
    requires Run(EMPTY, es, s) && s.aggregate.Some? && s.aggregate.value.state == Revoked && Enabled(s, e)
    ensures var t := Next(s, e);
            && t.aggregate.Some?
            && (t.aggregate.value.state != Revoked <==> e.Apply? && s.commands[e.c].op == Rollback)
            && (t.aggregate.value.state != Revoked ==>
                t.aggregate.value.published != s.aggregate.value.published && Served(t, t.aggregate.value.published))
  {
    RunKeeps(EMPTY, es, s);
    if e.Apply? { assert Fenced(s, s.commands[e.c]); }
  }

  /** When an operation applies, when it repeats itself, and why it is refused. */
  lemma OutcomeExactly(a: Aggregate, op: Operation, target: nat)
    ensures var r := PlanTransition(a, op, target);
            match op
            case Update =>
              && (r.Applied? <==> a.state != Revoked && target == a.latest + 1) && !r.Replay?
              && (r == Refused(IsRevoked) <==> a.state == Revoked) && r != Refused(Conflict)
            case Approve =>
              && (r.Applied? <==> a.state != Revoked && a.latest != 0 && a.approved != a.latest)
              && (r.Replay? <==> a.state != Revoked && a.latest != 0 && a.approved == a.latest)
              && (r == Refused(IsRevoked) <==> a.state == Revoked) && r != Refused(Conflict)
            case Publish =>
              && (r.Applied? <==> a.state != Revoked && 0 != a.approved == a.latest && a.latest != a.published)
              && (r.Replay? <==> a.state != Revoked && 0 != a.approved == a.latest == a.published)
              && (r == Refused(IsRevoked) <==> a.state == Revoked) && r != Refused(Invalid)
            case Revoke =>
              && (r.Applied? <==> a.state != Revoked && a.published != 0) && (r.Replay? <==> a.state == Revoked)
              && r != Refused(Invalid) && r != Refused(IsRevoked)
            case Rollback =>
              && (r.Applied? <==>
                  target != 0 && (a.state == Revoked || (a.state == Published && a.published != target)))
              && (r.Replay? <==> a.state == Published && target == a.published != 0)
              && (r == Refused(Conflict) <==> a.state != Published && a.state != Revoked) && r != Refused(IsRevoked)
  {
  }

  /** What an applied command leaves of the aggregate and of every revision, one revision number later. */
  lemma AppliedExactly(es: seq<Event>, s: System, c: nat)
    requires Run(EMPTY, es, s) && Enabled(s, Apply(c))
    ensures s.aggregate.Some? && Next(s, Apply(c)).aggregate.Some?
    ensures var m, t, a := s.commands[c], Next(s, Apply(c)), s.aggregate.value;
            var n, rs := t.aggregate.value, s.revisions;
            && n.revision == a.revision + 1 && t.last == Some(m.op) && t.commands == s.commands - {c}
            && t.approvals == (if m.op == Approve then s.approvals + {a.latest} else s.approvals)
            && match m.op
               case Update =>
                 && n == Aggregate(Draft, n.revision, a.latest + 1, 0, a.published)
                 && t.revisions == rs[a.latest + 1 := RevisionDraft]
               case Approve =>
                 && n == Aggregate(Approved, n.revision, a.latest, a.latest, a.published)
                 && t.revisions == rs[a.latest := RevisionApproved]
               case Publish =>
                 && n == Aggregate(Published, n.revision, a.latest, a.latest, a.latest)
                 && t.revisions == (if a.published == 0 then rs else rs[a.published := RevisionSuperseded])
                    [a.latest := RevisionPublished]
               case Revoke =>
                 && n == Aggregate(Revoked, n.revision, a.latest, a.approved, a.published)
                 && t.revisions == rs[a.published := RevisionRevoked]
               case Rollback =>
                 && n == Aggregate(Published, n.revision, a.latest, a.approved, m.target)
                 && t.revisions == (if a.published == 0 then rs else rs[a.published := RevisionSuperseded])
                    [m.target := RevisionPublished]
  {
    RunKeeps(EMPTY, es, s);
    hide Inv, Run;
  }

  lemma {:induction false} RunJoin(r: System, es: seq<Event>, s: System, ds: seq<Event>, t: System)
    requires Run(r, es, s) && Run(s, ds, t)
    ensures Run(r, es + ds, t)
    decreases |es|
  {
    if es == [] {
      assert es + ds == ds;
    } else {
      assert (es + ds)[0] == es[0] && (es + ds)[1..] == es[1..] + ds;
      RunJoin(Next(r, es[0]), es[1..], s, ds, t);
    }
  }

  ghost predicate Reaches(s: System, t: System) { exists es :: Run(s, es, t) }

  /** One command, undisturbed by those in flight. */
  lemma Undisturbed(s: System, op: Operation, target: nat)
    requires s.aggregate.Some? && PlanTransition(s.aggregate.value, op, target).Applied?
    requires (op == Rollback ==> Passes(s, target)) && (op == Update ==> target == s.aggregate.value.latest + 1)
    ensures Reaches(s, Commit(s, PlanTransition(s.aggregate.value, op, target).plan, op))
  {
    var a := s.aggregate.value;
    var c := Unused(s.commands.Keys);
    assert c !in s.commands;
    var t := Commit(s, PlanTransition(a, op, target).plan, op);
    var found := Next(s, Find(c, op, target, a.revision));
    hide PlanTransition, Relabel;
    assert found.commands - {c} == s.commands;
    if op == Rollback {
      var gated := Next(found, Gate(c));
      assert gated.commands - {c} == s.commands;
      assert Next(gated, Apply(c)) == t;
      assert Run(t, [], t) && Run(gated, [Apply(c)], t) && Run(found, [Gate(c), Apply(c)], t);
      assert Run(s, [Find(c, op, target, a.revision), Gate(c), Apply(c)], t);
    } else {
      assert Next(found, Apply(c)) == t;
      assert Run(t, [], t) && Run(found, [Apply(c)], t);
      assert Run(s, [Find(c, op, target, a.revision), Apply(c)], t);
    }
  }

  lemma ReachesJoin(r: System, s: System, t: System)
    requires Reaches(r, s) && Reaches(s, t)
    ensures Reaches(r, t)
  {
    var es :| Run(r, es, s);
    var ds :| Run(s, ds, t);
    RunJoin(r, es, s, ds, t);
  }

  lemma Continue(r: System, s: System, op: Operation, target: nat, t: System)
    requires Reaches(r, s) && s.aggregate.Some?
    requires PlanTransition(s.aggregate.value, op, target).Applied?
    requires (op == Rollback ==> Passes(s, target)) && (op == Update ==> target == s.aggregate.value.latest + 1)
    requires t == Commit(s, PlanTransition(s.aggregate.value, op, target).plan, op)
    ensures Reaches(r, t)
  {
    hide Reaches, PlanTransition, Commit;
    Undisturbed(s, op, target);
    ReachesJoin(r, s, t);
  }

  // ---- when a revoked version can return ----

  /** Out of a revoked aggregate every path goes through a rollback to a version that passed the gate at the start. */
  lemma {:induction false} ExitNeedsAnother(s: System, es: seq<Event>, t: System, v: nat)
    requires Inv(s) && s.aggregate.Some? && s.aggregate.value.state == Revoked && s.aggregate.value.published == v
    requires Run(s, es, t) && Served(t, v)
    ensures exists w :: w != v && Passes(s, w)
    decreases |es|
  {
    if es != [] {
      var e := es[0];
      if e.Apply? {
        assert Fenced(s, s.commands[e.c]);
        assert Passes(s, s.commands[e.c].target) && s.commands[e.c].target != v;
      } else {
        var n := Next(s, e);
        StepKeeps(s, e);
        hide Inv;
        assert n.aggregate == s.aggregate && n.revisions == s.revisions;
        ExitNeedsAnother(n, es[1..], t, v);
        var w :| w != v && Passes(n, w);
        assert Passes(s, w);
      }
    }
  }

  /** One rollback to another version and one back. */
  lemma TwoRollbacks(s: System, v: nat, w: nat)
    requires Inv(s) && s.aggregate.Some? && s.aggregate.value.state == Revoked && s.aggregate.value.published == v
    requires w != v && Passes(s, w)
    ensures exists t :: Reaches(s, t) && Served(t, v)
  {
    var t1 := Commit(s, PlanTransition(s.aggregate.value, Rollback, w).plan, Rollback);
    Undisturbed(s, Rollback, w);
    assert v in t1.revisions && t1.revisions[v] == RevisionSuperseded;
    var t2 := Commit(t1, PlanTransition(t1.aggregate.value, Rollback, v).plan, Rollback);
    assert Served(t2, v);
    hide Reaches, Inv;
    Continue(s, t1, Rollback, v, t2);
  }

  /**
   Revocation is not final. In every reachable state with version v revoked, v can be live
   again if and only if some other version is neither a draft nor revoked.
   */
  lemma RevokedVersionReturnsExactly(es: seq<Event>, s: System, v: nat)
    requires Run(EMPTY, es, s) && s.aggregate.Some? && s.aggregate.value.state == Revoked
    requires s.aggregate.value.published == v
    ensures (exists t :: Reaches(s, t) && Served(t, v)) <==> exists w :: w != v && Passes(s, w)
  {
    RunKeeps(EMPTY, es, s);
    hide Inv, Passes, Served;
    if t :| Reaches(s, t) && Served(t, v) {
      var ds :| Run(s, ds, t);
      ExitNeedsAnother(s, ds, t, v);
    }
    if w :| w != v && Passes(s, w) { TwoRollbacks(s, v, w); }
  }

  // ---- witnesses ----

  /** A resting system: aggregate, revisions and the last operation; every version in `approved` was approved. */
  function At(a: Aggregate, revisions: map<nat, RevisionState>, approved: set<nat>, last: Operation): System {
    System(Some(a), revisions, map[], approved, Some(last))
  }

  function FirstApproved(): System { At(Aggregate(Approved, 2, 1, 1, 0), map[1 := RevisionApproved], {1}, Approve) }

  function FirstLive(): System { At(Aggregate(Published, 3, 1, 1, 1), map[1 := RevisionPublished], {1}, Publish) }

  /** The first version is live, and a second draft is saved. */
  function DraftOverLive(): System {
    At(Aggregate(Draft, 4, 2, 0, 1), map[1 := RevisionPublished, 2 := RevisionDraft], {1}, Update)
  }

  function SecondApproved(): System {
    At(Aggregate(Approved, 5, 2, 2, 1), map[1 := RevisionPublished, 2 := RevisionApproved], {1, 2}, Approve)
  }

  function SecondLive(): System {
    At(Aggregate(Published, 6, 2, 2, 2), map[1 := RevisionSuperseded, 2 := RevisionPublished], {1, 2}, Publish)
  }

  function ThirdDraft(): System {
    At(Aggregate(Draft, 7, 3, 0, 2), map[1 := RevisionSuperseded, 2 := RevisionPublished, 3 := RevisionDraft], {1, 2},
      Update)
  }

  function SecondRevoked(): System {
    At(Aggregate(Revoked, 8, 3, 0, 2), map[1 := RevisionSuperseded, 2 := RevisionRevoked, 3 := RevisionDraft], {1, 2},
      Revoke)
  }

  function FirstBack(): System {
    At(Aggregate(Published, 9, 3, 0, 1), map[1 := RevisionPublished, 2 := RevisionSuperseded, 3 := RevisionDraft],
      {1, 2}, Rollback)
  }

  lemma ReachFirstApproved()
    ensures Reaches(EMPTY, FirstApproved())
  {
    var s1 := Next(EMPTY, Create);
    assert Run(s1, [], s1) && Run(EMPTY, [Create], s1);
    hide Reaches;
    assert Reaches(EMPTY, s1);
    Continue(EMPTY, s1, Approve, 0, FirstApproved());
  }

  lemma ReachDraftOverLive()
    ensures Reaches(EMPTY, DraftOverLive())
  {
    hide Reaches;
    ReachFirstApproved();
    Continue(EMPTY, FirstApproved(), Publish, 0, FirstLive());
    Continue(EMPTY, FirstLive(), Update, 2, DraftOverLive());
  }

  lemma ReachSecondLive()
    ensures Reaches(EMPTY, SecondLive())
  {
    hide Reaches;
    ReachDraftOverLive();
    Continue(EMPTY, DraftOverLive(), Approve, 0, SecondApproved());
    Continue(EMPTY, SecondApproved(), Publish, 0, SecondLive());
  }

  lemma ReachSecondRevoked()
    ensures Reaches(EMPTY, SecondRevoked())
  {
    hide Reaches;
    ReachSecondLive();
    Continue(EMPTY, SecondLive(), Update, 3, ThirdDraft());
    Continue(EMPTY, ThirdDraft(), Revoke, 0, SecondRevoked());
  }

  /** Published but not served: saving a draft over a live version takes it out of service. */
  lemma PublishedMayBeUnserved() returns (s: System)
    ensures Reaches(EMPTY, s) && 1 in s.revisions && s.revisions[1] == RevisionPublished && !Served(s, 1)
  {
    ReachDraftOverLive();
    hide Reaches;
    s := DraftOverLive();
  }

  /** Served although a newer draft is open: a rollback out of revocation leaves the draft alone. */
  lemma ServedBesideNewerDraft() returns (s: System)
    ensures Reaches(EMPTY, s) && Served(s, 1) && 3 in s.revisions && s.revisions[3] == RevisionDraft
  {
    hide Reaches;
    ReachSecondRevoked();
    Continue(EMPTY, SecondRevoked(), Rollback, 1, FirstBack());
    s := FirstBack();
  }

  /** A revoked version with another one to fall back on returns. */
  lemma RevokedVersionMayReturn() returns (s: System, t: System)
    ensures Reaches(EMPTY, s) && 2 in s.revisions && s.revisions[2] == RevisionRevoked && Reaches(s, t) && Served(t, 2)
  {
    ReachSecondRevoked();
    s := SecondRevoked();
    var es :| Run(EMPTY, es, s);
    hide Reaches, Run;
    assert Passes(s, 1);
    RevokedVersionReturnsExactly(es, s, 2);
    t :| Reaches(s, t) && Served(t, 2);
  }

  /** The only version, once revoked, stays out of service for good. */
  lemma RevokedVersionMayBeGone() returns (s: System)
    ensures Reaches(EMPTY, s) && 1 in s.revisions && s.revisions[1] == RevisionRevoked
        && forall t :: Reaches(s, t) ==> !Served(t, 1)
  {
    ReachFirstApproved();
    s := At(Aggregate(Revoked, 4, 1, 1, 1), map[1 := RevisionRevoked], {1}, Revoke);
    hide Reaches;
    Continue(EMPTY, FirstApproved(), Publish, 0, FirstLive());
    Continue(EMPTY, FirstLive(), Revoke, 0, s);
    OnlyOneRevoked(s);
  }

  lemma OnlyOneRevoked(s: System)
    requires Reaches(EMPTY, s) && s == At(Aggregate(Revoked, 4, 1, 1, 1), map[1 := RevisionRevoked], {1}, Revoke)
    ensures forall t :: Reaches(s, t) ==> !Served(t, 1)
  {
    var es :| Run(EMPTY, es, s);
    assert forall w :: !Passes(s, w);
    hide Reaches, Run, Served;
    RevokedVersionReturnsExactly(es, s, 1);
  }
}
