/**
 Evaluate: filter the records, link shared lineage, let components vote, report.
 `Justified` says what the finding must be from the eligible records alone; the
 method meets it, and the theorems are about every finding that meets it.
 */
module Evaluation {
  import opened Base
  import opened Lineage
  import opened UnionFind
  import opened Linking
  import opened Voting
  import Text
  import Decimal

  const INCONCLUSIVE := "inconclusive"
  const NOT_SATISFIED := "not_satisfied"
  const SATISFIED := "satisfied"
  const UNAVAILABLE := "identity.input_unavailable"
  const MISMATCH := "identity.value_mismatch"
  const CONFLICTING := "identity.conflicting_values"
  const CORROBORATED := "identity.corroborated"

  ghost predicate Reports(f: Finding, state: string, reason: string) { f.state == state && f.reason == reason }

  ghost predicate Justified(rule: Requirement, records: seq<Record>, at: int, complete: bool, f: Finding) {
    && f.key == rule.key
    && if !complete then Reports(f, INCONCLUSIVE, UNAVAILABLE) && f.independentSources == 0 && f.recordIDs == []
       else
         && Text.Sorted(f.recordIDs) && multiset(f.recordIDs) == EligibleIDs(rule, records, at)
         && Decided(rule, EligibleSet(rule, records, at), f)
  }

  ghost predicate Decided(rule: Requirement, E: set<Record>, f: Finding) {
    if BooleanMissed(rule, E) then Reports(f, NOT_SATISFIED, MISMATCH) && f.independentSources == 0
    else
      && Independent(E, f.independentSources)
      && if !AllAgree(E) then Reports(f, NOT_SATISFIED, CONFLICTING)
         else if E != {} && rule.minimumSources <= f.independentSources then Reports(f, SATISFIED, CORROBORATED)
         else Reports(f, INCONCLUSIVE, UNAVAILABLE)
  }

  // ---- the method ----

  method FromAcceptedSources(rule: Requirement, r: Record) returns (accepted: bool)
    ensures accepted == (|r.sourceClasses| > 0 && forall c :: c in r.sourceClasses ==> c in rule.sourceClasses)
  {
    accepted := |r.sourceClasses| > 0;
    for i := 0 to |r.sourceClasses|
      invariant accepted == (|r.sourceClasses| > 0 && forall k :: 0 <= k < i ==>
          r.sourceClasses[k] in rule.sourceClasses)
    {
      if r.sourceClasses[i] !in rule.sourceClasses { accepted := false; }
    }
  }

  /** The eligibility filter: exactly the eligible records, in order, with their identifiers. */
  method Filter(rule: Requirement, records: seq<Record>, at: int) returns (e: seq<Record>, ids: seq<string>)
    ensures Rooted(e) && Members(e) == EligibleSet(rule, records, at) && multiset(ids) == EligibleIDs(rule, records, at)
  {
    e, ids := [], [];
    for i := 0 to |records|
      invariant Rooted(e) && Members(e) == EligibleSet(rule, records[..i], at)
      invariant multiset(ids) == EligibleIDs(rule, records[..i], at)
    {
      var r := records[i];
      assert records[..i + 1][..i] == records[..i];
      var accepted := FromAcceptedSources(rule, r);
      if r.kind != "fact" || r.name != rule.factName || r.valueType != rule.valueType || r.unit != rule.unit
          || !r.current
         || !r.available || r.value.None? || at < r.validFrom || !(at < r.validUntil) || !(at < r.retainUntil) {
        FilterStep(rule, records, at, i, e);
        continue;
      }
      if rule.maximumAgeSeconds > 0 && !(at < r.observedAt + rule.maximumAgeSeconds * SECOND) {
        FilterStep(rule, records, at, i, e);
        continue;
      }
      if rule.requireFreshness && (r.freshUntil.None? || !(at < r.freshUntil.value)) {
        FilterStep(rule, records, at, i, e);
        continue;
      }
      if rule.minimumConfidence > 0 && (r.confidence.None? || r.confidence.value < rule.minimumConfidence) {
        FilterStep(rule, records, at, i, e);
        continue;
      }
      FilterStep(rule, records, at, i, e);
      if accepted && |r.lineageRoots| > 0 {
        e := e + [r];
        ids := ids + [r.id];
      }
    }
    assert records[..|records|] == records;
  }

  lemma FilterStep(rule: Requirement, records: seq<Record>, at: int, i: nat, e: seq<Record>)
    requires i < |records| && Rooted(e) && Members(e) == EligibleSet(rule, records[..i], at)
    ensures var e' := if Eligible(rule, records[i], at) then e + [records[i]] else e;
            Rooted(e') && Members(e') == EligibleSet(rule, records[..i + 1], at)
    ensures EligibleIDs(rule, records[..i + 1], at)
         == EligibleIDs(rule, records[..i], at) + (if Eligible(rule, records[i], at) then multiset{records[i].id}
           else multiset{})
  {
    var r := records[i];
    assert records[..i + 1] == records[..i] + [r] && records[..i + 1][..i] == records[..i];
    assert Members(e + [r]) == Members(e) + {r};
    assert EligibleSet(rule, records[..i + 1], at) == EligibleSet(rule, records[..i], at) + (if Eligible(rule, r, at)
        then {r} else {});
  }

  method Mismatched(e: seq<Record>, expected: bool) returns (found: bool)
    requires Rooted(e)
    ensures found == exists k :: 0 <= k < |e| && e[k].value.value.text != FormatBool(expected)
  {
    for i := 0 to |e|
      invariant forall k :: 0 <= k < i ==> e[k].value.value.text == FormatBool(expected)
    {
      if e[i].value.value.text != FormatBool(expected) { return true; }
    }
    return false;
  }

  method Evaluate(rule: Requirement, records: seq<Record>, at: int, complete: bool) returns (f: Finding)
    ensures Justified(rule, records, at, complete, f)
  {
    f := Finding(rule.key, INCONCLUSIVE, UNAVAILABLE, 0, []);
    if !complete { return; }
    var e, ids := Filter(rule, records, at);
    ghost var E := EligibleSet(rule, records, at);
    if rule.expectedBoolean.Some? {
      var missed := Mismatched(e, rule.expectedBoolean.value);
      MissedAmong(rule, e);
      if missed {
        return f.(state := NOT_SATISFIED, reason := MISMATCH, recordIDs := Text.Sort(ids));
      }
    }
    f := f.(recordIDs := Text.Sort(ids));
    if |e| == 0 {
      NothingEligible(E);
      return;
    }
    assert e[0] in Members(e);
    var n, disagree := Corroborate(e);
    f := f.(independentSources := n);
    if disagree {
      return f.(state := NOT_SATISFIED, reason := CONFLICTING);
    }
    if rule.minimumSources <= n {
      f := f.(state := SATISFIED, reason := CORROBORATED);
    }
  }

  lemma MissedAmong(rule: Requirement, e: seq<Record>)
    requires Rooted(e) && rule.expectedBoolean.Some?
    ensures BooleanMissed(rule, Members(e)) <==>
        exists k :: 0 <= k < |e| && e[k].value.value.text != FormatBool(rule.expectedBoolean.value)
  {
    if k :| 0 <= k < |e| && e[k].value.value.text != FormatBool(rule.expectedBoolean.value) {
      assert e[k] in Members(e);
    }
  }

  lemma NothingEligible(E: set<Record>)
    requires E == {}
    ensures Independent(E, 0)
  {
    forall v ensures Supporters(E, v) == {} {}
  }

  /** The union-find, the vote and the tally together. */
  method Corroborate(e: seq<Record>) returns (n: nat, disagree: bool)
    requires Rooted(e)
    ensures Independent(Members(e), n) && disagree == !AllAgree(Members(e))
  {
    hide Rooted, Forest, Partitions, Voted, Counted, AllAgree, Independent;
    var parent, rep, ord := LinkShared(e);
    var values, conflict := Vote(parent, e, rep, ord);
    var counts := Tally(values, conflict);
    n := Largest(counts);
    disagree := |conflict| > 0 || |counts| > 1;
    AgreementSeen(e, rep, values, conflict, counts);
    TallyIsIndependence(e, rep, values, conflict, counts, n);
  }

  lemma TallyIsIndependence(
    e: seq<Record>, rep: seq<int>, values: map<int, Value>, conflict: set<int>, counts: map<Value, nat>, n: nat)
    requires Rooted(e) && Partitions(e, rep) && Voted(Ballots(e), rep, |e|, values, conflict)
    requires Counted(values, conflict, values.Keys, counts)
    requires forall v :: v in counts ==> counts[v] <= n
    requires n == 0 || exists v :: v in counts && counts[v] == n
    ensures Independent(Members(e), n)
  {
    hide Rooted, Partitions, Voted, Supporters, Backers;
    forall v ensures |Supporters(Members(e), v)| == if v in counts then counts[v] else 0 {
      BackersAreSupporters(e, rep, values, conflict, v);
    }
  }

  // ---- what every justified finding satisfies ----

  /** Eligible records decide the count uniquely. */
  lemma IndependentUnique(E: set<Record>, m: nat, n: nat)
    requires Independent(E, m) && Independent(E, n)
    ensures m == n
  {
  }

  lemma {:induction false} EligibleIDsJoin(rule: Requirement, a: seq<Record>, b: seq<Record>, at: int)
    ensures EligibleIDs(rule, a + b, at) == EligibleIDs(rule, a, at) + EligibleIDs(rule, b, at)
    decreases |b|
  {
    if b == [] {
      assert a + b == a;
    } else {
      var front := b[..|b| - 1];
      assert (a + b)[..|a + b| - 1] == a + front;
      EligibleIDsJoin(rule, a, front, at);
    }
  }

  ghost function Without(b: seq<Record>, k: nat): seq<Record>
    requires k < |b|
  {
    b[..k] + b[k + 1..]
  }

  lemma EligibleIDsWithout(rule: Requirement, b: seq<Record>, k: nat, at: int)
    requires k < |b|
    ensures EligibleIDs(rule, b, at) == EligibleIDs(rule, Without(b, k), at) + EligibleIDs(rule, [b[k]], at)
    ensures multiset(Without(b, k)) == multiset(b) - multiset{b[k]} && |Without(b, k)| < |b|
  {
    hide EligibleIDs;
    assert b == b[..k] + [b[k]] + b[k + 1..];
    EligibleIDsJoin(rule, b[..k] + [b[k]], b[k + 1..], at);
    EligibleIDsJoin(rule, b[..k], [b[k]], at);
    EligibleIDsJoin(rule, b[..k], b[k + 1..], at);
  }

  lemma {:induction false} EligibleIDsReordered(rule: Requirement, a: seq<Record>, b: seq<Record>, at: int)
    requires multiset(a) == multiset(b)
    ensures EligibleIDs(rule, a, at) == EligibleIDs(rule, b, at)
    decreases |a|
  {
    if a == [] {
      assert |b| == |multiset(b)| == |multiset(a)| == 0;
    } else {
      assert a[0] in multiset(b);
      var k :| 0 <= k < |b| && b[k] == a[0];
      hide EligibleIDs, Without;
      EligibleIDsWithout(rule, a, 0, at);
      EligibleIDsWithout(rule, b, k, at);
      EligibleIDsReordered(rule, Without(a, 0), Without(b, k), at);
    }
  }

  /**
   The whole finding is a function of the multiset of records: neither the order of the
   records nor the order in which maps are walked can change any field of it.
   */
  lemma FindingIgnoresOrder(
    rule: Requirement, a: seq<Record>, b: seq<Record>, at: int, complete: bool, f: Finding, g: Finding)
    requires multiset(a) == multiset(b)
    requires Justified(rule, a, at, complete, f) && Justified(rule, b, at, complete, g)
    ensures f == g
  {
    if complete {
      assert forall r :: r in a <==> r in multiset(a);
      assert forall r :: r in b <==> r in multiset(b);
      assert EligibleSet(rule, a, at) == EligibleSet(rule, b, at);
      EligibleIDsReordered(rule, a, b, at);
      Text.SortedUnique(f.recordIDs, g.recordIDs);
      hide Independent, AllAgree;
      if !BooleanMissed(rule, EligibleSet(rule, a, at)) {
        IndependentUnique(EligibleSet(rule, a, at), f.independentSources, g.independentSources);
      }
    }
  }

  /** Under agreement every component supports the common value. */
  lemma AgreementCountsComponents(E: set<Record>, n: nat)
    requires AllAgree(E) && E != {} && Independent(E, n) && forall r :: r in E ==> r.value.Some?
    ensures n == |Components(E)|
  {
    var r :| r in E;
    var v := r.value.value;
    forall C | C in Components(E) ensures Unanimous(C, v) {}
    assert Supporters(E, v) == Components(E);
    forall w | w != v ensures Supporters(E, w) == {} {
      forall C | C in Components(E) ensures !Unanimous(C, w) {
        var a := ComponentHasMember(E, C);
      }
    }
    assert |Supporters(E, v)| <= n;
  }

  /** Every eligible record carries the text that an expected boolean demands. */
  ghost predicate MeetsBoolean(rule: Requirement, E: set<Record>) {
    && (rule.expectedBoolean == Some(true) ==> forall r :: r in E ==> r.value.Some? && r.value.value.text == "true")
    && (rule.expectedBoolean == Some(false) ==> forall r :: r in E ==> r.value.Some? && r.value.value.text == "false")
  }

  lemma MissedUnlessMet(rule: Requirement, records: seq<Record>, at: int)
    ensures var E := EligibleSet(rule, records, at); BooleanMissed(rule, E) <==> !MeetsBoolean(rule, E)
  {
    var E := EligibleSet(rule, records, at);
    assert forall r :: r in E ==> r.value.Some?;
    match rule.expectedBoolean {
      case None =>
      case Some(b) => assert FormatBool(b) == if b then "true" else "false";
    }
  }

  /** Satisfied means exactly: complete, something eligible, any expected boolean met, one value, enough components. */
  lemma SatisfiedExactly(rule: Requirement, records: seq<Record>, at: int, complete: bool, f: Finding)
    requires Justified(rule, records, at, complete, f)
    ensures f.state == "satisfied" <==>
            var E := EligibleSet(rule, records, at);
            complete && E != {} && MeetsBoolean(rule, E) && AllAgree(E) && rule.minimumSources <= |Components(E)|
    ensures f.state == "satisfied" ==>
      f.reason == "identity.corroborated" && f.independentSources == |Components(EligibleSet(rule, records, at))|
  {
    var E := EligibleSet(rule, records, at);
    MissedUnlessMet(rule, records, at);
    if complete && E != {} && MeetsBoolean(rule, E) && AllAgree(E) {
      AgreementCountsComponents(E, f.independentSources);
    }
  }

  /** Not satisfied means exactly: a missed boolean, or else two values. */
  lemma NotSatisfiedExactly(rule: Requirement, records: seq<Record>, at: int, complete: bool, f: Finding)
    requires Justified(rule, records, at, complete, f)
    ensures var E := EligibleSet(rule, records, at);
            && (f.reason == "identity.value_mismatch" <==> complete && !MeetsBoolean(rule, E))
            && (f.reason == "identity.conflicting_values" <==> complete && MeetsBoolean(rule, E) && !AllAgree(E))
            && (f.state == "not_satisfied" <==> complete && !(MeetsBoolean(rule, E) && AllAgree(E)))
  {
    MissedUnlessMet(rule, records, at);
  }

  /** Anything else is inconclusive, and only an incomplete input keeps the identifiers back. */
  lemma InconclusiveOtherwise(rule: Requirement, records: seq<Record>, at: int, complete: bool, f: Finding)
    requires Justified(rule, records, at, complete, f)
    ensures f.state == "inconclusive" <==> f.reason == "identity.input_unavailable"
    ensures f.state in {"satisfied", "not_satisfied", "inconclusive"} && f.key == rule.key
    ensures multiset(f.recordIDs) == if complete then EligibleIDs(rule, records, at) else multiset{}
    ensures !complete ==> f.independentSources == 0
  {
  }

  /** A bound on the age admits exactly the otherwise eligible records younger than that many seconds. */
  lemma AgeExactly(rule: Requirement, r: Record, at: int)
    requires rule.maximumAgeSeconds > 0
    ensures Eligible(rule, r, at) <==>
        Eligible(rule.(maximumAgeSeconds := 0), r, at) && at - r.observedAt < rule.maximumAgeSeconds * 1_000_000
  {
  }

  ghost predicate DisjointRoots(a: Record, b: Record) { forall g :: !(g in a.lineageRoots && g in b.lineageRoots) }

  ghost function Chosen(E: set<Record>, C: set<Record>): (r: Record)
    requires C in Components(E)
    ensures r in C && r in E && C == Component(E, r)
  {
    var a :| a in E && C == Component(E, a);
    ConnectedReflexive(E, a);
    a
  }

  /** One record per component: no two of them share a lineage root. */
  lemma OnePerComponent(E: set<Record>) returns (P: set<Record>)
    ensures P <= E && |P| == |Components(E)|
    ensures forall a, b :: a in P && b in P && a != b ==> DisjointRoots(a, b)
  {
    var f := map C | C in Components(E) :: Chosen(E, C);
    P := f.Values;
    assert f.Keys == Components(E);
    Bijects(f);
    forall a, b | a in P && b in P && a != b ensures DisjointRoots(a, b) {
      var C := KeyOf(f, a);
      var D := KeyOf(f, b);
      if Linked(a, b) {
        ConnectedLink(E, a, b);
        ComponentsEqual(E, a, b);
        assert false;
      }
    }
  }

  /** A satisfied finding rests on that many eligible records with pairwise disjoint lineage, all of one value. */
  lemma SatisfiedHasDisjointSources(
    rule: Requirement, records: seq<Record>, at: int, complete: bool, f: Finding) returns (P: set<Record>)
    requires Justified(rule, records, at, complete, f) && f.state == "satisfied"
    ensures |P| >= rule.minimumSources && P <= EligibleSet(rule, records, at)
    ensures forall a, b :: a in P && b in P ==> a.value == b.value && (a != b ==> DisjointRoots(a, b))
  {
    SatisfiedExactly(rule, records, at, complete, f);
    P := OnePerComponent(EligibleSet(rule, records, at));
  }

  // ---- a bridge cannot create independence ----

  lemma {:induction false} ConnectedGrows(E: set<Record>, F: set<Record>, a: Record, b: Record)
    requires Connected(E, a, b) && E <= F
    ensures Connected(F, a, b)
  {
    var path :| Chain(E, path) && path[0] == a && path[|path| - 1] == b;
    assert Chain(F, path);
  }

  /** Every component of the larger graph contains one of the old records. */
  lemma OldMember(E: set<Record>, x: Record, y: Record, C: set<Record>) returns (m: Record)
    requires y in E && Linked(x, y) && C in Components(E + {x})
    ensures m in E && m in C
  {
    m := ComponentHasMember(E + {x}, C);
    if m !in E {
      ConnectedLink(E + {x}, x, y);
      m := y;
    }
  }

  /** The component of an old record, before and after x was added. */
  lemma ComponentGrows(E: set<Record>, x: Record, m: Record)
    requires m in E
    ensures Component(E, m) <= Component(E + {x}, m)
  {
    forall b | b in Component(E, m) ensures b in Component(E + {x}, m) { ConnectedGrows(E, E + {x}, m, b); }
  }

  ghost predicate Shrinks(E: set<Record>, x: Record, v: Value, C: set<Record>, D: set<Record>) {
    C in Components(E + {x}) && D in Supporters(E, v) && D <= C
  }

  /** A supporter after the bridge contains a supporter from before it. */
  lemma SupporterShrinks(E: set<Record>, x: Record, y: Record, v: Value, C: set<Record>)
    requires y in E && Linked(x, y) && C in Supporters(E + {x}, v)
    ensures exists D :: Shrinks(E, x, v, C, D)
  {
    var m := OldMember(E, x, y, C);
    ComponentOfMember(E + {x}, C, m);
    ComponentGrows(E, x, m);
    assert Shrinks(E, x, v, C, Component(E, m));
  }

  lemma BridgeSupporters(E: set<Record>, x: Record, y: Record, v: Value)
    requires y in E && Linked(x, y)
    ensures |Supporters(E + {x}, v)| <= |Supporters(E, v)|
  {
    forall C | C in Supporters(E + {x}, v) ensures exists D :: Shrinks(E, x, v, C, D) {
      SupporterShrinks(E, x, y, v, C);
    }
    var f := map C | C in Supporters(E + {x}, v) :: var D :| Shrinks(E, x, v, C, D); D;
    forall C, C' | C in f && C' in f && f[C] == f[C'] ensures C == C' {
      var a := ComponentHasMember(E, f[C]);
      ComponentOfMember(E + {x}, C, a);
      ComponentOfMember(E + {x}, C', a);
    }
    assert OneToOne(f);
    assert f.Keys == Supporters(E + {x}, v);
    Injects(f, Supporters(E, v));
  }

  /** Adding an eligible record that shares a lineage root with an eligible one never raises the source count. */
  lemma BridgeAddsNoIndependence(
    rule: Requirement, records: seq<Record>, x: Record, y: Record, at: int, complete: bool, f: Finding, g: Finding)
    requires Eligible(rule, x, at) && y in EligibleSet(rule, records, at) && Linked(x, y)
    requires Justified(rule, records, at, complete, f) && Justified(rule, records + [x], at, complete, g)
    ensures g.independentSources <= f.independentSources
  {
    var E := EligibleSet(rule, records, at);
    assert EligibleSet(rule, records + [x], at) == E + {x};
    if complete && !BooleanMissed(rule, E + {x}) {
      hide Supporters, AllAgree;
      var n := g.independentSources;
      if n > 0 {
        var v :| |Supporters(E + {x}, v)| == n;
        BridgeSupporters(E, x, y, v);
        assert |Supporters(E, v)| <= f.independentSources;
      }
    }
  }

  // ---- decimals ----

  ghost predicate DecimalFacts(E: set<Record>) {
    forall r :: r in E ==> r.value.Some? && r.value.value.kind == "decimal" && Decimal.Accepted(r.value.value.text)
  }

  /**
   On validated decimals, agreeing as texts is agreeing as numbers: the comparison misses no
   equality and invents none.
   */
  lemma DecimalsAgreeAsNumbers(E: set<Record>)
    requires DecimalFacts(E)
    ensures AllAgree(E) <==> forall a, b :: a in E && b in E ==> Decimal.Denote(a.value.value.text, b.value.value.text)
  {
    forall a, b | a in E && b in E
      ensures a.value == b.value <==> Decimal.Denote(a.value.value.text, b.value.value.text)
    {
      Decimal.AcceptedUnique(a.value.value.text, b.value.value.text);
    }
  }
}
