/**
 What corroboration means, independently of how it is computed: eligible records,
 the graph of shared lineage roots, its components and their votes.
 */
module Lineage {
  import opened Base

  datatype Value = Value(kind: string, text: string)

  datatype Record = Record(
    id: string, kind: string, name: string, valueType: string, unit: string,
    current: bool, available: bool, value: Option<Value>,
    validFrom: int, validUntil: int, retainUntil: int, observedAt: int,
    freshUntil: Option<int>, confidence: Option<int>,
    sourceClasses: seq<string>, lineageRoots: seq<string>)

  /** Times are microseconds; the maximum age is given in seconds. */
  datatype Requirement = Requirement(
    key: string, factName: string, valueType: string, unit: string,
    minimumSources: int, minimumConfidence: int, maximumAgeSeconds: int, requireFreshness: bool,
    expectedBoolean: Option<bool>, sourceClasses: seq<string>)

  datatype Finding = Finding(key: string, state: string, reason: string, independentSources: nat,
      recordIDs: seq<string>)

  const SECOND: int := 1_000_000

  predicate Eligible(rule: Requirement, r: Record, at: int) {
    && r.kind == "fact" && r.name == rule.factName && r.valueType == rule.valueType && r.unit == rule.unit
    && r.current && r.available && r.value.Some?
    && r.validFrom <= at < r.validUntil && at < r.retainUntil
    && (rule.maximumAgeSeconds > 0 ==> at < r.observedAt + rule.maximumAgeSeconds * SECOND)
    && (rule.requireFreshness ==> r.freshUntil.Some? && at < r.freshUntil.value)
    && (rule.minimumConfidence > 0 ==> r.confidence.Some? && rule.minimumConfidence <= r.confidence.value)
    && |r.sourceClasses| > 0 && (forall c :: c in r.sourceClasses ==> c in rule.sourceClasses)
    && |r.lineageRoots| > 0
  }

  // ---- connectivity ----

  ghost predicate Linked(a: Record, b: Record) { exists g :: g in a.lineageRoots && g in b.lineageRoots }

  ghost predicate Chain(E: set<Record>, path: seq<Record>) {
    && |path| > 0 && (forall i :: 0 <= i < |path| ==> path[i] in E)
    && forall i :: 0 <= i < |path| - 1 ==> Linked(path[i], path[i + 1])
  }

  /** Joined by a chain of eligible records in which neighbours share a lineage root. */
  ghost predicate Connected(E: set<Record>, a: Record, b: Record) {
    exists path :: Chain(E, path) && path[0] == a && path[|path| - 1] == b
  }

  lemma ConnectedReflexive(E: set<Record>, a: Record)
    requires a in E
    ensures Connected(E, a, a)
  {
    assert Chain(E, [a]);
  }

  lemma ConnectedLink(E: set<Record>, a: Record, b: Record)
    requires a in E && b in E && Linked(a, b)
    ensures Connected(E, a, b)
  {
    assert Chain(E, [a, b]);
  }

  ghost function Reversed(path: seq<Record>): seq<Record> {
    seq(|path|, i requires 0 <= i < |path| => path[|path| - 1 - i])
  }

  lemma ConnectedSymmetric(E: set<Record>, a: Record, b: Record)
    requires Connected(E, a, b)
    ensures Connected(E, b, a)
  {
    var path :| Chain(E, path) && path[0] == a && path[|path| - 1] == b;
    var back := Reversed(path);
    forall i | 0 <= i < |back| - 1 ensures Linked(back[i], back[i + 1]) {
      assert Linked(path[|path| - 2 - i], path[|path| - 2 - i + 1]);
    }
    assert Chain(E, back);
  }

  lemma ChainsJoin(E: set<Record>, p: seq<Record>, q: seq<Record>)
    requires Chain(E, p) && Chain(E, q) && p[|p| - 1] == q[0]
    ensures var joined := p + q[1..];
            Chain(E, joined) && joined[0] == p[0] && joined[|joined| - 1] == q[|q| - 1]
  {
    hide Linked;
    var joined := p + q[1..];
    forall i | 0 <= i < |joined| - 1 ensures Linked(joined[i], joined[i + 1]) {
      if i >= |p| - 1 { assert Linked(q[i - |p| + 1], q[i - |p| + 2]); }
    }
  }

  lemma ConnectedTransitive(E: set<Record>, a: Record, b: Record, c: Record)
    requires Connected(E, a, b) && Connected(E, b, c)
    ensures Connected(E, a, c)
  {
    var p :| Chain(E, p) && p[0] == a && p[|p| - 1] == b;
    var q :| Chain(E, q) && q[0] == b && q[|q| - 1] == c;
    ChainsJoin(E, p, q);
  }

  // ---- components and votes ----

  ghost function Component(E: set<Record>, a: Record): set<Record> { set b | b in E && Connected(E, a, b) }

  ghost function Components(E: set<Record>): set<set<Record>> { set a | a in E :: Component(E, a) }

  ghost predicate Unanimous(C: set<Record>, v: Value) { forall r :: r in C ==> r.value == Some(v) }

  /** The components all of whose records carry v: a component in conflict supports nothing. */
  ghost function Supporters(E: set<Record>, v: Value): set<set<Record>> {
    set C | C in Components(E) && Unanimous(C, v)
  }

  /** n is the largest number of components that support one and the same value. */
  ghost predicate Independent(E: set<Record>, n: nat) {
    && (forall v :: |Supporters(E, v)| <= n)
    && (n == 0 || exists v :: |Supporters(E, v)| == n)
  }

  ghost predicate AllAgree(E: set<Record>) { forall a, b :: a in E && b in E ==> a.value == b.value }

  ghost function EligibleSet(rule: Requirement, records: seq<Record>, at: int): set<Record> {
    set r | r in records && Eligible(rule, r, at)
  }

  /** The identifiers of the eligible records, each as often as it occurs. */
  ghost function EligibleIDs(rule: Requirement, records: seq<Record>, at: int): multiset<string> {
    if records == [] then multiset{}
    else
      var last := records[|records| - 1];
      EligibleIDs(rule, records[..|records| - 1], at) + (if Eligible(rule, last, at) then multiset{last.id}
        else multiset{})
  }

  function FormatBool(b: bool): string { if b then "true" else "false" }

  ghost predicate BooleanMissed(rule: Requirement, E: set<Record>) {
    && rule.expectedBoolean.Some?
    && exists r :: r in E && r.value.Some? && r.value.value.text != FormatBool(rule.expectedBoolean.value)
  }

  // ---- facts about components ----

  lemma ComponentsEqual(E: set<Record>, a: Record, b: Record)
    requires a in E && b in E
    ensures Component(E, a) == Component(E, b) <==> Connected(E, a, b)
  {
    if Connected(E, a, b) {
      ConnectedSymmetric(E, a, b);
      forall c | c in E ensures Connected(E, a, c) <==> Connected(E, b, c) {
        if Connected(E, a, c) { ConnectedTransitive(E, b, a, c); }
        if Connected(E, b, c) { ConnectedTransitive(E, a, b, c); }
      }
    } else {
      ConnectedReflexive(E, b);
      assert b in Component(E, b) && b !in Component(E, a);
    }
  }

  lemma ComponentOfMember(E: set<Record>, C: set<Record>, a: Record)
    requires C in Components(E) && a in C
    ensures a in E && C == Component(E, a)
  {
    var b :| b in E && C == Component(E, b);
    ComponentsEqual(E, b, a);
  }

  lemma ComponentHasMember(E: set<Record>, C: set<Record>) returns (a: Record)
    requires C in Components(E)
    ensures a in C && a in E && C == Component(E, a)
  {
    a :| a in E && C == Component(E, a);
    ConnectedReflexive(E, a);
  }

  // ---- counting through maps ----

  ghost predicate OneToOne<A, B>(f: map<A, B>) { forall x, y :: x in f && y in f && f[x] == f[y] ==> x == y }

  lemma KeyOf<A, B>(f: map<A, B>, y: B) returns (x: A)
    requires y in f.Values
    ensures x in f && f[x] == y
  {
    x :| x in f && f[x] == y;
  }

  lemma {:induction false} Injects<A, B>(f: map<A, B>, T: set<B>)
    requires OneToOne(f) && f.Values <= T
    ensures |f.Keys| <= |T|
    decreases |f.Keys|
  {
    if f.Keys != {} {
      var x :| x in f;
      var rest := f - {x};
      assert rest.Keys == f.Keys - {x};
      forall y | y in rest.Values ensures y in T - {f[x]} {
        var z :| z in rest && rest[z] == y;
      }
      Injects(rest, T - {f[x]});
    }
  }

  lemma {:induction false} Bijects<A, B>(f: map<A, B>)
    requires OneToOne(f)
    ensures |f.Keys| == |f.Values|
    decreases |f.Keys|
  {
    if f.Keys != {} {
      var x :| x in f;
      var rest := f - {x};
      assert rest.Keys == f.Keys - {x};
      forall y | y in f.Values - {f[x]} ensures y in rest.Values {
        var z :| z in f && f[z] == y;
        assert rest[z] == y;
      }
      forall y | y in rest.Values ensures y in f.Values - {f[x]} {
        var z :| z in rest && rest[z] == y;
        assert f[z] == y;
      }
      assert rest.Values == f.Values - {f[x]};
      Bijects(rest);
    } else {
      assert f.Values == {};
    }
  }
}
