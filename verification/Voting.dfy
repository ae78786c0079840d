/**
 The voting loops of Evaluate: each class casts its value unless it is in conflict,
 and the tally per value is the number of supporting components.
 */
module Voting {
  import opened Lineage
  import opened UnionFind
  import opened Linking

  ghost function Ballots(e: seq<Record>): (w: seq<Value>)
    requires Rooted(e)
    ensures |w| == |e|
  {
    seq(|e|, i requires 0 <= i < |e| => e[i].value.value)
  }

  /** Some record among the first n of group g carries v. */
  ghost predicate Cast(w: seq<Value>, rep: seq<int>, n: nat, g: int, v: Value) {
    exists k :: 0 <= k < n && k < |w| && k < |rep| && rep[k] == g && w[k] == v
  }

  /** Every record among the first n of group g carries v. */
  ghost predicate Only(w: seq<Value>, rep: seq<int>, n: nat, g: int, v: Value) {
    forall k :: 0 <= k < n && k < |w| && k < |rep| && rep[k] == g ==> w[k] == v
  }

  /** The running vote over the first n records. */
  ghost predicate Voted(w: seq<Value>, rep: seq<int>, n: nat, values: map<int, Value>, conflict: set<int>) {
    && conflict <= values.Keys
    && (forall k :: 0 <= k < n && k < |rep| ==> rep[k] in values)
    && (forall g :: g in values ==> Cast(w, rep, n, g, values[g]))
    && (forall g :: g in values ==> (g in conflict <==> !Only(w, rep, n, g, values[g])))
  }

  ghost function AfterVote(values: map<int, Value>, conflict: set<int>, g: int, v: Value): set<int> {
    if g in values && values[g] != v then conflict + {g} else conflict
  }

  lemma CastOther(w: seq<Value>, rep: seq<int>, n: nat, g: int, v: Value)
    requires n < |w| == |rep| && rep[n] != g
    ensures Cast(w, rep, n + 1, g, v) == Cast(w, rep, n, g, v)
    ensures Only(w, rep, n + 1, g, v) == Only(w, rep, n, g, v)
  {
  }

  lemma CastSame(w: seq<Value>, rep: seq<int>, n: nat)
    requires n < |w| == |rep|
    ensures Cast(w, rep, n + 1, rep[n], w[n])
    ensures Only(w, rep, n + 1, rep[n], w[n]) == Only(w, rep, n, rep[n], w[n])
  {
  }

  /** With one value v cast before, a new ballot x leaves a group unanimous only if it was and x is v. */
  lemma OnlySame(w: seq<Value>, rep: seq<int>, n: nat, g: int, v: Value, x: Value)
    requires Cast(w, rep, n, g, v)
    ensures Only(w, rep, n, g, x) <==> Only(w, rep, n, g, v) && x == v
  {
  }

  lemma VoteStep(w: seq<Value>, rep: seq<int>, n: nat, values: map<int, Value>, conflict: set<int>)
    requires n < |w| == |rep| && Voted(w, rep, n, values, conflict)
    ensures Voted(w, rep, n + 1, values[rep[n] := w[n]], AfterVote(values, conflict, rep[n], w[n]))
  {
    hide Cast, Only;
    var g, v := rep[n], w[n];
    var values', conflict' := values[g := v], AfterVote(values, conflict, g, v);
    CastSame(w, rep, n);
    forall h | h in values'
      ensures Cast(w, rep, n + 1, h, values'[h]) && (h in conflict' <==> !Only(w, rep, n + 1, h, values'[h]))
    {
      if h != g {
        CastOther(w, rep, n, h, values[h]);
      } else if g in values {
        OnlySame(w, rep, n, g, values[g], v);
      } else {
        FirstBallot(w, rep, n, g, v, values);
      }
    }
  }

  lemma FirstBallot(w: seq<Value>, rep: seq<int>, n: nat, g: int, v: Value, values: map<int, Value>)
    requires g !in values && forall k :: 0 <= k < n && k < |rep| ==> rep[k] in values
    ensures Only(w, rep, n, g, v)
  {
  }

  /** The per-component vote: a component in conflict is exactly one holding two different values. */
  method Vote(parent: array<int>, e: seq<Record>, ghost rep: seq<int>, ghost ord: seq<nat>)
    returns (values: map<int, Value>, conflict: set<int>)
    requires Rooted(e) && parent.Length == |e| == |rep| && Forest(parent[..], rep, ord)
    modifies parent
    ensures Forest(parent[..], rep, ord) && Voted(Ballots(e), rep, |e|, values, conflict)
  {
    hide Voted, Forest, Cast, Only;
    ghost var w := Ballots(e);
    values, conflict := map[], {};
    NoBallots(w, rep);
    var i := 0;
    while i < |e|
      invariant 0 <= i <= |e| && Forest(parent[..], rep, ord) && Voted(w, rep, i, values, conflict)
    {
      var g := Root(parent, i, rep, ord);
      var v := e[i].value.value;
      VoteStep(w, rep, i, values, conflict);
      if g in values && values[g] != v { conflict := conflict + {g}; }
      values := values[g := v];
      i := i + 1;
    }
  }

  lemma NoBallots(w: seq<Value>, rep: seq<int>)
    ensures Voted(w, rep, 0, map[], {})
  {
  }

  ghost function Backers(values: map<int, Value>, conflict: set<int>, done: set<int>, v: Value): set<int> {
    set g | g in done && g in values && g !in conflict && values[g] == v
  }

  /** The tally over the groups seen so far. */
  ghost predicate Counted(values: map<int, Value>, conflict: set<int>, done: set<int>, counts: map<Value, nat>) {
    forall v :: (if v in counts then counts[v] else 0) == |Backers(values, conflict, done, v)|
      && (v in counts ==> counts[v] > 0)
  }

  lemma BackersStep(values: map<int, Value>, conflict: set<int>, done: set<int>, g: int, v: Value)
    requires g in values && g !in done
    ensures |Backers(values, conflict, done + {g}, v)|
         == |Backers(values, conflict, done, v)| + (if g !in conflict && values[g] == v then 1 else 0)
  {
    if g !in conflict && values[g] == v {
      assert Backers(values, conflict, done + {g}, v) == Backers(values, conflict, done, v) + {g};
    } else {
      assert Backers(values, conflict, done + {g}, v) == Backers(values, conflict, done, v);
    }
  }

  lemma CountStep(values: map<int, Value>, conflict: set<int>, done: set<int>, counts: map<Value, nat>, g: int)
    requires Counted(values, conflict, done, counts) && g in values && g !in done
    ensures var v := values[g];
            Counted(values, conflict, done + {g},
                    if g in conflict then counts else counts[v := (if v in counts then counts[v] else 0) + 1])
  {
    hide Backers;
    forall v { BackersStep(values, conflict, done, g, v); }
  }

  lemma NothingCounted(values: map<int, Value>, conflict: set<int>)
    ensures Counted(values, conflict, {}, map[])
  {
    forall v ensures Backers(values, conflict, {}, v) == {} {}
  }

  lemma SomeGroup(groups: set<int>)
    requires groups != {}
    ensures exists g :: g in groups
  {
    if forall g :: g !in groups { assert false; }
  }

  /** Counts the groups behind each value; groups are visited in no particular order. */
  method Tally(values: map<int, Value>, conflict: set<int>) returns (counts: map<Value, nat>)
    ensures Counted(values, conflict, values.Keys, counts)
  {
    hide Counted;
    counts := map[];
    var todo, done: set<int> := values.Keys, {};
    NothingCounted(values, conflict);
    while todo != {}
      invariant todo + done == values.Keys && todo !! done && Counted(values, conflict, done, counts)
      decreases todo
    {
      SomeGroup(todo);
      var g :| g in todo;
      CountStep(values, conflict, done, counts, g);
      if g !in conflict {
        var v := values[g];
        counts := counts[v := (if v in counts then counts[v] else 0) + 1];
      }
      todo, done := todo - {g}, done + {g};
    }
  }

  /** The largest count, or zero; counts are visited in no particular order. */
  method Largest(counts: map<Value, nat>) returns (n: nat)
    ensures forall v :: v in counts ==> counts[v] <= n
    ensures n == 0 || exists v :: v in counts && counts[v] == n
  {
    n := 0;
    var todo := counts.Keys;
    while todo != {}
      invariant todo <= counts.Keys
      invariant forall v :: v in counts && v !in todo ==> counts[v] <= n
      invariant n == 0 || exists v :: v in counts && counts[v] == n
      decreases todo
    {
      var v :| v in todo;
      if n < counts[v] { n := counts[v]; }
      todo := todo - {v};
    }
  }

  // ---- the tally counts components ----

  /** The records of one class. */
  ghost function Class(e: seq<Record>, rep: seq<int>, g: int): set<Record>
    requires |rep| == |e|
  {
    set k | 0 <= k < |e| && rep[k] == g :: e[k]
  }

  lemma ClassIsComponent(e: seq<Record>, rep: seq<int>, k: int)
    requires Partitions(e, rep) && 0 <= k < |e|
    ensures Class(e, rep, rep[k]) == Component(Members(e), e[k])
  {
    hide Connected;
    forall r | r in Component(Members(e), e[k]) ensures r in Class(e, rep, rep[k]) {
      var l :| 0 <= l < |e| && e[l] == r;
      assert rep[l] == rep[k];
    }
  }

  lemma OnlyIsUnanimous(e: seq<Record>, rep: seq<int>, g: int, v: Value)
    requires Rooted(e) && |rep| == |e|
    ensures Only(Ballots(e), rep, |e|, g, v) <==> Unanimous(Class(e, rep, g), v)
  {
    if Unanimous(Class(e, rep, g), v) {
      forall k | 0 <= k < |e| && rep[k] == g ensures Ballots(e)[k] == v { assert e[k] in Class(e, rep, g); }
    }
  }

  /** A group backs v exactly when its class is unanimous for v. */
  lemma BackerIsUnanimous(e: seq<Record>, rep: seq<int>, values: map<int, Value>, conflict: set<int>, g: int, v: Value)
    requires Rooted(e) && |rep| == |e| && Voted(Ballots(e), rep, |e|, values, conflict) && g in values
    ensures (g !in conflict && values[g] == v) <==> Unanimous(Class(e, rep, g), v)
  {
    hide Unanimous, Class;
    OnlyIsUnanimous(e, rep, g, v);
    OnlySame(Ballots(e), rep, |e|, g, values[g], v);
  }

  lemma ClassesDiffer(e: seq<Record>, rep: seq<int>, g: int, h: int)
    requires Partitions(e, rep) && Class(e, rep, g) == Class(e, rep, h) && exists k :: 0 <= k < |e| && rep[k] == g
    ensures g == h
  {
    hide Connected;
    var k :| 0 <= k < |e| && rep[k] == g;
    assert e[k] in Class(e, rep, h);
    var l :| 0 <= l < |e| && rep[l] == h && e[l] == e[k];
    assert Connected(Members(e), e[k], e[k]);
  }

  lemma GroupHasRecord(
    w: seq<Value>, rep: seq<int>, values: map<int, Value>, conflict: set<int>, g: int) returns (k: int)
    requires Voted(w, rep, |w|, values, conflict) && |rep| == |w| && g in values
    ensures 0 <= k < |w| && rep[k] == g
  {
    k :| 0 <= k < |w| && rep[k] == g && w[k] == values[g];
  }

  /** The tally of a value is the number of components that support it. */
  lemma ClassesAreDistinct(
    e: seq<Record>, rep: seq<int>, values: map<int, Value>, conflict: set<int>, v: Value, f: map<int, set<Record>>)
    requires Rooted(e) && Partitions(e, rep) && Voted(Ballots(e), rep, |e|, values, conflict)
    requires f.Keys == Backers(values, conflict, values.Keys, v)
    requires forall g :: g in f ==> f[g] == Class(e, rep, g)
    ensures OneToOne(f)
  {
    forall g, h | g in f && h in f && f[g] == f[h] ensures g == h {
      var k := GroupHasRecord(Ballots(e), rep, values, conflict, g);
      ClassesDiffer(e, rep, g, h);
    }
  }

  lemma BackersAreSupporters(e: seq<Record>, rep: seq<int>, values: map<int, Value>, conflict: set<int>, v: Value)
    requires Rooted(e) && Partitions(e, rep) && Voted(Ballots(e), rep, |e|, values, conflict)
    ensures |Backers(values, conflict, values.Keys, v)| == |Supporters(Members(e), v)|
  {
    var backers := Backers(values, conflict, values.Keys, v);
    var f := map g | g in backers :: Class(e, rep, g);
    assert f.Keys == backers;
    ClassesAreDistinct(e, rep, values, conflict, v, f);
    BackersToSupporters(e, rep, values, conflict, v, f);
    SupportersToBackers(e, rep, values, conflict, v, f);
    assert f.Values == Supporters(Members(e), v);
    Bijects(f);
  }

  lemma BackersToSupporters(
    e: seq<Record>, rep: seq<int>, values: map<int, Value>, conflict: set<int>, v: Value, f: map<int, set<Record>>)
    requires Rooted(e) && Partitions(e, rep) && Voted(Ballots(e), rep, |e|, values, conflict)
    requires f.Keys == Backers(values, conflict, values.Keys, v) && forall g :: g in f ==> f[g] == Class(e, rep, g)
    ensures f.Values <= Supporters(Members(e), v)
  {
    hide Partitions, Voted, Class, Supporters, Backers, Rooted;
    forall C | C in f.Values ensures C in Supporters(Members(e), v) {
      var g := KeyOf(f, C);
      BackerSupports(e, rep, values, conflict, v, g);
    }
  }

  lemma BackerSupports(e: seq<Record>, rep: seq<int>, values: map<int, Value>, conflict: set<int>, v: Value, g: int)
    requires Rooted(e) && Partitions(e, rep) && Voted(Ballots(e), rep, |e|, values, conflict)
    requires g in Backers(values, conflict, values.Keys, v)
    ensures Class(e, rep, g) in Supporters(Members(e), v)
  {
    var k := GroupHasRecord(Ballots(e), rep, values, conflict, g);
    hide Partitions, Voted, Class, Component, Unanimous, Rooted;
    ClassIsComponent(e, rep, k);
    BackerIsUnanimous(e, rep, values, conflict, g, v);
    assert e[k] in Members(e);
  }

  lemma SupportersToBackers(
    e: seq<Record>, rep: seq<int>, values: map<int, Value>, conflict: set<int>, v: Value, f: map<int, set<Record>>)
    requires Rooted(e) && Partitions(e, rep) && Voted(Ballots(e), rep, |e|, values, conflict)
    requires f.Keys == Backers(values, conflict, values.Keys, v) && forall g :: g in f ==> f[g] == Class(e, rep, g)
    ensures Supporters(Members(e), v) <= f.Values
  {
    forall C | C in Supporters(Members(e), v) ensures C in f.Values {
      var a := ComponentHasMember(Members(e), C);
      var k :| 0 <= k < |e| && e[k] == a;
      assert rep[k] in values;
      hide Partitions, Voted, Class, Component, Unanimous;
      ClassIsComponent(e, rep, k);
      BackerIsUnanimous(e, rep, values, conflict, rep[k], v);
      assert rep[k] in f && f[rep[k]] == C;
    }
  }

  // ---- disagreement ----

  lemma AtMostOne<T>(s: set<T>)
    ensures |s| <= 1 <==> forall x, y :: x in s && y in s ==> x == y
  {
    if x, y :| x in s && y in s && x != y {
      assert {x, y} <= s;
      assert |s| == |s - {x, y}| + |{x, y}|;
    } else if s != {} {
      var x :| x in s;
      assert s == {x};
    }
  }

  /** No conflict and at most one value counted: exactly when all records carry one value. */
  lemma AgreementSeen(
    e: seq<Record>, rep: seq<int>, values: map<int, Value>, conflict: set<int>, counts: map<Value, nat>)
    requires Rooted(e) && |rep| == |e| && Voted(Ballots(e), rep, |e|, values, conflict)
    requires Counted(values, conflict, values.Keys, counts)
    ensures (conflict == {} && |counts| <= 1) <==> AllAgree(Members(e))
  {
    var w := Ballots(e);
    AtMostOne(counts.Keys);
    if conflict == {} && |counts| <= 1 {
      forall a, b | 0 <= a < |e| && 0 <= b < |e| ensures w[a] == w[b] {
        ValueCounted(w, rep, values, conflict, counts, a);
        ValueCounted(w, rep, values, conflict, counts, b);
      }
      forall r, q | r in Members(e) && q in Members(e) ensures r.value == q.value {
        var a, b :| 0 <= a < |e| && 0 <= b < |e| && e[a] == r && e[b] == q;
        assert w[a] == w[b];
      }
    }
    if AllAgree(Members(e)) {
      forall a, b | 0 <= a < |e| && 0 <= b < |e| ensures w[a] == w[b] {
        assert e[a] in Members(e) && e[b] in Members(e);
      }
      AgreementCounted(w, rep, values, conflict, counts);
    }
  }

  lemma ValueCounted(
    w: seq<Value>, rep: seq<int>, values: map<int, Value>, conflict: set<int>, counts: map<Value, nat>, a: int)
    requires |rep| == |w| && Voted(w, rep, |w|, values, {}) && Counted(values, {}, values.Keys, counts) && 0 <= a < |w|
    ensures w[a] in counts
  {
    assert rep[a] in values;
    assert Only(w, rep, |w|, rep[a], values[rep[a]]);
    assert rep[a] in Backers(values, {}, values.Keys, w[a]);
  }

  lemma AgreementCounted(
    w: seq<Value>, rep: seq<int>, values: map<int, Value>, conflict: set<int>, counts: map<Value, nat>)
    requires |rep| == |w| && Voted(w, rep, |w|, values, conflict) && Counted(values, conflict, values.Keys, counts)
    requires forall a, b :: 0 <= a < |w| && 0 <= b < |w| ==> w[a] == w[b]
    ensures conflict == {} && |counts| <= 1
  {
    forall g | g in values ensures g !in conflict && exists k :: 0 <= k < |w| && w[k] == values[g] {
      var k :| 0 <= k < |w| && rep[k] == g && w[k] == values[g];
    }
    forall x, y | x in counts && y in counts ensures x == y {
      SomeGroup(Backers(values, conflict, values.Keys, x));
      SomeGroup(Backers(values, conflict, values.Keys, y));
      var g :| g in Backers(values, conflict, values.Keys, x);
      var h :| h in Backers(values, conflict, values.Keys, y);
    }
    AtMostOne(counts.Keys);
  }
}
