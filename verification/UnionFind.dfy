/**
 The in-place disjoint-set forest with path halving. The ghost sequence `rep`
 names every index's root; `ord` grows strictly towards the root, so walks end.
 */
module UnionFind {

  /** One index: its parent has the same root, its root is a root, and order grows off roots. */
  ghost predicate Node(p: seq<int>, rep: seq<int>, ord: seq<nat>, i: int)
    requires |p| == |rep| == |ord| && 0 <= i < |p|
  {
    && 0 <= p[i] < |p| && 0 <= rep[i] < |p| && rep[p[i]] == rep[i] && p[rep[i]] == rep[i]
    && (if p[i] == i then rep[i] == i else ord[i] < ord[p[i]])
  }

  ghost predicate Forest(p: seq<int>, rep: seq<int>, ord: seq<nat>) {
    |p| == |rep| == |ord| && forall i :: 0 <= i < |p| ==> Node(p, rep, ord, i)
  }

  ghost function Highest(ord: seq<nat>): (h: nat)
    ensures forall i :: 0 <= i < |ord| ==> ord[i] <= h
  {
    if ord == [] then 0
    else
      var h := Highest(ord[..|ord| - 1]);
      if h < ord[|ord| - 1] then ord[|ord| - 1] else h
  }

  /** Pointing an index at its grandparent keeps every root and the order. */
  lemma HalvingKeepsForest(p: seq<int>, rep: seq<int>, ord: seq<nat>, i: int)
    requires Forest(p, rep, ord) && 0 <= i < |p| && p[i] != i
    ensures 0 <= p[i] < |p| && 0 <= p[p[i]] < |p|
    ensures Forest(p[i := p[p[i]]], rep, ord)
    ensures rep[p[p[i]]] == rep[i] && ord[i] < ord[p[p[i]]]
  {
    assert Node(p, rep, ord, i) && Node(p, rep, ord, p[i]);
    var q := p[i := p[p[i]]];
    forall k | 0 <= k < |p| ensures Node(q, rep, ord, k) { assert Node(p, rep, ord, k); }
  }

  /** Finds the root and halves the path walked; the partition does not change. */
  method Root(parent: array<int>, start: int, ghost rep: seq<int>, ghost ord: seq<nat>) returns (root: int)
    requires 0 <= start < parent.Length && Forest(parent[..], rep, ord)
    modifies parent
    ensures Forest(parent[..], rep, ord) && root == rep[start]
  {
    root := start;
    ghost var top := Highest(ord);
    assert Node(parent[..], rep, ord, root);
    while parent[root] != root
      invariant 0 <= root < parent.Length && Forest(parent[..], rep, ord) && Node(parent[..], rep, ord, root)
      invariant rep[root] == rep[start]
      decreases top - ord[root]
    {
      var i := root;
      ghost var before := parent[..];
      HalvingKeepsForest(before, rep, ord, i);
      parent[i] := parent[parent[i]];
      assert parent[..] == before[i := before[before[i]]];
      root := parent[i];
      assert Node(parent[..], rep, ord, root);
    }
  }

  ghost function Merged(rep: seq<int>, from: int, into: int): seq<int> {
    seq(|rep|, k requires 0 <= k < |rep| => if rep[k] == from then into else rep[k])
  }

  ghost function Raised(ord: seq<nat>, from: int, into: int): seq<nat>
    requires 0 <= from < |ord| && 0 <= into < |ord|
  {
    if from == into then ord
    else ord[into := if ord[into] <= ord[from] then ord[from] + 1 else ord[into]]
  }

  /** Hanging one root under another merges exactly those two classes and keeps the forest acyclic. */
  lemma LinkKeepsForest(p: seq<int>, rep: seq<int>, ord: seq<nat>, a: int, b: int)
    requires Forest(p, rep, ord) && 0 <= a < |p| && 0 <= b < |p| && p[a] == a && p[b] == b
    ensures Forest(p[a := b], Merged(rep, a, b), Raised(ord, a, b))
  {
    assert Node(p, rep, ord, a) && Node(p, rep, ord, b);
    var q, r, o := p[a := b], Merged(rep, a, b), Raised(ord, a, b);
    forall k | 0 <= k < |p| ensures Node(q, r, o, k) { assert Node(p, rep, ord, k); }
  }

  /** Merges the classes of i and j: parent[root(i)] = root(j), index operand first. */
  method Link(parent: array<int>, i: int, j: int, ghost rep: seq<int>, ghost ord: seq<nat>)
    returns (ghost rep': seq<int>, ghost ord': seq<nat>)
    requires 0 <= i < parent.Length && 0 <= j < parent.Length && Forest(parent[..], rep, ord)
    modifies parent
    ensures Forest(parent[..], rep', ord') && rep' == Merged(rep, rep[i], rep[j])
  {
    var a := Root(parent, i, rep, ord);
    var b := Root(parent, j, rep, ord);
    assert Node(parent[..], rep, ord, i) && Node(parent[..], rep, ord, j);
    assert Node(parent[..], rep, ord, a) && Node(parent[..], rep, ord, b);
    LinkKeepsForest(parent[..], rep, ord, a, b);
    rep', ord' := Merged(rep, a, b), Raised(ord, a, b);
    parent[a] := b;
  }
}
