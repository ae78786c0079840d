/**
 The linking loop of Evaluate: records that share a lineage root are merged in a
 union-find, and the resulting classes are the connected components of Lineage.
 */
module Linking {
  import opened Lineage
  import opened UnionFind

  ghost function Members(e: seq<Record>): set<Record> { set r | r in e }

  ghost predicate Rooted(e: seq<Record>) {
    forall i :: 0 <= i < |e| ==> |e[i].lineageRoots| > 0 && e[i].value.Some?
  }

  /** Indices in one class are joined by a chain. */
  ghost predicate Sound(e: seq<Record>, rep: seq<int>) {
    |rep| == |e| && forall a, b :: 0 <= a < |e| && 0 <= b < |e| && rep[a] == rep[b] ==>
      Connected(Members(e), e[a], e[b])
  }

  /** The first holder of every root seen so far is in the class of every later holder. */
  ghost predicate Owned(e: seq<Record>, rep: seq<int>, owners: map<string, int>, i: nat, t: nat) {
    && |rep| == |e| && i <= |e| && (t > 0 ==> i < |e| && t <= |e[i].lineageRoots|)
    && (forall g :: g in owners ==> 0 <= owners[g] < |e| && g in e[owners[g]].lineageRoots)
    && (forall k, g :: 0 <= k < i && g in e[k].lineageRoots ==> g in owners && rep[owners[g]] == rep[k])
    && (forall u :: 0 <= u < t ==> e[i].lineageRoots[u] in owners && rep[owners[e[i].lineageRoots[u]]] == rep[i])
  }

  lemma MergeSound(e: seq<Record>, rep: seq<int>, i: int, j: int)
    requires Sound(e, rep) && 0 <= i < |e| && 0 <= j < |e| && Linked(e[i], e[j])
    ensures Sound(e, Merged(rep, rep[i], rep[j]))
  {
    var E := Members(e);
    var merged := Merged(rep, rep[i], rep[j]);
    ConnectedLink(E, e[i], e[j]);
    ConnectedSymmetric(E, e[i], e[j]);
    forall a, b | 0 <= a < |e| && 0 <= b < |e| && merged[a] == merged[b] ensures Connected(E, e[a], e[b]) {
      if rep[a] != rep[b] {
        var x, y := if rep[a] == rep[i] then i else j, if rep[a] == rep[i] then j else i;
        ConnectedTransitive(E, e[a], e[x], e[y]);
        ConnectedTransitive(E, e[a], e[y], e[b]);
      }
    }
  }

  /** Every pair that shares a root is in one class. */
  ghost predicate Closed(e: seq<Record>, rep: seq<int>) {
    |rep| == |e| && forall a, b :: 0 <= a < |e| && 0 <= b < |e| && Linked(e[a], e[b]) ==> rep[a] == rep[b]
  }

  lemma OwnedIsClosed(e: seq<Record>, rep: seq<int>, owners: map<string, int>)
    requires Owned(e, rep, owners, |e|, 0)
    ensures Closed(e, rep)
  {
    forall a, b | 0 <= a < |e| && 0 <= b < |e| && Linked(e[a], e[b]) ensures rep[a] == rep[b] {
      var g :| g in e[a].lineageRoots && g in e[b].lineageRoots;
      assert rep[owners[g]] == rep[a] && rep[owners[g]] == rep[b];
    }
  }

  lemma {:induction false} ChainStaysInClass(e: seq<Record>, rep: seq<int>, path: seq<Record>, a: int, b: int)
    requires Rooted(e) && Closed(e, rep) && Chain(Members(e), path)
    requires 0 <= a < |e| && 0 <= b < |e| && path[0] == e[a] && path[|path| - 1] == e[b]
    ensures rep[a] == rep[b]
    decreases |path|
  {
    if |path| == 1 {
      assert e[a].lineageRoots[0] in e[b].lineageRoots;
      assert Linked(e[a], e[b]);
    } else {
      assert path[1] in e && Linked(path[0], path[1]);
      var c :| 0 <= c < |e| && e[c] == path[1];
      ChainStaysInClass(e, rep, path[1..], c, b);
    }
  }

  /** Same class exactly when connected. */
  ghost predicate Partitions(e: seq<Record>, rep: seq<int>) {
    |rep| == |e| && forall a, b :: 0 <= a < |e| && 0 <= b < |e| ==>
      (rep[a] == rep[b] <==> Connected(Members(e), e[a], e[b]))
  }

  lemma SoundAndClosed(e: seq<Record>, rep: seq<int>)
    requires Rooted(e) && Sound(e, rep) && Closed(e, rep)
    ensures Partitions(e, rep)
  {
    forall a, b | 0 <= a < |e| && 0 <= b < |e| && Connected(Members(e), e[a], e[b]) ensures rep[a] == rep[b] {
      var path :| Chain(Members(e), path) && path[0] == e[a] && path[|path| - 1] == e[b];
      ChainStaysInClass(e, rep, path, a, b);
    }
  }

  ghost function Identity(n: nat): seq<int> { seq(n, i => i) }

  lemma IdentitySound(e: seq<Record>)
    ensures Sound(e, Identity(|e|))
  {
    forall a | 0 <= a < |e| ensures Connected(Members(e), e[a], e[a]) { ConnectedReflexive(Members(e), e[a]); }
  }

  /** Registers or links one lineage root of record i. */
  lemma OwnedAdvances(
    e: seq<Record>, rep: seq<int>, owners: map<string, int>, i: nat, t: nat, rep': seq<int>, owners': map<string, int>)
    requires Owned(e, rep, owners, i, t) && i < |e| && t < |e[i].lineageRoots|
    requires var g := e[i].lineageRoots[t];
             if g in owners then owners' == owners && rep' == Merged(rep, rep[i], rep[owners[g]])
             else owners' == owners[g := i] && rep' == rep
    ensures Owned(e, rep', owners', i, t + 1)
  {
  }

  lemma OwnerShares(e: seq<Record>, rep: seq<int>, owners: map<string, int>, i: nat, t: nat)
    requires Owned(e, rep, owners, i, t) && i < |e| && t < |e[i].lineageRoots| && e[i].lineageRoots[t] in owners
    ensures 0 <= owners[e[i].lineageRoots[t]] < |e| && Linked(e[i], e[owners[e[i].lineageRoots[t]]])
  {
  }

  lemma OwnedNextRecord(e: seq<Record>, rep: seq<int>, owners: map<string, int>, i: nat)
    requires i < |e| && Owned(e, rep, owners, i, |e[i].lineageRoots|)
    ensures Owned(e, rep, owners, i + 1, 0)
  {
  }

  /** The inner loop: every lineage root of one record finds or becomes an owner. */
  method LinkRecord(
    parent: array<int>, e: seq<Record>, i: nat, owners: map<string, int>, ghost rep: seq<int>, ghost ord: seq<nat>)
    returns (owners': map<string, int>, ghost rep': seq<int>, ghost ord': seq<nat>)
    requires i < |e| == parent.Length && Forest(parent[..], rep, ord) && Sound(e, rep) && Owned(e, rep, owners, i, 0)
    modifies parent
    ensures |rep'| == |e| && Forest(parent[..], rep', ord') && Sound(e, rep') && Owned(e, rep', owners', i + 1, 0)
  {
    owners', rep', ord' := owners, rep, ord;
    var t := 0;
    while t < |e[i].lineageRoots|
      invariant 0 <= t <= |e[i].lineageRoots| && Forest(parent[..], rep', ord')
      invariant Sound(e, rep') && Owned(e, rep', owners', i, t)
    {
      var g := e[i].lineageRoots[t];
      ghost var before := rep';
      if g in owners' {
        OwnerShares(e, rep', owners', i, t);
        hide Owned, Sound;
        MergeSound(e, rep', i, owners'[g]);
        rep', ord' := Link(parent, i, owners'[g], rep', ord');
        OwnedAdvances(e, before, owners', i, t, rep', owners');
      } else {
        OwnedAdvances(e, before, owners', i, t, rep', owners'[g := i]);
        owners' := owners'[g := i];
      }
      t := t + 1;
    }
    OwnedNextRecord(e, rep', owners', i);
  }

  lemma StartsAlone(e: seq<Record>)
    ensures Forest(Identity(|e|), Identity(|e|), seq(|e|, i => 0)) && Owned(e, Identity(|e|), map[], 0, 0)
  {
  }

  /** The linking loop: afterwards two records have one root exactly when a chain joins them. */
  method LinkShared(e: seq<Record>) returns (parent: array<int>, ghost rep: seq<int>, ghost ord: seq<nat>)
    requires Rooted(e)
    ensures fresh(parent) && parent.Length == |e| == |rep| && Forest(parent[..], rep, ord) && Partitions(e, rep)
  {
    hide Forest, Sound, Owned, Closed, Partitions;
    parent := new int[|e|](i => i);
    rep, ord := Identity(|e|), seq(|e|, i => 0);
    IdentitySound(e);
    StartsAlone(e);
    assert parent[..] == Identity(|e|);
    var owners: map<string, int> := map[];
    var i := 0;
    while i < |e|
      invariant 0 <= i <= |e| == |rep| && parent.Length == |e| && Forest(parent[..], rep, ord)
      invariant Sound(e, rep) && Owned(e, rep, owners, i, 0)
    {
      owners, rep, ord := LinkRecord(parent, e, i, owners, rep, ord);
      i := i + 1;
    }
    OwnedIsClosed(e, rep, owners);
    SoundAndClosed(e, rep);
  }
}
