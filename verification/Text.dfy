/** Byte-wise text order, as used by cursors and sorted identifier lists. */
module Text {

  predicate AtMost(a: string, b: string) {
    a == "" || (b != "" && (a[0] < b[0] || (a[0] == b[0] && AtMost(a[1..], b[1..]))))
  }

  predicate Below(a: string, b: string) { AtMost(a, b) && a != b }

  /** At the first position where they differ, the smaller text ends or has the smaller character. */
  ghost predicate Precedes(a: string, b: string) {
    a <= b || exists i :: 0 <= i < |a| && i < |b| && a[..i] == b[..i] && a[i] < b[i]
  }

  /** A common first character does not matter. */
  lemma DropSame(a: string, b: string)
    requires a != "" && b != "" && a[0] == b[0]
    ensures Precedes(a, b) <==> Precedes(a[1..], b[1..])
  {
    assert a == [a[0]] + a[1..] && b == [b[0]] + b[1..];
    if i :| 0 <= i < |a| && i < |b| && a[..i] == b[..i] && a[i] < b[i] {
      assert i > 0;
      DropFirst(a, i);
      DropFirst(b, i);
      assert a[1..][..i - 1] == b[1..][..i - 1] && a[1..][i - 1] < b[1..][i - 1];
    }
    if i :| 0 <= i < |a[1..]| && i < |b[1..]| && a[1..][..i] == b[1..][..i] && a[1..][i] < b[1..][i] {
      assert a[..i + 1] == [a[0]] + a[1..][..i] && b[..i + 1] == [b[0]] + b[1..][..i];
      assert a[i + 1] < b[i + 1];
    }
  }

  lemma DropFirst(a: string, i: nat)
    requires 0 < i <= |a|
    ensures a[1..][..i - 1] == a[..i][1..]
  {
  }

  lemma {:induction false} AtMostExactly(a: string, b: string)
    ensures AtMost(a, b) <==> Precedes(a, b)
  {
    if a != "" && b != "" && a[0] == b[0] {
      AtMostExactly(a[1..], b[1..]);
      DropSame(a, b);
    } else if a != "" && b != "" && a[0] < b[0] {
      assert a[..0] == b[..0];
    }
  }

  lemma AtMostReflexive(a: string)
    ensures AtMost(a, a)
  {
    if a != "" { AtMostReflexive(a[1..]); }
  }

  lemma {:induction false} AtMostTotal(a: string, b: string)
    ensures AtMost(a, b) || AtMost(b, a)
  {
    if a != "" && b != "" && a[0] == b[0] { AtMostTotal(a[1..], b[1..]); }
  }

  lemma {:induction false} AtMostAntisymmetric(a: string, b: string)
    requires AtMost(a, b) && AtMost(b, a)
    ensures a == b
  {
    if a != "" && b != "" {
      AtMostAntisymmetric(a[1..], b[1..]);
      assert a == [a[0]] + a[1..] && b == [b[0]] + b[1..];
    }
  }

  lemma {:induction false} AtMostTransitive(a: string, b: string, c: string)
    requires AtMost(a, b) && AtMost(b, c)
    ensures AtMost(a, c)
  {
    if a != "" && a[0] == b[0] && b[0] == c[0] { AtMostTransitive(a[1..], b[1..], c[1..]); }
  }

  /** Strict order composes with the weak one. */
  lemma BelowTransitive(a: string, b: string, c: string)
    requires (Below(a, b) && AtMost(b, c)) || (AtMost(a, b) && Below(b, c))
    ensures Below(a, c)
  {
    AtMostTransitive(a, b, c);
    if a == c { AtMostAntisymmetric(a, b); }
  }

  predicate Sorted(s: seq<string>) { forall i, j :: 0 <= i < j < |s| ==> AtMost(s[i], s[j]) }

  function Insert(x: string, s: seq<string>): (r: seq<string>)
    ensures multiset(r) == multiset(s) + multiset{x}
  {
    if s == [] then [x]
    else if AtMost(x, s[0]) then [x] + s
    else
      assert s == [s[0]] + s[1..];
      [s[0]] + Insert(x, s[1..])
  }

  lemma {:induction false} InsertSorted(x: string, s: seq<string>)
    requires Sorted(s)
    ensures Sorted(Insert(x, s))
  {
    if s == [] {
    } else if AtMost(x, s[0]) {
      forall j | 0 <= j < |s| ensures AtMost(x, s[j]) {
        AtMostReflexive(s[0]);
        AtMostTransitive(x, s[0], s[j]);
      }
    } else {
      AtMostTotal(x, s[0]);
      InsertSorted(x, s[1..]);
      var t := Insert(x, s[1..]);
      forall j | 0 <= j < |t| ensures AtMost(s[0], t[j]) {
        assert t[j] in multiset(t);
        assert t[j] == x || t[j] in s[1..];
      }
    }
  }

  /** Stands for the library sort. */
  function Sort(s: seq<string>): (r: seq<string>)
    ensures Sorted(r) && multiset(r) == multiset(s)
  {
    if s == [] then []
    else
      assert s == [s[0]] + s[1..];
      InsertSorted(s[0], Sort(s[1..]));
      Insert(s[0], Sort(s[1..]))
  }

  lemma HeadIsLeast(s: seq<string>, x: string)
    requires Sorted(s) && x in s
    ensures AtMost(s[0], x)
  {
    AtMostReflexive(x);
  }

  lemma SameHead(s: seq<string>, t: seq<string>)
    requires Sorted(s) && Sorted(t) && multiset(s) == multiset(t) && s != [] && t != []
    ensures s[0] == t[0]
  {
    assert s[0] in multiset(t) && t[0] in multiset(s);
    HeadIsLeast(s, t[0]);
    HeadIsLeast(t, s[0]);
    AtMostAntisymmetric(s[0], t[0]);
  }

  /** A sorted list is determined by its multiset. */
  lemma {:induction false} SortedUnique(s: seq<string>, t: seq<string>)
    requires Sorted(s) && Sorted(t) && multiset(s) == multiset(t)
    ensures s == t
  {
    assert |s| == |multiset(s)| == |multiset(t)| == |t|;
    if s != [] {
      SameHead(s, t);
      assert s == [s[0]] + s[1..] && t == [t[0]] + t[1..];
      assert multiset(s[1..]) == multiset(s) - multiset{s[0]} == multiset(t) - multiset{t[0]} == multiset(t[1..]);
      SortedUnique(s[1..], t[1..]);
    }
  }

  /** Sorted without repeats. */
  predicate Strict(s: seq<string>) { forall i, j :: 0 <= i < j < |s| ==> Below(s[i], s[j]) }

  /** Sorted lists without repeats are fixed by their elements. */
  lemma StrictUnique(s: seq<string>, t: seq<string>)
    requires Strict(s) && Strict(t) && forall x :: x in s <==> x in t
    ensures s == t
  {
    StrictMultiset(s);
    StrictMultiset(t);
    forall x ensures multiset(s)[x] == multiset(t)[x] {}
    assert multiset(s) == multiset(t);
    SortedUnique(s, t);
  }

  lemma {:induction false} StrictMultiset(s: seq<string>)
    requires Strict(s)
    ensures forall x :: multiset(s)[x] == if x in s then 1 else 0
  {
    if s != [] {
      var front, last := s[..|s| - 1], s[|s| - 1];
      assert s == front + [last];
      StrictMultiset(front);
      assert last !in front;
    }
  }
}
