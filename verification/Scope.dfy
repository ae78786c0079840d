/**
 Scope grants: requested patterns are expanded against a registry into an exact,
 sorted permission list; a binary search answers membership; a stored snapshot is
 validated without the registry.
 */
module Scope {
  import opened Base
  import opened Text

  const MAX_SEGMENT := 64

  datatype Segments = Segments(resource: string, action: string)

  datatype Grant = Grant(patterns: seq<string>, permissions: seq<string>)

  datatype Refused = Refused

  // ---- the two-segment grammar ----

  predicate Lower(c: char) { 'a' <= c <= 'z' }

  predicate ValidSegment(s: string, wildcard: bool) {
    || (wildcard && s == "*")
    || (1 <= |s| <= MAX_SEGMENT && Lower(s[0]) && forall i :: 1 <= i < |s| ==>
        Lower(s[i]) || '0' <= s[i] <= '9' || s[i] == '_')
  }

  /** The index of the first colon, or the length. */
  function Colon(s: string): (k: nat)
    ensures k <= |s| && (k < |s| ==> s[k] == ':') && forall i :: 0 <= i < k ==> s[i] != ':'
  {
    if s == "" || s[0] == ':' then 0 else 1 + Colon(s[1..])
  }

  /** Exactly one resource and one action; a second colon is not a segment character. */
  function ParseSegments(s: string, wildcard: bool): Option<Segments> {
    var k := Colon(s);
    if k < |s| && ValidSegment(s[..k], wildcard) && ValidSegment(s[k + 1..], wildcard)
        then Some(Segments(s[..k], s[k + 1..])) else None
  }

  predicate ValidPermission(s: string) { ParseSegments(s, false).Some? }

  predicate ValidPattern(s: string) { ParseSegments(s, true).Some? }

  predicate Matches(pattern: string, permission: string) {
    && ValidPattern(pattern) && ValidPermission(permission)
    && var q, p := ParseSegments(pattern, true).value, ParseSegments(permission, false).value;
       (q.resource == "*" || q.resource == p.resource) && (q.action == "*" || q.action == p.action)
  }

  lemma SegmentHasNoColon(s: string, wildcard: bool)
    requires ValidSegment(s, wildcard)
    ensures forall i :: 0 <= i < |s| ==> s[i] != ':'
  {
  }

  /** Parsing is exact: the text is its segments, and every pair of valid segments parses back. */
  lemma ParseRoundTrip(r: string, a: string, wildcard: bool)
    requires ValidSegment(r, wildcard) && ValidSegment(a, wildcard)
    ensures ParseSegments(r + ":" + a, wildcard) == Some(Segments(r, a))
  {
    var s := r + ":" + a;
    SegmentHasNoColon(r, wildcard);
    assert s[|r|] == ':';
    assert Colon(s) == |r|;
    assert s[..|r|] == r && s[|r| + 1..] == a;
  }

  /** One name of a permission: a lower-case letter, then letters, digits and underscores, 64 characters at most. */
  ghost predicate Name(s: string) {
    && 1 <= |s| <= 64 && 'a' <= s[0] <= 'z'
    && forall i :: 0 <= i < |s| ==> 'a' <= s[i] <= 'z' || '0' <= s[i] <= '9' || s[i] == '_'
  }

  /** Valid texts are two names around one colon; in a pattern a star may stand for either. */
  lemma ValidExactly(s: string)
    ensures ValidPermission(s) <==> exists r, a :: s == r + ":" + a && Name(r) && Name(a)
    ensures ValidPattern(s) <==> exists r, a :: s == r + ":" + a && (r == "*" || Name(r)) && (a == "*" || Name(a))
  {
    TwoSegments(s, false);
    TwoSegments(s, true);
    hide ParseSegments, ValidSegment, Name;
    forall t { NameIsSegment(t); }
  }

  lemma NameIsSegment(s: string)
    ensures ValidSegment(s, false) <==> Name(s)
    ensures ValidSegment(s, true) <==> s == "*" || Name(s)
  {
  }

  lemma TwoSegments(s: string, wildcard: bool)
    ensures ParseSegments(s, wildcard).Some? <==>
        exists r, a :: s == r + ":" + a && ValidSegment(r, wildcard) && ValidSegment(a, wildcard)
  {
    var k := Colon(s);
    hide ValidSegment;
    if k < |s| { assert s == s[..k] + ":" + s[k + 1..]; }
    if r, a :| s == r + ":" + a && ValidSegment(r, wildcard) && ValidSegment(a, wildcard) {
      ParseRoundTrip(r, a, wildcard);
    }
  }

  /** A pattern matches a permission exactly when each of its halves is a star or the same name. */
  lemma MatchesExactly(q: string, b: string, r: string, a: string)
    requires (q == "*" || Name(q)) && (b == "*" || Name(b)) && Name(r) && Name(a)
    ensures Matches(q + ":" + b, r + ":" + a) <==> (q == "*" || q == r) && (b == "*" || b == a)
  {
    forall t { NameIsSegment(t); }
    hide Name, ValidSegment;
    ParseRoundTrip(q, b, true);
    ParseRoundTrip(r, a, false);
  }

  /** Nothing else matches. */
  lemma MatchesOnlyValid(pattern: string, permission: string)
    requires Matches(pattern, permission)
    ensures ValidPattern(pattern) && ValidPermission(permission)
  {
  }

  // ---- sorted lists without duplicates ----

  ghost predicate NoDuplicates(s: seq<string>) { forall i, j :: 0 <= i < j < |s| ==> s[i] != s[j] }

  /** Drops adjacent repeats. */
  function Compact(s: seq<string>): seq<string> {
    if |s| < 2 then s else (if s[0] == s[1] then [] else [s[0]]) + Compact(s[1..])
  }

  lemma {:induction false} CompactStrict(s: seq<string>)
    requires Sorted(s)
    ensures Strict(Compact(s)) && (forall x :: x in Compact(s) <==> x in s)
    ensures (s != [] ==> Compact(s) != [] && Compact(s)[0] == s[0])
  {
    if |s| >= 2 {
      var rest := Compact(s[1..]);
      CompactStrict(s[1..]);
      assert s == [s[0]] + s[1..];
      if s[0] != s[1] {
        forall j | 0 <= j < |rest| ensures Below(s[0], rest[j]) {
          AtMostReflexive(s[1]);
          assert AtMost(s[1], rest[j]);
          BelowTransitive(s[0], s[1], rest[j]);
        }
      }
    }
  }

  method HasAdjacentDuplicate(s: seq<string>) returns (found: bool)
    requires Sorted(s)
    ensures found <==> !NoDuplicates(s)
    ensures !found ==> Strict(s)
  {
    var i := 1;
    while i < |s|
      invariant forall k :: 1 <= k < i && k < |s| ==> s[k] != s[k - 1]
    {
      if s[i] == s[i - 1] { return true; }
      i := i + 1;
    }
    AdjacentDistinct(s);
    return false;
  }

  lemma AdjacentDistinct(s: seq<string>)
    requires Sorted(s) && forall k :: 1 <= k < |s| ==> s[k] != s[k - 1]
    ensures Strict(s) && NoDuplicates(s)
  {
    forall i, j | 0 <= i < j < |s| ensures Below(s[i], s[j]) {
      assert Below(s[i], s[i + 1]);
      AtMostReflexive(s[j]);
      BelowTransitive(s[i], s[i + 1], s[j]);
    }
  }

  // ---- resolving ----

  ghost predicate Covered(patterns: seq<string>, p: string) { exists q :: q in patterns && Matches(q, p) }

  ghost predicate Hits(permissions: seq<string>, q: string) { exists p :: p in permissions && Matches(q, p) }

  ghost predicate Resolvable(registry: seq<string>, patterns: seq<string>) {
    && registry != [] && patterns != [] && NoDuplicates(patterns)
    && forall q :: q in patterns ==> ValidPattern(q) && Hits(registry, q)
  }

  /** The grant that a resolution means, from the sets of patterns and registered permissions. */
  ghost predicate Resolved(registry: seq<string>, patterns: seq<string>, g: Grant) {
    && Strict(g.patterns) && (forall q :: q in g.patterns <==> q in patterns)
    && Strict(g.permissions) && (forall p :: p in g.permissions <==> p in registry && Covered(patterns, p))
  }

  method ParsesAll(values: seq<string>, wildcard: bool) returns (ok: bool)
    ensures ok <==> forall v :: v in values ==> ParseSegments(v, wildcard).Some?
  {
    for i := 0 to |values|
      invariant forall k :: 0 <= k < i ==> ParseSegments(values[k], wildcard).Some?
    {
      if ParseSegments(values[i], wildcard).None? { return false; }
    }
    return true;
  }

  lemma SortKeepsMembers(s: seq<string>)
    ensures forall x :: x in Sort(s) <==> x in s
    ensures NoDuplicates(Sort(s)) <==> NoDuplicates(s)
  {
    forall x ensures x in Sort(s) <==> x in s {
      assert x in Sort(s) <==> x in multiset(Sort(s));
      assert x in s <==> x in multiset(s);
    }
    DuplicatesCounted(s);
    DuplicatesCounted(Sort(s));
  }

  lemma {:induction false} DuplicatesCounted(s: seq<string>)
    ensures NoDuplicates(s) <==> forall x :: multiset(s)[x] <= 1
  {
    if s != [] {
      var front, last := s[..|s| - 1], s[|s| - 1];
      assert s == front + [last];
      DuplicatesCounted(front);
      assert forall x :: multiset(s)[x] == multiset(front)[x] + (if x == last then 1 else 0);
      if last in front {
        var k :| 0 <= k < |front| && front[k] == last;
        assert s[k] == s[|s| - 1];
        assert last in multiset(front) && multiset(s)[last] >= 2;
      } else {
        assert multiset(front)[last] == 0;
        assert NoDuplicates(s) <==> NoDuplicates(front) by {
          assert forall i :: 0 <= i < |front| ==> s[i] == front[i] && s[i] in front;
        }
      }
    }
  }

  /** One pattern against the registry. */
  method Expand(registry: seq<string>, q: string) returns (found: seq<string>)
    ensures forall p :: p in found <==> p in registry && Matches(q, p)
  {
    found := [];
    for i := 0 to |registry|
      invariant forall p :: p in found <==> p in registry[..i] && Matches(q, p)
    {
      assert registry[..i + 1] == registry[..i] + [registry[i]];
      if Matches(q, registry[i]) { found := found + [registry[i]]; }
    }
    assert registry[..|registry|] == registry;
  }

  method Resolve(registry: seq<string>, patterns: seq<string>) returns (r: Result<Grant, Refused>)
    ensures r.Success? <==> Resolvable(registry, patterns)
    ensures r.Success? ==> Resolved(registry, patterns, r.value)
  {
    hide Matches, ParseSegments, AtMost, NoDuplicates, Sort;
    if |registry| == 0 || |patterns| == 0 { return Failure(Refused); }
    var ok := ParsesAll(patterns, true);
    if !ok { return Failure(Refused); }
    var requested := Sort(patterns);
    SortKeepsMembers(patterns);
    var duplicate := HasAdjacentDuplicate(requested);
    if duplicate { return Failure(Refused); }
    var resolved: seq<string> := [];
    for i := 0 to |requested|
      invariant forall p :: p in resolved <==> p in registry && Covered(requested[..i], p)
      invariant forall k :: 0 <= k < i ==> Hits(registry, requested[k])
    {
      var found := Expand(registry, requested[i]);
      assert requested[..i + 1] == requested[..i] + [requested[i]];
      if |found| == 0 {
        assert !Hits(registry, requested[i]);
        assert requested[i] in patterns;
        return Failure(Refused);
      }
      assert found[0] in registry && Matches(requested[i], found[0]);
      CoveredGrows(requested[..i], requested[i]);
      resolved := resolved + found;
    }
    assert requested[..|requested|] == requested;
    SortKeepsMembers(resolved);
    CompactStrict(Sort(resolved));
    CoveredSame(requested, patterns);
    return Success(Grant(requested, Compact(Sort(resolved))));
  }

  lemma CoveredGrows(patterns: seq<string>, q: string)
    ensures forall p :: Covered(patterns + [q], p) <==> Covered(patterns, p) || Matches(q, p)
  {
    forall p ensures Covered(patterns + [q], p) <==> Covered(patterns, p) || Matches(q, p) {
      if Matches(q, p) { assert q in patterns + [q]; }
    }
  }

  lemma CoveredSame(a: seq<string>, b: seq<string>)
    requires forall q :: q in a <==> q in b
    ensures forall p :: Covered(a, p) <==> Covered(b, p)
  {
  }

  // ---- asking ----

  /** The library binary search behind Allows. */
  method Allows(g: Grant, p: string) returns (allowed: bool)
    requires Strict(g.permissions)
    ensures allowed <==> ValidPermission(p) && p in g.permissions
  {
    if !ValidPermission(p) { return false; }
    var i, j := 0, |g.permissions|;
    while i < j
      invariant 0 <= i <= j <= |g.permissions|
      invariant forall k :: 0 <= k < i ==> Below(g.permissions[k], p)
      invariant forall k :: j <= k < |g.permissions| ==> AtMost(p, g.permissions[k])
    {
      var h := (i + j) / 2;
      SearchStep(g.permissions, p, h);
      if Below(g.permissions[h], p) { i := h + 1; } else { j := h; }
    }
    allowed := i < |g.permissions| && g.permissions[i] == p;
    if !allowed { NotFound(g.permissions, p, i); }
  }

  lemma SearchStep(s: seq<string>, p: string, h: nat)
    requires Strict(s) && h < |s|
    ensures Below(s[h], p) ==> forall k :: 0 <= k <= h ==> Below(s[k], p)
    ensures !Below(s[h], p) ==> forall k :: h <= k < |s| ==> AtMost(p, s[k])
  {
    AtMostReflexive(p);
    if Below(s[h], p) {
      forall k | 0 <= k < h ensures Below(s[k], p) { BelowTransitive(s[k], s[h], p); }
    } else {
      AtMostTotal(p, s[h]);
      forall k | h < k < |s| ensures AtMost(p, s[k]) { AtMostTransitive(p, s[h], s[k]); }
    }
  }

  lemma NotFound(s: seq<string>, p: string, i: nat)
    requires Strict(s) && i <= |s| && (forall k :: 0 <= k < i ==> Below(s[k], p))
    requires (forall k :: i <= k < |s| ==> AtMost(p, s[k]))
    requires i < |s| ==> s[i] != p
    ensures p !in s
  {
    if i < |s| {
      forall k | i < k < |s| ensures s[k] != p {
        if s[k] == p { AtMostAntisymmetric(p, s[i]); }
      }
    }
  }

  /** A resolved grant allows exactly the registered permissions that some requested pattern matches. */
  lemma ResolvedAllowsExactly(registry: seq<string>, patterns: seq<string>, g: Grant, p: string)
    requires Resolved(registry, patterns, g)
    ensures (ValidPermission(p) && p in g.permissions) <==> p in registry && Covered(patterns, p)
  {
  }

  /** Neither the order of the registry nor that of the patterns changes the grant. */
  lemma ResolutionIgnoresOrder(
    registry: seq<string>, patterns: seq<string>, g: Grant, registry': seq<string>, patterns': seq<string>, g': Grant)
    requires Resolved(registry, patterns, g) && Resolved(registry', patterns', g')
    requires (forall p :: p in registry <==> p in registry') && (forall q :: q in patterns <==> q in patterns')
    ensures g == g'
  {
    CoveredSame(patterns, patterns');
    StrictUnique(g.patterns, g'.patterns);
    StrictUnique(g.permissions, g'.permissions);
  }

  // ---- restoring a snapshot ----

  ghost predicate Restorable(patterns: seq<string>, permissions: seq<string>) {
    && patterns != [] && permissions != [] && NoDuplicates(patterns) && NoDuplicates(permissions)
    && (forall q :: q in patterns ==> ValidPattern(q) && Hits(permissions, q))
    && (forall p :: p in permissions ==> ValidPermission(p) && Covered(patterns, p))
  }

  method MatchedBySome(patterns: seq<string>, p: string) returns (matched: bool)
    ensures matched <==> Covered(patterns, p)
  {
    for i := 0 to |patterns|
      invariant forall k :: 0 <= k < i ==> !Matches(patterns[k], p)
    {
      if Matches(patterns[i], p) { return true; }
    }
    return false;
  }

  method MatchesSome(permissions: seq<string>, q: string) returns (matched: bool)
    ensures matched <==> Hits(permissions, q)
  {
    for i := 0 to |permissions|
      invariant forall k :: 0 <= k < i ==> !Matches(q, permissions[k])
    {
      if Matches(q, permissions[i]) { return true; }
    }
    return false;
  }

  method RestoreGrant(patterns: seq<string>, permissions: seq<string>) returns (r: Result<Grant, Refused>)
    ensures r.Success? <==> Restorable(patterns, permissions)
    ensures r.Success? ==> r.value == Grant(Sort(patterns), Sort(permissions))
  {
    hide Matches, ParseSegments, AtMost, NoDuplicates, Sort, Hits, Covered;
    if |patterns| == 0 || |permissions| == 0 { return Failure(Refused); }
    var ok := ParsesAll(patterns, true);
    if !ok { return Failure(Refused); }
    var sorted := Sort(patterns);
    SortKeepsMembers(patterns);
    SortKeepsMembers(permissions);
    SameUse(patterns, permissions);
    var duplicate := HasAdjacentDuplicate(sorted);
    if duplicate { return Failure(Refused); }
    for i := 0 to |permissions|
      invariant forall k :: 0 <= k < i ==> ValidPermission(permissions[k]) && Covered(sorted, permissions[k])
    {
      if !ValidPermission(permissions[i]) { return Failure(Refused); }
      var matched := MatchedBySome(sorted, permissions[i]);
      if !matched { return Failure(Refused); }
    }
    var listed := Sort(permissions);
    duplicate := HasAdjacentDuplicate(listed);
    if duplicate { return Failure(Refused); }
    for i := 0 to |sorted|
      invariant forall k :: 0 <= k < i ==> Hits(listed, sorted[k])
    {
      var matched := MatchesSome(listed, sorted[i]);
      if !matched { return Failure(Refused); }
    }
    return Success(Grant(sorted, listed));
  }

  lemma SameUse(patterns: seq<string>, permissions: seq<string>)
    ensures forall p :: Covered(Sort(patterns), p) <==> Covered(patterns, p)
    ensures forall q :: Hits(Sort(permissions), q) <==> Hits(permissions, q)
  {
    hide Sort;
    SortKeepsMembers(patterns);
    SortKeepsMembers(permissions);
  }

  /** The snapshot of a resolved grant restores, without the registry, to the same grant. */
  lemma ResolvedRestores(registry: seq<string>, patterns: seq<string>, g: Grant)
    requires Resolvable(registry, patterns) && Resolved(registry, patterns, g)
    ensures Restorable(g.patterns, g.permissions) && Grant(Sort(g.patterns), Sort(g.permissions)) == g
  {
    PatternsRestore(registry, patterns, g);
    PermissionsRestore(registry, patterns, g);
    hide Matches, ParseSegments, AtMost, Sort, Covered, Hits, Resolvable, NoDuplicates;
    SortOfStrict(g.patterns);
    SortOfStrict(g.permissions);
  }

  lemma PatternsRestore(registry: seq<string>, patterns: seq<string>, g: Grant)
    requires Resolvable(registry, patterns) && Resolved(registry, patterns, g)
    ensures g.patterns != [] && g.permissions != []
    ensures forall q :: q in g.patterns ==> ValidPattern(q) && Hits(g.permissions, q)
  {
    hide Covered, AtMost, ParseSegments, Matches;
    forall q | q in g.patterns ensures ValidPattern(q) && Hits(g.permissions, q) {
      assert q in patterns;
      HitStays(registry, patterns, g, q);
    }
    assert patterns[0] in g.patterns;
  }

  lemma PermissionsRestore(registry: seq<string>, patterns: seq<string>, g: Grant)
    requires Resolved(registry, patterns, g)
    ensures forall p :: p in g.permissions ==> ValidPermission(p) && Covered(g.patterns, p)
  {
    CoveredSame(patterns, g.patterns);
    hide Covered, AtMost, ParseSegments, Matches;
    forall p | p in g.permissions ensures ValidPermission(p) && Covered(g.patterns, p) { CoveredIsValid(patterns, p); }
  }

  lemma HitStays(registry: seq<string>, patterns: seq<string>, g: Grant, q: string)
    requires Resolved(registry, patterns, g) && q in patterns && Hits(registry, q)
    ensures Hits(g.permissions, q)
  {
    hide Matches, AtMost;
    var p :| p in registry && Matches(q, p);
    assert Covered(patterns, p);
  }

  lemma CoveredIsValid(patterns: seq<string>, p: string)
    requires Covered(patterns, p)
    ensures ValidPermission(p)
  {
  }

  lemma SortOfStrict(s: seq<string>)
    requires Strict(s)
    ensures Sort(s) == s && NoDuplicates(s)
  {
    hide AtMost, Sort;
    SortedUnique(Sort(s), s);
  }
}
