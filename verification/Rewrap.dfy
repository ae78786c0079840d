/**
 One bounded batch of the key-rewrap sweep. The provider, the tenant directory and
 the class adapter answer through a World, freely but within their contracts: objects
 of `lo` are present throughout, objects of `hi` may come and go.
 */
module Rewrap {
  import opened Base
  import opened Text

  datatype Target = Target(tenant: string, key: string)

  /** The durable position; an empty key means that the tenant is exhausted. */
  datatype Cursor = Cursor(tenant: string, key: string)

  const START := Cursor("", "")

  datatype Status = Running | Failed | Completed

  datatype ErrorClass = NoError | TenantDiscoveryFailed | TargetListFailed | TargetScopeMismatch | RewrapFailed

  datatype Batch = Batch(
    generation: nat, epoch: string, from: Cursor, to: Cursor,
    processed: nat, rewrapped: nat, skipped: nat, failed: nat, status: Status, errorClass: ErrorClass)

  /** Every answer may depend on when it is asked; None is an error. */
  datatype World = World(
    cancelled: nat -> bool,
    nextTenant: (nat, string) -> Option<Option<string>>,
    list: (nat, string, string, nat) -> Option<seq<Target>>,
    rewrap: (nat, Target) -> Option<bool>)

  // ---- positions ----

  /** Up to and including one key of a tenant, or past the whole tenant. */
  datatype Mark = Within(tenant: string, key: string) | Past(tenant: string)

  predicate Seen(m: Mark, x: Target) {
    match m
    case Within(t, k) => Below(x.tenant, t) || (x.tenant == t && AtMost(x.key, k))
    case Past(t) => AtMost(x.tenant, t)
  }

  function MarkOf(c: Cursor): Mark { if c.key == "" then Past(c.tenant) else Within(c.tenant, c.key) }

  ghost predicate ValidCursor(c: Cursor) { c.tenant == "" ==> c.key == "" }

  // ---- contracts of the world ----

  ghost predicate TenantHonest(lo: set<Target>, tenants: set<string>, after: string, reply: Option<Option<string>>) {
    match reply
    case None => true
    case Some(None) => forall x :: x in lo ==> AtMost(x.tenant, after)
    case Some(Some(t)) =>
      Below(after, t) && t in tenants && forall x :: x in lo ==> AtMost(x.tenant, after) || AtMost(t, x.tenant)
  }

  ghost predicate Ascending(ts: seq<Target>) { forall i, j :: 0 <= i < j < |ts| ==> Below(ts[i].key, ts[j].key) }

  /** Up to limit targets strictly after the key, in key order, none of the stable ones left out. */
  ghost predicate Listing(lo: set<Target>, hi: set<Target>, t: string, after: string, limit: nat, ts: seq<Target>) {
    && |ts| <= limit && Ascending(ts)
    && (forall i :: 0 <= i < |ts| ==> Below(after, ts[i].key) && (ts[i].tenant == t ==> ts[i] in hi))
    && (forall x :: x in lo && x.tenant == t && Below(after, x.key) ==>
        x in ts || (ts != [] && Below(ts[|ts| - 1].key, x.key)))
  }

  ghost predicate Honest(w: World, lo: set<Target>, hi: set<Target>, tenants: set<string>) {
    && (forall x :: x in lo ==> x in hi)
    && (forall x :: x in hi ==> x.tenant != "" && x.key != "")
    && (forall n, after :: TenantHonest(lo, tenants, after, w.nextTenant(n, after)))
    && (forall n, t, after, limit :: w.list(n, t, after, limit).Some? && limit > 0 ==>
        Listing(lo, hi, t, after, limit, w.list(n, t, after, limit).value))
  }

  // ---- what a batch achieves ----

  ghost predicate Advances(from: Mark, to: Mark) { forall x :: Seen(from, x) ==> Seen(to, x) }

  ghost predicate Distinct(log: seq<Target>) { forall i, j :: 0 <= i < j < |log| ==> log[i] != log[j] }

  /** The log holds, once each, objects between the marks, and every stable one of them. */
  ghost predicate Covers(lo: set<Target>, hi: set<Target>, from: Mark, to: Mark, log: seq<Target>) {
    && Advances(from, to) && Distinct(log)
    && (forall x :: x in log ==> x in hi && !Seen(from, x) && Seen(to, x))
    && (forall x :: x in lo && !Seen(from, x) && Seen(to, x) ==> x in log)
  }

  /** The batch failed after it entered a tenant and before it finished an object of it. */
  predicate SkipsTenant(b: Batch) { b.status == Failed && b.errorClass != TenantDiscoveryFailed && b.to.key == "" }

  ghost predicate Counted(b: Batch, size: nat, log: seq<Target>) {
    && b.processed == b.rewrapped + b.skipped == |log|
    && b.processed + b.failed <= size
    && b.failed == (if b.status == Failed then 1 else 0)
    && (b.status == Running ==> b.processed == size)
    && (b.status == Failed <==> b.errorClass != NoError)
  }

  /** Everything a batch promises: counters, exact coverage up to its end, and that a completed one left nothing. */
  ghost predicate Outcome(lo: set<Target>, hi: set<Target>, size: nat, b: Batch, log: seq<Target>) {
    && Counted(b, size, log) && ValidCursor(b.to)
    && (if SkipsTenant(b) then Below(b.from.tenant, b.to.tenant)
        && Covers(lo, hi, MarkOf(b.from), Within(b.to.tenant, ""), log)
        else Covers(lo, hi, MarkOf(b.from), MarkOf(b.to), log))
    && (b.status == Completed ==> forall x :: x in lo ==> Seen(MarkOf(b.to), x))
  }

  ghost predicate Foreign(reply: Option<seq<Target>>, t: string) {
    reply.Some? && exists i :: 0 <= i < |reply.value| && reply.value[i].tenant != t
  }

  /** The error class names something that did go wrong. */
  ghost predicate Truthful(w: World, hi: set<Target>, b: Batch) {
    match b.errorClass
    case NoError => true
    case TenantDiscoveryFailed => exists n, a :: w.nextTenant(n, a).None?
    case TargetListFailed => exists n, t, a, l :: w.list(n, t, a, l).None?
    case TargetScopeMismatch => exists n, t, a, l :: Foreign(w.list(n, t, a, l), t)
    case RewrapFailed => exists n, x :: w.rewrap(n, x).None? && x in hi && !Seen(MarkOf(b.from), x)
  }

  /** The first entry of the first listing is foreign, or its rewrap fails. */
  ghost predicate FirstRefused(w: World, n: nat, t: string, limit: nat) {
    && w.list(n, t, "", limit).Some? && w.list(n, t, "", limit).value != []
    && var x := w.list(n, t, "", limit).value[0]; x.tenant != t || exists m :: w.rewrap(m, x).None?
  }

  /** On entering a tenant, its first listing or the first rewrap can fail. */
  ghost predicate EntryFails(w: World, t: string) {
    (exists n, l :: w.list(n, t, "", l).None?) || exists n, l :: FirstRefused(w, n, t, l)
  }

  ghost predicate Wrapped(w: World, x: Target) { exists n :: w.rewrap(n, x).Some? }

  /** At which tick each object of the log was asked for, and which of them the provider changed. */
  ghost predicate Answered(w: World, log: seq<Target>, asked: map<Target, nat>, changed: set<Target>) {
    && (forall x :: x in changed ==> x in log)
    && forall x :: x in log ==> x in asked && w.rewrap(asked[x], x) == Some(x in changed)
  }

  /** The two counters tell changed objects from those that were found current. */
  ghost predicate Tallied(w: World, b: Batch, log: seq<Target>, asked: map<Target, nat>, changed: set<Target>) {
    Answered(w, log, asked, changed) && b.rewrapped == |changed| && b.skipped == |log| - |changed|
  }

  lemma AnsweredNext(w: World, log: seq<Target>, asked: map<Target, nat>, changed: set<Target>, n: nat, x: Target)
    requires Answered(w, log, asked, changed) && x !in log && w.rewrap(n, x).Some?
    ensures Answered(w, log + [x], asked[x := n], if w.rewrap(n, x).value then changed + {x} else changed)
    ensures x !in changed
  {
    forall y | y in log + [x] ensures y == x || y in log {}
  }

  lemma NewlyCovered(lo: set<Target>, hi: set<Target>, from: Mark, to: Mark, log: seq<Target>, x: Target)
    requires Covers(lo, hi, from, to, log + [x])
    ensures x !in log
  {
    assert (log + [x])[|log|] == x;
    assert forall i :: 0 <= i < |log| ==> (log + [x])[i] == log[i];
  }

  /** The batch ends where it began, past a known tenant, or at an object it has done. */
  ghost predicate Landed(from: Cursor, to: Cursor, tenants: set<string>, log: seq<Target>) {
    && (to.tenant == from.tenant || to.tenant in tenants)
    && (to == from || to.key == "" || Target(to.tenant, to.key) in log)
  }

  // ---- moving the mark ----

  lemma CoversStart(lo: set<Target>, hi: set<Target>, m: Mark)
    ensures Covers(lo, hi, m, m, [])
  {
  }

  lemma EnterTenant(lo: set<Target>, hi: set<Target>, from: Mark, after: string, t: string, log: seq<Target>)
    requires Covers(lo, hi, from, Past(after), log) && Below(after, t)
    requires forall x :: x in lo ==> x.key != "" && (AtMost(x.tenant, after) || AtMost(t, x.tenant))
    ensures Covers(lo, hi, from, Within(t, ""), log)
  {
    forall x | Seen(Past(after), x) ensures Seen(Within(t, ""), x) { BelowTransitive(x.tenant, after, t); }
    forall x | x in lo && Seen(Within(t, ""), x) ensures Seen(Past(after), x) {
      if AtMost(t, x.tenant) && Below(x.tenant, t) { AtMostAntisymmetric(x.tenant, t); }
    }
  }

  lemma ExhaustTenant(
    lo: set<Target>, hi: set<Target>, from: Mark, t: string, after: string, limit: nat, log: seq<Target>)
    requires Covers(lo, hi, from, Within(t, after), log) && Listing(lo, hi, t, after, limit, [])
    ensures Covers(lo, hi, from, Past(t), log)
  {
    AtMostReflexive(t);
    forall x | x in lo && Seen(Past(t), x) ensures Seen(Within(t, after), x) {
      if x.tenant == t { AtMostTotal(x.key, after); }
    }
  }

  function Resume(after: string, ts: seq<Target>, i: nat): string
    requires i <= |ts|
  {
    if i == 0 then after else ts[i - 1].key
  }

  /** The next listed object is new, and no stable object lies between it and the mark. */
  lemma NextListed(lo: set<Target>, hi: set<Target>, t: string, after: string, limit: nat, ts: seq<Target>, i: nat)
    requires Listing(lo, hi, t, after, limit, ts) && i < |ts| && ts[i].tenant == t
    ensures ts[i] in hi && Below(Resume(after, ts, i), ts[i].key)
    ensures forall x :: x in lo && x.tenant == t && Below(Resume(after, ts, i), x.key) && AtMost(x.key, ts[i].key) ==>
      x == ts[i]
  {
    forall x | x in lo && x.tenant == t && Below(Resume(after, ts, i), x.key) && AtMost(x.key, ts[i].key)
      ensures x == ts[i]
    {
      BetweenListed(lo, hi, t, after, limit, ts, i, x);
    }
  }

  lemma BetweenListed(
    lo: set<Target>, hi: set<Target>, t: string, after: string, limit: nat, ts: seq<Target>, i: nat, x: Target)
    requires Listing(lo, hi, t, after, limit, ts) && i < |ts| && ts[i].tenant == t
    requires x in lo && x.tenant == t && Below(Resume(after, ts, i), x.key) && AtMost(x.key, ts[i].key)
    ensures x == ts[i]
  {
    if i > 0 { BelowTransitive(after, ts[i - 1].key, x.key); }
    var last := |ts| - 1;
    if x in ts {
      var k :| 0 <= k < |ts| && ts[k] == x;
      if k < i {
        if k < i - 1 { BelowTransitive(x.key, ts[i - 1].key, x.key); }
      } else if k > i {
        BelowTransitive(ts[i].key, x.key, ts[i].key);
      }
    } else {
      BelowTransitive(ts[last].key, x.key, ts[i].key);
      if i < last { BelowTransitive(ts[i].key, ts[last].key, ts[i].key); }
    }
  }

  lemma TakeTarget(lo: set<Target>, hi: set<Target>, from: Mark, a: string, x: Target, log: seq<Target>)
    requires Covers(lo, hi, from, Within(x.tenant, a), log) && x in hi && Below(a, x.key)
    requires forall y :: y in lo && y.tenant == x.tenant && Below(a, y.key) && AtMost(y.key, x.key) ==> y == x
    ensures Covers(lo, hi, from, Within(x.tenant, x.key), log + [x])
  {
    var before, after := Within(x.tenant, a), Within(x.tenant, x.key);
    AtMostReflexive(x.key);
    assert !Seen(before, x) by { if AtMost(x.key, a) { AtMostAntisymmetric(x.key, a); } }
    forall y | Seen(before, y) ensures Seen(after, y) {
      if y.tenant == x.tenant { AtMostTransitive(y.key, a, x.key); }
    }
    forall y | y in lo && Seen(after, y) && !Seen(before, y) ensures y == x { AtMostTotal(a, y.key); }
  }

  // ---- the method ----

  /** Continue inside the cursor's tenant, or ask for the next one; Some(None) means none remains. */
  function ResolveTenant(w: World, n: nat, cursor: Cursor): Option<Option<string>> {
    if cursor.tenant != "" && cursor.key != "" then Some(Some(cursor.tenant)) else w.nextTenant(n, cursor.tenant)
  }

  lemma Resolved(
    w: World, lo: set<Target>, hi: set<Target>, tenants: set<string>, n: nat, from: Cursor, cursor: Cursor, t: string,
    log: seq<Target>)
    requires Honest(w, lo, hi, tenants) && ValidCursor(cursor) && Covers(lo, hi, MarkOf(from), MarkOf(cursor), log)
    requires AtMost(from.tenant, cursor.tenant) && ResolveTenant(w, n, cursor) == Some(Some(t))
    ensures Covers(lo, hi, MarkOf(from), Within(t, cursor.key), log) && t != "" && AtMost(from.tenant, t)
    ensures cursor.key == "" ==> Below(from.tenant, t) && Below(cursor.tenant, t) && t in tenants
    ensures cursor.key != "" ==> t == cursor.tenant
  {
    if cursor.key == "" {
      assert TenantHonest(lo, tenants, cursor.tenant, w.nextTenant(n, cursor.tenant));
      hide Covers;
      EnterTenant(lo, hi, MarkOf(from), cursor.tenant, t, log);
      BelowTransitive(from.tenant, cursor.tenant, t);
    }
  }

  lemma NoneRemains(w: World, lo: set<Target>, hi: set<Target>, tenants: set<string>, n: nat, cursor: Cursor)
    requires Honest(w, lo, hi, tenants) && ValidCursor(cursor) && ResolveTenant(w, n, cursor) == Some(None)
    ensures forall x :: x in lo ==> Seen(MarkOf(cursor), x)
  {
    assert TenantHonest(lo, tenants, cursor.tenant, w.nextTenant(n, cursor.tenant));
  }

  ghost function Ahead(tenants: set<string>, t: string): set<string> { set u | u in tenants && Below(t, u) }

  lemma AheadShrinks(tenants: set<string>, t: string, u: string)
    requires Below(t, u) && u in tenants
    ensures |Ahead(tenants, u)| < |Ahead(tenants, t)|
  {
    forall v | v in Ahead(tenants, u) ensures v in Ahead(tenants, t) { BelowTransitive(t, u, v); }
    assert u in Ahead(tenants, t) && u !in Ahead(tenants, u);
    ProperSubsetSmaller(Ahead(tenants, u), Ahead(tenants, t), u);
  }

  lemma ProperSubsetSmaller<T>(a: set<T>, b: set<T>, x: T)
    requires a <= b && x in b && x !in a
    ensures |a| < |b|
  {
    assert a <= b - {x};
    SubsetNoLarger(a, b - {x});
  }

  lemma {:induction false} SubsetNoLarger<T>(a: set<T>, b: set<T>)
    requires a <= b
    ensures |a| <= |b|
    decreases |a|
  {
    if a != {} {
      var x :| x in a;
      SubsetNoLarger(a - {x}, b - {x});
    }
  }

  ghost predicate Progress(lo: set<Target>, hi: set<Target>, from: Cursor, cursor: Cursor, log: seq<Target>) {
    && ValidCursor(cursor) && AtMost(from.tenant, cursor.tenant)
    && Covers(lo, hi, MarkOf(from), MarkOf(cursor), log)
  }

  /** While targets of t are taken: the cursor has t, and the mark sits at its key even when that is empty. */
  ghost predicate Taking(lo: set<Target>, hi: set<Target>, from: Cursor, cursor: Cursor, log: seq<Target>) {
    && cursor.tenant != "" && AtMost(from.tenant, cursor.tenant)
        && (cursor.key == "" ==> Below(from.tenant, cursor.tenant))
    && Covers(lo, hi, MarkOf(from), Within(cursor.tenant, cursor.key), log)
  }

  lemma FailureOutcome(lo: set<Target>, hi: set<Target>, size: nat, b: Batch, log: seq<Target>)
    requires b.status == Failed && b.errorClass != NoError && Counted(b, size, log)
    requires if b.errorClass == TenantDiscoveryFailed then Progress(lo, hi, b.from, b.to, log)
        else Taking(lo, hi, b.from, b.to, log)
    ensures Outcome(lo, hi, size, b, log)
  {
    hide Covers;
  }

  lemma CoveredLog(lo: set<Target>, hi: set<Target>, from: Mark, to: Mark, log: seq<Target>)
    requires Covers(lo, hi, from, to, log)
    ensures forall x :: x in log ==> x in hi && !Seen(from, x)
  {
  }

  lemma Listed(
    w: World, lo: set<Target>, hi: set<Target>, tenants: set<string>, n: nat, t: string, after: string, limit: nat)
    requires Honest(w, lo, hi, tenants) && limit > 0 && w.list(n, t, after, limit).Some?
    ensures Listing(lo, hi, t, after, limit, w.list(n, t, after, limit).value)
  {
  }

  lemma ListingFits(lo: set<Target>, hi: set<Target>, t: string, after: string, limit: nat, ts: seq<Target>)
    requires Listing(lo, hi, t, after, limit, ts)
    ensures |ts| <= limit && forall i :: 0 <= i < |ts| ==> ts[i].key != ""
  {
  }

  lemma NoErrorTruthful(w: World, hi: set<Target>, b: Batch)
    requires b.errorClass == NoError
    ensures Truthful(w, hi, b)
  {
  }

  lemma DiscoveryFailed(w: World, hi: set<Target>, b: Batch, n: nat, cursor: Cursor)
    requires b.errorClass == TenantDiscoveryFailed && ResolveTenant(w, n, cursor).None?
    ensures Truthful(w, hi, b)
  {
    assert w.nextTenant(n, cursor.tenant).None?;
  }

  lemma ListFailed(w: World, hi: set<Target>, b: Batch, n: nat, t: string, after: string, limit: nat)
    requires b.errorClass == TargetListFailed && w.list(n, t, after, limit).None?
    ensures Truthful(w, hi, b)
  {
  }

  lemma ScopeMismatched(w: World, hi: set<Target>, b: Batch, n: nat, t: string, after: string, limit: nat, i: nat)
    requires b.errorClass == TargetScopeMismatch && w.list(n, t, after, limit).Some?
    requires i < |w.list(n, t, after, limit).value| && w.list(n, t, after, limit).value[i].tenant != t
    ensures Truthful(w, hi, b)
  {
    assert Foreign(w.list(n, t, after, limit), t);
  }

  lemma RewrapRefused(w: World, hi: set<Target>, b: Batch, n: nat, x: Target)
    requires b.errorClass == RewrapFailed && w.rewrap(n, x).None? && x in hi && !Seen(MarkOf(b.from), x)
    ensures Truthful(w, hi, b)
  {
  }

  lemma EntryListFails(w: World, n: nat, t: string, limit: nat)
    requires w.list(n, t, "", limit).None?
    ensures EntryFails(w, t)
  {
  }

  lemma EntryRefused(w: World, n: nat, t: string, limit: nat)
    requires w.list(n, t, "", limit).Some? && w.list(n, t, "", limit).value != []
    requires w.list(n, t, "", limit).value[0].tenant != t
    ensures EntryFails(w, t)
  {
    assert FirstRefused(w, n, t, limit);
  }

  lemma EntryRewrapFails(w: World, n: nat, m: nat, t: string, limit: nat)
    requires w.list(n, t, "", limit).Some? && w.list(n, t, "", limit).value != []
    requires w.rewrap(m, w.list(n, t, "", limit).value[0]).None?
    ensures EntryFails(w, t)
  {
    assert FirstRefused(w, n, t, limit);
  }

  lemma LandedThere(from: Cursor, to: Cursor, tenants: set<string>, log: seq<Target>)
    requires from == to
    ensures Landed(from, to, tenants, log)
  {
  }

  lemma LandedOn(from: Cursor, cursor: Cursor, t: string, tenants: set<string>, log: seq<Target>)
    requires Landed(from, cursor, tenants, log) && if cursor.key == "" then t in tenants else t == cursor.tenant
    ensures Landed(from, Cursor(t, cursor.key), tenants, log)
  {
  }

  lemma LandedPast(from: Cursor, cursor: Cursor, tenants: set<string>, log: seq<Target>)
    requires Landed(from, cursor, tenants, log)
    ensures Landed(from, Cursor(cursor.tenant, ""), tenants, log)
  {
  }

  lemma LandedAt(w: World, n: nat, from: Cursor, cursor: Cursor, x: Target, tenants: set<string>, log: seq<Target>)
    requires Landed(from, cursor, tenants, log) && x.tenant == cursor.tenant && w.rewrap(n, x).Some?
    ensures Landed(from, Cursor(x.tenant, x.key), tenants, log + [x]) && Wrapped(w, x)
  {
  }

  datatype Cancelled = Cancelled

  /** A batch under way: nothing failed, every object counted once, the log rewrapped. */
  ghost predicate UnderWay(w: World, hi: set<Target>, b: Batch, log: seq<Target>) {
    && b.failed == 0 && b.status == Running && b.errorClass == NoError
    && b.processed == b.rewrapped + b.skipped == |log|
    && forall x :: x in log ==> x in hi && !Seen(MarkOf(b.from), x) && Wrapped(w, x)
  }

  /** A batch that ended: what it achieved, why it failed, where it stands. */
  ghost predicate Ended(
    w: World, lo: set<Target>, hi: set<Target>, tenants: set<string>, size: nat, b: Batch, log: seq<Target>)
  {
    && Outcome(lo, hi, size, b, log) && Truthful(w, hi, b) && Landed(b.from, b.to, tenants, log)
    && (SkipsTenant(b) ==> EntryFails(w, b.to.tenant))
  }

  function Stopped(b: Batch, error: ErrorClass, at: Cursor): Batch {
    b.(failed := b.failed + 1, status := Failed, errorClass := error, to := at)
  }

  lemma StoppedEnds(
    w: World, lo: set<Target>, hi: set<Target>, tenants: set<string>, size: nat, b: Batch, error: ErrorClass,
    at: Cursor, log: seq<Target>)
    requires UnderWay(w, hi, b, log) && error != NoError && b.processed < size && Landed(b.from, at, tenants, log)
    requires if error == TenantDiscoveryFailed then Progress(lo, hi, b.from, at, log)
        else Taking(lo, hi, b.from, at, log)
    requires Truthful(w, hi, Stopped(b, error, at))
    requires error != TenantDiscoveryFailed && at.key == "" ==> EntryFails(w, at.tenant)
    ensures Ended(w, lo, hi, tenants, size, Stopped(b, error, at), log)
  {
    hide Progress, Taking, Truthful, Landed, EntryFails, Seen, Outcome;
    FailureOutcome(lo, hi, size, Stopped(b, error, at), log);
  }

  lemma OneMore(
    w: World, lo: set<Target>, hi: set<Target>, n: nat, b: Batch, c: Batch, t: Mark, log: seq<Target>, x: Target)
    requires UnderWay(w, hi, b, log) && Covers(lo, hi, MarkOf(b.from), t, log + [x]) && w.rewrap(n, x).Some?
    requires c == b.(processed := b.processed + 1, rewrapped := c.rewrapped, skipped := c.skipped)
    requires c.rewrapped + c.skipped == b.rewrapped + b.skipped + 1
    ensures UnderWay(w, hi, c, log + [x])
  {
    CoveredLog(lo, hi, MarkOf(b.from), t, log + [x]);
    assert Wrapped(w, x);
    hide Covers, Seen, Wrapped;
  }

  /** The inner loop: the listed targets one by one, until one is foreign or refused. */
  method TakeTargets(
    w: World, start: Batch, current: string, after: string, targets: seq<Target>, tick: nat,
    ghost listed: nat, ghost size: nat, ghost lo: set<Target>, ghost hi: set<Target>, ghost tenants: set<string>,
    ghost done: seq<Target>, ghost ticks: map<Target, nat>, ghost already: set<Target>)
    returns (
      b: Batch, key: string, n: nat, ghost log: seq<Target>, ghost asked: map<Target, nat>, ghost changed: set<Target>)
    requires UnderWay(w, hi, start, done) && start.processed < size && Tallied(w, start, done, ticks, already)
    requires w.list(listed, current, after, size - start.processed) == Some(targets)
    requires Listing(lo, hi, current, after, size - start.processed, targets)
    requires Taking(lo, hi, start.from, Cursor(current, after), done)
    requires Landed(start.from, Cursor(current, after), tenants, done)
    ensures b.generation == start.generation && b.epoch == start.epoch && b.from == start.from
    ensures forall x :: x in log ==> x in hi && !Seen(MarkOf(b.from), x) && Wrapped(w, x)
    ensures Tallied(w, b, log, asked, changed)
    ensures b.status == Failed ==> Ended(w, lo, hi, tenants, size, b, log)
    ensures b.status != Failed ==> UnderWay(w, hi, b, log) && b.processed == start.processed + |targets|
    ensures b.status != Failed ==>
      Taking(lo, hi, b.from, Cursor(current, key), log) && Landed(b.from, Cursor(current, key), tenants, log)
    ensures b.status != Failed && targets != [] ==> key != ""
  {
    hide Covers, Listing, Truthful, Seen, Landed, EntryFails, Taking, Progress, UnderWay, Ended, Answered;
    ListingFits(lo, hi, current, after, size - start.processed, targets);
    b, key, n, log, asked, changed := start, after, tick, done, ticks, already;
    UnderWayFacts(w, hi, b, log);
    for i := 0 to |targets|
      invariant key == Resume(after, targets, i)
      invariant b.generation == start.generation && b.epoch == start.epoch && b.from == start.from
      invariant b.status == Running && b.processed == start.processed + i && UnderWay(w, hi, b, log)
      invariant Tallied(w, b, log, asked, changed)
      invariant Taking(lo, hi, b.from, Cursor(current, key), log) && Landed(b.from, Cursor(current, key), tenants, log)
    {
      var x := targets[i];
      ghost var cursor, limit := Cursor(current, key), size - start.processed;
      UnderWayFacts(w, hi, b, log);
      if x.tenant != current {
        ScopeMismatched(w, hi, Stopped(b, TargetScopeMismatch, cursor), listed, current, after, limit, i);
        if key == "" { EntryRefused(w, listed, current, limit); }
        StoppedEnds(w, lo, hi, tenants, size, b, TargetScopeMismatch, cursor, log);
        b := Stopped(b, TargetScopeMismatch, Cursor(current, key));
        return;
      }
      NextListed(lo, hi, current, after, limit, targets, i);
      TakingMark(lo, hi, b.from, cursor, log);
      TakeTarget(lo, hi, MarkOf(b.from), key, x, log);
      var outcome := w.rewrap(n, x);
      n := n + 1;
      if outcome.None? {
        CoveredLog(lo, hi, MarkOf(b.from), Within(x.tenant, x.key), log + [x]);
        assert x in log + [x];
        RewrapRefused(w, hi, Stopped(b, RewrapFailed, cursor), n - 1, x);
        if key == "" { EntryRewrapFails(w, listed, n - 1, current, limit); }
        StoppedEnds(w, lo, hi, tenants, size, b, RewrapFailed, cursor, log);
        b := Stopped(b, RewrapFailed, Cursor(current, key));
        return;
      }
      LandedAt(w, n - 1, b.from, cursor, x, tenants, log);
      TakingNext(lo, hi, b.from, cursor, x, log);
      ghost var before := b;
      b := b.(processed := b.processed + 1);
      if outcome.value { b := b.(rewrapped := b.rewrapped + 1); } else { b := b.(skipped := b.skipped + 1); }
      OneMore(w, lo, hi, n - 1, before, b, Within(x.tenant, x.key), log, x);
      NewlyCovered(lo, hi, MarkOf(b.from), Within(x.tenant, x.key), log, x);
      AnsweredNext(w, log, asked, changed, n - 1, x);
      asked := asked[x := n - 1];
      if outcome.value { changed := changed + {x}; }
      key := x.key;
      log := log + [x];
    }
    UnderWayFacts(w, hi, b, log);
  }

  lemma UnderWayFacts(w: World, hi: set<Target>, b: Batch, log: seq<Target>)
    requires UnderWay(w, hi, b, log)
    ensures b.failed == 0 && b.status == Running && b.errorClass == NoError
    ensures b.processed == b.rewrapped + b.skipped == |log|
    ensures forall x :: x in log ==> x in hi && !Seen(MarkOf(b.from), x) && Wrapped(w, x)
  {
  }

  lemma TakingMark(lo: set<Target>, hi: set<Target>, from: Cursor, cursor: Cursor, log: seq<Target>)
    requires Taking(lo, hi, from, cursor, log)
    ensures Covers(lo, hi, MarkOf(from), Within(cursor.tenant, cursor.key), log)
  {
  }

  lemma TakingNext(lo: set<Target>, hi: set<Target>, from: Cursor, cursor: Cursor, x: Target, log: seq<Target>)
    requires Taking(lo, hi, from, cursor, log) && x.tenant == cursor.tenant && x.key != ""
    requires Covers(lo, hi, MarkOf(from), Within(x.tenant, x.key), log + [x])
    ensures Taking(lo, hi, from, Cursor(cursor.tenant, x.key), log + [x])
  {
    hide Covers;
  }

  lemma TakenIsProgress(lo: set<Target>, hi: set<Target>, from: Cursor, cursor: Cursor, log: seq<Target>)
    requires Taking(lo, hi, from, cursor, log) && cursor.key != ""
    ensures Progress(lo, hi, from, cursor, log)
  {
    hide Covers;
  }

  lemma ExhaustedIsProgress(
    lo: set<Target>, hi: set<Target>, from: Cursor, t: string, after: string, limit: nat, log: seq<Target>)
    requires Taking(lo, hi, from, Cursor(t, after), log) && Listing(lo, hi, t, after, limit, [])
    ensures Progress(lo, hi, from, Cursor(t, ""), log)
  {
    ExhaustTenant(lo, hi, MarkOf(from), t, after, limit, log);
    hide Covers;
  }

  lemma EnteredIsTaking(
    w: World, lo: set<Target>, hi: set<Target>, tenants: set<string>, n: nat, from: Cursor, cursor: Cursor, t: string,
    log: seq<Target>)
    requires Honest(w, lo, hi, tenants) && Progress(lo, hi, from, cursor, log)
    requires ResolveTenant(w, n, cursor) == Some(Some(t))
    ensures Taking(lo, hi, from, Cursor(t, cursor.key), log)
    ensures if cursor.key == "" then Below(cursor.tenant, t) && t in tenants else t == cursor.tenant
  {
    Resolved(w, lo, hi, tenants, n, from, cursor, t, log);
    hide Covers, Honest;
  }

  /** A batch that filled its size, or found no further tenant, ends without error. */
  lemma CalmlyEnds(
    w: World, lo: set<Target>, hi: set<Target>, tenants: set<string>, size: nat, b: Batch, at: Cursor, status: Status,
    log: seq<Target>)
    requires UnderWay(w, hi, b, log) && Progress(lo, hi, b.from, at, log) && Landed(b.from, at, tenants, log)
    requires b.processed <= size && status != Failed && (status == Running ==> b.processed == size)
    requires status == Completed ==> forall x :: x in lo ==> Seen(MarkOf(at), x)
    ensures Ended(w, lo, hi, tenants, size, b.(status := status, to := at), log)
  {
    NoErrorTruthful(w, hi, b.(status := status, to := at));
    hide Covers, Seen, Landed, Truthful, EntryFails;
  }

  /** At most one bounded batch from the durable cursor; cancelled batches are not committed. */
  method Process(
    w: World, generation: nat, epoch: string, from: Cursor, size: nat,
    ghost lo: set<Target>, ghost hi: set<Target>, ghost tenants: set<string>)
    returns (
      r: Result<Batch, Cancelled>, ghost log: seq<Target>, ghost asked: map<Target, nat>, ghost changed: set<Target>)
    requires 1 <= size <= 500 && ValidCursor(from) && Honest(w, lo, hi, tenants)
    ensures forall x :: x in log ==> x in hi && !Seen(MarkOf(from), x) && Wrapped(w, x)
    ensures Answered(w, log, asked, changed)
    ensures r.Failure? ==> exists n :: w.cancelled(n)
    ensures w.cancelled(0) ==> r.Failure?
    ensures r.Success? ==> Tallied(w, r.value, log, asked, changed)
    ensures r.Success? && r.value.status == Completed ==>
      exists n :: !w.cancelled(n) && w.nextTenant(n, r.value.to.tenant) == Some(None)
    ensures r.Success? ==> r.value.generation == generation && r.value.epoch == epoch && r.value.from == from
    ensures r.Success? ==>
      Outcome(lo, hi, size, r.value, log) && Truthful(w, hi, r.value) && Landed(from, r.value.to, tenants, log)
    ensures r.Success? && SkipsTenant(r.value) ==> EntryFails(w, r.value.to.tenant)
  {
    hide Covers, Listing, Truthful, Honest, Seen, Ahead, AtMost, Below, ResolveTenant, Landed, EntryFails;
    hide Progress, Taking, UnderWay, Ended, Outcome, Answered;
    var b := Batch(generation, epoch, from, from, 0, 0, 0, 0, Running, NoError);
    var cursor, n := from, 0;
    log, asked, changed := [], map[], {};
    StartsUnderWay(w, lo, hi, tenants, b);
    NothingAnswered(w);
    while b.processed + b.failed < size
      invariant b.generation == generation && b.epoch == epoch && b.from == from && b.failed == 0
      invariant UnderWay(w, hi, b, log) && b.processed <= size
      invariant Tallied(w, b, log, asked, changed) && (n == b.processed == 0 || !w.cancelled(0))
      invariant Progress(lo, hi, from, cursor, log) && Landed(from, cursor, tenants, log)
      decreases size - b.processed, |Ahead(tenants, cursor.tenant)|, |cursor.key|
    {
      UnderWayFacts(w, hi, b, log);
      if w.cancelled(n) { return Failure(Cancelled), log, asked, changed; }
      var resolved := ResolveTenant(w, n, cursor);
      n := n + 1;
      if resolved.None? {
        DiscoveryFailed(w, hi, Stopped(b, TenantDiscoveryFailed, cursor), n - 1, cursor);
        StoppedEnds(w, lo, hi, tenants, size, b, TenantDiscoveryFailed, cursor, log);
        b := Stopped(b, TenantDiscoveryFailed, cursor);
        EndedFacts(w, lo, hi, tenants, size, b, log);
        return Success(b), log, asked, changed;
      }
      if resolved.value.None? {
        CursorIsValid(lo, hi, from, cursor, log);
        NoneRemains(w, lo, hi, tenants, n - 1, cursor);
        NoneSaid(w, n - 1, cursor);
        CalmlyEnds(w, lo, hi, tenants, size, b, cursor, Completed, log);
        b := b.(status := Completed, to := cursor);
        EndedFacts(w, lo, hi, tenants, size, b, log);
        return Success(b), log, asked, changed;
      }
      var current := resolved.value.value;
      EnteredIsTaking(w, lo, hi, tenants, n - 1, from, cursor, current, log);
      if cursor.key == "" { AheadShrinks(tenants, cursor.tenant, current); }
      LandedOn(from, cursor, current, tenants, log);
      cursor := Cursor(current, cursor.key);
      ghost var limit, at := size - b.processed - b.failed, n;
      var listed := w.list(n, current, cursor.key, size - b.processed - b.failed);
      n := n + 1;
      if listed.None? {
        ListFailed(w, hi, Stopped(b, TargetListFailed, cursor), at, current, cursor.key, limit);
        if cursor.key == "" { EntryListFails(w, at, current, limit); }
        StoppedEnds(w, lo, hi, tenants, size, b, TargetListFailed, cursor, log);
        b := Stopped(b, TargetListFailed, cursor);
        EndedFacts(w, lo, hi, tenants, size, b, log);
        return Success(b), log, asked, changed;
      }
      var targets := listed.value;
      Listed(w, lo, hi, tenants, at, current, cursor.key, limit);
      if |targets| == 0 {
        ExhaustedIsProgress(lo, hi, from, current, cursor.key, limit, log);
        LandedPast(from, cursor, tenants, log);
        cursor := Cursor(current, "");
        continue;
      }
      ListingFits(lo, hi, current, cursor.key, limit, targets);
      var key;
      b, key, n, log, asked, changed :=
        TakeTargets(w, b, current, cursor.key, targets, n, at, size, lo, hi, tenants, log, asked, changed);
      if b.status == Failed {
        EndedFacts(w, lo, hi, tenants, size, b, log);
        return Success(b), log, asked, changed;
      }
      UnderWayFacts(w, hi, b, log);
      cursor := Cursor(current, key);
      TakenIsProgress(lo, hi, from, cursor, log);
    }
    UnderWayFacts(w, hi, b, log);
    CalmlyEnds(w, lo, hi, tenants, size, b, cursor, Running, log);
    b := b.(to := cursor);
    EndedFacts(w, lo, hi, tenants, size, b, log);
    return Success(b), log, asked, changed;
  }

  lemma NothingAnswered(w: World)
    ensures Answered(w, [], map[], {})
  {
  }

  lemma NoneSaid(w: World, n: nat, cursor: Cursor)
    requires ResolveTenant(w, n, cursor) == Some(None)
    ensures w.nextTenant(n, cursor.tenant) == Some(None)
  {
  }

  lemma StartsUnderWay(w: World, lo: set<Target>, hi: set<Target>, tenants: set<string>, b: Batch)
    requires b.failed == b.processed == b.rewrapped == b.skipped == 0 && b.status == Running && b.errorClass == NoError
    requires ValidCursor(b.from)
    ensures UnderWay(w, hi, b, []) && Progress(lo, hi, b.from, b.from, []) && Landed(b.from, b.from, tenants, [])
  {
    AtMostReflexive(b.from.tenant);
    CoversStart(lo, hi, MarkOf(b.from));
    hide Covers;
  }

  lemma CursorIsValid(lo: set<Target>, hi: set<Target>, from: Cursor, cursor: Cursor, log: seq<Target>)
    requires Progress(lo, hi, from, cursor, log)
    ensures ValidCursor(cursor)
  {
  }

  lemma EndedFacts(
    w: World, lo: set<Target>, hi: set<Target>, tenants: set<string>, size: nat, b: Batch, log: seq<Target>)
    requires Ended(w, lo, hi, tenants, size, b, log)
    ensures Outcome(lo, hi, size, b, log) && Truthful(w, hi, b) && Landed(b.from, b.to, tenants, log)
    ensures SkipsTenant(b) ==> EntryFails(w, b.to.tenant)
  {
  }

  // ---- exactly when a batch's end tells the truth ----

  ghost predicate HoldsObjects(lo: set<Target>, t: string) { exists x :: x in lo && x.tenant == t }

  /** The end of a batch bounds what it did, unless it failed on entering a tenant that holds stable objects. */
  lemma CoverageExactly(lo: set<Target>, hi: set<Target>, size: nat, b: Batch, log: seq<Target>)
    requires Outcome(lo, hi, size, b, log) && forall x :: x in lo ==> x.key != ""
    ensures Covers(lo, hi, MarkOf(b.from), MarkOf(b.to), log) <==> !(SkipsTenant(b) && HoldsObjects(lo, b.to.tenant))
  {
    if SkipsTenant(b) {
      var t := b.to.tenant;
      if HoldsObjects(lo, t) {
        var x :| x in lo && x.tenant == t;
        SkippedObject(lo, hi, b, log, x);
      } else {
        AtMostReflexive(t);
        forall x | x in lo && Seen(Past(t), x) ensures Seen(Within(t, ""), x) {}
      }
    }
  }

  /** An object of the skipped tenant lies between the batch's cursors and was not done. */
  lemma SkippedObject(lo: set<Target>, hi: set<Target>, b: Batch, log: seq<Target>, x: Target)
    requires Below(b.from.tenant, b.to.tenant) && Covers(lo, hi, MarkOf(b.from), Within(b.to.tenant, ""), log)
    requires x.tenant == b.to.tenant && b.to.key == "" && x.key != ""
    ensures !Seen(MarkOf(b.from), x) && Seen(MarkOf(b.to), x) && x !in log
  {
    AtMostReflexive(x.tenant);
    if Seen(MarkOf(b.from), x) { BelowTransitive(b.from.tenant, x.tenant, b.from.tenant); }
  }

  ghost function Between(all: set<Target>, from: Mark, to: Mark): set<Target> {
    set x | x in all && !Seen(from, x) && Seen(to, x)
  }

  ghost function Targets(log: seq<Target>): set<Target> { set x | x in log }

  lemma {:induction false} LogSize(log: seq<Target>)
    requires Distinct(log)
    ensures |Targets(log)| == |log|
  {
    if log != [] {
      var front, last := log[..|log| - 1], log[|log| - 1];
      assert log == front + [last];
      LogSize(front);
      assert Targets(log) == Targets(front) + {last};
      assert last !in front;
    }
  }

  /** With nothing coming or going, the objects done are exactly those between the cursors, and as many as counted. */
  lemma QuietBatchIsExact(all: set<Target>, size: nat, b: Batch, log: seq<Target>)
    requires Outcome(all, all, size, b, log) && !SkipsTenant(b)
    ensures Targets(log) == Between(all, MarkOf(b.from), MarkOf(b.to))
    ensures b.processed == |Between(all, MarkOf(b.from), MarkOf(b.to))|
  {
    assert Targets(log) == Between(all, MarkOf(b.from), MarkOf(b.to));
    LogSize(log);
  }

  /** A provider that finds nothing current skips nothing, one that finds everything current changes nothing. */
  lemma CountersFollowAnswers(w: World, b: Batch, log: seq<Target>, asked: map<Target, nat>, changed: set<Target>)
    requires Tallied(w, b, log, asked, changed) && Distinct(log)
    ensures (forall n, x :: w.rewrap(n, x) != Some(false)) ==> b.rewrapped == |log| && b.skipped == 0
    ensures (forall n, x :: w.rewrap(n, x) != Some(true)) ==> b.rewrapped == 0 && b.skipped == |log|
  {
    LogSize(log);
    assert forall x :: x in changed ==> x in log && w.rewrap(asked[x], x) == Some(true);
    if forall n, x :: w.rewrap(n, x) != Some(false) { assert changed == Targets(log); }
    if forall n, x :: w.rewrap(n, x) != Some(true) {
      assert changed == {};
    }
  }

  /** Entries that cannot fail make every batch's end tell the truth. */
  lemma SureEntriesCover(w: World, lo: set<Target>, hi: set<Target>, size: nat, b: Batch, log: seq<Target>)
    requires Outcome(lo, hi, size, b, log) && (SkipsTenant(b) ==> EntryFails(w, b.to.tenant))
    requires forall t :: HoldsObjects(lo, t) ==> !EntryFails(w, t)
    requires forall x :: x in lo ==> x.key != ""
    ensures Covers(lo, hi, MarkOf(b.from), MarkOf(b.to), log)
  {
    CoverageExactly(lo, hi, size, b, log);
  }

  // ---- one tenant, for a recovery ceremony ----

  const DEFAULT_BATCH := 64

  ghost function Remaining(hi: set<Target>, t: string, after: string): set<Target> {
    set x | x in hi && x.tenant == t && Below(after, x.key)
  }

  lemma RemainingShrinks(hi: set<Target>, after: string, x: Target)
    requires x in hi && Below(after, x.key)
    ensures |Remaining(hi, x.tenant, x.key)| < |Remaining(hi, x.tenant, after)|
  {
    forall y | y in Remaining(hi, x.tenant, x.key) ensures y in Remaining(hi, x.tenant, after) {
      BelowTransitive(after, x.key, y.key);
    }
    ProperSubsetSmaller(Remaining(hi, x.tenant, x.key), Remaining(hi, x.tenant, after), x);
  }

  /** A listing of this tenant, or the rewrap of one of its objects, did fail. */
  ghost predicate Interrupted(w: World, tenant: string, hi: set<Target>) {
    || (exists n, a, l :: w.list(n, tenant, a, l).None?)
    || (exists n, x :: w.rewrap(n, x).None? && x in hi && x.tenant == tenant)
  }

  lemma ListInterrupts(w: World, tenant: string, hi: set<Target>, n: nat, after: string, limit: nat)
    requires w.list(n, tenant, after, limit).None?
    ensures Interrupted(w, tenant, hi)
  {
  }

  lemma RewrapInterrupts(w: World, tenant: string, hi: set<Target>, n: nat, x: Target)
    requires w.rewrap(n, x).None? && x in hi && x.tenant == tenant
    ensures Interrupted(w, tenant, hi)
  {
  }

  ghost predicate InScope(w: World) { forall n, t, a, l :: !Foreign(w.list(n, t, a, l), t) }

  /**
   Rewraps up to limit stale objects of one tenant: never more, and a successful return
   below the limit means that every stable object of the tenant was attempted.
   */
  method RewrapTenantClass(
    w: World, tenant: string, limit: nat, ghost lo: set<Target>, ghost hi: set<Target>, ghost tenants: set<string>)
    returns (
      rewrapped: nat, ok: bool, ghost log: seq<Target>, ghost asked: map<Target, nat>, ghost changed: set<Target>)
    requires tenant != "" && Honest(w, lo, hi, tenants) && InScope(w)
    ensures rewrapped == |changed| <= limit && Distinct(log) && Answered(w, log, asked, changed)
    ensures forall x :: x in log ==> x in hi && x.tenant == tenant
    ensures ok && rewrapped < limit ==> forall x :: x in lo && x.tenant == tenant ==> x in log
    ensures rewrapped <= limit && (!ok ==> Interrupted(w, tenant, hi) && rewrapped < limit)
  {
    hide Interrupted, Covers, Listing, Honest, Seen, AtMost, Below, Remaining, Answered;
    rewrapped, log, asked, changed := 0, [], map[], {};
    NothingAnswered(w);
    var after, n := "", 0;
    ghost var from := Within(tenant, "");
    CoversStart(lo, hi, from);
    while rewrapped < limit
      invariant rewrapped == |changed| <= limit && Attempted(lo, hi, tenant, after, log)
      invariant Answered(w, log, asked, changed)
      decreases |Remaining(hi, tenant, after)|
    {
      var size := if limit - rewrapped < DEFAULT_BATCH then limit - rewrapped else DEFAULT_BATCH;
      var listed := w.list(n, tenant, after, size);
      ghost var at, resume := n, after;
      n := n + 1;
      if listed.None? {
        ListInterrupts(w, tenant, hi, at, after, size);
        AttemptedLog(lo, hi, tenant, after, log);
        return rewrapped, false, log, asked, changed;
      }
      var targets := listed.value;
      Listed(w, lo, hi, tenants, at, tenant, resume, size);
      if |targets| == 0 {
        AttemptedLog(lo, hi, tenant, after, log);
        ExhaustTenant(lo, hi, from, tenant, after, size, log);
        WholeTenant(w, lo, hi, tenants, tenant, log);
        return rewrapped, true, log, asked, changed;
      }
      ListingFits(lo, hi, tenant, resume, size, targets);
      ghost var before := rewrapped;
      var i := 0;
      while i < |targets|
        invariant 0 <= i <= |targets| && after == Resume(resume, targets, i)
        invariant rewrapped == |changed| <= before + i && Attempted(lo, hi, tenant, after, log)
        invariant Answered(w, log, asked, changed)
        invariant if i == 0 then after == resume else |Remaining(hi, tenant, after)| < |Remaining(hi, tenant, resume)|
      {
        var target := targets[i];
        var outcome := w.rewrap(n, target);
        n := n + 1;
        assert !Foreign(w.list(at, tenant, resume, size), tenant);
        NextListed(lo, hi, tenant, resume, size, targets, i);
        if outcome.None? {
          RewrapInterrupts(w, tenant, hi, n - 1, target);
          AttemptedLog(lo, hi, tenant, after, log);
          return rewrapped, false, log, asked, changed;
        }
        AttemptedLog(lo, hi, tenant, after, log);
        TakeTarget(lo, hi, from, after, target, log);
        AttemptedNext(lo, hi, tenant, after, target, log);
        NewlyCovered(lo, hi, from, Within(tenant, target.key), log, target);
        AnsweredNext(w, log, asked, changed, n - 1, target);
        asked := asked[target := n - 1];
        RemainingShrinks(hi, after, target);
        if outcome.value {
          rewrapped := rewrapped + 1;
          changed := changed + {target};
        }
        log := log + [target];
        after := target.key;
        i := i + 1;
      }
    }
    AttemptedLog(lo, hi, tenant, after, log);
    return rewrapped, true, log, asked, changed;
  }

  ghost predicate Attempted(lo: set<Target>, hi: set<Target>, t: string, after: string, log: seq<Target>) {
    Covers(lo, hi, Within(t, ""), Within(t, after), log) && forall x :: x in log ==> x.tenant == t
  }

  lemma AttemptedLog(lo: set<Target>, hi: set<Target>, t: string, after: string, log: seq<Target>)
    requires Attempted(lo, hi, t, after, log)
    ensures Distinct(log) && forall x :: x in log ==> x in hi && x.tenant == t
  {
  }

  lemma AttemptedNext(lo: set<Target>, hi: set<Target>, t: string, after: string, x: Target, log: seq<Target>)
    requires Attempted(lo, hi, t, after, log) && x.tenant == t
    requires Covers(lo, hi, Within(t, ""), Within(t, x.key), log + [x])
    ensures Attempted(lo, hi, t, x.key, log + [x])
  {
  }

  lemma WholeTenant(w: World, lo: set<Target>, hi: set<Target>, tenants: set<string>, t: string, log: seq<Target>)
    requires Honest(w, lo, hi, tenants) && Covers(lo, hi, Within(t, ""), Past(t), log)
    ensures forall x :: x in lo && x.tenant == t ==> x in log
  {
    AtMostReflexive(t);
  }

  // ---- the failing family is not empty ----

  /** One tenant with one object; the provider rewraps it or refuses, as told. */
  function Single(answer: Option<bool>): World {
    World(n => false,
          (n, after) => if Below(after, "t") then Some(Some("t")) else Some(None),
          (n, t, after, limit) => if t == "t" && Below(after, "o") && limit > 0 then Some([Target("t", "o")])
            else Some([]),
          (n, x) => answer)
  }

  lemma NotBelowMeansAtMost(a: string, b: string)
    requires !Below(a, b)
    ensures AtMost(b, a)
  {
    AtMostTotal(a, b);
    AtMostReflexive(a);
  }

  lemma SingleIsHonest(answer: Option<bool>)
    ensures var all := {Target("t", "o")}; Honest(Single(answer), all, all, {"t"})
  {
    var w, all := Single(answer), {Target("t", "o")};
    AtMostReflexive("t");
    forall n: nat, after: string ensures TenantHonest(all, {"t"}, after, w.nextTenant(n, after)) {
      if !Below(after, "t") { NotBelowMeansAtMost(after, "t"); }
    }
    forall n: nat, t: string, after: string, limit: nat | limit > 0
      ensures Listing(all, all, t, after, limit, w.list(n, t, after, limit).value)
    {
      if t == "t" && Below(after, "o") { assert Target("t", "o") in w.list(n, t, after, limit).value; }
    }
  }

  lemma FirstBatchSkips(b: Batch, log: seq<Target>)
    requires var all := {Target("t", "o")}; Outcome(all, all, 1, b, log) && Truthful(Single(None), all, b)
    requires b.from == START && Landed(START, b.to, {"t"}, log) && forall x :: x in log ==> Wrapped(Single(None), x)
    ensures SkipsTenant(b) && log == [] && b.processed == b.rewrapped == b.skipped == 0 && b.failed == 1
    ensures b.status == Failed && b.errorClass == RewrapFailed && b.to == Cursor("t", "")
  {
    var x, w := Target("t", "o"), Single(None);
    assert |log| > 0 ==> Wrapped(w, log[0]);
    assert log == [];
    assert !Seen(Past(""), x);
    assert forall n, t, a, l :: !Foreign(w.list(n, t, a, l), t);
    assert b.status == Failed && b.errorClass == RewrapFailed;
    assert b.to.tenant == "t" || b.to.tenant == "";
  }

  lemma SomethingLogged(log: seq<Target>)
    requires log != []
    ensures exists x :: x in log
  {
    assert log[0] in log;
  }

  lemma SecondBatchCompletes(answer: Option<bool>, b: Batch, log: seq<Target>)
    requires var all := {Target("t", "o")}; Outcome(all, all, 1, b, log) && Truthful(Single(answer), all, b)
    requires b.from == Cursor("t", "") && Landed(b.from, b.to, {"t"}, log)
    requires forall x :: x in log ==> x in {Target("t", "o")} && !Seen(Past("t"), x)
    ensures log == [] && b.processed == b.rewrapped == b.skipped == b.failed == 0
    ensures b.status == Completed && b.errorClass == NoError && b.to == Cursor("t", "")
  {
    var w := Single(answer);
    AtMostReflexive("t");
    if log != [] {
      SomethingLogged(log);
      assert false;
    }
    assert forall n, t, a, l :: !Foreign(w.list(n, t, a, l), t);
  }

  /**
   One tenant with one object. The provider refuses while the first batch runs and rewraps while the
   second does, yet what Process returns is a batch that skips the tenant and one that completes.
   */
  method RefusedEntryIsSkipped()
    returns (first: Batch, second: Batch, ghost firstLog: seq<Target>, ghost secondLog: seq<Target>)
    ensures var all := {Target("t", "o")};
            && Honest(Single(None), all, all, {"t"}) && Honest(Single(Some(true)), all, all, {"t"})
            && Outcome(all, all, 1, first, firstLog) && Truthful(Single(None), all, first)
            && Outcome(all, all, 1, second, secondLog) && Truthful(Single(Some(true)), all, second)
    ensures first == Batch(1, "e", START, Cursor("t", ""), 0, 0, 0, 1, Failed, RewrapFailed)
    ensures second == Batch(1, "e", Cursor("t", ""), Cursor("t", ""), 0, 0, 0, 0, Completed, NoError)
    ensures firstLog == [] && secondLog == []
  {
    hide Outcome, Truthful, Landed, EntryFails, Honest;
    ghost var all := {Target("t", "o")};
    SingleIsHonest(None);
    SingleIsHonest(Some(true));
    var r;
    ghost var asked, changed;
    r, firstLog, asked, changed := Process(Single(None), 1, "e", START, 1, all, all, {"t"});
    first := r.value;
    FirstBatchSkips(first, firstLog);
    r, secondLog, asked, changed := Process(Single(Some(true)), 1, "e", first.to, 1, all, all, {"t"});
    second := r.value;
    SecondBatchCompletes(Some(true), second, secondLog);
  }
}
