/**
 Production-acceptance records: which records validate as accepted, and why their
 digest does not depend on how their lists are ordered.
 */
module Acceptance {
  import opened Base
  import opened Text

  datatype Check = Check(id: string, result: string, evidenceRefs: seq<string>, exceptionRef: string)

  datatype Risk = Risk(severity: string, riskRef: string, controlRef: string, ownerRef: string,
      remediationRef: string, expiresAt: Time)

  datatype Approval = Approval(role: string, actorRef: string, decision: string, at: Time, evidenceRef: string)

  datatype Metric = Metric(name: string, text: string)

  /** The scalar parts: whether they are well formed, and whether they are complete. */
  datatype Header = Header(recordID: string, text: string, sound: bool, runComplete: bool, buildComplete: bool,
      evidenceComplete: bool)

  datatype Record = Record(
    gateSet: string, decision: string, header: Header, endedAt: Time,
    checks: seq<Check>, risks: seq<Risk>, approvals: seq<Approval>, metrics: seq<Metric>)

  datatype Verdict = Valid | Invalid | Incomplete

  /** Reference and token syntax is a parameter. */
  datatype Syntax = Syntax(reference: string -> bool, metric: Metric -> bool)

  const PROVIDER_CHECKS: seq<string> := [
    "PRV-01-authentication", "PRV-02-representative-samples", "PRV-03-outcome-mapping",
    "PRV-04-failure-paths", "PRV-05-operational-review", "PRV-06-regional-journey", "PRV-07-content-exclusion"]

  const MODEL_CHECKS: seq<string> := [
    "MOD-01-provenance-rights", "MOD-02-evaluation-set", "MOD-03-thresholds-metrics",
    "MOD-04-attack-quality-coverage", "MOD-05-fairness", "MOD-06-runtime",
    "MOD-07-lifecycle", "MOD-08-assurance-mapping", "MOD-09-independent-review"]

  const REQUIRED_APPROVALS: seq<string> := ["operations", "privacy_legal", "product", "provider_model", "security"]

  const OPEN := "open"
  const ACCEPTED := "accepted"
  const RESTRICTED := "accepted_with_expiring_restrictions"
  const REJECTED := "rejected"

  function RequiredChecks(gateSet: string): Option<seq<string>> {
    if gateSet == "provider" then Some(PROVIDER_CHECKS) else if gateSet == "model" then Some(MODEL_CHECKS) else None
  }

  predicate Accepting(r: Record) { r.decision == ACCEPTED || r.decision == RESTRICTED }

  predicate Optional(x: Syntax, value: string) { value == "" || x.reference(value) }

  // ---- lists with distinct keys ----

  ghost function Keys<T>(s: seq<T>, key: T -> string): seq<string> { seq(|s|, i requires 0 <= i < |s| => key(s[i])) }

  ghost predicate DistinctKeys<T(!new)>(s: seq<T>, key: T -> string) {
    forall i, j :: 0 <= i < j < |s| ==> key(s[i]) != key(s[j])
  }

  ghost function KeySet<T>(s: seq<T>, key: T -> string): set<string> { set i | 0 <= i < |s| :: key(s[i]) }

  lemma {:induction false} DistinctKeysCount<T(!new)>(s: seq<T>, key: T -> string)
    requires DistinctKeys(s, key)
    ensures |KeySet(s, key)| == |s|
  {
    if s != [] {
      var front, last := s[..|s| - 1], s[|s| - 1];
      DistinctKeysCount(front, key);
      assert forall i :: 0 <= i < |front| ==> front[i] == s[i];
      assert KeySet(s, key) == KeySet(front, key) + {key(last)};
    }
  }

  lemma {:induction false} SameSizeSubset(a: set<string>, b: set<string>)
    requires a <= b
    ensures |a| <= |b| && (|a| == |b| <==> a == b)
    decreases |a|
  {
    if a != {} {
      var x :| x in a;
      SameSizeSubset(a - {x}, b - {x});
      assert a == (a - {x}) + {x} && b == (b - {x}) + {x};
    }
  }

  /** Pigeonhole: distinct allowed keys number as many as the allowed ones exactly when all of them occur. */
  lemma EveryAllowedKeyOccurs<T(!new)>(s: seq<T>, key: T -> string, allowed: seq<string>)
    requires DistinctKeys(s, key) && (forall t :: t in s ==> key(t) in allowed) && NoRepeats(allowed)
    ensures |s| <= |allowed|
    ensures |s| == |allowed| <==> forall k :: k in allowed ==> exists t :: t in s && key(t) == k
  {
    var all := set k | k in allowed;
    DistinctKeysCount(s, key);
    NoRepeatsCount(allowed);
    SameSizeSubset(KeySet(s, key), all);
    if forall k :: k in allowed ==> exists t :: t in s && key(t) == k {
      forall k | k in all ensures k in KeySet(s, key) {
        var t :| t in s && key(t) == k;
        var i :| 0 <= i < |s| && s[i] == t;
      }
    }
    if KeySet(s, key) == all {
      forall k | k in allowed ensures exists t :: t in s && key(t) == k {
        assert k in KeySet(s, key);
        var i :| 0 <= i < |s| && key(s[i]) == k;
        assert s[i] in s;
      }
    }
  }

  ghost predicate NoRepeats(s: seq<string>) { forall i, j :: 0 <= i < j < |s| ==> s[i] != s[j] }

  lemma {:induction false} NoRepeatsCount(s: seq<string>)
    requires NoRepeats(s)
    ensures |set k | k in s| == |s|
  {
    if s != [] {
      var front, last := s[..|s| - 1], s[|s| - 1];
      assert s == front + [last];
      NoRepeatsCount(front);
      assert (set k | k in s) == (set k | k in front) + {last};
    }
  }

  // ---- validation ----

  predicate GoodCheck(x: Syntax, c: Check, required: seq<string>) {
    && c.id in required && c.result in ["pass", "fail", "blocked", "not_applicable"] && |c.evidenceRefs| <= 32
    && (forall e :: e in c.evidenceRefs ==> x.reference(e))
    && ((c.result == "not_applicable") == (c.exceptionRef != "")) && Optional(x, c.exceptionRef)
  }

  predicate GoodRisk(x: Syntax, r: Risk) {
    && r.severity in ["low", "medium", "high", "critical"] && x.reference(r.riskRef) && x.reference(r.controlRef)
    && x.reference(r.ownerRef) && x.reference(r.remediationRef) && r.expiresAt != 0
  }

  predicate GoodApproval(x: Syntax, a: Approval) {
    a.role in REQUIRED_APPROVALS && a.decision in ["approve", "reject", "pending"] && Optional(x, a.actorRef)
      && Optional(x, a.evidenceRef)
  }

  const CHECK_KEY := (c: Check) => c.id
  const RISK_KEY := (r: Risk) => r.riskRef
  const APPROVAL_KEY := (a: Approval) => a.role
  const METRIC_KEY := (m: Metric) => m.name

  ghost predicate Listed<T(!new)>(s: seq<T>, key: T -> string, good: T -> bool) {
    (forall t :: t in s ==> good(t)) && DistinctKeys(s, key)
  }

  /** The loop that all four list validators share: every entry is good and no key repeats. */
  method ValidList<T(==,!new)>(s: seq<T>, key: T -> string, good: T -> bool) returns (ok: bool)
    ensures ok <==> Listed(s, key, good)
  {
    var seen: set<string> := {};
    for i := 0 to |s|
      invariant forall k :: 0 <= k < i ==> good(s[k])
      invariant forall j, k :: 0 <= j < k < i ==> key(s[j]) != key(s[k])
      invariant seen == set k | 0 <= k < i :: key(s[k])
    {
      if !good(s[i]) || key(s[i]) in seen { return false; }
      seen := seen + {key(s[i])};
    }
    return true;
  }

  /** Run, build and evidence are complete; evidence is not without a metric. */
  predicate SectionsComplete(r: Record) {
    r.header.runComplete && r.header.buildComplete && r.header.evidenceComplete && r.metrics != []
  }

  /** Structure that every record must have, whatever it decides. */
  ghost predicate Structured(x: Syntax, r: Record, required: seq<string>) {
    && r.header.sound && r.decision in [OPEN, ACCEPTED, RESTRICTED, REJECTED]
    && (r.decision == OPEN || SectionsComplete(r))
    && |r.metrics| <= 256 && Listed(r.metrics, METRIC_KEY, x.metric)
    && |r.checks| <= |required| && Listed(r.checks, CHECK_KEY, (c: Check) => GoodCheck(x, c, required))
    && |r.risks| <= 128 && Listed(r.risks, RISK_KEY, (k: Risk) => GoodRisk(x, k))
    && |r.approvals| <= |REQUIRED_APPROVALS| && Listed(r.approvals, APPROVAL_KEY, (a: Approval) => GoodApproval(x, a))
  }

  predicate Passes(c: Check) { c.result == "pass" && c.evidenceRefs != [] }

  predicate Endorses(x: Syntax, a: Approval, endedAt: Time) {
    a.decision == "approve" && a.at != 0 && x.reference(a.actorRef) && x.reference(a.evidenceRef) && endedAt <= a.at
  }

  predicate Tolerable(k: Risk, r: Record) {
    k.severity != "critical" && (k.severity == "high" ==> r.decision == RESTRICTED) && r.endedAt < k.expiresAt
  }

  /** Completeness as the code counts it. */
  ghost predicate Complete(x: Syntax, r: Record, required: seq<string>) {
    && SectionsComplete(r)
    && |r.checks| == |required| && (forall c :: c in r.checks ==> Passes(c))
    && |r.approvals| == |REQUIRED_APPROVALS| && (forall a :: a in r.approvals ==> Endorses(x, a, r.endedAt))
    && (forall k :: k in r.risks ==> Tolerable(k, r))
    && (r.decision == RESTRICTED ==> r.risks != [])
  }

  ghost function Judgement(x: Syntax, r: Record): Verdict {
    match RequiredChecks(r.gateSet)
    case None => Invalid
    case Some(required) =>
      if !Structured(x, r, required) then Invalid
      else if Accepting(r) && !Complete(x, r, required) then Incomplete
      else Valid
  }

  method IsComplete(x: Syntax, r: Record, required: seq<string>) returns (ok: bool)
    ensures ok <==> Complete(x, r, required)
  {
    if !r.header.runComplete || !r.header.buildComplete || !r.header.evidenceComplete || |r.metrics| == 0 {
      return false;
    }
    if |r.checks| != |required| { return false; }
    for i := 0 to |r.checks|
      invariant forall k :: 0 <= k < i ==> Passes(r.checks[k])
    {
      if r.checks[i].result != "pass" || |r.checks[i].evidenceRefs| == 0 {
        assert !Passes(r.checks[i]);
        return false;
      }
    }
    if |r.approvals| != |REQUIRED_APPROVALS| { return false; }
    for i := 0 to |r.approvals|
      invariant forall k :: 0 <= k < i ==> Endorses(x, r.approvals[k], r.endedAt)
    {
      var a := r.approvals[i];
      if a.decision != "approve" || a.at == 0 || !x.reference(a.actorRef) || !x.reference(a.evidenceRef)
          || a.at < r.endedAt {
        assert !Endorses(x, r.approvals[i], r.endedAt);
        return false;
      }
    }
    for i := 0 to |r.risks|
      invariant forall k :: 0 <= k < i ==> Tolerable(r.risks[k], r)
    {
      var k := r.risks[i];
      if k.severity == "critical" || (k.severity == "high" && r.decision != RESTRICTED) || !(r.endedAt < k.expiresAt) {
        assert !Tolerable(r.risks[i], r);
        return false;
      }
    }
    return r.decision != RESTRICTED || |r.risks| > 0;
  }

  method Validate(x: Syntax, r: Record) returns (v: Verdict)
    ensures v == Judgement(x, r)
  {
    hide Complete, Listed;
    var known := RequiredChecks(r.gateSet);
    if known.None? { return Invalid; }
    var required := known.value;
    if !r.header.sound || r.decision !in [OPEN, ACCEPTED, RESTRICTED, REJECTED] { return Invalid; }
    if r.decision != OPEN && !SectionsComplete(r) { return Invalid; }
    if |r.metrics| > 256 || |r.checks| > |required| || |r.risks| > 128 || |r.approvals| > |REQUIRED_APPROVALS| {
      return Invalid;
    }
    var metrics := ValidList(r.metrics, METRIC_KEY, x.metric);
    var checks := ValidList(r.checks, CHECK_KEY, (c: Check) => GoodCheck(x, c, required));
    var risks := ValidList(r.risks, RISK_KEY, (k: Risk) => GoodRisk(x, k));
    var approvals := ValidList(r.approvals, APPROVAL_KEY, (a: Approval) => GoodApproval(x, a));
    if !metrics || !checks || !risks || !approvals { return Invalid; }
    if !Accepting(r) { return Valid; }
    var complete := IsComplete(x, r, required);
    return if complete then Valid else Incomplete;
  }

  lemma GatesDistinct(gateSet: string)
    requires RequiredChecks(gateSet).Some?
    ensures NoRepeats(RequiredChecks(gateSet).value)
  {
  }

  lemma RolesDistinct()
    ensures NoRepeats(REQUIRED_APPROVALS)
  {
  }

  ghost predicate EveryGatePasses(r: Record, required: seq<string>) {
    forall k :: k in required ==> exists c :: c in r.checks && c.id == k && Passes(c)
  }

  ghost predicate EveryRoleApproves(x: Syntax, r: Record) {
    forall k :: k in REQUIRED_APPROVALS ==> exists a :: a in r.approvals && a.role == k && Endorses(x, a, r.endedAt)
  }

  /**
   An accepting record of sound structure validates exactly when every required gate is
   present and all checks pass, every required role approves and all approvals endorse the
   run, and its risks are tolerable; no other check or role occurs in it.
   */
  lemma AcceptedExactly(x: Syntax, r: Record, required: seq<string>)
    requires r.decision in {"accepted", "accepted_with_expiring_restrictions"}
    requires RequiredChecks(r.gateSet) == Some(required) && Structured(x, r, required)
    ensures Judgement(x, r) == Valid <==>
      && EveryGatePasses(r, required) && (forall c :: c in r.checks ==> Passes(c))
      && EveryRoleApproves(x, r) && (forall a :: a in r.approvals ==> Endorses(x, a, r.endedAt))
      && (forall k :: k in r.risks ==> Tolerable(k, r)) && (r.decision == RESTRICTED ==> r.risks != [])
    ensures forall c :: c in r.checks ==> c.id in required
    ensures forall a :: a in r.approvals ==> a.role in REQUIRED_APPROVALS
  {
    ChecksByGate(x, r, required);
    ApprovalsByRole(x, r);
  }

  lemma ChecksByGate(x: Syntax, r: Record, required: seq<string>)
    requires Structured(x, r, required) && RequiredChecks(r.gateSet) == Some(required)
    ensures (forall c :: c in r.checks ==> c.id in required)
    ensures (|r.checks| == |required| && forall c :: c in r.checks ==> Passes(c)) <==>
        EveryGatePasses(r, required) && forall c :: c in r.checks ==> Passes(c)
  {
    GatesDistinct(r.gateSet);
    forall c | c in r.checks ensures GoodCheck(x, c, required) && CHECK_KEY(c) == c.id {}
    EveryAllowedKeyOccurs(r.checks, CHECK_KEY, required);
  }

  lemma ApprovalsByRole(x: Syntax, r: Record)
    requires Listed(r.approvals, APPROVAL_KEY, (a: Approval) => GoodApproval(x, a))
    ensures (forall a :: a in r.approvals ==> a.role in REQUIRED_APPROVALS)
    ensures (|r.approvals| == |REQUIRED_APPROVALS| && forall a :: a in r.approvals ==> Endorses(x, a, r.endedAt))
            <==> EveryRoleApproves(x, r) && forall a :: a in r.approvals ==> Endorses(x, a, r.endedAt)
  {
    RolesDistinct();
    forall a | a in r.approvals ensures GoodApproval(x, a) && APPROVAL_KEY(a) == a.role {}
    EveryAllowedKeyOccurs(r.approvals, APPROVAL_KEY, REQUIRED_APPROVALS);
  }

  // ---- the normal form behind the digest ----

  function InsertBy<T>(t: T, s: seq<T>, key: T -> string): (r: seq<T>)
    ensures multiset(r) == multiset(s) + multiset{t}
  {
    if s == [] then [t]
    else if AtMost(key(t), key(s[0])) then [t] + s
    else
      assert s == [s[0]] + s[1..];
      [s[0]] + InsertBy(t, s[1..], key)
  }

  /** Stands for the library sort by key. */
  function SortBy<T>(s: seq<T>, key: T -> string): (r: seq<T>)
    ensures multiset(r) == multiset(s)
  {
    if s == [] then []
    else
      assert s == [s[0]] + s[1..];
      InsertBy(s[0], SortBy(s[1..], key), key)
  }

  ghost predicate StrictBy<T(!new)>(s: seq<T>, key: T -> string) {
    forall i, j :: 0 <= i < j < |s| ==> Below(key(s[i]), key(s[j]))
  }

  lemma {:induction false} InsertStrict<T(!new)>(t: T, s: seq<T>, key: T -> string)
    requires StrictBy(s, key) && forall u :: u in s ==> key(u) != key(t)
    ensures StrictBy(InsertBy(t, s, key), key)
  {
    if s != [] {
      if AtMost(key(t), key(s[0])) {
        assert s[0] in s;
        forall j | 0 < j < |s| ensures Below(key(t), key(s[j])) { BelowTransitive(key(t), key(s[0]), key(s[j])); }
      } else {
        AtMostTotal(key(t), key(s[0]));
        InsertStrict(t, s[1..], key);
        var r := InsertBy(t, s[1..], key);
        forall j | 0 <= j < |r| ensures Below(key(s[0]), key(r[j])) {
          assert r[j] in multiset(r);
          assert r[j] == t || r[j] in s[1..];
        }
      }
    }
  }

  lemma {:induction false} SortStrict<T(!new)>(s: seq<T>, key: T -> string)
    requires DistinctKeys(s, key)
    ensures StrictBy(SortBy(s, key), key)
  {
    if s != [] {
      SortStrict(s[1..], key);
      var rest := SortBy(s[1..], key);
      forall u | u in rest ensures key(u) != key(s[0]) {
        assert u in multiset(rest);
        assert u in s[1..];
        var i :| 0 <= i < |s[1..]| && s[1..][i] == u;
        assert s[i + 1] == u;
      }
      InsertStrict(s[0], rest, key);
    }
  }

  /** Lists strictly ordered by key with the same elements are equal. */
  lemma StrictByUnique<T(!new)>(a: seq<T>, b: seq<T>, key: T -> string)
    requires StrictBy(a, key) && StrictBy(b, key) && forall t :: t in a <==> t in b
    ensures a == b
  {
    var ka, kb := Keys(a, key), Keys(b, key);
    forall k | k in ka ensures k in kb {
      var i :| 0 <= i < |a| && ka[i] == k;
      assert a[i] in b;
      var j :| 0 <= j < |b| && b[j] == a[i];
      assert kb[j] == k;
    }
    forall k | k in kb ensures k in ka {
      var i :| 0 <= i < |b| && kb[i] == k;
      assert b[i] in a;
      var j :| 0 <= j < |a| && a[j] == b[i];
      assert ka[j] == k;
    }
    StrictUnique(ka, kb);
    forall i | 0 <= i < |a| ensures a[i] == b[i] {
      assert a[i] in b;
      var j :| 0 <= j < |b| && b[j] == a[i];
      assert kb[j] == kb[i];
      assert i == j;
    }
  }

  lemma SameElements<T>(a: seq<T>, b: seq<T>)
    requires multiset(a) == multiset(b)
    ensures |a| == |b| && forall t :: t in a <==> t in b
  {
    assert |a| == |multiset(a)| == |multiset(b)| == |b|;
    assert forall t :: t in a <==> t in multiset(a);
    assert forall t :: t in b <==> t in multiset(b);
  }

  /** Sorting by distinct keys forgets the order of the input. */
  lemma SortByForgetsOrder<T(!new)>(a: seq<T>, b: seq<T>, key: T -> string)
    requires multiset(a) == multiset(b) && DistinctKeys(a, key) && DistinctKeys(b, key)
    ensures SortBy(a, key) == SortBy(b, key)
  {
    SortStrict(a, key);
    SortStrict(b, key);
    SameElements(SortBy(a, key), SortBy(b, key));
    hide SortBy;
    StrictByUnique(SortBy(a, key), SortBy(b, key), key);
  }

  function NormalCheck(c: Check): Check { c.(evidenceRefs := Sort(c.evidenceRefs)) }

  function NormalChecks(checks: seq<Check>): seq<Check> {
    seq(|checks|, i requires 0 <= i < |checks| => NormalCheck(checks[i]))
  }

  /** What Digest encodes. */
  function Normalized(r: Record): Record {
    r.(checks := SortBy(NormalChecks(r.checks), CHECK_KEY), risks := SortBy(r.risks, RISK_KEY),
       approvals := SortBy(r.approvals, APPROVAL_KEY), metrics := SortBy(r.metrics, METRIC_KEY))
  }

  /** The same record with its lists, and the evidence references of each check, in another order. */
  ghost predicate Reordered(r: Record, q: Record) {
    && q == r.(checks := q.checks, risks := q.risks, approvals := q.approvals, metrics := q.metrics)
    && multiset(r.risks) == multiset(q.risks) && multiset(r.approvals) == multiset(q.approvals)
        && multiset(r.metrics) == multiset(q.metrics)
    && exists mid :: multiset(mid) == multiset(q.checks) && SameUpToRefs(r.checks, mid)
  }

  ghost predicate SameUpToRefs(a: seq<Check>, b: seq<Check>) {
    |a| == |b| && forall i :: 0 <= i < |a| ==> SameButRefs(a[i], b[i])
  }

  ghost predicate SameButRefs(a: Check, b: Check) {
    b == a.(evidenceRefs := b.evidenceRefs) && multiset(a.evidenceRefs) == multiset(b.evidenceRefs)
  }

  lemma RefsNormalize(a: seq<Check>, b: seq<Check>)
    requires SameUpToRefs(a, b)
    ensures NormalChecks(a) == NormalChecks(b)
  {
    forall i | 0 <= i < |a| ensures NormalCheck(a[i]) == NormalCheck(b[i]) {
      SortedUnique(Sort(a[i].evidenceRefs), Sort(b[i].evidenceRefs));
    }
  }

  ghost function Without(b: seq<Check>, k: nat): seq<Check>
    requires k < |b|
  {
    b[..k] + b[k + 1..]
  }

  lemma NormalChecksWithout(b: seq<Check>, k: nat)
    requires k < |b|
    ensures multiset(Without(b, k)) == multiset(b) - multiset{b[k]} && |Without(b, k)| < |b|
    ensures multiset(NormalChecks(b)) == multiset(NormalChecks(Without(b, k))) + multiset{NormalCheck(b[k])}
  {
    assert b == b[..k] + [b[k]] + b[k + 1..];
    NormalChecksSplit(b[..k], b[k + 1..]);
    NormalChecksSplit(b[..k] + [b[k]], b[k + 1..]);
    NormalChecksSplit(b[..k], [b[k]]);
    assert NormalChecks([b[k]]) == [NormalCheck(b[k])];
  }

  lemma {:induction false} NormalChecksReordered(a: seq<Check>, b: seq<Check>)
    requires multiset(a) == multiset(b)
    ensures multiset(NormalChecks(a)) == multiset(NormalChecks(b))
    decreases |a|
  {
    SameElements(a, b);
    if a != [] {
      assert a[0] in b;
      var k :| 0 <= k < |b| && b[k] == a[0];
      hide NormalChecks, Without;
      NormalChecksWithout(a, 0);
      NormalChecksWithout(b, k);
      NormalChecksReordered(Without(a, 0), Without(b, k));
    }
  }

  lemma NormalChecksSplit(a: seq<Check>, b: seq<Check>)
    ensures NormalChecks(a + b) == NormalChecks(a) + NormalChecks(b)
  {
  }

  lemma NormalKeysDistinct(checks: seq<Check>)
    requires DistinctKeys(checks, CHECK_KEY)
    ensures DistinctKeys(NormalChecks(checks), CHECK_KEY)
  {
    forall i, j | 0 <= i < j < |checks|
      ensures CHECK_KEY(NormalChecks(checks)[i]) != CHECK_KEY(NormalChecks(checks)[j])
    {
      assert CHECK_KEY(checks[i]) != CHECK_KEY(checks[j]);
    }
  }

  // ---- reordering does not change the verdict ----

  lemma {:induction false} FullKeySetIsDistinct<T(!new)>(s: seq<T>, key: T -> string)
    ensures |KeySet(s, key)| <= |s| && (|KeySet(s, key)| == |s| <==> DistinctKeys(s, key))
  {
    if s != [] {
      FullKeySetIsDistinct(s[..|s| - 1], key);
      KeySetSplit(s, key);
      DistinctSplit(s, key);
      hide KeySet, DistinctKeys;
    }
  }

  lemma KeySetSplit<T(!new)>(s: seq<T>, key: T -> string)
    requires s != []
    ensures var n := |s| - 1; KeySet(s, key) == KeySet(s[..n], key) + {key(s[n])}
  {
    assert forall i :: 0 <= i < |s| - 1 ==> s[..|s| - 1][i] == s[i];
  }

  lemma DistinctSplit<T(!new)>(s: seq<T>, key: T -> string)
    requires s != []
    ensures var n := |s| - 1; DistinctKeys(s, key) <==> DistinctKeys(s[..n], key) && key(s[n]) !in KeySet(s[..n], key)
  {
    var n := |s| - 1;
    assert forall i :: 0 <= i < n ==> s[..n][i] == s[i] && key(s[i]) in KeySet(s[..n], key);
  }

  lemma ListedReordered<T(!new)>(a: seq<T>, b: seq<T>, key: T -> string, good: T -> bool)
    requires multiset(a) == multiset(b)
    ensures |a| == |b| && (Listed(a, key, good) <==> Listed(b, key, good))
  {
    SameElements(a, b);
    FullKeySetIsDistinct(a, key);
    FullKeySetIsDistinct(b, key);
    forall k | k in KeySet(a, key) ensures k in KeySet(b, key) {
      var i :| 0 <= i < |a| && key(a[i]) == k;
      assert a[i] in b;
    }
    forall k | k in KeySet(b, key) ensures k in KeySet(a, key) {
      var i :| 0 <= i < |b| && key(b[i]) == k;
      assert b[i] in a;
    }
    assert KeySet(a, key) == KeySet(b, key);
  }

  ghost predicate ChecksFine(x: Syntax, checks: seq<Check>, required: seq<string>) {
    Listed(checks, CHECK_KEY, (c: Check) => GoodCheck(x, c, required))
  }

  lemma RefsKeepCheck(x: Syntax, a: Check, b: Check, required: seq<string>)
    requires SameButRefs(a, b)
    ensures (GoodCheck(x, a, required) <==> GoodCheck(x, b, required)) && (Passes(a) <==> Passes(b))
    ensures CHECK_KEY(a) == CHECK_KEY(b)
  {
    SameElements(a.evidenceRefs, b.evidenceRefs);
  }

  lemma ByIndex<T(!new)>(s: seq<T>, good: T -> bool)
    ensures (forall t :: t in s ==> good(t)) <==> forall i :: 0 <= i < |s| ==> good(s[i])
  {
  }

  lemma RefsKeepChecks(x: Syntax, a: seq<Check>, b: seq<Check>, required: seq<string>)
    requires SameUpToRefs(a, b)
    ensures ChecksFine(x, a, required) <==> ChecksFine(x, b, required)
    ensures (forall c :: c in a ==> Passes(c)) <==> (forall c :: c in b ==> Passes(c))
  {
    forall i | 0 <= i < |a|
      ensures (GoodCheck(x, a[i], required) <==> GoodCheck(x, b[i], required)) && (Passes(a[i]) <==> Passes(b[i]))
      ensures CHECK_KEY(a[i]) == CHECK_KEY(b[i])
    {
      RefsKeepCheck(x, a[i], b[i], required);
    }
    hide GoodCheck, Passes, SameUpToRefs, CHECK_KEY;
    var good, passes := (c: Check) => GoodCheck(x, c, required), (c: Check) => Passes(c);
    ByIndex(a, good);
    ByIndex(b, good);
    ByIndex(a, passes);
    ByIndex(b, passes);
    assert DistinctKeys(a, CHECK_KEY) <==> DistinctKeys(b, CHECK_KEY);
  }

  lemma ChecksReordered(x: Syntax, r: Record, q: Record, required: seq<string>)
    requires Reordered(r, q)
    ensures |r.checks| == |q.checks| && (ChecksFine(x, r.checks, required) <==> ChecksFine(x, q.checks, required))
    ensures (forall c :: c in r.checks ==> Passes(c)) <==> (forall c :: c in q.checks ==> Passes(c))
  {
    var mid :| multiset(mid) == multiset(q.checks) && SameUpToRefs(r.checks, mid);
    RefsKeepChecks(x, r.checks, mid, required);
    ListedReordered(mid, q.checks, CHECK_KEY, (c: Check) => GoodCheck(x, c, required));
    SameElements(mid, q.checks);
  }

  lemma VerdictForgetsOrder(x: Syntax, r: Record, q: Record)
    requires Reordered(r, q)
    ensures Judgement(x, r) == Judgement(x, q)
  {
    if RequiredChecks(r.gateSet).Some? {
      var required := RequiredChecks(r.gateSet).value;
      ChecksReordered(x, r, q, required);
      ListedReordered(r.risks, q.risks, RISK_KEY, (k: Risk) => GoodRisk(x, k));
      ListedReordered(r.approvals, q.approvals, APPROVAL_KEY, (a: Approval) => GoodApproval(x, a));
      ListedReordered(r.metrics, q.metrics, METRIC_KEY, x.metric);
      SameElements(r.risks, q.risks);
      SameElements(r.approvals, q.approvals);
      hide Listed, Endorses, Passes;
      assert forall k :: Tolerable(k, r) <==> Tolerable(k, q);
      assert Structured(x, r, required) <==> Structured(x, q, required);
      assert Complete(x, r, required) <==> Complete(x, q, required);
    }
  }

  /**
   Reordering any list of a record, or the references of a check, changes neither the verdict nor
   what is digested.
   */
  lemma DigestForgetsOrder(x: Syntax, r: Record, q: Record)
    requires Judgement(x, r) != Invalid && Reordered(r, q)
    ensures Judgement(x, q) == Judgement(x, r) && Normalized(r) == Normalized(q)
  {
    VerdictForgetsOrder(x, r, q);
    var mid :| multiset(mid) == multiset(q.checks) && SameUpToRefs(r.checks, mid);
    RefsNormalize(r.checks, mid);
    NormalChecksReordered(mid, q.checks);
    NormalKeysDistinct(r.checks);
    NormalKeysDistinct(q.checks);
    assert DistinctKeys(r.risks, RISK_KEY) && DistinctKeys(q.risks, RISK_KEY);
    assert DistinctKeys(r.approvals, APPROVAL_KEY) && DistinctKeys(q.approvals, APPROVAL_KEY);
    assert DistinctKeys(r.metrics, METRIC_KEY) && DistinctKeys(q.metrics, METRIC_KEY);
    hide Judgement, Structured, NormalChecks, DistinctKeys, SortBy, SameUpToRefs;
    SortByForgetsOrder(NormalChecks(r.checks), NormalChecks(q.checks), CHECK_KEY);
    SortByForgetsOrder(r.risks, q.risks, RISK_KEY);
    SortByForgetsOrder(r.approvals, q.approvals, APPROVAL_KEY);
    SortByForgetsOrder(r.metrics, q.metrics, METRIC_KEY);
  }

  // ---- equal normal forms are reorderings ----

  lemma {:induction false} FromNormalChecks(a: seq<Check>, b: seq<Check>) returns (mid: seq<Check>)
    requires multiset(NormalChecks(a)) == multiset(NormalChecks(b))
    ensures multiset(mid) == multiset(b) && SameUpToRefs(a, mid)
    decreases |a|
  {
    SameElements(NormalChecks(a), NormalChecks(b));
    if a == [] {
      mid := [];
    } else {
      var k := Partner(a, b);
      WithoutPartners(a, b, k);
      SameNormalCheck(a[0], b[k]);
      hide NormalChecks, NormalCheck, Without, SameUpToRefs;
      var rest := FromNormalChecks(Without(a, 0), Without(b, k));
      mid := [b[k]] + rest;
      Prepended(a, b, k, rest);
    }
  }

  lemma Cancel<T>(a: multiset<T>, b: multiset<T>, x: T)
    requires a + multiset{x} == b + multiset{x}
    ensures a == b
  {
    assert a == (a + multiset{x}) - multiset{x} && b == (b + multiset{x}) - multiset{x};
  }

  lemma WithoutPartners(a: seq<Check>, b: seq<Check>, k: nat)
    requires multiset(NormalChecks(a)) == multiset(NormalChecks(b)) && a != []
    requires k < |b| && NormalCheck(b[k]) == NormalCheck(a[0])
    ensures multiset(NormalChecks(Without(a, 0))) == multiset(NormalChecks(Without(b, k)))
    ensures |Without(a, 0)| < |a|
  {
    NormalChecksWithout(a, 0);
    NormalChecksWithout(b, k);
    hide NormalChecks, NormalCheck, Without;
    Cancel(multiset(NormalChecks(Without(a, 0))), multiset(NormalChecks(Without(b, k))), NormalCheck(a[0]));
  }

  lemma Partner(a: seq<Check>, b: seq<Check>) returns (k: nat)
    requires multiset(NormalChecks(a)) == multiset(NormalChecks(b)) && a != []
    ensures k < |b| && NormalCheck(b[k]) == NormalCheck(a[0])
  {
    SameElements(NormalChecks(a), NormalChecks(b));
    hide NormalCheck;
    assert NormalChecks(a)[0] in NormalChecks(b);
    var i :| 0 <= i < |b| && NormalChecks(b)[i] == NormalChecks(a)[0];
    k := i;
  }

  lemma SameNormalCheck(a: Check, b: Check)
    requires NormalCheck(a) == NormalCheck(b)
    ensures SameButRefs(a, b)
  {
    assert multiset(Sort(a.evidenceRefs)) == multiset(a.evidenceRefs);
    assert multiset(Sort(b.evidenceRefs)) == multiset(b.evidenceRefs);
  }

  lemma Prepended(a: seq<Check>, b: seq<Check>, k: nat, rest: seq<Check>)
    requires a != [] && k < |b| && SameUpToRefs(Without(a, 0), rest) && multiset(rest) == multiset(Without(b, k))
    requires SameButRefs(a[0], b[k])
    ensures multiset([b[k]] + rest) == multiset(b) && SameUpToRefs(a, [b[k]] + rest)
  {
    PrependedRefs(a, b[k], rest);
    hide SameUpToRefs;
    NormalChecksWithout(b, k);
    hide Without, NormalChecks;
    assert multiset([b[k]] + rest) == multiset{b[k]} + multiset(rest);
    assert b[k] in multiset(b);
  }

  lemma PrependedRefs(a: seq<Check>, c: Check, rest: seq<Check>)
    requires a != [] && SameUpToRefs(Without(a, 0), rest)
    requires SameButRefs(a[0], c)
    ensures SameUpToRefs(a, [c] + rest)
  {
    hide SameButRefs;
    assert Without(a, 0) == a[1..];
  }

  /** What is digested is equal exactly for reorderings: it forgets the order of the lists and nothing else. */
  lemma NormalFormExactly(x: Syntax, r: Record, q: Record)
    requires Judgement(x, r) != Invalid && Judgement(x, q) != Invalid
    ensures Normalized(r) == Normalized(q) <==> Reordered(r, q)
  {
    hide Judgement;
    if Normalized(r) == Normalized(q) {
      NormalMultisets(r, q);
      var mid := FromNormalChecks(r.checks, q.checks);
    }
    if Reordered(r, q) { DigestForgetsOrder(x, r, q); }
  }

  lemma NormalMultisets(r: Record, q: Record)
    requires Normalized(r) == Normalized(q)
    ensures q == r.(checks := q.checks, risks := q.risks, approvals := q.approvals, metrics := q.metrics)
    ensures multiset(r.risks) == multiset(q.risks) && multiset(r.approvals) == multiset(q.approvals)
    ensures multiset(r.metrics) == multiset(q.metrics)
    ensures multiset(NormalChecks(r.checks)) == multiset(NormalChecks(q.checks))
  {
    hide NormalChecks;
    assert multiset(SortBy(r.risks, RISK_KEY)) == multiset(r.risks);
    assert multiset(SortBy(q.risks, RISK_KEY)) == multiset(q.risks);
    assert multiset(SortBy(NormalChecks(r.checks), CHECK_KEY)) == multiset(NormalChecks(r.checks));
  }

  // ---- what a record must look like ----

  ghost predicate DistinctBy<T(!new)>(s: seq<T>, key: T -> string) {
    forall i, j :: 0 <= i < |s| && 0 <= j < |s| && key(s[i]) == key(s[j]) ==> i == j
  }

  /** Well formed means, field by field and whatever the decision, exactly this. */
  lemma WellFormedExactly(x: Syntax, r: Record)
    ensures Judgement(x, r) != Invalid <==>
      && r.gateSet in {"provider", "model"} && r.header.sound
      && r.decision in {"open", "accepted", "accepted_with_expiring_restrictions", "rejected"}
      && (r.decision != "open" ==>
            r.header.runComplete && r.header.buildComplete && r.header.evidenceComplete && r.metrics != [])
      && |r.metrics| <= 256 && (forall m :: m in r.metrics ==> x.metric(m))
      && DistinctBy(r.metrics, (m: Metric) => m.name)
      && |r.checks| <= (if r.gateSet == "provider" then 7 else 9)
      && (forall c :: c in r.checks ==> CheckAllowed(x, c, r.gateSet)) && DistinctBy(r.checks, (c: Check) => c.id)
      && |r.risks| <= 128 && (forall k :: k in r.risks ==> RiskAllowed(x, k))
      && DistinctBy(r.risks, (k: Risk) => k.riskRef)
      && |r.approvals| <= 5 && (forall a :: a in r.approvals ==> ApprovalAllowed(x, a))
      && DistinctBy(r.approvals, (a: Approval) => a.role)
    ensures r.decision !in {"accepted", "accepted_with_expiring_restrictions"} ==> Judgement(x, r) != Incomplete
  {
  }

  ghost predicate CheckAllowed(x: Syntax, c: Check, gateSet: string) {
    && c.id in (if gateSet == "provider" then
        ["PRV-01-authentication", "PRV-02-representative-samples", "PRV-03-outcome-mapping",
         "PRV-04-failure-paths", "PRV-05-operational-review", "PRV-06-regional-journey", "PRV-07-content-exclusion"]
      else
        ["MOD-01-provenance-rights", "MOD-02-evaluation-set", "MOD-03-thresholds-metrics",
         "MOD-04-attack-quality-coverage", "MOD-05-fairness", "MOD-06-runtime",
         "MOD-07-lifecycle", "MOD-08-assurance-mapping", "MOD-09-independent-review"])
    && c.result in {"pass", "fail", "blocked", "not_applicable"}
    && |c.evidenceRefs| <= 32 && (forall e :: e in c.evidenceRefs ==> x.reference(e))
    && (if c.result == "not_applicable" then c.exceptionRef != "" && x.reference(c.exceptionRef)
        else c.exceptionRef == "")
  }

  ghost predicate RiskAllowed(x: Syntax, k: Risk) {
    && k.severity in {"low", "medium", "high", "critical"} && k.expiresAt != 0
    && x.reference(k.riskRef) && x.reference(k.controlRef) && x.reference(k.ownerRef) && x.reference(k.remediationRef)
  }

  ghost predicate ApprovalAllowed(x: Syntax, a: Approval) {
    && a.role in {"operations", "privacy_legal", "product", "provider_model", "security"}
    && a.decision in {"approve", "reject", "pending"}
    && (a.actorRef != "" ==> x.reference(a.actorRef)) && (a.evidenceRef != "" ==> x.reference(a.evidenceRef))
  }
}
