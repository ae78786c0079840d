/**
 Durable model dispatch: callers race to claim one attempt, the winner calls the
 external executor and stores the outcome; any of them may crash, retry, or lose the
 answer of a committed transaction.
 */
module Dispatch {
  import opened Base

  datatype Request = Request(attempt: nat, digest: string)

  /** Results are opaque except for the ambiguity outcome. */
  datatype Reply = Reply(body: string) | Uncertain(attempt: nat)

  /** One row: claimed, and completed once `result` is set. */
  datatype Row = Row(digest: string, result: Option<Reply>)

  datatype Caller =
    | Claimed(request: Request)
    | Answered(request: Request, value: Reply)

  /** One call of the external executor and its answer; None stands for an error or an invalid answer. */
  datatype Call = Call(request: Request, answer: Option<string>)

  /** `invoked` logs external calls; `returned` logs what callers were given. */
  datatype System = System(
    registered: map<nat, string>, rows: map<nat, Row>, callers: map<nat, Caller>,
    invoked: seq<Call>, returned: set<(Request, Reply)>)

  datatype Event =
    | Register(request: Request)
    | Claim(p: nat, request: Request, reported: bool)
    | Recover(request: Request)
    | Invoke(p: nat, answer: Option<string>)
    | Complete(p: nat, reported: bool)
    | CompleteFails(p: nat)
    | Crash(p: nat)

  /** A missing or invalid answer becomes the stable ambiguity outcome: the request may have been submitted. */
  function Settle(r: Request, answer: Option<string>): Reply {
    if answer.Some? then Reply(answer.value) else Uncertain(r.attempt)
  }

  const EMPTY := System(map[], map[], map[], [], {})

  predicate Enabled(s: System, e: Event) {
    match e
    case Register(r) => r.attempt !in s.registered
    case Claim(p, r, _) =>
      p !in s.callers && r.attempt in s.registered && s.registered[r.attempt] == r.digest && r.attempt !in s.rows
    case Recover(r) => r.attempt in s.rows && s.rows[r.attempt].digest == r.digest && s.rows[r.attempt].result.Some?
    case Invoke(p, _) => p in s.callers && s.callers[p].Claimed?
    case Complete(p, _) =>
      && p in s.callers && s.callers[p].Answered?
      && var r := s.callers[p].request;
         r.attempt in s.rows && s.rows[r.attempt].digest == r.digest && s.rows[r.attempt].result.None?
    case CompleteFails(p) => p in s.callers && s.callers[p].Answered?
    case Crash(p) => p in s.callers
  }

  /**
   Claim inserts the row; a caller whose report is lost returns an error and does not
   call. Recover covers a claim that finds a stored result. Complete sets the result only
   where none is stored; the caller returns its value only when the commit was reported.
   */
  function Next(s: System, e: Event): System
    requires Enabled(s, e)
  {
    match e
    case Register(r) => s.(registered := s.registered[r.attempt := r.digest])
    case Claim(p, r, reported) =>
      s.(rows := s.rows[r.attempt := Row(r.digest, None)],
         callers := if reported then s.callers[p := Claimed(r)] else s.callers)
    case Recover(r) => s.(returned := s.returned + {(r, s.rows[r.attempt].result.value)})
    case Invoke(p, answer) =>
      s.(callers := s.callers[p := Answered(s.callers[p].request, Settle(s.callers[p].request, answer))],
        invoked := s.invoked + [Call(s.callers[p].request, answer)])
    case Complete(p, reported) =>
      var r, value := s.callers[p].request, s.callers[p].value;
      s.(rows := s.rows[r.attempt := Row(r.digest, Some(value))], callers := s.callers - {p},
         returned := if reported then s.returned + {(r, value)} else s.returned)
    case CompleteFails(p) => s.(callers := s.callers - {p})
    case Crash(p) => s.(callers := s.callers - {p})
  }

  ghost function Calls(log: seq<Call>, attempt: nat): nat {
    if log == [] then 0
    else Calls(log[..|log| - 1], attempt) + (if log[|log| - 1].request.attempt == attempt then 1 else 0)
  }

  /** A call with this very request was answered by this text, or else left the outcome uncertain. */
  ghost predicate Produced(log: seq<Call>, r: Request, v: Reply) {
    exists i :: 0 <= i < |log| && log[i].request == r
      && if log[i].answer.Some? then v == Reply(log[i].answer.value) else v == Uncertain(r.attempt)
  }

  ghost predicate Holds(s: System, p: nat, attempt: nat) { p in s.callers && s.callers[p].request.attempt == attempt }

  /** At most one process ever holds an attempt, and only a holder that has not called leaves room for a call. */
  ghost predicate Inv(s: System) {
    && (forall p :: p in s.callers ==>
        s.callers[p].request.attempt in s.rows
          && s.rows[s.callers[p].request.attempt].digest == s.callers[p].request.digest)
    && (forall p, q, a :: Holds(s, p, a) && Holds(s, q, a) ==> p == q)
    && (forall p, a :: Holds(s, p, a) && s.callers[p].Claimed? ==> Calls(s.invoked, a) == 0 && s.rows[a].result.None?)
    && (forall a :: Calls(s.invoked, a) <= 1)
    && (forall a :: Calls(s.invoked, a) > 0 ==> a in s.rows)
    && (forall p, a :: Holds(s, p, a) ==> s.rows[a].result.None?)
    && (forall r, v :: (r, v) in s.returned ==> r.attempt in s.rows && s.rows[r.attempt] == Row(r.digest, Some(v)))
    && (forall a :: a in s.rows && s.rows[a].result.Some? ==> Calls(s.invoked, a) == 1)
    && (forall p, a :: Holds(s, p, a) && s.callers[p].Answered? ==> Calls(s.invoked, a) == 1)
  }

  /** Whatever is held or stored as a result was produced by a call for it; stored digests are registered. */
  ghost predicate Sourced(s: System) {
    && (forall p :: p in s.callers && s.callers[p].Answered? ==>
        Produced(s.invoked, s.callers[p].request, s.callers[p].value))
    && (forall i :: 0 <= i < |s.invoked| ==>
        s.invoked[i].request.attempt in s.rows
          && s.rows[s.invoked[i].request.attempt].digest == s.invoked[i].request.digest)
    && (forall a :: a in s.rows ==> a in s.registered && s.registered[a] == s.rows[a].digest)
    && (forall a :: a in s.rows && s.rows[a].result.Some? ==>
        Produced(s.invoked, Request(a, s.rows[a].digest), s.rows[a].result.value))
  }

  lemma ProducedStays(log: seq<Call>, c: Call, r: Request, v: Reply)
    requires Produced(log, r, v)
    ensures Produced(log + [c], r, v)
  {
    var i :| 0 <= i < |log| && log[i].request == r
      && if log[i].answer.Some? then v == Reply(log[i].answer.value) else v == Uncertain(r.attempt);
    assert (log + [c])[i] == log[i];
  }

  lemma InvokeSourced(s: System, p: nat, answer: Option<string>)
    requires Inv(s) && Sourced(s) && Enabled(s, Invoke(p, answer))
    ensures Sourced(Next(s, Invoke(p, answer)))
  {
    var t, c := Next(s, Invoke(p, answer)), Call(s.callers[p].request, answer);
    assert t.invoked[|s.invoked|] == c;
    assert Produced(t.invoked, c.request, t.callers[p].value);
    hide Produced;
    forall r, v | Produced(s.invoked, r, v) ensures Produced(t.invoked, r, v) { ProducedStays(s.invoked, c, r, v); }
  }

  lemma StepSourced(s: System, e: Event)
    requires Inv(s) && Sourced(s) && Enabled(s, e)
    ensures Sourced(Next(s, e))
  {
    if e.Invoke? { InvokeSourced(s, e.p, e.answer); }
    hide Produced;
  }

  lemma CallsAppend(log: seq<Call>, c: Call, a: nat)
    ensures Calls(log + [c], a) == Calls(log, a) + (if c.request.attempt == a then 1 else 0)
  {
    assert (log + [c])[..|log + [c]| - 1] == log;
  }

  lemma InvokeKeeps(s: System, p: nat, answer: Option<string>)
    requires Inv(s) && Enabled(s, Invoke(p, answer))
    ensures Inv(Next(s, Invoke(p, answer)))
  {
    var r := s.callers[p].request;
    assert Holds(s, p, r.attempt);
    var t := Next(s, Invoke(p, answer));
    forall a ensures Calls(t.invoked, a) == Calls(s.invoked, a) + (if r.attempt == a then 1 else 0) {
      CallsAppend(s.invoked, Call(r, answer), a);
    }
    assert forall q, a :: Holds(t, q, a) <==> Holds(s, q, a);
  }

  lemma CompleteKeeps(s: System, p: nat, reported: bool)
    requires Inv(s) && Enabled(s, Complete(p, reported))
    ensures Inv(Next(s, Complete(p, reported)))
  {
    var r := s.callers[p].request;
    var t := Next(s, Complete(p, reported));
    assert Holds(s, p, r.attempt);
    assert forall q, a :: Holds(t, q, a) <==> Holds(s, q, a) && q != p;
  }

  lemma ClaimKeeps(s: System, p: nat, r: Request, reported: bool)
    requires Inv(s) && Enabled(s, Claim(p, r, reported))
    ensures Inv(Next(s, Claim(p, r, reported)))
  {
    var t := Next(s, Claim(p, r, reported));
    assert forall q, a :: Holds(t, q, a) <==> Holds(s, q, a) || (reported && q == p && a == r.attempt);
    assert forall q :: !Holds(s, q, r.attempt);
  }

  lemma DropKeeps(s: System, p: nat)
    requires Inv(s) && p in s.callers
    ensures Inv(s.(callers := s.callers - {p}))
  {
    var t := s.(callers := s.callers - {p});
    assert forall q, a :: Holds(t, q, a) <==> Holds(s, q, a) && q != p;
  }

  lemma RecordKeeps(s: System, e: Event)
    requires Inv(s) && Enabled(s, e) && (e.Register? || e.Recover?)
    ensures Inv(Next(s, e))
  {
    assert forall q, a :: Holds(Next(s, e), q, a) <==> Holds(s, q, a);
  }

  lemma StepKeeps(s: System, e: Event)
    requires Inv(s) && Enabled(s, e)
    ensures Inv(Next(s, e))
  {
    hide Inv;
    match e {
      case Register(_) => RecordKeeps(s, e);
      case Claim(p, r, reported) => ClaimKeeps(s, p, r, reported);
      case Recover(_) => RecordKeeps(s, e);
      case Invoke(p, answer) => InvokeKeeps(s, p, answer);
      case Complete(p, reported) => CompleteKeeps(s, p, reported);
      case CompleteFails(p) => DropKeeps(s, p);
      case Crash(p) => DropKeeps(s, p);
    }
  }

  ghost predicate Run(s: System, es: seq<Event>, t: System)
    decreases |es|
  {
    if es == [] then s == t else Enabled(s, es[0]) && Run(Next(s, es[0]), es[1..], t)
  }

  lemma {:induction false} RunKeeps(s: System, es: seq<Event>, t: System)
    requires Inv(s) && Sourced(s) && Run(s, es, t)
    ensures Inv(t) && Sourced(t)
    decreases |es|
  {
    if es != [] {
      hide Inv, Sourced, Enabled, Next;
      StepKeeps(s, es[0]);
      StepSourced(s, es[0]);
      RunKeeps(Next(s, es[0]), es[1..], t);
    }
  }

  /** Whatever callers, retries and crashes do, the executor is called at most once per attempt. */
  lemma AtMostOneCall(es: seq<Event>, t: System, attempt: nat)
    requires Run(EMPTY, es, t)
    ensures Calls(t.invoked, attempt) <= 1
  {
    RunKeeps(EMPTY, es, t);
  }

  /**
   Callers of one attempt asked with one digest and obtain one result, which is the stored one;
   exactly one call was made, and the result is its answer, or uncertain if it had none.
   */
  lemma OneResultForAll(es: seq<Event>, t: System, q: Request, v: Reply, r: Request, w: Reply)
    requires Run(EMPTY, es, t) && (q, v) in t.returned && (r, w) in t.returned && q.attempt == r.attempt
    ensures q == r && v == w && q.attempt in t.rows && t.rows[q.attempt] == Row(q.digest, Some(v))
    ensures q.attempt in t.registered && t.registered[q.attempt] == q.digest
    ensures Calls(t.invoked, q.attempt) == 1
    ensures Produced(t.invoked, q, v)
  {
    RunKeeps(EMPTY, es, t);
  }

  /** A stored result, returned or not, is the answer of the one call of its attempt. */
  lemma StoredResultIsTheAnswer(es: seq<Event>, t: System, i: nat)
    requires Run(EMPTY, es, t) && i < |t.invoked|
    ensures var c := t.invoked[i]; var a := c.request.attempt;
            && a in t.rows && t.rows[a].digest == c.request.digest
            && (t.rows[a].result.Some? ==>
                  t.rows[a].result.value == if c.answer.Some? then Reply(c.answer.value) else Uncertain(a))
  {
    RunKeeps(EMPTY, es, t);
    var a := t.invoked[i].request.attempt;
    CallCounted(t.invoked, i);
    if t.rows[a].result.Some? {
      var v := t.rows[a].result.value;
      var j :| 0 <= j < |t.invoked| && t.invoked[j].request == Request(a, t.rows[a].digest)
        && if t.invoked[j].answer.Some? then v == Reply(t.invoked[j].answer.value) else v == Uncertain(a);
      if i != j { TwoCalls(t.invoked, i, j); }
    }
  }

  lemma {:induction false} CallCounted(log: seq<Call>, i: nat)
    requires i < |log|
    ensures Calls(log, log[i].request.attempt) >= 1
  {
    if i < |log| - 1 { CallCounted(log[..|log| - 1], i); }
  }

  lemma TwoCalls(log: seq<Call>, i: nat, j: nat)
    requires i < |log| && j < |log| && i != j && log[i].request.attempt == log[j].request.attempt
    ensures Calls(log, log[i].request.attempt) >= 2
    decreases |log|
  {
    var n := |log| - 1;
    if i == n {
      CallCounted(log[..n], j);
    } else if j == n {
      CallCounted(log[..n], i);
    } else {
      TwoCalls(log[..n], i, j);
    }
  }

  /** A stored result never changes again. */
  lemma {:induction false} StoredResultStays(s: System, es: seq<Event>, t: System, attempt: nat)
    requires Run(s, es, t) && attempt in s.rows && s.rows[attempt].result.Some?
    ensures attempt in t.rows && t.rows[attempt] == s.rows[attempt]
    decreases |es|
  {
    if es != [] { StoredResultStays(Next(s, es[0]), es[1..], t, attempt); }
  }

  /** After a lost or crashed claim nobody ever calls again: the row stays pending. */
  lemma {:induction false} AbandonedClaimNeverDispatches(s: System, es: seq<Event>, t: System, attempt: nat)
    requires Run(s, es, t) && attempt in s.rows && s.rows[attempt].result.None? && forall p :: !Holds(s, p, attempt)
    ensures Calls(t.invoked, attempt) == Calls(s.invoked, attempt)
    ensures attempt in t.rows && t.rows[attempt] == s.rows[attempt]
    decreases |es|
  {
    if es != [] {
      var n := Next(s, es[0]);
      if es[0].Invoke? {
        CallsAppend(s.invoked, Call(s.callers[es[0].p].request, es[0].answer), attempt);
        assert Holds(s, es[0].p, s.callers[es[0].p].request.attempt);
      }
      if es[0].Complete? { assert Holds(s, es[0].p, s.callers[es[0].p].request.attempt); }
      assert forall p :: Holds(n, p, attempt) ==> Holds(s, p, attempt);
      AbandonedClaimNeverDispatches(n, es[1..], t, attempt);
    }
  }

  /**
   What each step leaves. A claim whose report is lost holds the attempt without a caller; a caller
   that completes returns its value only if the commit was reported, and one that fails just ends.
   */
  lemma StepsExactly(s: System, p: nat, r: Request, reported: bool)
    ensures Enabled(s, Claim(p, r, reported)) ==>
      Next(s, Claim(p, r, reported)) == s.(rows := s.rows[r.attempt := Row(r.digest, None)],
        callers := if reported then s.callers[p := Claimed(r)] else s.callers)
    ensures Enabled(s, CompleteFails(p)) ==> Next(s, CompleteFails(p)) == s.(callers := s.callers - {p})
    ensures Enabled(s, Crash(p)) ==> Next(s, Crash(p)) == s.(callers := s.callers - {p})
    ensures Enabled(s, Complete(p, reported)) ==>
      && p in s.callers && s.callers[p].Answered?
      && var q, v := s.callers[p].request, s.callers[p].value;
         Next(s, Complete(p, reported)) == s.(rows := s.rows[q.attempt := Row(q.digest, Some(v))],
           callers := s.callers - {p}, returned := if reported then s.returned + {(q, v)} else s.returned)
  {
  }

  /** Every answer can be stored, its report lost, and recovered by another caller: a call is never needed twice. */
  lemma AnswerCanBeRecovered(r: Request, answer: Option<string>) returns (es: seq<Event>, t: System)
    ensures Run(EMPTY, es, t) && Calls(t.invoked, r.attempt) == 1
    ensures (r, if answer.Some? then Reply(answer.value) else Uncertain(r.attempt)) in t.returned
  {
    var s1 := Next(EMPTY, Register(r));
    var s2 := Next(s1, Claim(0, r, true));
    var s3 := Next(s2, Invoke(0, answer));
    var s4 := Next(s3, Complete(0, false));
    t := Next(s4, Recover(r));
    assert t.invoked == [] + [Call(r, answer)];
    CallsAppend([], Call(r, answer), r.attempt);
    assert Run(t, [], t) && Run(s4, [Recover(r)], t) && Run(s3, [Complete(0, false), Recover(r)], t);
    assert Run(s2, [Invoke(0, answer), Complete(0, false), Recover(r)], t);
    assert Run(s1, [Claim(0, r, true), Invoke(0, answer), Complete(0, false), Recover(r)], t);
    es := [Register(r), Claim(0, r, true), Invoke(0, answer), Complete(0, false), Recover(r)];
    assert Run(EMPTY, es, t);
  }
}
