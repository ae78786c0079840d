/**
 Two concrete runs of sweepers: one completes and leaves its only object behind, the other
 completes and may still be turned to failed.
 */
module SweeperWitness {
  import opened Base
  import opened Text
  import opened Rewrap
  import opened Sweepers

  ghost predicate Reached(lo: set<Target>, hi: set<Target>, f: Fleet) { exists es :: Run(lo, hi, EMPTY, es, f) }

  lemma Start(lo: set<Target>, hi: set<Target>)
    ensures Reached(lo, hi, EMPTY)
  {
    assert Run(lo, hi, EMPTY, [], EMPTY);
  }

  lemma {:induction false} RunAppend(lo: set<Target>, hi: set<Target>, f: Fleet, es: seq<Event>, g: Fleet, e: Event)
    requires Run(lo, hi, f, es, g) && Enabled(lo, hi, g, e)
    requires g.sweep.Some? ==> g.sweep.value.generation in g.audit
    ensures Run(lo, hi, f, es + [e], Next(g, e))
    decreases |es|
  {
    hide Enabled, Next;
    if es == [] {
      assert es + [e] == [e] && [e][1..] == [];
    } else {
      assert (es + [e])[0] == es[0] && (es + [e])[1..] == es[1..] + [e];
      RunAppend(lo, hi, Next(f, es[0]), es[1..], g, e);
    }
  }

  lemma ReachNext(lo: set<Target>, hi: set<Target>, f: Fleet, e: Event)
    requires Reached(lo, hi, f) && Enabled(lo, hi, f, e) && (f.sweep.Some? ==> f.sweep.value.generation in f.audit)
    ensures Reached(lo, hi, Next(f, e))
  {
    hide Enabled, Next, Run;
    var es :| Run(lo, hi, EMPTY, es, f);
    RunAppend(lo, hi, EMPTY, es, f, e);
  }

  function Opened(w: nat, epoch: string): Fleet {
    Fleet(Some(FirstGeneration(epoch)), map[w := Loaded(FirstGeneration(epoch))], map[1 := []], {})
  }

  lemma Opens(lo: set<Target>, hi: set<Target>, w: nat, epoch: string)
    ensures Reached(lo, hi, Opened(w, epoch))
  {
    Start(lo, hi);
    hide Reached;
    assert Next(EMPTY, Begin(w, epoch)) == Opened(w, epoch);
    ReachNext(lo, hi, EMPTY, Begin(w, epoch));
  }

  ghost predicate Row(f: Fleet, s: Sweep) { f.sweep == Some(s) && s.generation in f.audit }

  lemma Loads(lo: set<Target>, hi: set<Target>, f: Fleet, w: nat, s: Sweep)
    requires Reached(lo, hi, f) && Row(f, s) && w !in f.workers
    ensures Reached(lo, hi, f.(workers := f.workers[w := Loaded(s)]))
  {
    hide Reached;
    ReachNext(lo, hi, f, Load(w));
  }

  /** A worker that has just read the row does an entry with an empty log and commits it. */
  function Committed(f: Fleet, w: nat, s: Sweep, e: Entry): Fleet
    requires s.generation in f.audit
  {
    f.(sweep := Some(Advanced(s, s, e.batch)), workers := f.workers - {w},
       audit := f.audit[s.generation := f.audit[s.generation] + [e]])
  }

  ghost predicate Fits(lo: set<Target>, hi: set<Target>, s: Sweep, e: Entry) {
    && Good(lo, hi, e) && e.log == [] && s.status != Completed
    && e.batch.generation == s.generation && e.batch.epoch == s.epoch && e.batch.from == s.cursor
  }

  lemma Commits(lo: set<Target>, hi: set<Target>, f: Fleet, w: nat, s: Sweep, e: Entry)
    requires Reached(lo, hi, f) && Row(f, s) && w in f.workers && f.workers[w] == Loaded(s) && Fits(lo, hi, s, e)
    ensures Reached(lo, hi, Committed(f, w, s, e))
  {
    hide Reached, Outcome;
    var ready := f.(workers := f.workers[w := Ready(s, e)]);
    assert Wrappings(s.generation, e.log) == {};
    assert Next(f, Work(w, e)) == ready;
    ReachNext(lo, hi, f, Work(w, e));
    assert ready.workers - {w} == f.workers - {w};
    assert Next(ready, Commit(w)) == Committed(f, w, s, e);
    ReachNext(lo, hi, ready, Commit(w));
  }

  /** The batch of a sweeper that finds nothing beyond its cursor. */
  function Idle(s: Sweep): Entry {
    Entry(1, Batch(s.generation, s.epoch, s.cursor, s.cursor, 0, 0, 0, 0, Completed, NoError), [], {})
  }

  lemma IdleIsGood(lo: set<Target>, hi: set<Target>, s: Sweep)
    requires ValidCursor(s.cursor) && forall x :: x in lo ==> Seen(MarkOf(s.cursor), x)
    ensures Good(lo, hi, Idle(s))
  {
    CoversStart(lo, hi, MarkOf(s.cursor));
    hide Covers;
  }

  // ---- an object left behind ----

  /** The batch of a sweeper at the start whose first rewrap in the first tenant is refused. */
  function Refused(epoch: string, t: string): Entry {
    Entry(1, Batch(1, epoch, START, Cursor(t, ""), 0, 0, 0, 1, Failed, RewrapFailed), [], {})
  }

  lemma RefusedIsGood(x: Target, epoch: string)
    requires x.tenant != "" && x.key != ""
    ensures Good({x}, {x}, Refused(epoch, x.tenant))
  {
    AtMostReflexive(x.tenant);
    assert Below("", x.tenant);
    CoversStart({x}, {x}, Past(""));
    EnterTenant({x}, {x}, Past(""), "", x.tenant, []);
    hide Covers;
  }

  /** Refused once, never rewrapped: the sweep is completed and its only object was never touched in its generation. */
  lemma RefusedObjectIsNeverRewrapped(x: Target, epoch: string) returns (f: Fleet)
    requires x.tenant != "" && x.key != ""
    ensures Reached({x}, {x}, f) && f.sweep.Some? && f.sweep.value.status == Completed
    ensures f.wrapped == {} && f.audit.Keys == {1}
    ensures f.audit[1] == [
        Entry(1, Batch(1, epoch, START, Cursor(x.tenant, ""), 0, 0, 0, 1, Failed, RewrapFailed), [], {}),
        Entry(1, Batch(1, epoch, Cursor(x.tenant, ""), Cursor(x.tenant, ""), 0, 0, 0, 0, Completed, NoError), [], {})]
  {
    var s, e := FirstGeneration(epoch), Refused(epoch, x.tenant);
    Opens({x}, {x}, 0, epoch);
    RefusedIsGood(x, epoch);
    hide Reached, Good;
    Commits({x}, {x}, Opened(0, epoch), 0, s, e);
    var f1, s1 := Committed(Opened(0, epoch), 0, s, e), Advanced(s, s, e.batch);
    Loads({x}, {x}, f1, 0, s1);
    AtMostReflexive(x.tenant);
    IdleIsGood({x}, {x}, s1);
    var f2 := f1.(workers := f1.workers[0 := Loaded(s1)]);
    Commits({x}, {x}, f2, 0, s1, Idle(s1));
    f := Committed(f2, 0, s1, Idle(s1));
    assert f.audit[1] == [e, Idle(s1)];
  }

  // ---- a completed row that opens again ----

  /** Two workers over an empty installation: one completes, and the other may still turn the row to failed. */
  lemma CompletedRowMayReopen(epoch: string) returns (f: Fleet)
    ensures Reached({}, {}, f) && f.sweep.Some? && f.sweep.value.status == Completed
    ensures MayReopen({}, {}, f, f.sweep.value.generation)
  {
    var s := FirstGeneration(epoch);
    Opens({}, {}, 0, epoch);
    IdleIsGood({}, {}, s);
    hide Reached, Good;
    Loads({}, {}, Opened(0, epoch), 1, s);
    var f1 := Opened(0, epoch).(workers := Opened(0, epoch).workers[1 := Loaded(s)]);
    Commits({}, {}, f1, 0, s, Idle(s));
    f := Committed(f1, 0, s, Idle(s));
    assert Straggler(f, 1);
    Reopens(f);
  }

  lemma Reopens(f: Fleet)
    requires Reached({}, {}, f) && f.sweep.Some? && f.sweep.value.status == Completed && Straggler(f, 1)
    ensures MayReopen({}, {}, f, f.sweep.value.generation)
  {
    hide Run, MayReopen, Straggler;
    var es :| Run({}, {}, EMPTY, es, f);
    CompletedReopensExactly({}, {}, es, f);
  }
}
