/**
 Any number of sweepers over one durable sweep state. Each loads the state, works
 through one batch, and commits it by compare-and-swap on generation, epoch and
 cursor; any of them may crash or be overtaken at any point.
 */
module Sweepers {
  import opened Base
  import opened Text
  import opened Rewrap

  datatype Sweep = Sweep(
    generation: nat, epoch: string, status: Status, cursor: Cursor,
    processed: nat, rewrapped: nat, skipped: nat, failed: nat, consecutiveFailures: nat, lastError: ErrorClass)

  /** One row of the append-only batch audit, with the objects the batch did and those it changed. */
  datatype Entry = Entry(size: nat, batch: Batch, log: seq<Target>, changed: set<Target>)

  datatype Worker = Loaded(state: Sweep) | Ready(state: Sweep, entry: Entry)

  datatype Wrapping = Wrapping(generation: nat, target: Target)

  datatype Fleet = Fleet(sweep: Option<Sweep>, workers: map<nat, Worker>, audit: map<nat, seq<Entry>>,
      wrapped: set<Wrapping>)

  datatype Event =
    | Load(worker: nat)
    | Begin(worker: nat, epoch: string)
    | Work(worker: nat, entry: Entry)
    | Abandon(worker: nat, log: seq<Target>)
    | Commit(worker: nat)

  // ---- steps ----

  function FirstGeneration(epoch: string): Sweep { Sweep(1, epoch, Running, START, 0, 0, 0, 0, 0, NoError) }

  function NextGeneration(s: Sweep, epoch: string): Sweep { FirstGeneration(epoch).(generation := s.generation + 1) }

  /** Establishes or replaces the state for an epoch; repeating the epoch changes nothing. */
  function BeginGeneration(f: Fleet, epoch: string): Fleet {
    match f.sweep
    case None => f.(sweep := Some(FirstGeneration(epoch)), audit := f.audit[1 := []])
    case Some(s) =>
      if s.epoch == epoch then f
      else f.(sweep := Some(NextGeneration(s, epoch)), audit := f.audit[s.generation + 1 := []])
  }

  predicate Matches(s: Sweep, expected: Sweep) {
    s.generation == expected.generation && s.epoch == expected.epoch && s.cursor == expected.cursor
  }

  function Advanced(s: Sweep, expected: Sweep, b: Batch): Sweep {
    s.(status := b.status, cursor := b.to,
       processed := s.processed + b.processed, rewrapped := s.rewrapped + b.rewrapped,
       skipped := s.skipped + b.skipped, failed := s.failed + b.failed,
       consecutiveFailures := if b.status == Failed then expected.consecutiveFailures + 1
         else 0, lastError := b.errorClass)
  }

  /** Compare-and-swap: the status is not compared. */
  function CommitBatch(f: Fleet, expected: Sweep, e: Entry): Fleet
    requires f.sweep.Some? ==> f.sweep.value.generation in f.audit
  {
    if f.sweep.Some? && Matches(f.sweep.value, expected) then
      var s := f.sweep.value;
      f.(sweep := Some(Advanced(s, expected, e.batch)), audit := f.audit[s.generation := f.audit[s.generation] + [e]])
    else f
  }

  ghost function Wrappings(generation: nat, log: seq<Target>): set<Wrapping> {
    set x | x in log :: Wrapping(generation, x)
  }

  ghost predicate Enabled(lo: set<Target>, hi: set<Target>, f: Fleet, e: Event) {
    match e
    case Load(w) => w !in f.workers && f.sweep.Some?
    case Begin(w, _) => w !in f.workers
    case Work(w, entry) =>
      && w in f.workers && f.workers[w].Loaded? && f.workers[w].state.status != Completed
      && entry.batch.generation == f.workers[w].state.generation && entry.batch.epoch == f.workers[w].state.epoch
      && entry.batch.from == f.workers[w].state.cursor
      && Good(lo, hi, entry)
    case Abandon(w, log) => w in f.workers && forall x :: x in log ==> x in hi
    case Commit(w) => w in f.workers && f.workers[w].Ready?
  }

  ghost function Next(f: Fleet, e: Event): Fleet
    requires f.sweep.Some? ==> f.sweep.value.generation in f.audit
  {
    match e
    case Load(w) => if f.sweep.Some? then f.(workers := f.workers[w := Loaded(f.sweep.value)]) else f
    case Begin(w, epoch) =>
      var g := BeginGeneration(f, epoch);
      if g.sweep.Some? then g.(workers := g.workers[w := Loaded(g.sweep.value)]) else g
    case Work(w, entry) =>
      if w in f.workers then
        f.(workers := f.workers[w := Ready(f.workers[w].state, entry)],
           wrapped := f.wrapped + Wrappings(f.workers[w].state.generation, entry.log))
      else f
    case Abandon(w, log) =>
      if w in f.workers then
        f.(workers := f.workers - {w}, wrapped := f.wrapped + Wrappings(f.workers[w].state.generation, log))
      else f
    case Commit(w) =>
      if w in f.workers && f.workers[w].Ready? then
        CommitBatch(f, f.workers[w].state, f.workers[w].entry).(workers := f.workers - {w})
      else f
  }

  // ---- the chain of one generation ----

  function End(es: seq<Entry>): Cursor { if es == [] then START else es[|es| - 1].batch.to }

  /** What Process guarantees about its batch, its log and the objects it changed. */
  ghost predicate Good(lo: set<Target>, hi: set<Target>, e: Entry) {
    Outcome(lo, hi, e.size, e.batch, e.log) && Told(e)
  }

  ghost predicate Told(e: Entry) {
    && 1 <= e.size <= 500 && (forall x :: x in e.changed ==> x in e.log)
    && e.batch.rewrapped == |e.changed| && e.batch.skipped == |e.log| - |e.changed|
  }

  /** Contiguous: every batch starts where the one before it ended. */
  ghost predicate Contiguous(es: seq<Entry>) { forall i :: 0 <= i < |es| ==> es[i].batch.from == End(es[..i]) }

  ghost predicate Chain(lo: set<Target>, hi: set<Target>, es: seq<Entry>) {
    Contiguous(es) && forall i :: 0 <= i < |es| ==> Good(lo, hi, es[i])
  }

  ghost predicate Logged(es: seq<Entry>, x: Target) { exists i :: 0 <= i < |es| && x in es[i].log }

  ghost predicate Skipped(es: seq<Entry>, t: string) {
    exists i :: 0 <= i < |es| && SkipsTenant(es[i].batch) && es[i].batch.to.tenant == t
  }

  ghost predicate Named(hi: set<Target>) { forall x :: x in hi ==> x.tenant != "" && x.key != "" }

  lemma ChainFront(lo: set<Target>, hi: set<Target>, es: seq<Entry>)
    requires Chain(lo, hi, es) && es != []
    ensures var n := |es| - 1; Chain(lo, hi, es[..n]) && Good(lo, hi, es[n]) && es[n].batch.from == End(es[..n])
  {
    var n := |es| - 1;
    assert forall i :: 0 <= i < n ==> es[..n][..i] == es[..i];
  }

  lemma ChainExtended(lo: set<Target>, hi: set<Target>, es: seq<Entry>, e: Entry)
    requires Chain(lo, hi, es) && Good(lo, hi, e) && e.batch.from == End(es)
    ensures Chain(lo, hi, es + [e]) && End(es + [e]) == e.batch.to
  {
    var fs := es + [e];
    forall i | 0 <= i < |fs| ensures fs[i].batch.from == End(fs[..i]) {
      assert fs[..i] == if i < |es| then es[..i] else es;
    }
  }

  lemma LoggedSplit(es: seq<Entry>, x: Target)
    requires es != []
    ensures var n := |es| - 1; Logged(es, x) <==> Logged(es[..n], x) || x in es[n].log
  {
    var n := |es| - 1;
    if Logged(es, x) {
      var i :| 0 <= i < |es| && x in es[i].log;
      if i < n { assert es[..n][i] == es[i]; }
    }
    if Logged(es[..n], x) {
      var i :| 0 <= i < n && x in es[..n][i].log;
      assert x in es[i].log;
    }
  }

  lemma SkippedSplit(es: seq<Entry>, t: string)
    requires es != []
    ensures var n := |es| - 1; Skipped(es, t) <==>
        Skipped(es[..n], t) || (SkipsTenant(es[n].batch) && es[n].batch.to.tenant == t)
  {
    var n := |es| - 1;
    if Skipped(es, t) {
      var i :| 0 <= i < |es| && SkipsTenant(es[i].batch) && es[i].batch.to.tenant == t;
      if i < n { assert es[..n][i] == es[i]; }
    }
    if Skipped(es[..n], t) {
      var i :| 0 <= i < n && SkipsTenant(es[..n][i].batch) && es[..n][i].batch.to.tenant == t;
      assert SkipsTenant(es[i].batch);
    }
  }

  /** One batch and one object: where it lies, whether it was done. */
  lemma BatchAccounts(lo: set<Target>, hi: set<Target>, e: Entry, x: Target)
    requires Good(lo, hi, e) && x.key != ""
    ensures Seen(MarkOf(e.batch.from), x) ==> Seen(MarkOf(e.batch.to), x)
    ensures x in e.log ==> !Seen(MarkOf(e.batch.from), x) && Seen(MarkOf(e.batch.to), x)
    ensures SkipsTenant(e.batch) && e.batch.to.tenant == x.tenant ==>
      !Seen(MarkOf(e.batch.from), x) && Seen(MarkOf(e.batch.to), x) && x !in e.log
    ensures x in lo && !Seen(MarkOf(e.batch.from), x) && Seen(MarkOf(e.batch.to), x)
            ==> (x in e.log <==> !(SkipsTenant(e.batch) && e.batch.to.tenant == x.tenant))
  {
    var b := e.batch;
    if SkipsTenant(b) {
      assert Covers(lo, hi, MarkOf(b.from), Within(b.to.tenant, ""), e.log);
      if x.tenant == b.to.tenant { SkippedObject(lo, hi, b, e.log, x); }
    }
  }

  /** In a chain, a stable object behind the cursor was done exactly when its tenant was not skipped on entry. */
  lemma {:induction false} ChainAccounts(lo: set<Target>, hi: set<Target>, es: seq<Entry>, x: Target)
    requires Chain(lo, hi, es) && x.tenant != "" && x.key != ""
    ensures Logged(es, x) || Skipped(es, x.tenant) ==> Seen(MarkOf(End(es)), x)
    ensures x in lo && Seen(MarkOf(End(es)), x) ==> (Logged(es, x) <==> !Skipped(es, x.tenant))
    decreases |es|
  {
    if es != [] {
      var n := |es| - 1;
      ChainFront(lo, hi, es);
      ChainAccounts(lo, hi, es[..n], x);
      BatchAccounts(lo, hi, es[n], x);
      LoggedSplit(es, x);
      SkippedSplit(es, x.tenant);
      hide Seen, Good, Logged, Skipped, SkipsTenant, Chain, MarkOf;
    }
  }

  ghost function DoneBy(es: seq<Entry>): set<Target> {
    if es == [] then {} else DoneBy(es[..|es| - 1]) + Targets(es[|es| - 1].log)
  }

  lemma {:induction false} DoneIsLogged(es: seq<Entry>, x: Target)
    ensures x in DoneBy(es) <==> Logged(es, x)
    decreases |es|
  {
    if es != [] {
      LoggedSplit(es, x);
      DoneIsLogged(es[..|es| - 1], x);
    }
  }

  ghost function Processed(es: seq<Entry>): nat {
    if es == [] then 0 else Processed(es[..|es| - 1]) + es[|es| - 1].batch.processed
  }

  /** The processed counter counts distinct objects: no committed batch repeats another's work. */
  lemma {:induction false} ProcessedCountsObjects(lo: set<Target>, hi: set<Target>, es: seq<Entry>)
    requires Chain(lo, hi, es) && Named(hi)
    ensures Processed(es) == |DoneBy(es)|
    decreases |es|
  {
    if es != [] {
      var n := |es| - 1;
      ChainFront(lo, hi, es);
      ProcessedCountsObjects(lo, hi, es[..n]);
      var log := Targets(es[n].log);
      assert Distinct(es[n].log) && |es[n].log| == es[n].batch.processed && forall x :: x in log ==> x in hi;
      LogSize(es[n].log);
      forall x | x in log ensures x !in DoneBy(es[..n]) {
        BatchAccounts(lo, hi, es[n], x);
        ChainAccounts(lo, hi, es[..n], x);
        DoneIsLogged(es[..n], x);
      }
      assert DoneBy(es[..n]) !! log;
    }
  }

  // ---- what every step keeps ----

  /** Everything in the audit of a generation was rewrapped in that generation. */
  ghost predicate Backed(wrapped: set<Wrapping>, generation: nat, es: seq<Entry>) {
    forall i, x :: 0 <= i < |es| && x in es[i].log ==> Wrapping(generation, x) in wrapped
  }

  ghost predicate Audited(lo: set<Target>, hi: set<Target>, audit: map<nat, seq<Entry>>, wrapped: set<Wrapping>) {
    forall g :: g in audit ==> Chain(lo, hi, audit[g]) && Backed(wrapped, g, audit[g])
  }

  /** The row agrees with the audit of its generation. */
  ghost predicate Current(lo: set<Target>, s: Sweep, audit: map<nat, seq<Entry>>) {
    && s.generation in audit && (forall g :: g in audit ==> g <= s.generation)
    && s.cursor == End(audit[s.generation])
    && s.processed == s.rewrapped + s.skipped == Processed(audit[s.generation])
    && (s.status == Completed ==> forall x :: x in lo ==> Seen(MarkOf(s.cursor), x))
  }

  ghost predicate WorkerGood(lo: set<Target>, hi: set<Target>, wrapped: set<Wrapping>, w: Worker) {
    w.Ready? ==>
      && Good(lo, hi, w.entry) && w.entry.batch.from == w.state.cursor
      && forall x :: x in w.entry.log ==> Wrapping(w.state.generation, x) in wrapped
  }

  /** The row was once as the worker read it. */
  ghost predicate Past(audit: map<nat, seq<Entry>>, s: Sweep) {
    s.generation in audit && exists i :: 0 <= i <= |audit[s.generation]| && s.cursor == End(audit[s.generation][..i])
  }

  ghost predicate Inv(lo: set<Target>, hi: set<Target>, f: Fleet) {
    && Audited(lo, hi, f.audit, f.wrapped)
    && (f.sweep.Some? ==> Current(lo, f.sweep.value, f.audit))
    && (f.sweep.None? ==> f.audit == map[])
    && (forall w :: w in f.workers ==> WorkerGood(lo, hi, f.wrapped, f.workers[w]) && Past(f.audit, f.workers[w].state))
  }

  lemma PresentIsPast(lo: set<Target>, s: Sweep, audit: map<nat, seq<Entry>>)
    requires Current(lo, s, audit)
    ensures Past(audit, s)
  {
    var es := audit[s.generation];
    assert es[..|es|] == es;
  }

  lemma PastStays(audit: map<nat, seq<Entry>>, s: Sweep, g: nat, e: Entry)
    requires Past(audit, s) && g in audit
    ensures Past(audit[g := audit[g] + [e]], s)
  {
    var i :| 0 <= i <= |audit[s.generation]| && s.cursor == End(audit[s.generation][..i]);
    if s.generation == g { assert (audit[g] + [e])[..i] == audit[g][..i]; }
  }

  lemma EmptyChain(lo: set<Target>, hi: set<Target>, wrapped: set<Wrapping>, g: nat)
    ensures Chain(lo, hi, []) && Backed(wrapped, g, [])
  {
  }

  /** A generation above all others opens with an empty audit. */
  lemma OpenKeeps(lo: set<Target>, hi: set<Target>, f: Fleet, s: Sweep)
    requires Inv(lo, hi, f) && (forall g :: g in f.audit ==> g < s.generation)
    requires s.cursor == START && s.status == Running && s.processed == s.rewrapped == s.skipped == 0
    ensures Inv(lo, hi, f.(sweep := Some(s), audit := f.audit[s.generation := []]))
  {
    EmptyChain(lo, hi, f.wrapped, s.generation);
    var audit := f.audit[s.generation := []];
    assert Current(lo, s, audit);
    forall w | w in f.workers ensures Past(audit, f.workers[w].state) {
      OlderIsPast(f.audit, f.workers[w].state, s.generation);
    }
    hide Chain, Backed, WorkerGood, Past, Current;
  }

  lemma OlderIsPast(audit: map<nat, seq<Entry>>, s: Sweep, g: nat)
    requires Past(audit, s) && g !in audit
    ensures Past(audit[g := []], s)
  {
  }

  lemma BeginKeeps(lo: set<Target>, hi: set<Target>, f: Fleet, epoch: string)
    requires Inv(lo, hi, f)
    ensures Inv(lo, hi, BeginGeneration(f, epoch)) && BeginGeneration(f, epoch).sweep.Some?
  {
    match f.sweep {
      case None => OpenKeeps(lo, hi, f, FirstGeneration(epoch));
      case Some(s) =>
        if s.epoch != epoch {
          assert Current(lo, s, f.audit);
          OpenKeeps(lo, hi, f, NextGeneration(s, epoch));
        }
    }
  }

  lemma GrowsWrapped(lo: set<Target>, hi: set<Target>, f: Fleet, more: set<Wrapping>)
    requires Inv(lo, hi, f)
    ensures Inv(lo, hi, f.(wrapped := f.wrapped + more))
  {
    hide Chain, Good, Current, Past;
  }

  lemma SetWorker(lo: set<Target>, hi: set<Target>, f: Fleet, w: nat, worker: Worker)
    requires Inv(lo, hi, f) && WorkerGood(lo, hi, f.wrapped, worker) && Past(f.audit, worker.state)
    ensures Inv(lo, hi, f.(workers := f.workers[w := worker]))
  {
    hide Audited, Current, WorkerGood, Past;
  }

  lemma DropWorker(lo: set<Target>, hi: set<Target>, f: Fleet, w: nat)
    requires Inv(lo, hi, f)
    ensures Inv(lo, hi, f.(workers := f.workers - {w}))
  {
    hide Audited, Current, WorkerGood, Past;
  }

  lemma ProcessedExtended(es: seq<Entry>, e: Entry)
    ensures Processed(es + [e]) == Processed(es) + e.batch.processed
  {
    assert (es + [e])[..|es + [e]| - 1] == es;
  }

  lemma BackedExtended(wrapped: set<Wrapping>, g: nat, es: seq<Entry>, e: Entry)
    requires Backed(wrapped, g, es) && forall x :: x in e.log ==> Wrapping(g, x) in wrapped
    ensures Backed(wrapped, g, es + [e])
  {
  }

  lemma WorkersStayPast(f: Fleet, g: nat, e: Entry)
    requires g in f.audit && forall w :: w in f.workers ==> Past(f.audit, f.workers[w].state)
    ensures forall w :: w in f.workers ==> Past(f.audit[g := f.audit[g] + [e]], f.workers[w].state)
  {
    hide Past;
    forall w | w in f.workers ensures Past(f.audit[g := f.audit[g] + [e]], f.workers[w].state) {
      PastStays(f.audit, f.workers[w].state, g, e);
    }
  }

  lemma AuditExtended(lo: set<Target>, hi: set<Target>, f: Fleet, g: nat, e: Entry)
    requires Audited(lo, hi, f.audit, f.wrapped) && g in f.audit && Good(lo, hi, e) && e.batch.from == End(f.audit[g])
    requires forall x :: x in e.log ==> Wrapping(g, x) in f.wrapped
    ensures Audited(lo, hi, f.audit[g := f.audit[g] + [e]], f.wrapped)
  {
    ChainExtended(lo, hi, f.audit[g], e);
    BackedExtended(f.wrapped, g, f.audit[g], e);
    hide Chain, Backed, Good;
  }

  lemma RowAdvanced(lo: set<Target>, hi: set<Target>, s: Sweep, expected: Sweep, audit: map<nat, seq<Entry>>, e: Entry)
    requires Current(lo, s, audit) && Good(lo, hi, e)
    ensures Current(lo, Advanced(s, expected, e.batch), audit[s.generation := audit[s.generation] + [e]])
  {
    ProcessedExtended(audit[s.generation], e);
    GoodCounts(lo, hi, e);
    assert End(audit[s.generation] + [e]) == e.batch.to;
    hide Good, Processed, End;
  }

  lemma CommitKeeps(lo: set<Target>, hi: set<Target>, f: Fleet, expected: Sweep, e: Entry)
    requires Inv(lo, hi, f) && WorkerGood(lo, hi, f.wrapped, Ready(expected, e))
    ensures Inv(lo, hi, CommitBatch(f, expected, e))
  {
    if f.sweep.Some? && Matches(f.sweep.value, expected) {
      var s := f.sweep.value;
      assert s.cursor == End(f.audit[s.generation]);
      AuditExtended(lo, hi, f, s.generation, e);
      RowAdvanced(lo, hi, s, expected, f.audit, e);
      WorkersStayPast(f, s.generation, e);
      hide Audited, Current, WorkerGood, Past, Good;
    }
  }

  lemma GoodCounts(lo: set<Target>, hi: set<Target>, e: Entry)
    requires Good(lo, hi, e)
    ensures e.batch.processed == e.batch.rewrapped + e.batch.skipped
    ensures e.batch.status == Completed ==> forall x :: x in lo ==> Seen(MarkOf(e.batch.to), x)
  {
  }

  lemma StepKeeps(lo: set<Target>, hi: set<Target>, f: Fleet, e: Event)
    requires Inv(lo, hi, f) && Enabled(lo, hi, f, e)
    ensures Inv(lo, hi, Next(f, e))
  {
    match e {
      case Load(w) =>
        PresentIsPast(lo, f.sweep.value, f.audit);
        SetWorker(lo, hi, f, w, Loaded(f.sweep.value));
      case Begin(w, epoch) =>
        BeginKeeps(lo, hi, f, epoch);
        var g := BeginGeneration(f, epoch);
        PresentIsPast(lo, g.sweep.value, g.audit);
        SetWorker(lo, hi, g, w, Loaded(g.sweep.value));
      case Work(w, entry) =>
        var state := f.workers[w].state;
        var grown := f.(wrapped := f.wrapped + Wrappings(state.generation, entry.log));
        GrowsWrapped(lo, hi, f, Wrappings(state.generation, entry.log));
        SetWorker(lo, hi, grown, w, Ready(state, entry));
      case Abandon(w, log) =>
        var more := Wrappings(f.workers[w].state.generation, log);
        GrowsWrapped(lo, hi, f, more);
        DropWorker(lo, hi, f.(wrapped := f.wrapped + more), w);
      case Commit(w) =>
        var state, entry := f.workers[w].state, f.workers[w].entry;
        assert f.workers[w] == Ready(state, entry);
        CommitKeeps(lo, hi, f, state, entry);
        DropWorker(lo, hi, CommitBatch(f, state, entry), w);
    }
  }

  // ---- runs ----

  const EMPTY: Fleet := Fleet(None, map[], map[], {})

  ghost predicate Run(lo: set<Target>, hi: set<Target>, f: Fleet, es: seq<Event>, g: Fleet)
    decreases |es|
  {
    if es == [] then f == g
    else
      && (f.sweep.Some? ==> f.sweep.value.generation in f.audit)
      && Enabled(lo, hi, f, es[0]) && Run(lo, hi, Next(f, es[0]), es[1..], g)
  }

  lemma {:induction false} RunKeeps(lo: set<Target>, hi: set<Target>, f: Fleet, es: seq<Event>, g: Fleet)
    requires Inv(lo, hi, f) && Run(lo, hi, f, es, g)
    ensures Inv(lo, hi, g)
    decreases |es|
  {
    if es != [] {
      StepKeeps(lo, hi, f, es[0]);
      RunKeeps(lo, hi, Next(f, es[0]), es[1..], g);
    }
  }

  /** Whatever the interleaving, the committed batches of each generation form one contiguous chain up to the cursor. */
  lemma CommittedBatchesFormOneChain(lo: set<Target>, hi: set<Target>, es: seq<Event>, f: Fleet)
    requires Run(lo, hi, EMPTY, es, f)
    ensures forall g :: g in f.audit ==> Contiguous(f.audit[g])
    ensures f.sweep.Some? ==>
      f.sweep.value.generation in f.audit && f.sweep.value.cursor == End(f.audit[f.sweep.value.generation])
    ensures f.sweep.Some? ==> ValidCursor(f.sweep.value.cursor)
  {
    RunKeeps(lo, hi, EMPTY, es, f);
    if f.sweep.Some? { EndIsValid(lo, hi, f.audit[f.sweep.value.generation]); }
  }

  /** The precondition of Process: a batch may start wherever the chain ends. */
  lemma EndIsValid(lo: set<Target>, hi: set<Target>, es: seq<Entry>)
    requires Chain(lo, hi, es)
    ensures ValidCursor(End(es))
  {
    if es != [] { assert Good(lo, hi, es[|es| - 1]); }
  }

  /**
   The processed counter is the number of distinct objects that committed batches of the generation
   rewrapped or found current.
   */
  lemma ProcessedIsDistinctObjects(lo: set<Target>, hi: set<Target>, es: seq<Event>, f: Fleet)
    requires Run(lo, hi, EMPTY, es, f) && f.sweep.Some? && Named(hi)
    ensures var s := f.sweep.value;
            s.generation in f.audit && s.processed == s.rewrapped + s.skipped == |DoneBy(f.audit[s.generation])|
  {
    RunKeeps(lo, hi, EMPTY, es, f);
    ProcessedCountsObjects(lo, hi, f.audit[f.sweep.value.generation]);
  }

  /**
   In a completed generation a committed batch did a stable object exactly when no committed batch
   failed on entering the object's tenant; what a committed batch did was rewrapped in it.
   */
  lemma CompletedAccountsForEveryObject(lo: set<Target>, hi: set<Target>, es: seq<Event>, f: Fleet, x: Target)
    requires Run(lo, hi, EMPTY, es, f) && f.sweep.Some? && f.sweep.value.status == Completed
    requires x in lo && x.tenant != "" && x.key != ""
    ensures var g := f.sweep.value.generation;
            && g in f.audit
            && (Logged(f.audit[g], x) <==> !Skipped(f.audit[g], x.tenant))
            && (Logged(f.audit[g], x) ==> Wrapping(g, x) in f.wrapped)
  {
    RunKeeps(lo, hi, EMPTY, es, f);
    ChainAccounts(lo, hi, f.audit[f.sweep.value.generation], x);
  }

  /** No skipped tenant: completion means that every stable object was rewrapped in this generation. */
  lemma CompletedWithoutSkipsIsTotal(lo: set<Target>, hi: set<Target>, es: seq<Event>, f: Fleet)
    requires Run(lo, hi, EMPTY, es, f) && f.sweep.Some? && f.sweep.value.status == Completed
    requires Named(lo) && f.sweep.value.generation in f.audit
    requires forall i :: 0 <= i < |f.audit[f.sweep.value.generation]| ==>
      !SkipsTenant(f.audit[f.sweep.value.generation][i].batch)
    ensures forall x :: x in lo ==> Wrapping(f.sweep.value.generation, x) in f.wrapped
  {
    forall x | x in lo ensures Wrapping(f.sweep.value.generation, x) in f.wrapped {
      CompletedAccountsForEveryObject(lo, hi, es, f, x);
    }
  }

  // ---- a completed row that opens again ----

  /** This worker read the row before it completed, at the very same cursor, and does not itself complete. */
  predicate Straggler(f: Fleet, w: nat) {
    && w in f.workers && f.sweep.Some? && Matches(f.sweep.value, f.workers[w].state)
    && match f.workers[w]
       case Loaded(state) => state.status != Completed
       case Ready(_, entry) => entry.batch.status != Completed
  }

  /** Some continuation takes the row of this generation out of completion. */
  ghost predicate MayReopen(lo: set<Target>, hi: set<Target>, f: Fleet, g: nat) {
    exists es, t :: Run(lo, hi, f, es, t) && t.sweep.Some? && t.sweep.value.generation == g
      && t.sweep.value.status != Completed
  }

  lemma Prepend(lo: set<Target>, hi: set<Target>, f: Fleet, e: Event, es: seq<Event>, t: Fleet)
    requires (f.sweep.Some? ==> f.sweep.value.generation in f.audit) && Enabled(lo, hi, f, e)
    requires Run(lo, hi, Next(f, e), es, t)
    ensures Run(lo, hi, f, [e] + es, t)
  {
    hide Enabled, Next;
    assert ([e] + es)[0] == e && ([e] + es)[1..] == es;
  }

  /** Completed and without stragglers, or already replaced by a later generation. */
  ghost predicate Settled(f: Fleet, g: nat) {
    && f.sweep.Some? && g <= f.sweep.value.generation
    && (f.sweep.value.generation == g ==> f.sweep.value.status == Completed && forall w :: !Straggler(f, w))
  }

  // a chain never comes back to a cursor it has left

  lemma LongerIsAbove(k: string)
    ensures !AtMost(k + "a", k)
  {
    if AtMost(k + "a", k) {
      PrefixAtMost(k);
      AtMostAntisymmetric(k, k + "a");
    }
  }

  lemma {:induction false} PrefixAtMost(k: string)
    ensures AtMost(k, k + "a")
  {
    if k != "" {
      PrefixAtMost(k[1..]);
      assert (k + "a")[1..] == k[1..] + "a";
    }
  }

  lemma MutualMarksEqual(m: Mark, n: Mark)
    requires Advances(m, n) && Advances(n, m)
    ensures m == n
  {
    AtMostReflexive(m.tenant);
    AtMostReflexive(n.tenant);
    match (m, n) {
      case (Past(t), Past(u)) =>
        assert Seen(n, Target(t, "")) && Seen(m, Target(u, ""));
        AtMostAntisymmetric(t, u);
      case (Within(t, k), Within(u, j)) =>
        AtMostReflexive(k);
        AtMostReflexive(j);
        assert Seen(n, Target(t, k)) && Seen(m, Target(u, j));
        WithinEqual(t, k, u, j);
      case (Past(t), Within(u, k)) =>
        PastIsNotWithin(t, u, k);
      case (Within(u, k), Past(t)) =>
        PastIsNotWithin(t, u, k);
    }
  }

  lemma WithinEqual(t: string, k: string, u: string, j: string)
    requires Seen(Within(u, j), Target(t, k)) && Seen(Within(t, k), Target(u, j))
    ensures t == u && k == j
  {
    if AtMost(t, u) && AtMost(u, t) { AtMostAntisymmetric(t, u); }
    AtMostReflexive(t);
    if t == u { AtMostAntisymmetric(k, j); }
  }

  lemma PastIsNotWithin(t: string, u: string, k: string)
    ensures !(Advances(Mark.Past(t), Within(u, k)) && Advances(Within(u, k), Mark.Past(t)))
  {
    if Below(t, u) {
      AtMostReflexive(k);
      if AtMost(u, t) { AtMostAntisymmetric(t, u); }
      assert Seen(Within(u, k), Target(u, k)) && !Seen(Mark.Past(t), Target(u, k));
    } else {
      AtMostReflexive(t);
      LongerIsAbove(k);
      assert Seen(Mark.Past(t), Target(t, k + "a")) && !Seen(Within(u, k), Target(t, k + "a"));
    }
  }

  lemma MutualCursorsEqual(c: Cursor, d: Cursor)
    requires Advances(MarkOf(c), MarkOf(d)) && Advances(MarkOf(d), MarkOf(c))
    ensures c == d
  {
    MutualMarksEqual(MarkOf(c), MarkOf(d));
  }

  lemma BatchAdvances(lo: set<Target>, hi: set<Target>, e: Entry)
    requires Good(lo, hi, e)
    ensures Advances(MarkOf(e.batch.from), MarkOf(e.batch.to))
  {
    var b := e.batch;
    if SkipsTenant(b) {
      AtMostReflexive(b.to.tenant);
      assert Advances(MarkOf(b.from), Within(b.to.tenant, ""));
    }
  }

  lemma {:induction false} ChainAdvances(lo: set<Target>, hi: set<Target>, es: seq<Entry>, i: nat)
    requires Chain(lo, hi, es) && i <= |es|
    ensures Advances(MarkOf(End(es[..i])), MarkOf(End(es)))
    decreases |es|
  {
    if i == |es| {
      assert es[..i] == es;
    } else {
      var n := |es| - 1;
      ChainFront(lo, hi, es);
      ChainAdvances(lo, hi, es[..n], i);
      assert es[..n][..i] == es[..i];
      BatchAdvances(lo, hi, es[n]);
    }
  }

  /** A commit that moves the cursor leaves no worker that could commit from its new place. */
  lemma NoneWaitsAhead(lo: set<Target>, hi: set<Target>, f: Fleet, w: nat, e: Entry)
    requires Inv(lo, hi, f) && f.sweep.Some? && w in f.workers
    requires f.workers[w].state.generation == f.sweep.value.generation
    requires Good(lo, hi, e) && e.batch.from == f.sweep.value.cursor && f.workers[w].state.cursor == e.batch.to
    ensures e.batch.to == f.sweep.value.cursor
  {
    var es := f.audit[f.sweep.value.generation];
    var i :| 0 <= i <= |es| && f.workers[w].state.cursor == End(es[..i]);
    ChainAdvances(lo, hi, es, i);
    BatchAdvances(lo, hi, e);
    MutualCursorsEqual(e.batch.to, f.sweep.value.cursor);
  }

  /** A commit makes nobody a straggler. */
  lemma StragglerStays(lo: set<Target>, hi: set<Target>, f: Fleet, w: nat, x: nat)
    requires Inv(lo, hi, f) && w in f.workers && f.workers[w].Ready? && f.sweep.Some?
    requires Matches(f.sweep.value, f.workers[w].state) && Straggler(Next(f, Commit(w)), x)
    ensures Straggler(f, x)
  {
    assert WorkerGood(lo, hi, f.wrapped, f.workers[w]);
    hide Good, Audited, Current, Past;
    NoneWaitsAhead(lo, hi, f, x, f.workers[w].entry);
  }

  lemma SettledCommit(lo: set<Target>, hi: set<Target>, f: Fleet, w: nat, g: nat)
    requires Inv(lo, hi, f) && w in f.workers && f.workers[w].Ready? && Settled(f, g)
    ensures Settled(Next(f, Commit(w)), g)
  {
    var s := f.sweep.value;
    assert s.generation in f.audit;
    hide Inv, Straggler;
    if s.generation == g && Matches(s, f.workers[w].state) {
      CompletingStays(f, w);
      forall x ensures !Straggler(Next(f, Commit(w)), x) {
        assert !Straggler(f, x);
        if Straggler(Next(f, Commit(w)), x) { StragglerStays(lo, hi, f, w, x); }
      }
    } else {
      UnsettledElsewhere(f, w, g);
    }
  }

  /** A worker that may commit here without being a straggler completes. */
  lemma CompletingStays(f: Fleet, w: nat)
    requires f.sweep.Some? && f.sweep.value.generation in f.audit && w in f.workers && f.workers[w].Ready?
    requires Matches(f.sweep.value, f.workers[w].state) && !Straggler(f, w)
    ensures var n := Next(f, Commit(w)).sweep;
            n.Some? && n.value.generation == f.sweep.value.generation && n.value.status == Completed
  {
  }

  lemma UnsettledElsewhere(f: Fleet, w: nat, g: nat)
    requires Settled(f, g) && f.sweep.value.generation in f.audit && w in f.workers && f.workers[w].Ready?
    requires f.sweep.value.generation != g || !Matches(f.sweep.value, f.workers[w].state)
    ensures Settled(Next(f, Commit(w)), g)
  {
    if f.sweep.value.generation == g {
      forall x ensures !Straggler(Next(f, Commit(w)), x) { assert !Straggler(f, x); }
    }
  }

  lemma SettledStep(lo: set<Target>, hi: set<Target>, f: Fleet, e: Event, g: nat)
    requires Inv(lo, hi, f) && Enabled(lo, hi, f, e) && Settled(f, g)
    ensures Settled(Next(f, e), g)
  {
    if e.Commit? {
      SettledCommit(lo, hi, f, e.worker, g);
    } else {
      hide Audited, WorkerGood, Outcome, Past;
      var n := Next(f, e);
      if n.sweep.value.generation == g {
        forall w ensures !Straggler(n, w) {
          if w in f.workers { assert !Straggler(f, w); }
        }
      }
    }
  }

  lemma {:induction false} SettledForever(lo: set<Target>, hi: set<Target>, f: Fleet, es: seq<Event>, t: Fleet, g: nat)
    requires Inv(lo, hi, f) && Run(lo, hi, f, es, t) && Settled(f, g)
    ensures Settled(t, g)
    decreases |es|
  {
    if es != [] {
      SettledStep(lo, hi, f, es[0], g);
      StepKeeps(lo, hi, f, es[0]);
      hide Inv, Enabled, Next, Settled;
      SettledForever(lo, hi, Next(f, es[0]), es[1..], t, g);
    }
  }

  /** The batch of a sweeper whose tenant listing fails at once. */
  function Stuck(s: Sweep): Entry {
    Entry(1, Batch(s.generation, s.epoch, s.cursor, s.cursor, 0, 0, 0, 1, Failed, TenantDiscoveryFailed), [], {})
  }

  lemma StuckIsPossible(lo: set<Target>, hi: set<Target>, s: Sweep)
    requires ValidCursor(s.cursor)
    ensures Good(lo, hi, Stuck(s))
  {
    CoversStart(lo, hi, MarkOf(s.cursor));
    hide Covers;
  }

  lemma ReadyReopens(lo: set<Target>, hi: set<Target>, f: Fleet, w: nat)
    requires Inv(lo, hi, f) && f.sweep.Some? && Straggler(f, w) && f.workers[w].Ready?
    ensures MayReopen(lo, hi, f, f.sweep.value.generation)
  {
    hide Audited, WorkerGood, Outcome;
    var e := Commit(w);
    var t := Next(f, e);
    assert t.sweep.Some? && t.sweep.value.generation == f.sweep.value.generation && t.sweep.value.status != Completed;
    assert Run(lo, hi, t, [], t);
    assert Run(lo, hi, f, [e], t);
  }

  lemma LoadedReopens(lo: set<Target>, hi: set<Target>, f: Fleet, w: nat)
    requires Inv(lo, hi, f) && f.sweep.Some? && Straggler(f, w) && f.workers[w].Loaded?
    ensures MayReopen(lo, hi, f, f.sweep.value.generation)
  {
    var s := f.workers[w].state;
    EndIsValid(lo, hi, f.audit[f.sweep.value.generation]);
    StuckIsPossible(lo, hi, s);
    hide Audited, WorkerGood, Outcome;
    var e := Work(w, Stuck(s));
    assert Enabled(lo, hi, f, e);
    StepKeeps(lo, hi, f, e);
    var n := Next(f, e);
    assert Straggler(n, w) && n.workers[w].Ready?;
    hide Inv;
    ReadyReopens(lo, hi, n, w);
    var es, t :| Run(lo, hi, n, es, t) && t.sweep.Some? && t.sweep.value.generation == f.sweep.value.generation
        && t.sweep.value.status != Completed;
    Prepend(lo, hi, f, e, es, t);
  }

  /**
   The compare-and-swap does not compare the status, so a completed row can open again: exactly
   when a worker is in flight that read it, at the cursor where it completed, before it did.
   */
  lemma CompletedReopensExactly(lo: set<Target>, hi: set<Target>, es: seq<Event>, f: Fleet)
    requires Run(lo, hi, EMPTY, es, f) && f.sweep.Some? && f.sweep.value.status == Completed
    ensures MayReopen(lo, hi, f, f.sweep.value.generation) <==> exists w :: Straggler(f, w)
  {
    RunKeeps(lo, hi, EMPTY, es, f);
    var g := f.sweep.value.generation;
    if w :| Straggler(f, w) {
      hide Inv, MayReopen;
      if f.workers[w].Ready? { ReadyReopens(lo, hi, f, w); } else { LoadedReopens(lo, hi, f, w); }
    } else {
      assert Settled(f, g);
      forall ds, t | Run(lo, hi, f, ds, t) ensures Settled(t, g) { SettledForever(lo, hi, f, ds, t, g); }
    }
  }
}
