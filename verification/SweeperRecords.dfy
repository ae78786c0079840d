/**
 What the durable row and the audit of a fleet of sweepers record: which generation an epoch
 gets, what a commit writes, and that the row's counters count objects and failed batches.
 */
module SweeperRecords {
  import opened Base
  import opened Text
  import opened Rewrap
  import opened Sweepers

  // ---- one step, on the row and the audit ----

  /**
   A worker that begins with an epoch gets a row of that epoch. The same epoch leaves row and
   audit alone; a new one opens the next generation at the start and keeps all earlier audits.
   */
  lemma BeginExactly(lo: set<Target>, hi: set<Target>, es: seq<Event>, f: Fleet, w: nat, epoch: string)
    requires Run(lo, hi, EMPTY, es, f) && w !in f.workers
    ensures f.sweep.Some? ==> f.sweep.value.generation in f.audit
    ensures var t := Next(f, Begin(w, epoch));
            && t.sweep.Some? && t.sweep.value.epoch == epoch && t.wrapped == f.wrapped
            && t.workers == f.workers[w := Loaded(t.sweep.value)]
            && (f.sweep.Some? && f.sweep.value.epoch == epoch ==> t.sweep == f.sweep && t.audit == f.audit)
            && (f.sweep.Some? && f.sweep.value.epoch != epoch ==>
                  t.sweep.value.generation == f.sweep.value.generation + 1)
            && (f.sweep.None? ==> t.sweep.value.generation == 1)
            && (t.sweep != f.sweep ==> Opened(f, t))
  {
    RunKeeps(lo, hi, EMPTY, es, f);
    if f.sweep.Some? { assert Current(lo, f.sweep.value, f.audit); }
  }

  /** A new generation: running from the start with nothing counted, its audit empty, all others as they were. */
  ghost predicate Opened(f: Fleet, t: Fleet) {
    && t.sweep.Some?
    && var s := t.sweep.value;
       && s.status == Running && s.cursor.tenant == "" && s.cursor.key == "" && s.lastError == NoError
       && s.processed == s.rewrapped == s.skipped == s.failed == s.consecutiveFailures == 0
       && s.generation !in f.audit && t.audit == f.audit[s.generation := []]
  }

  /**
   A commit writes exactly when generation, epoch and cursor are still those that the worker
   read: then the batch becomes the last audit row and the row takes its end, status and error.
   */
  lemma CommitExactly(f: Fleet, w: nat)
    requires w in f.workers && f.workers[w].Ready?
    requires f.sweep.Some? && f.sweep.value.generation in f.audit
    ensures var t, s, r := Next(f, Commit(w)), f.sweep.value, f.workers[w].state;
            var e := f.workers[w].entry;
            && t.workers == f.workers - {w} && t.wrapped == f.wrapped && t.sweep.Some?
            && if s.generation == r.generation && s.epoch == r.epoch && s.cursor == r.cursor then
                 && t.audit == f.audit[s.generation := f.audit[s.generation] + [e]]
                 && var n := t.sweep.value;
                    && n.generation == s.generation && n.epoch == s.epoch && n.cursor == e.batch.to
                    && n.status == e.batch.status && n.lastError == e.batch.errorClass
                    && n.processed - s.processed == e.batch.processed && n.failed - s.failed == e.batch.failed
                    && n.rewrapped - s.rewrapped == e.batch.rewrapped && n.skipped - s.skipped == e.batch.skipped
                    && n.consecutiveFailures == if e.batch.status == Failed then r.consecutiveFailures + 1 else 0
               else t.audit == f.audit && t.sweep == f.sweep
  {
  }

  // ---- over runs: epochs ----

  /** Generations count up from 1, and each has an epoch other than the one before. */
  ghost predicate Epochs(epochs: map<nat, string>) {
    forall g :: g in epochs ==> 1 <= g && (g > 1 ==> g - 1 in epochs && epochs[g - 1] != epochs[g])
  }

  ghost predicate Of(epochs: map<nat, string>, generation: nat, epoch: string) {
    generation in epochs && epochs[generation] == epoch
  }

  ghost predicate AuditDated(audit: map<nat, seq<Entry>>, epochs: map<nat, string>) {
    && audit.Keys == epochs.Keys
    && forall g, i :: g in audit && 0 <= i < |audit[g]| ==>
        audit[g][i].batch.generation == g && audit[g][i].batch.epoch == epochs[g]
  }

  ghost predicate WorkerDated(w: Worker, epochs: map<nat, string>) {
    && Of(epochs, w.state.generation, w.state.epoch)
    && (w.Ready? ==> w.entry.batch.generation == w.state.generation && w.entry.batch.epoch == w.state.epoch)
  }

  ghost predicate Dated(f: Fleet, epochs: map<nat, string>) {
    && Epochs(epochs) && AuditDated(f.audit, epochs)
    && (f.sweep.Some? ==> Of(epochs, f.sweep.value.generation, f.sweep.value.epoch))
    && (f.sweep.Some? ==> forall g :: g in epochs ==> g <= f.sweep.value.generation)
    && (f.sweep.None? ==> epochs == map[])
    && forall w :: w in f.workers ==> WorkerDated(f.workers[w], epochs)
  }

  lemma BeginDated(f: Fleet, w: nat, epoch: string, epochs: map<nat, string>) returns (more: map<nat, string>)
    requires Dated(f, epochs) && (f.sweep.Some? ==> f.sweep.value.generation in f.audit)
    ensures Dated(Next(f, Begin(w, epoch)), more)
  {
    if f.sweep.Some? && f.sweep.value.epoch == epoch {
      more := epochs;
    } else {
      var g := if f.sweep.Some? then f.sweep.value.generation + 1 else 1;
      more := epochs[g := epoch];
      NewDated(f.audit, epochs, g, epoch);
      hide AuditDated;
    }
  }

  lemma NewDated(audit: map<nat, seq<Entry>>, epochs: map<nat, string>, g: nat, epoch: string)
    requires AuditDated(audit, epochs) && g !in epochs
    ensures AuditDated(audit[g := []], epochs[g := epoch])
  {
  }

  lemma CommitDated(f: Fleet, w: nat, epochs: map<nat, string>)
    requires Dated(f, epochs) && (f.sweep.Some? ==> f.sweep.value.generation in f.audit)
    requires w in f.workers && f.workers[w].Ready?
    ensures Dated(Next(f, Commit(w)), epochs)
  {
    var t := Next(f, Commit(w));
    assert WorkerDated(f.workers[w], epochs);
    assert AuditDated(t.audit, epochs);
  }

  lemma StepDated(lo: set<Target>, hi: set<Target>, f: Fleet, e: Event, epochs: map<nat, string>)
    returns (more: map<nat, string>)
    requires Dated(f, epochs) && Enabled(lo, hi, f, e)
    requires f.sweep.Some? ==> f.sweep.value.generation in f.audit
    ensures Dated(Next(f, e), more)
  {
    hide Good, AuditDated, Epochs;
    more := epochs;
    match e {
      case Begin(w, epoch) => more := BeginDated(f, w, epoch, epochs);
      case Commit(w) => CommitDated(f, w, epochs);
      case Work(w, _) => assert WorkerDated(f.workers[w], epochs);
      case _ =>
    }
  }

  lemma {:induction false} RunDated(
    lo: set<Target>, hi: set<Target>, f: Fleet, es: seq<Event>, g: Fleet, epochs: map<nat, string>)
    returns (more: map<nat, string>)
    requires Dated(f, epochs) && Run(lo, hi, f, es, g)
    ensures Dated(g, more)
    decreases |es|
  {
    if es == [] {
      more := epochs;
    } else {
      hide Dated, Enabled, Next;
      more := StepDated(lo, hi, f, es[0], epochs);
      more := RunDated(lo, hi, Next(f, es[0]), es[1..], g, more);
    }
  }

  /**
   Whatever sweepers observe and however they race, every batch committed in a generation carries
   the generation's one epoch, generations are numbered without gaps, and no two consecutive ones
   have the same epoch.
   */
  lemma GenerationsHaveOneEpoch(lo: set<Target>, hi: set<Target>, es: seq<Event>, f: Fleet)
    returns (epochs: map<nat, string>)
    requires Run(lo, hi, EMPTY, es, f)
    ensures epochs.Keys == f.audit.Keys
    ensures forall g, i :: g in f.audit && 0 <= i < |f.audit[g]| ==>
      f.audit[g][i].batch.generation == g && f.audit[g][i].batch.epoch == epochs[g]
    ensures forall g :: g in epochs ==> 1 <= g && (g > 1 ==> g - 1 in epochs && epochs[g - 1] != epochs[g])
    ensures f.sweep.Some? ==>
      && f.sweep.value.generation in epochs && epochs[f.sweep.value.generation] == f.sweep.value.epoch
      && forall g :: g in epochs ==> g <= f.sweep.value.generation
  {
    epochs := RunDated(lo, hi, EMPTY, es, f, map[]);
  }

  // ---- over runs: counters ----

  ghost function ChangedBy(es: seq<Entry>): set<Target> {
    if es == [] then {} else ChangedBy(es[..|es| - 1]) + es[|es| - 1].changed
  }

  ghost function Rewrapped(es: seq<Entry>): nat {
    if es == [] then 0 else Rewrapped(es[..|es| - 1]) + es[|es| - 1].batch.rewrapped
  }

  ghost function FailedBatches(es: seq<Entry>): set<nat> { set i | 0 <= i < |es| && es[i].batch.status == Failed }

  /** The row repeats the end of its audit: the last status and error, and one count per failed batch. */
  ghost predicate Recorded(s: Sweep, es: seq<Entry>) {
    && s.rewrapped == Rewrapped(es) && s.failed == |FailedBatches(es)|
    && s.status == (if es == [] then Running else es[|es| - 1].batch.status)
    && s.lastError == (if es == [] then NoError else es[|es| - 1].batch.errorClass)
    && (s.consecutiveFailures > 0 <==> s.status == Failed)
  }

  ghost predicate RowRecorded(f: Fleet) {
    f.sweep.Some? ==> f.sweep.value.generation in f.audit && Recorded(f.sweep.value, f.audit[f.sweep.value.generation])
  }

  ghost predicate EntriesGood(lo: set<Target>, hi: set<Target>, f: Fleet) {
    forall w :: w in f.workers && f.workers[w].Ready? ==> Good(lo, hi, f.workers[w].entry)
  }

  lemma FailedExtended(es: seq<Entry>, e: Entry)
    ensures |FailedBatches(es + [e])| == |FailedBatches(es)| + (if e.batch.status == Failed then 1 else 0)
  {
    var more := if e.batch.status == Failed then {|es|} else {};
    assert FailedBatches(es + [e]) == FailedBatches(es) + more;
  }

  lemma RecordedExtended(lo: set<Target>, hi: set<Target>, s: Sweep, r: Sweep, es: seq<Entry>, e: Entry)
    requires Recorded(s, es) && Good(lo, hi, e)
    ensures Recorded(Advanced(s, r, e.batch), es + [e])
  {
    FailedExtended(es, e);
    hide FailedBatches, Covers;
    assert (es + [e])[..|es + [e]| - 1] == es;
  }

  lemma StepRecorded(lo: set<Target>, hi: set<Target>, f: Fleet, e: Event)
    requires RowRecorded(f) && EntriesGood(lo, hi, f) && Enabled(lo, hi, f, e)
    ensures RowRecorded(Next(f, e)) && EntriesGood(lo, hi, Next(f, e))
  {
    hide Good;
    match e {
      case Commit(w) =>
        if f.sweep.Some? && Matches(f.sweep.value, f.workers[w].state) {
          var s := f.sweep.value;
          RecordedExtended(lo, hi, s, f.workers[w].state, f.audit[s.generation], f.workers[w].entry);
        }
        hide Recorded;
      case Begin(w, epoch) =>
        assert FailedBatches([]) == {};
      case _ =>
        hide Recorded;
    }
  }

  lemma {:induction false} RunRecorded(lo: set<Target>, hi: set<Target>, f: Fleet, es: seq<Event>, g: Fleet)
    requires RowRecorded(f) && EntriesGood(lo, hi, f) && Run(lo, hi, f, es, g)
    ensures RowRecorded(g)
    decreases |es|
  {
    if es != [] {
      hide RowRecorded, EntriesGood, Enabled, Next;
      StepRecorded(lo, hi, f, es[0]);
      RunRecorded(lo, hi, Next(f, es[0]), es[1..], g);
    }
  }

  lemma {:induction false} ChangedIsDone(lo: set<Target>, hi: set<Target>, es: seq<Entry>)
    requires Chain(lo, hi, es)
    ensures ChangedBy(es) <= DoneBy(es)
    decreases |es|
  {
    if es != [] {
      ChainFront(lo, hi, es);
      ChangedIsDone(lo, hi, es[..|es| - 1]);
      assert Good(lo, hi, es[|es| - 1]);
    }
  }

  /** No batch changes what another one did: the counter of rewrapped objects counts each once. */
  lemma {:induction false} RewrappedCountsObjects(lo: set<Target>, hi: set<Target>, es: seq<Entry>)
    requires Chain(lo, hi, es) && Named(hi)
    ensures Rewrapped(es) == |ChangedBy(es)|
    decreases |es|
  {
    if es != [] {
      var n := |es| - 1;
      ChainFront(lo, hi, es);
      RewrappedCountsObjects(lo, hi, es[..n]);
      ChangedIsDone(lo, hi, es[..n]);
      forall x | x in es[n].changed ensures x !in DoneBy(es[..n]) { NotDoneTwice(lo, hi, es, x); }
      assert ChangedBy(es[..n]) !! es[n].changed;
      assert es[n].batch.rewrapped == |es[n].changed|;
    }
  }

  lemma NotDoneTwice(lo: set<Target>, hi: set<Target>, es: seq<Entry>, x: Target)
    requires Chain(lo, hi, es) && Named(hi) && es != [] && x in es[|es| - 1].log
    ensures x !in DoneBy(es[..|es| - 1])
  {
    var n := |es| - 1;
    ChainFront(lo, hi, es);
    assert x in hi;
    BatchAccounts(lo, hi, es[n], x);
    ChainAccounts(lo, hi, es[..n], x);
    DoneIsLogged(es[..n], x);
  }

  /**
   The durable counters count: rewrapped the distinct objects that the provider changed in this
   generation, skipped those that it found current, failed the failed batches; status and error
   are those of the last committed batch.
   */
  lemma CountersAreObjects(lo: set<Target>, hi: set<Target>, es: seq<Event>, f: Fleet)
    requires Run(lo, hi, EMPTY, es, f) && f.sweep.Some? && Named(hi)
    ensures var s := f.sweep.value;
            && s.generation in f.audit
            && var batches := f.audit[s.generation];
               && ChangedBy(batches) <= DoneBy(batches)
               && s.rewrapped == |ChangedBy(batches)| && s.skipped == |DoneBy(batches) - ChangedBy(batches)|
               && s.failed == |FailedBatches(batches)|
               && s.status == (if batches == [] then Running else batches[|batches| - 1].batch.status)
               && s.lastError == (if batches == [] then NoError else batches[|batches| - 1].batch.errorClass)
               && (s.consecutiveFailures > 0 <==> s.status == Failed)
  {
    RunKeeps(lo, hi, EMPTY, es, f);
    RunRecorded(lo, hi, EMPTY, es, f);
    var batches := f.audit[f.sweep.value.generation];
    ProcessedIsDistinctObjects(lo, hi, es, f);
    RewrappedCountsObjects(lo, hi, batches);
    ChangedIsDone(lo, hi, batches);
  }
}
