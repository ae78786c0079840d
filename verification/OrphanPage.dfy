/**
 One page of the orphan sweep: the loop that classifies provider inventory and
 deletes what is owned, old and unreferenced, and why each deletion is one that
 the protocol's sweeper may perform.
 */
module OrphanPage {
  import opened Base
  import opened Upload
  import opened Protocol
  import opened ProtocolSafety
  import opened ProtocolRuns

  /** One inventory entry; `owned` is the verdict of the key and version grammar for this tenant. */
  datatype Item = Item(cipher: Object, modifiedAt: Time, owned: bool)

  datatype Page = Page(items: seq<Item>, next: string)

  datatype Tally = Tally(examined: nat, deferred: nat, referenced: nat, ignored: nat, deleted: nat, next: string)

  datatype Failed = ListFailed | CheckFailed | DeleteFailed

  /** What the reference check and the delete call answer for the i-th item; None is an error. */
  datatype Answers = Answers(referenced: nat -> Option<bool>, deletes: nat -> bool)

  predicate Old(item: Item, now: Time, age: Time) { item.modifiedAt + age <= now }

  /** The loop asks the provider to delete the i-th item: owned, old, known to be unreferenced. */
  predicate Condemns(items: seq<Item>, i: nat, now: Time, age: Time, a: Answers)
    requires i < |items|
  {
    items[i].owned && Old(items[i], now, age) && a.referenced(i) == Some(false)
  }

  /** The deletion was reported as done. */
  predicate Removes(items: seq<Item>, i: nat, now: Time, age: Time, a: Answers)
    requires i < |items|
  {
    Condemns(items, i, now, age, a) && a.deletes(i)
  }

  /** Successful deletions among the first n items, in page order. */
  ghost function Removed(items: seq<Item>, n: nat, now: Time, age: Time, a: Answers): seq<nat>
    requires n <= |items|
  {
    if n == 0 then []
    else Removed(items, n - 1, now, age, a) + (if Removes(items, n - 1, now, age, a) then [n - 1] else [])
  }

  /** A failure keeps the original cursor, so that the whole page is looked at again. */
  method DiscoverPage(listing: Option<Page>, cursor: string, now: Time, age: Time, a: Answers)
    returns (r: Tally, failed: Option<Failed>, deleted: seq<nat>)
    requires MINIMUM_ORPHAN_AGE <= age
    ensures listing.None? ==> failed == Some(ListFailed) && r == Tally(0, 0, 0, 0, 0, cursor) && deleted == []
    ensures listing.Some? ==> r.examined <= |listing.value.items|
    ensures listing.Some? ==> deleted == Removed(listing.value.items, r.examined, now, age, a) && r.deleted == |deleted|
    ensures r.examined == r.ignored + r.deferred + r.referenced + r.deleted + (if failed.Some? && listing.Some? then 1
        else 0)
    ensures failed.Some? ==> r.next == cursor
    ensures failed == Some(DeleteFailed) ==>
      listing.Some? && r.examined > 0 && Condemns(listing.value.items, r.examined - 1, now, age, a)
        && !a.deletes(r.examined - 1)
    ensures failed == Some(CheckFailed) ==>
      listing.Some? && r.examined > 0 && listing.value.items[r.examined - 1].owned && a.referenced(r.examined - 1).None?
    ensures listing.Some? && failed.None? ==> r.examined == |listing.value.items| && r.next == listing.value.next
  {
    r, deleted := Tally(0, 0, 0, 0, 0, cursor), [];
    if listing.None? { return r, Some(ListFailed), deleted; }
    var items := listing.value.items;
    for i := 0 to |items|
      invariant r.examined == i == r.ignored + r.deferred + r.referenced + r.deleted && r.next == cursor
      invariant deleted == Removed(items, i, now, age, a) && r.deleted == |deleted|
    {
      r := r.(examined := r.examined + 1);
      if !items[i].owned {
        r := r.(ignored := r.ignored + 1);
        continue;
      }
      if now < items[i].modifiedAt + age {
        r := r.(deferred := r.deferred + 1);
        continue;
      }
      var answer := a.referenced(i);
      if answer.None? { return r, Some(CheckFailed), deleted; }
      if answer.value {
        r := r.(referenced := r.referenced + 1);
        continue;
      }
      if !a.deletes(i) { return r, Some(DeleteFailed), deleted; }
      deleted := deleted + [i];
      r := r.(deleted := r.deleted + 1);
    }
    return r.(next := listing.value.next), None, deleted;
  }

  /** How often an index occurs. */
  ghost function Occurrences(s: seq<nat>, x: nat): nat { multiset(s)[x] }

  /** Exactly the removable items among those examined, each once. */
  lemma {:induction false} RemovedExactly(items: seq<Item>, n: nat, now: Time, age: Time, a: Answers, i: nat)
    requires n <= |items| && i < |items|
    ensures Occurrences(Removed(items, n, now, age, a), i)
         == (if i < n && Removes(items, i, now, age, a) then 1 else 0)
  {
    hide Occurrences, Removes, Removed;
    if n == 0 {
      NoneRemoved(items, now, age, a, i);
    } else {
      RemovedExactly(items, n - 1, now, age, a, i);
      OccurrencesNext(items, n - 1, now, age, a, i);
    }
  }

  lemma NoneRemoved(items: seq<Item>, now: Time, age: Time, a: Answers, i: nat)
    ensures Occurrences(Removed(items, 0, now, age, a), i) == 0
  {
  }

  lemma OccurrencesNext(items: seq<Item>, n: nat, now: Time, age: Time, a: Answers, i: nat)
    requires n < |items|
    ensures Occurrences(Removed(items, n + 1, now, age, a), i)
         == Occurrences(Removed(items, n, now, age, a), i) + (if i == n && Removes(items, n, now, age, a) then 1 else 0)
  {
    hide Removes;
    OccurrencesAppend(Removed(items, n, now, age, a), n, i);
    hide Occurrences;
  }

  lemma OccurrencesAppend(s: seq<nat>, y: nat, x: nat)
    ensures Occurrences(s + [y], x) == Occurrences(s, x) + (if x == y then 1 else 0)
    ensures s + [] == s
  {
  }

  /** The i-th answer was taken in this state, whose clock and provider the page saw. */
  predicate AnsweredIn(s: System, items: seq<Item>, i: nat, now: Time, a: Answers)
    requires i < |items|
  {
    && now <= s.clock && items[i].cipher in s.puts && s.puts[items[i].cipher].modifiedAt == items[i].modifiedAt
    && a.referenced(i) == Some(Referenced(s, items[i].cipher))
  }

  /**
   When the answers of a page are taken along a run, each in a state of its own, every version
   that the loop asks to delete, done or not, is referenced in no state of the whole run.
   */
  lemma PageDeletesOnlyDeadVersions(
    events: seq<Event>, states: seq<System>, items: seq<Item>, when: seq<nat>, now: Time, age: Time, a: Answers,
      i: nat, m: nat)
    requires Run(events, states) && |when| == |items| && MINIMUM_ORPHAN_AGE <= age
    requires forall j :: 0 <= j < |items| && Condemns(items, j, now, age, a) ==>
               when[j] <= |events| && AnsweredIn(states[when[j]], items, j, now, a)
    requires i < |items| && Condemns(items, i, now, age, a) && m <= |events|
    ensures Unreferenced(states[m], items[i].cipher)
  {
    assert |states| == |events| + 1;
    hide Run, Referenced;
    assert AnsweredIn(states[when[i]], items, i, now, a);
    CondemnableIsNeverReferenced(events, states, when[i], m, items[i].cipher, now, age);
  }
}
