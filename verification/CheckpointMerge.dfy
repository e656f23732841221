/**
 `adoptNewerBackgroundCheckpoint` (extension/src/content.ts:803-859): the recording kept by the page and the
 one kept by the background are merged by the identity of their events and snapshots.
 */
module CheckpointMerge {
  import opened Wrappers

  /** An event (`kind` is its type) or a snapshot (`kind` is its phase). */
  datatype Item = Item(timestamp: int, kind: string, body: int)

  datatype List = Events | Snapshots

  /** `type@timestamp` for events, the timestamp alone for snapshots. */
  predicate SameKey(list: List, a: Item, b: Item) { a.timestamp == b.timestamp && (list.Events? ==> a.kind == b.kind) }

  predicate HasKey(list: List, items: seq<Item>, x: Item) { exists y | y in items :: SameKey(list, y, x) }

  /** Final snapshots of the background belong to a state that was stopped. */
  predicate Eligible(list: List, x: Item) { list.Snapshots? ==> x.kind != "final" }

  /** The items of the remote copy that the local one lacks. */
  function Missing(list: List, local: seq<Item>, remote: seq<Item>): seq<Item> {
    if remote == [] then []
    else
      var last := remote[|remote| - 1];
      Missing(list, local, remote[..|remote| - 1]) + if Eligible(list, last)
          && !HasKey(list, local, last) then [last] else []
  }

  // ---------- stable sorting ----------

  /** After every item that is not later. */
  function Insert(items: seq<Item>, x: Item): seq<Item> {
    if items == [] then [x]
    else
      var n := |items| - 1;
      if items[n].timestamp <= x.timestamp then items + [x] else Insert(items[..n], x) + [items[n]]
  }

  /** `sort((a, b) => a.timestamp - b.timestamp)`. */
  function Sort(items: seq<Item>): seq<Item> {
    if items == [] then [] else Insert(Sort(items[..|items| - 1]), items[|items| - 1])
  }

  predicate Sorted(items: seq<Item>) { forall i, j | 0 <= i < j < |items| :: items[i].timestamp <= items[j].timestamp }

  /** The items of one moment, in order. */
  function At(items: seq<Item>, timestamp: int): seq<Item> {
    if items == [] then []
    else
      var last := items[|items| - 1];
      At(items[..|items| - 1], timestamp) + if last.timestamp == timestamp then [last] else []
  }

  lemma AtAppended(items: seq<Item>, x: Item, timestamp: int)
    ensures At(items + [x], timestamp) == At(items, timestamp) + if x.timestamp == timestamp then [x] else []
  {
    assert (items + [x])[..|items|] == items;
  }

  lemma {:induction false} InsertKeepsAll(items: seq<Item>, x: Item)
    ensures multiset(Insert(items, x)) == multiset(items) + multiset{x}
  {
    if items != [] {
      InsertKeepsAll(items[..|items| - 1], x);
      assert items == items[..|items| - 1] + [items[|items| - 1]];
    }
  }

  lemma InsertedElements(items: seq<Item>, x: Item)
    ensures forall y :: y in Insert(items, x) <==> y in items || y == x
  {
    InsertKeepsAll(items, x);
    forall y ensures y in Insert(items, x) <==> y in multiset(Insert(items, x)) {
    }
  }

  lemma SortedAppended(items: seq<Item>, x: Item)
    requires Sorted(items) && forall y | y in items :: y.timestamp <= x.timestamp
    ensures Sorted(items + [x])
  {
  }

  lemma SortedSplits(items: seq<Item>)
    requires Sorted(items) && items != []
    ensures Sorted(items[..|items| - 1])
    ensures forall y | y in items[..|items| - 1] :: y.timestamp <= items[|items| - 1].timestamp
  {
  }

  lemma {:induction false} InsertKeepsSorted(items: seq<Item>, x: Item)
    requires Sorted(items)
    ensures Sorted(Insert(items, x))
  {
    if items != [] {
      var n := |items| - 1;
      SortedSplits(items);
      if items[n].timestamp <= x.timestamp {
        SortedAppended(items, x);
      } else {
        InsertKeepsSorted(items[..n], x);
        InsertedElements(items[..n], x);
        SortedAppended(Insert(items[..n], x), items[n]);
      }
    }
  }

  lemma {:induction false} InsertIsLast(items: seq<Item>, x: Item, timestamp: int)
    requires Sorted(items)
    ensures At(Insert(items, x), timestamp) == At(items, timestamp) + if x.timestamp == timestamp then [x] else []
  {
    if items == [] {
      AtAppended([], x, timestamp);
    } else {
      var n := |items| - 1;
      var init, last := items[..n], items[n];
      assert items == init + [last];
      SortedSplits(items);
      if last.timestamp <= x.timestamp {
        AtAppended(items, x, timestamp);
      } else {
        InsertIsLast(init, x, timestamp);
        AtAppended(Insert(init, x), last, timestamp);
        AtAppended(init, last, timestamp);
      }
    }
  }

  lemma {:induction false} SortKeepsAll(items: seq<Item>)
    ensures multiset(Sort(items)) == multiset(items)
  {
    if items != [] {
      var init, last := items[..|items| - 1], items[|items| - 1];
      SortKeepsAll(init);
      OneMore(init, Sort(init), last);
      assert items == init + [last];
    }
  }

  lemma OneMore(items: seq<Item>, sorted: seq<Item>, x: Item)
    requires multiset(sorted) == multiset(items)
    ensures multiset(Insert(sorted, x)) == multiset(items + [x])
  {
    InsertKeepsAll(sorted, x);
  }

  lemma {:induction false} SortSorts(items: seq<Item>)
    ensures Sorted(Sort(items))
  {
    if items != [] {
      SortSorts(items[..|items| - 1]);
      InsertKeepsSorted(Sort(items[..|items| - 1]), items[|items| - 1]);
    }
  }

  /** It keeps the order of the items of one moment. */
  lemma {:induction false} SortIsStable(items: seq<Item>, timestamp: int)
    ensures At(Sort(items), timestamp) == At(items, timestamp)
  {
    if items != [] {
      var n := |items| - 1;
      SortSorts(items[..n]);
      SortIsStable(items[..n], timestamp);
      InsertIsLast(Sort(items[..n]), items[n], timestamp);
    }
  }

  // ---------- the merge ----------

  datatype Recording = Recording(events: seq<Item>, snapshots: seq<Item>)

  /** Nothing changes when nothing is missing; otherwise both lists are extended and sorted. */
  function Merge(local: Recording, remote: Recording): Recording {
    var events, snapshots := Missing(Events, local.events, remote.events), Missing(Snapshots, local.snapshots, remote.snapshots);
    if events == [] && snapshots == [] then local
    else Recording(Sort(local.events + events), Sort(local.snapshots + snapshots))
  }

  lemma {:induction false} MissingAre(list: List, local: seq<Item>, remote: seq<Item>)
    ensures forall x ::
              x in Missing(list, local, remote) <==> x in remote && Eligible(list, x) && !HasKey(list, local, x)
  {
    if remote != [] {
      MissingAre(list, local, remote[..|remote| - 1]);
      assert remote == remote[..|remote| - 1] + [remote[|remote| - 1]];
    }
  }

  lemma {:induction false} NothingMissing(list: List, local: seq<Item>, remote: seq<Item>)
    requires forall x | x in remote && Eligible(list, x) :: HasKey(list, local, x)
    ensures Missing(list, local, remote) == []
  {
    if remote != [] {
      NothingMissing(list, local, remote[..|remote| - 1]);
    }
  }

  function ListOf(r: Recording, list: List): seq<Item> { if list.Events? then r.events else r.snapshots }

  lemma MergedElements(local: Recording, remote: Recording, list: List)
    ensures
      var missing := Missing(list, ListOf(local, list), ListOf(remote, list));
      multiset(ListOf(Merge(local, remote), list)) == multiset(ListOf(local, list)) + multiset(missing)
    ensures forall x :: x in ListOf(Merge(local, remote), list)
                        <==> x in ListOf(local, list) || x in Missing(list, ListOf(local, list), ListOf(remote, list))
  {
    var mine, missing := ListOf(local, list), Missing(list, ListOf(local, list), ListOf(remote, list));
    var merged := ListOf(Merge(local, remote), list);
    SortKeepsAll(mine + missing);
    assert merged == mine || multiset(merged) == multiset(mine + missing);
    assert mine + [] == mine;
    forall x ensures x in merged <==> x in mine || x in missing {
      assert x in merged <==> x in multiset(merged);
      assert x in multiset(mine) + multiset(missing) <==> x in mine || x in missing;
    }
  }

  /** Every local item is kept, as often as it was; what is added is exactly the eligible remote items whose key is
      not known; so the keys are the union of both. */
  lemma MergeIsUnion(local: Recording, remote: Recording, list: List, x: Item)
    ensures
      var mine, theirs, merged := ListOf(local, list), ListOf(remote, list), ListOf(Merge(local, remote), list);
      && multiset(merged)[x] == multiset(mine)[x] + multiset(Missing(list, mine, theirs))[x]
      && (x in Missing(list, mine, theirs) <==> x in theirs && Eligible(list, x) && !HasKey(list, mine, x))
      && (HasKey(list, merged, x) <==> HasKey(list, mine, x) || exists y | y in theirs :: Eligible(list, y) && SameKey(list, y, x))
  {
    var mine, theirs, merged := ListOf(local, list), ListOf(remote, list), ListOf(Merge(local, remote), list);
    MergedElements(local, remote, list);
    MissingAre(list, mine, theirs);
    if y :| y in theirs && Eligible(list, y) && SameKey(list, y, x) && !HasKey(list, mine, x) {
      assert !HasKey(list, mine, y);
      assert y in merged;
    }
  }

  /** An event of the background is adopted exactly when the page has none of its type at its moment; so two events of
      one moment and different types are both kept. A snapshot is adopted exactly when it is no final one and the page
      has none of its moment, whatever its phase. Nothing of the page's own is lost. */
  lemma MergeAdopts(local: Recording, remote: Recording, x: Item)
    ensures x in Merge(local, remote).events
            <==> || x in local.events
                 || (x in remote.events
                     && forall own | own in local.events && own.timestamp == x.timestamp :: own.kind != x.kind)
    ensures x in Merge(local, remote).snapshots
            <==> || x in local.snapshots
                 || (x in remote.snapshots && x.kind != "final"
                     && forall own | own in local.snapshots :: own.timestamp != x.timestamp)
  {
    MergedElements(local, remote, Events);
    MergedElements(local, remote, Snapshots);
    MissingAre(Events, local.events, remote.events);
    MissingAre(Snapshots, local.snapshots, remote.snapshots);
  }

  /** When the merge changes anything, both lists come out in order of time, and items of one moment stay in
      order, the local ones first. */
  lemma MergeIsStable(local: Recording, remote: Recording, list: List, timestamp: int)
    requires Merge(local, remote) != local
    ensures
      var mine, merged := ListOf(local, list), ListOf(Merge(local, remote), list);
      Sorted(merged) && At(merged, timestamp) == At(mine, timestamp) + At(Missing(list, mine, ListOf(remote, list)), timestamp)
  {
    var mine := ListOf(local, list);
    var missing := Missing(list, mine, ListOf(remote, list));
    SortSorts(mine + missing);
    SortIsStable(mine + missing, timestamp);
    AtConcat(mine, missing, timestamp);
  }

  lemma {:induction false} AtConcat(a: seq<Item>, b: seq<Item>, timestamp: int)
    ensures At(a + b, timestamp) == At(a, timestamp) + At(b, timestamp)
    decreases |b|
  {
    if b == [] {
      assert a + b == a;
    } else {
      var n := |b| - 1;
      AtConcat(a, b[..n], timestamp);
      assert a + b == a + b[..n] + [b[n]] && b == b[..n] + [b[n]];
      AtAppended(a + b[..n], b[n], timestamp);
    }
  }

  /** Merging the same checkpoint again changes nothing. */
  lemma MergeTwice(local: Recording, remote: Recording)
    ensures Merge(Merge(local, remote), remote) == Merge(local, remote)
  {
    var merged := Merge(local, remote);
    forall list: List ensures Missing(list, ListOf(merged, list), ListOf(remote, list)) == [] {
      forall x | x in ListOf(remote, list) && Eligible(list, x) ensures HasKey(list, ListOf(merged, list), x) {
        MergeIsUnion(local, remote, list, x);
        assert SameKey(list, x, x);
      }
      NothingMissing(list, ListOf(merged, list), ListOf(remote, list));
    }
    assert ListOf(merged, Events) == merged.events && ListOf(merged, Snapshots) == merged.snapshots;
    assert ListOf(remote, Events) == remote.events && ListOf(remote, Snapshots) == remote.snapshots;
  }

  // ---------- the recorder's own form ----------

  /** The two arrays that the merge replaces. */
  class LocalRecording {
    var events: seq<Item>
    var snapshots: seq<Item>

    function View(): Recording
      reads this
    {
      Recording(events, snapshots)
    }

    constructor (events: seq<Item>, snapshots: seq<Item>)
      ensures View() == Recording(events, snapshots)
    {
      this.events, this.snapshots := events, snapshots;
    }

    /** `remote.filter(...)` against the keys of the local list. */
    method FindMissing(list: List, local: seq<Item>, remote: seq<Item>) returns (missing: seq<Item>)
      ensures missing == Missing(list, local, remote)
    {
      missing := [];
      var i := 0;
      while i < |remote|
        invariant i <= |remote| && missing == Missing(list, local, remote[..i])
      {
        assert remote[..i + 1][..i] == remote[..i];
        if Eligible(list, remote[i]) && !HasKey(list, local, remote[i]) {
          missing := missing + [remote[i]];
        }
        i := i + 1;
      }
      assert remote[..i] == remote;
    }

    /** `terminated`: a stopped remote recording is not adopted. */
    method AdoptNewerBackgroundCheckpoint(remote: Option<Recording>, terminated: bool)
      modifies this
      ensures View() == if remote.Some? && !terminated then Merge(old(View()), remote.value) else old(View())
    {
      if remote.None? || terminated {
        return;
      }
      var missingEvents := FindMissing(Events, events, remote.value.events);
      var missingSnapshots := FindMissing(Snapshots, snapshots, remote.value.snapshots);
      if |missingEvents| == 0 && |missingSnapshots| == 0 {
        return;
      }
      events := Sort(events + missingEvents);
      snapshots := Sort(snapshots + missingSnapshots);
    }
  }
}
