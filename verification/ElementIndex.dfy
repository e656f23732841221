/**
 The element-index allocator of the recorder (extension/src/content.ts:315-316, 548-556, 846-854, 895-903,
 1310-1318, 2322-2338): indices name elements in events and snapshots, forgotten elements get new ones, and
 the table travels with the recording.
 */
module ElementIndex {
  datatype Entry = Entry(index: nat, lastUsedAt: int)

  datatype Binding = Binding(index: nat, identity: string)

  /** What is written together when the state is persisted. */
  datatype Saved = Saved(live: map<string, Entry>, next: nat, recorded: set<Binding>)

  /** `handed` are indices that handlers hold but have not recorded yet. */
  datatype State = State(live: map<string, Entry>, next: nat, handed: set<Binding>, recorded: set<Binding>, saved: seq<Saved>)

  const STARTED := State(map[], 1, {}, {}, [])

  datatype Step =
    | Request(identity: string, now: int)
    | Record(binding: Binding)
    | Cleanup(now: int, ttl: int)
    | Persist
    | Restore(k: nat)

  predicate Enabled(st: State, step: Step) {
    match step
    case Record(binding) => binding in st.handed
    case Restore(k) => k < |st.saved|
    case _ => true
  }

  /** `getElementIndex`. */
  function OnRequest(st: State, identity: string, now: int): State {
    if identity in st.live then
      var index := st.live[identity].index;
      st.(live := st.live[identity := Entry(index, now)], handed := st.handed + {Binding(index, identity)})
    else
      st.(live := st.live[identity := Entry(st.next, now)], next := st.next + 1, handed := st.handed + {Binding(st.next, identity)})
  }

  /** `cleanupSelectorIndex`. */
  function Kept(live: map<string, Entry>, now: int, ttl: int): map<string, Entry> {
    map id | id in live && now - live[id].lastUsedAt <= ttl :: live[id]
  }

  function Apply(st: State, step: Step): State
    requires Enabled(st, step)
  {
    match step
    case Request(identity, now) => OnRequest(st, identity, now)
    case Record(binding) => st.(recorded := st.recorded + {binding})
    case Cleanup(now, ttl) => st.(live := Kept(st.live, now, ttl))
    case Persist => st.(saved := st.saved + [Saved(st.live, st.next, st.recorded)])
    case Restore(k) =>
      var s := st.saved[k];
      State(s.live, s.next, {}, s.recorded, st.saved)
  }

  predicate Possible(st: State, steps: seq<Step>)
    decreases |steps|
  {
    steps == [] || (Enabled(st, steps[0]) && Possible(Apply(st, steps[0]), steps[1..]))
  }

  function Run(st: State, steps: seq<Step>): State
    requires Possible(st, steps)
    decreases |steps|
  {
    if steps == [] then st else Run(Apply(st, steps[0]), steps[1..])
  }

  // ---------- one index, one identity ----------

  function Bindings(live: map<string, Entry>): set<Binding> { set id | id in live :: Binding(live[id].index, id) }

  predicate Functional(bindings: set<Binding>) { forall a, b | a in bindings && b in bindings && a.index == b.index :: a == b }

  predicate Below(bindings: set<Binding>, next: nat) { forall b | b in bindings :: b.index < next }

  function All(st: State): set<Binding> { Bindings(st.live) + st.handed + st.recorded }

  predicate SavedGood(s: Saved) {
    Functional(Bindings(s.live) + s.recorded) && Below(Bindings(s.live) + s.recorded, s.next)
  }

  predicate Good(st: State) {
    && Functional(All(st)) && Below(All(st), st.next)
    && forall s | s in st.saved :: SavedGood(s)
  }

  lemma FewerGood(few: set<Binding>, many: set<Binding>, next: nat)
    requires few <= many && Functional(many) && Below(many, next)
    ensures Functional(few) && Below(few, next)
  {
  }

  lemma RequestGood(st: State, identity: string, now: int)
    requires Good(st)
    ensures Good(OnRequest(st, identity, now))
  {
    var next := OnRequest(st, identity, now);
    var given := Binding(next.live[identity].index, identity);
    forall b | b in Bindings(next.live) ensures b in Bindings(st.live) + {given} {
      assert b.identity != identity ==> b.identity in st.live;
    }
    if identity in st.live {
      assert given in Bindings(st.live);
      FewerGood(All(next), All(st), st.next);
    } else {
      FewerGood(All(next), All(st) + {given}, next.next);
    }
  }

  lemma CleanupGood(st: State, now: int, ttl: int)
    requires Good(st)
    ensures Good(Apply(st, Cleanup(now, ttl)))
  {
    var next := Apply(st, Cleanup(now, ttl));
    forall b | b in Bindings(next.live) ensures b in Bindings(st.live) {
      assert b.identity in st.live;
    }
    FewerGood(All(next), All(st), st.next);
  }

  lemma StepGood(st: State, step: Step)
    requires Good(st) && Enabled(st, step)
    ensures Good(Apply(st, step))
  {
    match step
    case Request(identity, now) => RequestGood(st, identity, now);
    case Record(binding) => FewerGood(All(Apply(st, step)), All(st), st.next);
    case Cleanup(now, ttl) => CleanupGood(st, now, ttl);
    case Persist =>
      FewerGood(Bindings(st.live) + st.recorded, All(st), st.next);
    case Restore(k) =>
      var s := st.saved[k];
      assert s in st.saved;
      assert All(Apply(st, step)) == Bindings(s.live) + s.recorded;
  }

  lemma {:induction false} RunGood(st: State, steps: seq<Step>)
    requires Good(st) && Possible(st, steps)
    ensures Good(Run(st, steps))
    decreases |steps|
  {
    if steps != [] {
      StepGood(st, steps[0]);
      RunGood(Apply(st, steps[0]), steps[1..]);
    }
  }

  /** Over any run of requests, expiries, persists and restores: known elements have different indices, all below
      the next one, and an index that is in the recording belongs to no other element, whether that element was
      forgotten in between or not. */
  lemma IndicesAreNeverReused(steps: seq<Step>, a: string, b: string)
    requires Possible(STARTED, steps)
    ensures
      var st := Run(STARTED, steps);
      && (a in st.live ==> st.live[a].index < st.next)
      && (a in st.live && b in st.live && a != b ==> st.live[a].index != st.live[b].index)
      && (forall r | r in st.recorded && a in st.live && r.index == st.live[a].index :: r.identity == a)
      && (forall r, s | r in st.recorded && s in st.recorded && r.index == s.index :: r.identity == s.identity)
  {
    RunGood(STARTED, steps);
    var st := Run(STARTED, steps);
    if a in st.live {
      assert Binding(st.live[a].index, a) in All(st);
    }
    if b in st.live {
      assert Binding(st.live[b].index, b) in All(st);
    }
  }

  /** Entries of an element from here on have indices that were free here. */
  predicate NewFor(st: State, identity: string, free: nat) {
    free <= st.next && (identity in st.live ==> free <= st.live[identity].index)
  }

  lemma {:induction false} NewForRun(st: State, steps: seq<Step>, identity: string, free: nat)
    requires Possible(st, steps) && NewFor(st, identity, free)
    requires forall s | s in steps :: !s.Restore?
    ensures NewFor(Run(st, steps), identity, free)
    decreases |steps|
  {
    if steps != [] {
      assert steps[0] in steps && NewFor(Apply(st, steps[0]), identity, free);
      NewForRun(Apply(st, steps[0]), steps[1..], identity, free);
    }
  }

  /** An element that was forgotten never gets its index back, nor any other that was in use by then, whatever is
      requested, recorded, forgotten and persisted afterwards, as long as no older copy is restored. */
  lemma ForgottenGetsNewIndex(st: State, identity: string, now: int, ttl: int, steps: seq<Step>)
    requires Good(st) && identity in st.live && now - st.live[identity].lastUsedAt > ttl
    requires Possible(Apply(st, Cleanup(now, ttl)), steps) && forall s | s in steps :: !s.Restore?
    ensures
      var later := Run(Apply(st, Cleanup(now, ttl)), steps);
      identity in later.live ==> later.live[identity].index >= st.next > st.live[identity].index
  {
    assert Binding(st.live[identity].index, identity) in All(st);
    NewForRun(Apply(st, Cleanup(now, ttl)), steps, identity, st.next);
  }

  // ---------- an index lasts ----------

  /** A request gives a known element the index it has, and any other the next free one; no other entry changes. */
  lemma RequestAnswers(st: State, identity: string, now: int)
    ensures
      var next := Apply(st, Request(identity, now));
      && next.live.Keys == st.live.Keys + {identity} && next.live[identity].lastUsedAt == now
      && (forall other | other in st.live && other != identity :: next.live[other] == st.live[other])
      && Binding(next.live[identity].index, identity) in next.handed
      && (if identity in st.live then next.live[identity].index == st.live[identity].index && next.next == st.next
          else next.live[identity].index == st.next && next.next == st.next + 1)
  {
  }

  /** A cleanup forgets exactly the elements that were not used for longer than the time to live; the others keep their
      entries. */
  lemma CleanupForgets(st: State, now: int, ttl: int, identity: string)
    ensures
      var next := Apply(st, Cleanup(now, ttl));
      && (identity in next.live <==> identity in st.live && now <= st.live[identity].lastUsedAt + ttl)
      && (identity in next.live ==> next.live[identity] == st.live[identity])
      && next == st.(live := next.live)
  {
  }

  /** From the moment the element was last requested, no cleanup comes later than the time to live allows, and no older
      copy is restored. */
  predicate InUse(steps: seq<Step>, identity: string, last: int)
    decreases |steps|
  {
    steps == [] ||
    match steps[0]
    case Request(id, now) => InUse(steps[1..], identity, if id == identity then now else last)
    case Cleanup(now, ttl) => now - last <= ttl && InUse(steps[1..], identity, last)
    case Restore(_) => false
    case _ => InUse(steps[1..], identity, last)
  }

  lemma {:induction false} InUseKeepsIndex(st: State, identity: string, steps: seq<Step>)
    requires identity in st.live && Possible(st, steps) && InUse(steps, identity, st.live[identity].lastUsedAt)
    ensures identity in Run(st, steps).live && Run(st, steps).live[identity].index == st.live[identity].index
    decreases |steps|
  {
    if steps != [] {
      if steps[0].Request? {
        RequestAnswers(st, steps[0].identity, steps[0].now);
      } else if steps[0].Cleanup? {
        CleanupForgets(st, steps[0].now, steps[0].ttl, identity);
      }
      InUseKeepsIndex(Apply(st, steps[0]), identity, steps[1..]);
    }
  }

  /** Two requests for one element give the same index, over any run between them in which it stays in use: whatever is
      requested, recorded, forgotten and persisted. */
  lemma IndexLasts(st: State, identity: string, first: int, steps: seq<Step>, second: int)
    requires Possible(Apply(st, Request(identity, first)), steps) && InUse(steps, identity, first)
    ensures
      var given := Apply(st, Request(identity, first));
      Apply(Run(given, steps), Request(identity, second)).live[identity].index == given.live[identity].index
  {
    RequestAnswers(st, identity, first);
    var given := Apply(st, Request(identity, first));
    InUseKeepsIndex(given, identity, steps);
    RequestAnswers(Run(given, steps), identity, second);
  }

  // ---------- persisted copies ----------

  lemma {:induction false} CopiesStay(st: State, steps: seq<Step>)
    requires Possible(st, steps)
    ensures st.saved <= Run(st, steps).saved
    decreases |steps|
  {
    if steps != [] {
      CopiesStay(Apply(st, steps[0]), steps[1..]);
    }
  }

  /** Whatever happens after a copy is persisted, restoring it brings back the table, the counter and the recorded
      indices of that moment. */
  lemma RestoreBringsBack(st: State, steps: seq<Step>)
    requires Possible(Apply(st, Persist), steps)
    ensures
      var later := Run(Apply(st, Persist), steps);
      && |st.saved| < |later.saved|
      && var back := Apply(later, Restore(|st.saved|));
         back.live == st.live && back.next == st.next && back.recorded == st.recorded && back.saved == later.saved
  {
    CopiesStay(Apply(st, Persist), steps);
  }

  /** A recorded index stays recorded until a copy is restored. */
  lemma {:induction false} RecordedStays(st: State, binding: Binding, steps: seq<Step>)
    requires binding in st.handed && Possible(Apply(st, Record(binding)), steps) && forall s | s in steps :: !s.Restore?
    ensures binding in Run(Apply(st, Record(binding)), steps).recorded
  {
    RecordedOnlyGrows(Apply(st, Record(binding)), steps);
  }

  lemma {:induction false} RecordedOnlyGrows(st: State, steps: seq<Step>)
    requires Possible(st, steps) && forall s | s in steps :: !s.Restore?
    ensures st.recorded <= Run(st, steps).recorded
    decreases |steps|
  {
    if steps != [] {
      assert steps[0] in steps;
      RecordedOnlyGrows(Apply(st, steps[0]), steps[1..]);
    }
  }

  // ---------- merging two copies ----------

  /** The part of a remote table that a merge takes over. */
  function Taken(local: map<string, Entry>, remote: map<string, Entry>): map<string, Entry> {
    map id | id in remote && id !in local :: remote[id]
  }

  /** The merge of the allocator, with the recorded indices of the events and snapshots it brings. */
  function MergeIn(st: State, remote: Saved): State {
    st.(live := st.live + Taken(st.live, remote.live), next := if remote.next > st.next then remote.next else st.next,
        recorded := st.recorded + remote.recorded)
  }

  /** No index that is brought in is in use for another element. */
  predicate NoCollision(st: State, remote: Saved) {
    forall r, b | r in Bindings(Taken(st.live, remote.live)) + remote.recorded && b in All(st)
        && r.index == b.index :: r == b
  }

  lemma MergedBindings(st: State, remote: Saved)
    ensures All(MergeIn(st, remote)) == All(st) + (Bindings(Taken(st.live, remote.live)) + remote.recorded)
  {
    var merged, taken := MergeIn(st, remote).live, Taken(st.live, remote.live);
    forall b ensures b in Bindings(merged) <==> b in Bindings(st.live) + Bindings(taken) {
      if b in Bindings(merged) {
        assert b.identity in merged && merged[b.identity].index == b.index;
      }
      if b in Bindings(st.live) + Bindings(taken) {
        assert b.identity in merged && merged[b.identity].index == b.index;
      }
    }
  }

  /** The page keeps every entry of its own, takes over those of elements it does not know, and goes on from the higher
      counter. */
  lemma MergeKeepsLocal(st: State, remote: Saved, identity: string)
    ensures
      var merged := MergeIn(st, remote);
      && (identity in merged.live <==> identity in st.live || identity in remote.live)
      && (identity in st.live ==> merged.live[identity] == st.live[identity])
      && (identity in remote.live && identity !in st.live ==> merged.live[identity] == remote.live[identity])
      && merged.next >= st.next && merged.next >= remote.next && merged.next in {st.next, remote.next}
  {
  }

  /** A merge keeps one identity per index exactly when nothing collides; the next index is always high enough. */
  lemma MergeKeepsIndicesWhen(st: State, remote: Saved)
    requires Good(st) && SavedGood(remote)
    ensures Functional(All(MergeIn(st, remote))) <==> NoCollision(st, remote)
    ensures Below(All(MergeIn(st, remote)), MergeIn(st, remote).next)
  {
    var brought := Bindings(Taken(st.live, remote.live)) + remote.recorded;
    MergedBindings(st, remote);
    assert brought <= Bindings(remote.live) + remote.recorded by {
      forall b | b in Bindings(Taken(st.live, remote.live)) ensures b in Bindings(remote.live) {
        assert b.identity in remote.live;
      }
    }
  }

  /** Two copies of one recording that each meet a new element give it the same index; merging them makes that
      index ambiguous. */
  lemma DivergedCopiesCollide(st: State, a: string, b: string, now: int)
    requires Good(st) && a != b && a !in st.live && b !in st.live
    ensures
      var mine, other := OnRequest(st, a, now), OnRequest(st, b, now);
      var remote := Saved(other.live, other.next, other.recorded);
      && Good(mine) && SavedGood(remote) && !Functional(All(MergeIn(mine, remote)))
  {
    var mine, other := OnRequest(st, a, now), OnRequest(st, b, now);
    var remote := Saved(other.live, other.next, other.recorded);
    RequestGood(st, a, now);
    RequestGood(st, b, now);
    FewerGood(Bindings(other.live) + other.recorded, All(other), other.next);
    MergeKeepsIndicesWhen(mine, remote);
    var taken := Taken(mine.live, remote.live);
    assert b in taken && Binding(st.next, b) in Bindings(taken) && Binding(st.next, a) in All(mine);
  }

  // ---------- the recorder's own form ----------

  /** The table and counter that handlers, the cleanup timer and the storage share. */
  class Allocator {
    var selectorToIndex: map<string, Entry>
    var nextIndex: nat
    ghost var handed: set<Binding>
    ghost var recorded: set<Binding>
    ghost var saved: seq<Saved>

    ghost function View(): State
      reads this
    {
      State(selectorToIndex, nextIndex, handed, recorded, saved)
    }

    constructor ()
      ensures View() == STARTED
    {
      selectorToIndex, nextIndex := map[], 1;
      handed, recorded, saved := {}, {}, [];
    }

    method GetElementIndex(identity: string, now: int) returns (index: nat)
      modifies this
      ensures View() == OnRequest(old(View()), identity, now) && index == selectorToIndex[identity].index
    {
      if identity in selectorToIndex {
        index := selectorToIndex[identity].index;
        selectorToIndex := selectorToIndex[identity := Entry(index, now)];
      } else {
        index := nextIndex;
        nextIndex := nextIndex + 1;
        selectorToIndex := selectorToIndex[identity := Entry(index, now)];
      }
      handed := handed + {Binding(index, identity)};
    }

    /** The cleanup timer: entries are looked at in any order. */
    method CleanupSelectorIndex(now: int, ttl: int)
      modifies this`selectorToIndex
      ensures View() == Apply(old(View()), Cleanup(now, ttl))
    {
      var table := selectorToIndex;
      var remaining := table.Keys;
      while remaining != {}
        invariant remaining <= table.Keys
        invariant forall id ::
                    id in selectorToIndex <==> id in table && (id in remaining || now - table[id].lastUsedAt <= ttl)
        invariant forall id | id in selectorToIndex :: selectorToIndex[id] == table[id]
        decreases remaining
      {
        var id :| id in remaining;
        remaining := remaining - {id};
        if now - table[id].lastUsedAt > ttl {
          selectorToIndex := selectorToIndex - {id};
        }
      }
      assert selectorToIndex == Kept(table, now, ttl);
    }

    /** The allocator's part of the merge with a background checkpoint: the table stays as it is when the checkpoint
        has no event and no snapshot that the page lacks. */
    method AdoptRemote(anyMissing: bool, remoteTable: map<string, Entry>, remoteNext: nat,
        ghost remoteRecorded: set<Binding>)
      modifies this
      ensures View() == if anyMissing then MergeIn(old(View()), Saved(remoteTable, remoteNext, remoteRecorded))
                        else old(View())
    {
      if !anyMissing {
        return;
      }
      var table := selectorToIndex;
      var remaining := remoteTable.Keys;
      while remaining != {}
        invariant remaining <= remoteTable.Keys
        invariant View() == old(View()).(live := selectorToIndex)
        invariant forall id :: id in selectorToIndex <==> id in table || (id in remoteTable && id !in remaining)
        invariant forall id | id in selectorToIndex :: selectorToIndex[id] == if id in table then table[id] else remoteTable[id]
        decreases remaining
      {
        var id :| id in remaining;
        remaining := remaining - {id};
        if id !in selectorToIndex {
          selectorToIndex := selectorToIndex[id := remoteTable[id]];
        }
      }
      assert selectorToIndex == table + Taken(table, remoteTable);
      if remoteNext > nextIndex {
        nextIndex := remoteNext;
      }
      recorded := recorded + remoteRecorded;
    }
  }
}
