/**
 Whether a list of snapshots still expands after `adoptNewerBackgroundCheckpoint`
 (extension/src/content.ts:836-850) put those of another copy of the recording between its own, by their time.
 */
module MergedSnapshots {
  import opened Wrappers
  import opened JsonPatch
  import opened SnapshotDelta
  import opened SnapshotExpansion
  import opened SnapshotStore
  import Checkpoints = CheckpointMerge

  function Time(e: Pair): int { e.stored.position.timestamp }

  /** A snapshot of the other copy is adopted when it is not final and no own snapshot is of the same moment. */
  predicate Adopted(mine: seq<Pair>, e: Pair) { !IsFinal(e.stored) && forall f | f in mine :: Time(f) != Time(e) }

  ghost predicate Merges(mine: seq<Pair>, theirs: seq<Pair>, merged: seq<Pair>) {
    forall e :: e in merged <==> e in mine || (e in theirs && Adopted(mine, e))
  }

  /** Where both copies use a number they mean the same snapshot, stored in the same way. */
  ghost predicate Agree(mine: seq<Pair>, theirs: seq<Pair>) {
    forall e, f | e in mine && f in theirs && e.stored.sequence == f.stored.sequence ::
      e.pushed == f.pushed && e.stored.body.Ref? == f.stored.body.Ref? && e.stored.body.Plain? == f.stored.body.Plain?
  }

  lemma SupportCarries(f: Pair, g: Pair, e: Pair)
    requires Matched(e) && Matched(f) && Matched(g) && Supports(f, e)
    requires f.pushed == g.pushed
    requires f.stored.body.Ref? == g.stored.body.Ref? && f.stored.body.Plain? == g.stored.body.Plain?
    ensures Supports(g, e)
  {
  }

  /** What a snapshot names in its own copy supports it, and so does the other copy's snapshot of that number. */
  lemma NamedSupports(own: seq<Pair>, other: seq<Pair>, e: Pair, g: Pair)
    requires Sound(own) && Sound(other) && e in own && (g in own || g in other)
    requires Agree(own, other) && Target(e.stored) == Some(g.stored.sequence)
    ensures Supports(g, e)
  {
    TargetOccurs(own, e);
    var f :| f in own && f.stored.sequence == g.stored.sequence;
    if g in other {
      SupportCarries(f, g, e);
    }
  }

  lemma AgreeBothWays(mine: seq<Pair>, theirs: seq<Pair>)
    requires Agree(mine, theirs)
    ensures Agree(theirs, mine)
  {
  }

  lemma MergedLinked(mine: seq<Pair>, theirs: seq<Pair>, merged: seq<Pair>)
    requires Sound(mine) && Sound(theirs) && Agree(mine, theirs) && Merges(mine, theirs, merged)
    ensures AllMatched(merged) && Linked(merged)
  {
    AgreeBothWays(mine, theirs);
    forall e, g | e in merged && g in merged && Target(e.stored) == Some(g.stored.sequence) ensures Supports(g, e) {
      if e in mine {
        NamedSupports(mine, theirs, e, g);
      } else {
        NamedSupports(theirs, mine, e, g);
      }
    }
  }

  predicate InTime(merged: seq<Pair>) { forall i, j | 0 <= i < j < |merged| :: Time(merged[i]) < Time(merged[j]) }

  predicate NamesEarlier(merged: seq<Pair>, e: Pair) {
    Target(e.stored).Some? ==>
      exists f | f in merged :: f.stored.sequence == Target(e.stored).value && Time(f) < Time(e)
  }

  lemma InTimeSplits(es: seq<Pair>, e: Pair)
    requires InTime(es + [e])
    ensures InTime(es) && forall f | f in es :: Time(f) < Time(e)
  {
    assert (es + [e])[|es|] == e;
    assert forall i | 0 <= i < |es| :: (es + [e])[i] == es[i];
  }

  lemma EarlierIsBefore(es: seq<Pair>, e: Pair, f: Pair)
    requires InTime(es + [e])
    requires f in es + [e]
    ensures NamesEarlier(es + [e], f) <==> NamesEarlier(es, f)
  {
    InTimeSplits(es, e);
    Appended(es, e);
  }

  lemma LastInTime(es: seq<Pair>, e: Pair)
    requires InTime(es + [e])
    ensures Backward(es + [e]) <==> Backward(es) && NamesEarlier(es, e)
  {
    InTimeSplits(es, e);
    assert (es + [e])[..|es|] == es;
  }

  /** In a list in the order of time, pointing back is naming something of an earlier moment. */
  lemma {:induction false} BackwardInTime(es: seq<Pair>)
    requires InTime(es)
    ensures Backward(es) <==> forall e | e in es :: NamesEarlier(es, e)
  {
    if es != [] {
      var init, last := es[..|es| - 1], es[|es| - 1];
      assert init + [last] == es;
      InTimeSplits(init, last);
      Appended(init, last);
      BackwardInTime(init);
      forall e | e in es ensures NamesEarlier(es, e) <==> NamesEarlier(init, e) {
        EarlierIsBefore(init, last, e);
      }
      LastInTime(init, last);
      assert (forall e | e in es :: NamesEarlier(es, e))
        <==> NamesEarlier(init, last) && forall e | e in init :: NamesEarlier(init, e);
    }
  }

  /** When the numbers of the two copies agree, and none is used twice in the merged list, the list in the order of
      time expands exactly when no patch has a refused path and every snapshot named is there, of an earlier
      moment; and then each snapshot is restored. */
  lemma MergedExpandsWhen(mine: seq<Pair>, theirs: seq<Pair>, merged: seq<Pair>)
    requires Sound(mine) && Sound(theirs) && Agree(mine, theirs)
    requires Merges(mine, theirs, merged) && Unrepeated(merged) && InTime(merged)
    ensures
      var r := ExpandUpTo(Wires(StoredOf(merged)));
      && (r.Ok? <==> (forall e | e in merged :: NamesEarlier(merged, e)) && StoredIntact(StoredOf(merged)))
      && (r.Ok? ==> |r.value.out| == |merged|
                    && forall i | 0 <= i < |merged| :: Matched(merged[i]) && Restored(r.value.out[i], merged[i].pushed))
  {
    MergedLinked(mine, theirs, merged);
    BackwardInTime(merged);
    StoredIntactIs(merged);
    ExpansionRestores(merged);
    forall i | 0 <= i < |merged| ensures Matched(merged[i]) {
      assert merged[i] in merged;
    }
  }

  // ---------- any list, whatever its numbers mean ----------

  /** The latest snapshot of this number that others may be expanded from. */
  function LatestBearing(es: seq<Pair>, number: int): Option<Pair> {
    if es == [] then None
    else
      var last := es[|es| - 1];
      if Bears(last) && last.stored.sequence == number then Some(last) else LatestBearing(es[..|es| - 1], number)
  }

  /** What a patch makes of content. */
  function PatchedFields(delta: Delta, base: Fields): Option<Fields> {
    match ApplyJsonPatch(Patchable(base), delta.patch)
    case Err(_) => None
    case Ok(doc) => Some(Overlay(NO_CONTENT, FieldsOf(doc)))
  }

  /** Expanded from the content of `f`, the snapshot is what was pushed. */
  predicate Yields(f: Pair, e: Pair)
    requires f.pushed.body.Plain? && e.pushed.body.Plain?
  {
    match e.stored.body
    case Plain(_) => true
    case Ref(_) => SameContent(f.pushed.body.content, e.pushed.body.content)
    case Patched(delta) =>
      PatchedFields(delta, WireFields(f.pushed.body.content)) == Some(WireFields(e.pushed.body.content))
  }

  predicate Resolves(before: seq<Pair>, e: Pair)
    requires e.pushed.body.Plain?
  {
    Target(e.stored).Some? ==>
      var found := LatestBearing(before, Target(e.stored).value);
      found.Some? && found.value.pushed.body.Plain? && Yields(found.value, e)
  }

  /** Each snapshot that names a number follows one that it can be expanded from, the latest of that number. */
  ghost predicate AllResolve(es: seq<Pair>)
    requires AllMatched(es)
  {
    es == [] ||
    (var init, last := es[..|es| - 1], es[|es| - 1];
     assert last in es;
     AllResolve(init) && Resolves(init, last))
  }

  /** The expanded snapshot is the one that was pushed; a patched one in every field. */
  predicate RestoredAs(w: WireSnapshot, e: Pair)
    requires e.pushed.body.Plain?
  {
    Restored(w, e.pushed) && (e.stored.body.Patched? ==> w.fields == WireFields(e.pushed.body.content))
  }

  /** The loop got through the list, and every snapshot is the one that was pushed. */
  ghost predicate RestoresAll(es: seq<Pair>)
    requires AllMatched(es)
  {
    var r := ExpandUpTo(SerialiseAll(es));
    r.Ok? && OutRestored(r.value.out, es)
  }

  ghost predicate OutRestored(out: seq<WireSnapshot>, es: seq<Pair>)
    requires AllMatched(es)
  {
    |out| == |es| && forall i | 0 <= i < |es| :: (assert es[i] in es; RestoredAs(out[i], es[i]))
  }

  ghost predicate LatestContent(content: map<int, Fields>, es: seq<Pair>) {
    && (forall q | q in content :: LatestBearing(es, q).Some? && ContentOfPair(LatestBearing(es, q).value) == Some(content[q]))
    && (forall q: int :: LatestBearing(es, q).Some? ==> q in content)
  }

  function ContentOfPair(e: Pair): Option<Fields> {
    if e.pushed.body.Plain? then Some(WireFields(e.pushed.body.content)) else None
  }

  lemma LatestAppended(es: seq<Pair>, e: Pair, number: int)
    ensures LatestBearing(es + [e], number)
            == if Bears(e) && e.stored.sequence == number then Some(e) else LatestBearing(es, number)
  {
    assert (es + [e])[..|es|] == es;
  }

  lemma {:induction false} LatestBears(es: seq<Pair>, number: int)
    ensures LatestBearing(es, number).Some? ==>
              var f := LatestBearing(es, number).value; f in es && Bears(f) && f.stored.sequence == number
  {
    if es != [] {
      LatestBears(es[..|es| - 1], number);
    }
  }

  lemma LatestStays(content: map<int, Fields>, es: seq<Pair>, e: Pair)
    requires LatestContent(content, es) && !Bears(e)
    ensures LatestContent(content, es + [e])
  {
    forall q: int ensures LatestBearing(es + [e], q) == LatestBearing(es, q) {
      LatestAppended(es, e, q);
    }
  }

  lemma LatestGrows(content: map<int, Fields>, es: seq<Pair>, e: Pair)
    requires LatestContent(content, es) && Bears(e)
    ensures LatestContent(content[e.stored.sequence := WireFields(e.pushed.body.content)], es + [e])
  {
    forall q: int ensures LatestBearing(es + [e], q) == if e.stored.sequence == q then Some(e) else LatestBearing(es, q) {
      LatestAppended(es, e, q);
    }
  }

  lemma LatestIs(content: map<int, Fields>, es: seq<Pair>, q: int)
    requires AllMatched(es) && LatestContent(content, es)
    ensures q in content <==> LatestBearing(es, q).Some?
    ensures LatestBearing(es, q).Some? ==>
              var f := LatestBearing(es, q).value;
              Matched(f) && Bears(f) && q >= 0 && content[q] == WireFields(f.pushed.body.content)
  {
    LatestBears(es, q);
  }

  /** A reference, expanded from the latest bearer of its number. */
  lemma RefResolves(p: Progress, es: seq<Pair>, e: Pair)
    requires AllMatched(es) && Matched(e) && e.stored.body.Ref? && LatestContent(p.content, es)
    ensures
      var r := ExpandNext(p, Serialise(e.stored));
      && (r.Ok? && RestoredAs(r.value.out[|r.value.out| - 1], e) <==> Resolves(es, e))
      && (r.Ok? ==> r.value.content == p.content)
  {
    var q := e.stored.body.target;
    LatestIs(p.content, es, q);
    if LatestBearing(es, q).Some? {
      RefRestoredWhen(LatestBearing(es, q).value, e);
    }
  }

  lemma RefRestoredWhen(f: Pair, e: Pair)
    requires Matched(f) && Bears(f) && Matched(e) && e.stored.body.Ref?
    ensures
      var w := Serialise(e.stored).(fields := Overlay(NO_CONTENT, WireFields(f.pushed.body.content)), ref := None);
      Restored(w, e.pushed) <==> SameContent(f.pushed.body.content, e.pushed.body.content)
  {
    RefOverlay(f);
  }

  lemma RefOverlay(f: Pair)
    requires Matched(f) && Bears(f)
    ensures Overlay(NO_CONTENT, WireFields(f.pushed.body.content)) == WireFields(f.pushed.body.content)
  {
  }

  lemma DeltaFound(p: Progress, f: Pair, e: Pair)
    requires Matched(f) && Bears(f) && Matched(e) && e.stored.body.Patched?
    requires
      var q := e.stored.body.delta.base;
      q >= 0 && q in p.content && p.content[q] == WireFields(f.pushed.body.content)
    ensures
      var r := ExpandNext(p, Serialise(e.stored));
      && (r.Ok? && RestoredAs(r.value.out[|r.value.out| - 1], e) <==> Yields(f, e))
      && (Yields(f, e) ==>
            r.Ok? && r.value.content == p.content[e.stored.sequence := WireFields(e.pushed.body.content)])
  {
    FullIsRestored(e);
  }

  /** A delta, expanded from the latest bearer of its number. */
  lemma DeltaResolves(p: Progress, es: seq<Pair>, e: Pair)
    requires AllMatched(es) && Matched(e) && e.stored.body.Patched? && LatestContent(p.content, es)
    ensures
      var r := ExpandNext(p, Serialise(e.stored));
      && (r.Ok? && RestoredAs(r.value.out[|r.value.out| - 1], e) <==> Resolves(es, e))
      && (Resolves(es, e) ==>
            r.Ok? && r.value.content == p.content[e.stored.sequence := WireFields(e.pushed.body.content)])
  {
    var q := e.stored.body.delta.base;
    LatestIs(p.content, es, q);
    if LatestBearing(es, q).Some? {
      DeltaFound(p, LatestBearing(es, q).value, e);
    }
  }

  lemma FullIsRestored(e: Pair)
    requires Matched(e) && e.stored.body.Patched?
    ensures
      var w := Serialise(e.stored).(fields := WireFields(e.pushed.body.content), delta := None);
      Restored(w, e.pushed)
  {
  }

  lemma PlainResolves(p: Progress, es: seq<Pair>, e: Pair)
    requires Matched(e) && e.stored.body.Plain? && LatestContent(p.content, es)
    ensures
      var r := ExpandNext(p, Serialise(e.stored));
      && r.Ok? && r.value.out == p.out + [Serialise(e.stored)] && RestoredAs(Serialise(e.stored), e)
      && LatestContent(r.value.content, es + [e])
  {
    ExpandPlain(p, e);
    if Bears(e) {
      LatestGrows(p.content, es, e);
    } else {
      LatestStays(p.content, es, e);
    }
  }

  /** One more snapshot after a list that was restored. */
  lemma OneMoreResolves(p: Progress, es: seq<Pair>, e: Pair)
    requires AllMatched(es) && Matched(e) && LatestContent(p.content, es)
    ensures
      var r := ExpandNext(p, Serialise(e.stored));
      && (r.Ok? ==> |r.value.out| == |p.out| + 1)
      && (r.Ok? && RestoredAs(r.value.out[|p.out|], e) <==> Resolves(es, e))
      && (Resolves(es, e) ==> LatestContent(r.value.content, es + [e]))
  {
    OutGrows(p, Serialise(e.stored));
    match e.stored.body
    case Plain(_) => PlainResolves(p, es, e);
    case Ref(_) =>
      RefResolves(p, es, e);
      LatestStays(p.content, es, e);
    case Patched(_) =>
      DeltaResolves(p, es, e);
      LatestGrows(p.content, es, e);
  }

  lemma SplitMatched(es: seq<Pair>)
    requires AllMatched(es) && es != []
    ensures AllMatched(es[..|es| - 1]) && Matched(es[|es| - 1])
  {
    assert es[|es| - 1] in es;
  }

  lemma OutRestoredAppended(out: seq<WireSnapshot>, es: seq<Pair>, e: Pair)
    requires AllMatched(es) && Matched(e) && AllMatched(es + [e]) && |out| == |es| + 1
    ensures OutRestored(out, es + [e]) <==> OutRestored(out[..|es|], es) && RestoredAs(out[|es|], e)
  {
    assert (es + [e])[|es|] == e;
    forall i | 0 <= i < |es| ensures out[..|es|][i] == out[i] && (es + [e])[i] == es[i] && es[i] in es {
    }
    if OutRestored(out[..|es|], es) && RestoredAs(out[|es|], e) {
      forall i | 0 <= i < |es + [e]| ensures (es + [e])[i] in es + [e] && RestoredAs(out[i], (es + [e])[i]) {
        assert i < |es| ==> es[i] in es && RestoredAs(out[..|es|][i], es[i]);
      }
    }
    if OutRestored(out, es + [e]) {
      forall i | 0 <= i < |es + [e]| ensures (es + [e])[i] in es + [e] && RestoredAs(out[i], (es + [e])[i]) {
      }
    }
  }

  lemma RestoresLast(es: seq<Pair>, e: Pair)
    requires AllMatched(es) && Matched(e) && AllMatched(es + [e])
    ensures
      var r := ExpandUpTo(SerialiseAll(es));
      RestoresAll(es + [e])
      <==> && RestoresAll(es)
           && var next := ExpandNext(r.value, Serialise(e.stored)); next.Ok? && RestoredAs(next.value.out[|es|], e)
  {
    ExpandLast(es, e);
    OutLength(es);
    var r := ExpandUpTo(SerialiseAll(es));
    if r.Ok? {
      OutGrows(r.value, Serialise(e.stored));
      var next := ExpandNext(r.value, Serialise(e.stored));
      if next.Ok? {
        OutRestoredAppended(next.value.out, es, e);
      }
    }
  }

  lemma OutGrows(p: Progress, w: WireSnapshot)
    ensures
      var r := ExpandNext(p, w);
      r.Ok? ==> |r.value.out| == |p.out| + 1 && r.value.out[..|p.out|] == p.out
  {
  }

  lemma {:induction false} OutLength(es: seq<Pair>)
    ensures var r := ExpandUpTo(SerialiseAll(es)); r.Ok? ==> |r.value.out| == |es|
  {
    if es != [] {
      var init, last := es[..|es| - 1], es[|es| - 1];
      assert es == init + [last];
      OutLength(init);
      ExpandLast(init, last);
    }
  }

  /** Any list of snapshots, merged or not, whatever its numbers mean and however often one is used: expansion gives
      every snapshot back exactly when each one that names a number can be expanded from the latest
      content-bearing snapshot of that number before it. */
  lemma {:induction false} RestoresExactlyWhen(es: seq<Pair>)
    requires AllMatched(es)
    ensures RestoresAll(es) <==> AllResolve(es)
    ensures AllResolve(es) ==> LatestContent(ExpandUpTo(SerialiseAll(es)).value.content, es)
  {
    if es != [] {
      var init, last := es[..|es| - 1], es[|es| - 1];
      assert es == init + [last];
      SplitMatched(es);
      RestoresExactlyWhen(init);
      OutLength(init);
      var r := ExpandUpTo(SerialiseAll(init));
      RestoresLast(init, last);
      if AllResolve(init) {
        OneMoreResolves(r.value, init, last);
        ExpandLast(init, last);
      }
    }
  }

  /** A snapshot that was derived from what the latest bearer of its number was pushed with can be expanded from it. */
  lemma SupportResolves(before: seq<Pair>, e: Pair)
    requires AllMatched(before) && Matched(e) && Target(e.stored).Some?
    requires
      var found := LatestBearing(before, Target(e.stored).value);
      && found.Some? && Matched(found.value) && Supports(found.value, e)
      && (e.stored.body.Patched? ==> AllAddressed(e.stored.body.delta.patch))
    ensures Resolves(before, e)
  {
    var f := LatestBearing(before, Target(e.stored).value).value;
    LatestBears(before, Target(e.stored).value);
    if e.stored.body.Patched? {
      DeltaExpands(e.stored.body.delta, f.pushed.body.content, e.pushed.body.content);
      FieldsReadBack(WireFields(e.pushed.body.content));
    }
  }

  // ---------- the merge of two checkpoints ----------

  /** The items that a merge handles stand for these snapshots. */
  predicate Describes(pairs: seq<Pair>, items: seq<Checkpoints.Item>) {
    forall x | x in items ::
      && 0 <= x.body < |pairs| && Time(pairs[x.body]) == x.timestamp
      && (x.kind == "final" <==> IsFinal(pairs[x.body].stored))
  }

  function PairsOf(pairs: seq<Pair>, items: seq<Checkpoints.Item>): (r: seq<Pair>)
    requires Describes(pairs, items)
    ensures |r| == |items|
  {
    seq(|items|, i requires 0 <= i < |items| => (assert items[i] in items; pairs[items[i].body]))
  }

  lemma PairsAre(pairs: seq<Pair>, items: seq<Checkpoints.Item>, e: Pair)
    requires Describes(pairs, items)
    ensures e in PairsOf(pairs, items) <==> exists x | x in items :: pairs[x.body] == e
  {
    var ps := PairsOf(pairs, items);
    if e in ps {
      var i :| 0 <= i < |ps| && ps[i] == e;
      assert items[i] in items && pairs[items[i].body] == e;
    }
    if x :| x in items && pairs[x.body] == e {
      var i :| 0 <= i < |items| && items[i] == x;
      assert ps[i] == e;
    }
  }

  /** The key of a snapshot is its moment. */
  lemma AdoptedIsMissing(pairs: seq<Pair>, local: seq<Checkpoints.Item>, x: Checkpoints.Item)
    requires Describes(pairs, local) && Describes(pairs, [x])
    ensures
      Adopted(PairsOf(pairs, local), pairs[x.body])
      <==> Checkpoints.Eligible(Checkpoints.Snapshots, x) && !Checkpoints.HasKey(Checkpoints.Snapshots, local, x)
  {
    assert x in [x];
    var mine, e := PairsOf(pairs, local), pairs[x.body];
    if y :| y in local && Checkpoints.SameKey(Checkpoints.Snapshots, y, x) {
      PairsAre(pairs, local, pairs[y.body]);
      assert pairs[y.body] in mine && Time(pairs[y.body]) == Time(e);
    }
    if f :| f in mine && Time(f) == Time(e) {
      PairsAre(pairs, local, f);
      var y :| y in local && pairs[y.body] == f;
      assert Checkpoints.SameKey(Checkpoints.Snapshots, y, x);
    }
  }

  lemma MergedAre(pairs: seq<Pair>, local: Checkpoints.Recording, remote: Checkpoints.Recording)
    requires Describes(pairs, local.snapshots) && Describes(pairs, remote.snapshots)
    ensures
      var merged := Checkpoints.Merge(local, remote).snapshots;
      && Describes(pairs, merged)
      && forall x :: x in merged
                     <==> || x in local.snapshots
                          || (x in remote.snapshots && Adopted(PairsOf(pairs, local.snapshots), pairs[x.body]))
  {
    Checkpoints.MergedElements(local, remote, Checkpoints.Snapshots);
    Checkpoints.MissingAre(Checkpoints.Snapshots, local.snapshots, remote.snapshots);
    forall x | x in remote.snapshots
      ensures Adopted(PairsOf(pairs, local.snapshots), pairs[x.body])
              <==> && Checkpoints.Eligible(Checkpoints.Snapshots, x)
                   && !Checkpoints.HasKey(Checkpoints.Snapshots, local.snapshots, x)
    {
      AdoptedIsMissing(pairs, local.snapshots, x);
    }
  }

  /** The merge of two checkpoints adopts exactly those snapshots, and when it changes anything it puts them in the
      order of time. */
  lemma MergeMerges(pairs: seq<Pair>, local: Checkpoints.Recording, remote: Checkpoints.Recording)
    requires Describes(pairs, local.snapshots) && Describes(pairs, remote.snapshots)
    ensures
      var merged := Checkpoints.Merge(local, remote).snapshots;
      && Describes(pairs, merged)
      && Merges(PairsOf(pairs, local.snapshots), PairsOf(pairs, remote.snapshots), PairsOf(pairs, merged))
      && (Checkpoints.Merge(local, remote) != local ==>
            forall i, j | 0 <= i < j < |merged| :: Time(PairsOf(pairs, merged)[i]) <= Time(PairsOf(pairs, merged)[j]))
  {
    var merged := Checkpoints.Merge(local, remote).snapshots;
    MergedAre(pairs, local, remote);
    var mine, theirs := PairsOf(pairs, local.snapshots), PairsOf(pairs, remote.snapshots);
    forall e ensures e in PairsOf(pairs, merged) <==> e in mine || (e in theirs && Adopted(mine, e)) {
      PairsAre(pairs, merged, e);
      PairsAre(pairs, local.snapshots, e);
      PairsAre(pairs, remote.snapshots, e);
    }
    if Checkpoints.Merge(local, remote) != local {
      Checkpoints.MergeIsStable(local, remote, Checkpoints.Snapshots, 0);
      forall i, j | 0 <= i < j < |merged|
        ensures Time(PairsOf(pairs, merged)[i]) <= Time(PairsOf(pairs, merged)[j]) {
        assert merged[i] in merged && merged[j] in merged;
      }
    }
  }

  /** When they do not agree, a number can mean another snapshot: a reference is expanded from whichever full
      snapshot of that number came last, silently. */
  lemma CoincidingNumbersMislead(theirs: Snapshot, mine: Snapshot, reference: Snapshot)
    requires theirs.body.Plain? && theirs.body.content.domTree != Undefined
    requires mine.body.Plain? && mine.body.content.domTree != Undefined && Captured(mine.body.content)
    requires mine.sequence == theirs.sequence >= 0 && reference.sequence >= 0
    requires reference.body == Ref(theirs.sequence)
    ensures
      var r := ExpandUpTo(Wires([theirs, mine, reference]));
      && r.Ok? && |r.value.out| == 3
      && r.value.out[2].fields == WireFields(mine.body.content)
  {
    var own := WireFields(mine.body.content);
    ExpandOneMore([], theirs);
    ExpandOneMore([theirs], mine);
    ExpandOneMore([theirs, mine], reference);
    assert [] + [theirs] == [theirs] && [theirs] + [mine] == [theirs, mine];
    assert [theirs, mine] + [reference] == [theirs, mine, reference];
    assert Wires([]) == [];
    assert Overlay(NO_CONTENT, own) == own;
  }

  lemma ExpandOneMore(list: seq<Snapshot>, s: Snapshot)
    ensures ExpandUpTo(Wires(list + [s]))
            == match ExpandUpTo(Wires(list)) case Err(m) => Err(m) case Ok(p) => ExpandNext(p, Serialise(s))
  {
    WiresLast(list, s);
  }
}
