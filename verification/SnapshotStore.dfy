/**
 The snapshot list of the recorder (extension/src/content.ts:437-447, 1129-1294, 895-910): captures take a
 sequence number, complete in any order, and are stored whole, as a reference, or as a delta; a recording
 can be resumed from its serialised form at any time.
 */
module SnapshotStore {
  import opened Wrappers
  import opened JsonPatch
  import opened SnapshotDelta
  import opened JsonStrip
  import opened SnapshotExpansion
  import opened SequenceNumbers

  /** `lastContentSnapshot`: texts are represented by the stripped values they spell. */
  datatype Baseline = Baseline(sequence: int, url: string, selectorMap: JsValue, domTree: JsValue, capture: JsValue)

  datatype DeltaBase = DeltaBase(sequence: int, content: JsValue)

  datatype Store =
    Store(next: nat, inFlight: set<int>, stored: seq<Snapshot>, last: Option<Baseline>, base: Option<DeltaBase>)

  const EMPTY := Store(0, {}, [], None, None)

  // ---------- one push ----------

  function OrEmpty(v: JsValue): JsValue { if v in {Undefined, Null} then Obj([], map[]) else v }

  function OrNull(v: JsValue): JsValue { if v == Undefined then Null else v }

  /** `rememberContentSnapshot`. */
  function Remember(sequence: int, url: string, c: Content): Baseline {
    Baseline(sequence, url, Strip(OrEmpty(c.selectorMap), RECTS), Strip(OrNull(c.domTree), {}), Strip(OrNull(c.capture), {}))
  }

  /** `snapshotContentEqualsBaseline`. */
  predicate EqualsBaseline(last: Option<Baseline>, url: string, c: Content) {
    last.Some? && last.value == Remember(last.value.sequence, url, c)
  }

  /** The delta tried before a candidate is stored whole. */
  function TryDelta(base: Option<DeltaBase>, c: Content, small: bool): Option<Delta> {
    if base.Some? then BuildSnapshotDelta(base.value.sequence, base.value.content, ContentOf(c), small) else None
  }

  /** `deduplicateSnapshot`, as the body that is stored for the candidate. */
  function StoredBody(st: Store, s: Snapshot, small: bool): Body
    requires s.body.Plain?
  {
    var c := s.body.content;
    if c.domTree == Undefined then s.body
    else if EqualsBaseline(st.last, s.url, c) then Ref(st.last.value.sequence)
    else
      match TryDelta(st.base, c, small)
      case Some(delta) => Patched(delta)
      case None => s.body
  }

  function Push(st: Store, s: Snapshot, small: bool): Store
    requires s.body.Plain?
  {
    var c, body := s.body.content, StoredBody(st, s, small);
    var pushed := st.(stored := st.stored + [s.(body := body)], inFlight := st.inFlight - {s.sequence});
    if c.domTree == Undefined || body.Ref? then pushed
    else if body.Patched? then pushed.(last := Some(Remember(s.sequence, s.url, c)))
    else pushed.(last := Some(Remember(s.sequence, s.url, c)), base := Some(DeltaBase(s.sequence, ContentOf(c))))
  }

  // ---------- resuming ----------

  /** A stored snapshot after its recording went through text. */
  function Reparsed(s: Snapshot): Snapshot {
    match s.body
    case Plain(c) => s.(body := Plain(Content(Strip(c.selectorMap, {}), Strip(c.domTree, {}), Strip(c.capture, {}))))
    case _ => s
  }

  function ReparsedAll(list: seq<Snapshot>): (r: seq<Snapshot>)
    ensures |r| == |list|
  {
    seq(|list|, i requires 0 <= i < |list| => Reparsed(list[i]))
  }

  function Numbers(list: seq<Snapshot>): (r: seq<int>)
    ensures |r| == |list|
  {
    seq(|list|, i requires 0 <= i < |list| => list[i].sequence)
  }

  function NextSequence(list: seq<Snapshot>): nat { NextNumber(Numbers(list)) }

  predicate Full(s: Snapshot) { s.body.Plain? && s.body.content.domTree != Undefined }

  /** The newest full snapshot. */
  function NewestFull(list: seq<Snapshot>): Option<Snapshot> {
    if list == [] then None
    else if Full(list[|list| - 1]) then Some(list[|list| - 1])
    else NewestFull(list[..|list| - 1])
  }

  /** `restorePersistedState` with `restoreSnapshotDedupBaseline`; captures of the previous document are lost. */
  function Resume(st: Store): Store {
    var list := ReparsedAll(st.stored);
    match NewestFull(list)
    case None => Store(NextSequence(list), {}, list, None, None)
    case Some(s) =>
      if s.body.Plain? then
        Store(NextSequence(list), {}, list, Some(Remember(s.sequence, s.url, s.body.content)),
              Some(DeltaBase(s.sequence, ContentOf(s.body.content))))
      else Store(NextSequence(list), {}, list, None, None)
  }

  // ---------- runs ----------

  datatype Step =
    | Reserve
    | Complete(sequence: int, url: string, position: Position, content: Content, small: bool)
    | Reload

  function Candidate(step: Step): (s: Snapshot)
    requires step.Complete?
    ensures s.body.Plain?
  {
    Snapshot(step.sequence, step.url, step.position, Plain(step.content))
  }

  /** A capture completes once, with what `captureSnapshot` can build. */
  ghost predicate Enabled(st: Store, step: Step) {
    step.Complete? ==> step.sequence in st.inFlight && Captured(step.content)
  }

  function Apply(st: Store, step: Step): Store {
    match step
    case Reserve => st.(next := st.next + 1, inFlight := st.inFlight + {st.next})
    case Complete(_, _, _, _, small) => Push(st, Candidate(step), small)
    case Reload => Resume(st)
  }

  function RunFrom(st: Store, steps: seq<Step>): Store {
    if steps == [] then st else Apply(RunFrom(st, steps[..|steps| - 1]), steps[|steps| - 1])
  }

  ghost predicate ReachableFrom(st: Store, steps: seq<Step>) {
    steps == []
    || (ReachableFrom(st, steps[..|steps| - 1]) && Enabled(RunFrom(st, steps[..|steps| - 1]), steps[|steps| - 1]))
  }

  function Run(steps: seq<Step>): Store { RunFrom(EMPTY, steps) }

  ghost predicate Reachable(steps: seq<Step>) { ReachableFrom(EMPTY, steps) }

  /** What was pushed, in the order of the pushes. */
  function Candidates(steps: seq<Step>): seq<Snapshot> {
    if steps == [] then []
    else
      var last := steps[|steps| - 1];
      Candidates(steps[..|steps| - 1]) + if last.Complete? then [Candidate(last)] else []
  }

  // ---------- the invariant ----------

  function StoredOf(es: seq<Pair>): (r: seq<Snapshot>)
    ensures |r| == |es|
  {
    seq(|es|, i requires 0 <= i < |es| => es[i].stored)
  }

  function PushedOf(es: seq<Pair>): (r: seq<Snapshot>)
    ensures |r| == |es|
  {
    seq(|es|, i requires 0 <= i < |es| => es[i].pushed)
  }

  /** The baseline remembers a copy of what some content-bearing snapshot was pushed with. */
  ghost predicate LastNames(last: Baseline, e: Pair) {
    Bears(e) && last.sequence == e.stored.sequence && last.url == e.pushed.url
    && exists copy: Content {:trigger CopyOf(copy, e.pushed.body.content)} ::
         CopyOf(copy, e.pushed.body.content) && last == Remember(e.stored.sequence, e.pushed.url, copy)
  }

  /** The delta base is a copy of what some full snapshot was pushed with. */
  ghost predicate BaseNames(base: DeltaBase, e: Pair) {
    Bears(e) && e.stored.body.Plain? && base.sequence == e.stored.sequence
    && exists copy: Content {:trigger CopyOf(copy, e.pushed.body.content)} ::
         CopyOf(copy, e.pushed.body.content) && base.content == ContentOf(copy)
  }

  ghost predicate BaselinesNamed(st: Store, es: seq<Pair>) {
    && (st.last.Some? ==> exists e | e in es :: LastNames(st.last.value, e))
    && (st.base.Some? ==> exists e | e in es :: BaseNames(st.base.value, e))
  }

  /** Sequence numbers are never handed out twice. */
  predicate Numbered(st: Store, es: seq<Pair>) {
    && (forall e | e in es :: 0 <= e.stored.sequence < st.next && e.stored.sequence !in st.inFlight)
    && (forall q | q in st.inFlight :: 0 <= q < st.next)
  }

  ghost predicate Sound(es: seq<Pair>) { AllMatched(es) && Unrepeated(es) && Linked(es) && Backward(es) }

  ghost predicate Inv(st: Store, es: seq<Pair>) {
    st.stored == StoredOf(es) && Sound(es) && Numbered(st, es) && BaselinesNamed(st, es)
  }

  // ---------- a push keeps it ----------

  lemma CopyOfItself(c: Content)
    requires Captured(c)
    ensures CopyOf(c, c)
  {
  }

  /** Content that compares equal as text is equal to a receiver, up to geometry. */
  lemma EqualTextSameContent(copy: Content, c: Content, sequence: int, url: string)
    requires Captured(copy) && Captured(c) && copy.domTree != Undefined && c.domTree != Undefined
    requires Remember(sequence, url, copy) == Remember(sequence, url, c)
    ensures SameContent(copy, c)
  {
    StripTravels(copy.domTree);
    StripTravels(c.domTree);
    StripTravels(copy.capture);
    StripTravels(c.capture);
    WireOfStrip(copy.selectorMap, RECTS);
    WireOfStrip(c.selectorMap, RECTS);
  }

  lemma CopyIsSame(copy: Content, c: Content)
    requires Captured(c) && CopyOf(copy, c)
    ensures Wire(copy.selectorMap) == Wire(c.selectorMap) && Wire(copy.capture) == Wire(c.capture)
    ensures copy.domTree == Undefined <==> c.domTree == Undefined
    ensures c.domTree != Undefined ==> Wire(copy.domTree) == Wire(c.domTree)
  {
  }

  lemma RefIsSupported(last: Baseline, e: Pair, f: Pair)
    requires Matched(f) && LastNames(last, f) && Matched(e)
    requires EqualsBaseline(Some(last), e.pushed.url, e.pushed.body.content)
    requires e.stored.body == Ref(last.sequence)
    ensures Supports(f, e)
  {
    var base, c := f.pushed.body.content, e.pushed.body.content;
    var copy: Content :| CopyOf(copy, base) && last == Remember(f.stored.sequence, f.pushed.url, copy);
    CopyIsSame(copy, base);
    EqualTextSameContent(copy, c, last.sequence, last.url);
  }

  lemma PatchIsSupported(base: DeltaBase, e: Pair, f: Pair, small: bool)
    requires Matched(f) && BaseNames(base, f) && Matched(e)
    requires TryDelta(Some(base), e.pushed.body.content, small).Some?
    requires e.stored.body == Patched(TryDelta(Some(base), e.pushed.body.content, small).value)
    ensures Supports(f, e) && Target(e.stored) == Some(f.stored.sequence)
  {
  }

  /** Adding a snapshot that names at most one earlier snapshot, and is supported by it. */
  lemma SoundAppended(es: seq<Pair>, e: Pair, f: Option<Pair>)
    requires Sound(es) && Matched(e) && forall g | g in es :: g.stored.sequence != e.stored.sequence
    requires f.None? ==> Target(e.stored).None?
    requires f.Some? ==>
               && f.value in es && Target(e.stored) == Some(f.value.stored.sequence)
               && Matched(f.value) && Supports(f.value, e)
    ensures Sound(es + [e])
  {
    Appended(es, e);
    assert (es + [e])[..|es|] == es;
    UnrepeatedAppended(es, e);
    forall x, y | x in es + [e] && y in es + [e] && Target(x.stored) == Some(y.stored.sequence) ensures Supports(y, x) {
      if x in es {
        TargetOccurs(es, x);
        assert y in es;
      } else {
        OneBySequence(es, f.value, y);
      }
    }
  }

  lemma UnrepeatedAppended(es: seq<Pair>, e: Pair)
    requires Unrepeated(es) && forall g | g in es :: g.stored.sequence != e.stored.sequence
    ensures Unrepeated(es + [e])
  {
    forall i | 0 <= i < |es| ensures es[i].stored.sequence != e.stored.sequence {
      assert es[i] in es;
    }
  }

  lemma OneBySequence(es: seq<Pair>, f: Pair, g: Pair)
    requires Unrepeated(es) && f in es && g in es && f.stored.sequence == g.stored.sequence
    ensures f == g
  {
    var i :| 0 <= i < |es| && es[i] == f;
    var j :| 0 <= j < |es| && es[j] == g;
  }

  function PairOf(st: Store, s: Snapshot, small: bool): Pair
    requires s.body.Plain?
  {
    Pair(s.(body := StoredBody(st, s, small)), s)
  }

  lemma PushIsSound(st: Store, es: seq<Pair>, s: Snapshot, small: bool)
    requires Inv(st, es) && s.sequence in st.inFlight && s.body.Plain? && Captured(s.body.content)
    ensures Matched(PairOf(st, s, small)) && Sound(es + [PairOf(st, s, small)])
  {
    var e, c := PairOf(st, s, small), s.body.content;
    CopyOfItself(c);
    if e.stored.body.Plain? {
      SoundAppended(es, e, None);
    } else if e.stored.body.Ref? {
      var f :| f in es && LastNames(st.last.value, f);
      RefIsSupported(st.last.value, e, f);
      SoundAppended(es, e, Some(f));
    } else {
      var f :| f in es && BaseNames(st.base.value, f);
      PatchIsSupported(st.base.value, e, f, small);
      SoundAppended(es, e, Some(f));
    }
  }

  lemma BaselinesMonotone(st: Store, es: seq<Pair>, e: Pair)
    requires BaselinesNamed(st, es)
    ensures BaselinesNamed(st, es + [e])
  {
    Appended(es, e);
    if st.last.Some? {
      var f :| f in es && LastNames(st.last.value, f);
      assert f in es + [e];
    }
    if st.base.Some? {
      var f :| f in es && BaseNames(st.base.value, f);
      assert f in es + [e];
    }
  }

  lemma NewBaselinesNamed(st: Store, es: seq<Pair>, s: Snapshot, small: bool)
    requires s.body.Plain? && Captured(s.body.content) && s.body.content.domTree != Undefined
    requires !StoredBody(st, s, small).Ref?
    ensures
      var e, next := PairOf(st, s, small), Push(st, s, small);
      && next.last.Some? && LastNames(next.last.value, e)
      && (e.stored.body.Plain? ==> next.base.Some? && BaseNames(next.base.value, e))
      && (!e.stored.body.Plain? ==> next.base == st.base)
  {
    CopyOfItself(s.body.content);
  }

  lemma PushNamesBaselines(st: Store, es: seq<Pair>, s: Snapshot, small: bool)
    requires BaselinesNamed(st, es) && s.body.Plain? && Captured(s.body.content)
    ensures BaselinesNamed(Push(st, s, small), es + [PairOf(st, s, small)])
  {
    var e, next := PairOf(st, s, small), Push(st, s, small);
    BaselinesMonotone(st, es, e);
    if s.body.content.domTree == Undefined || e.stored.body.Ref? {
      assert next.last == st.last && next.base == st.base;
    } else {
      NewBaselinesNamed(st, es, s, small);
      assert e in es + [e] by { Appended(es, e); }
    }
  }

  lemma PushNumbered(st: Store, es: seq<Pair>, s: Snapshot, small: bool)
    requires Numbered(st, es) && s.sequence in st.inFlight && s.body.Plain?
    ensures Numbered(Push(st, s, small), es + [PairOf(st, s, small)])
  {
    Appended(es, PairOf(st, s, small));
  }

  lemma PushStores(st: Store, es: seq<Pair>, s: Snapshot, small: bool)
    requires st.stored == StoredOf(es) && s.body.Plain?
    ensures Push(st, s, small).stored == StoredOf(es + [PairOf(st, s, small)])
  {
    assert StoredOf(es + [PairOf(st, s, small)]) == StoredOf(es) + [PairOf(st, s, small).stored];
  }

  lemma PushKeepsInv(st: Store, es: seq<Pair>, s: Snapshot, small: bool)
    requires Inv(st, es) && s.sequence in st.inFlight && s.body.Plain? && Captured(s.body.content)
    ensures Inv(Push(st, s, small), es + [PairOf(st, s, small)])
  {
    PushIsSound(st, es, s, small);
    PushNamesBaselines(st, es, s, small);
    PushNumbered(st, es, s, small);
    PushStores(st, es, s, small);
  }

  // ---------- resuming keeps it ----------

  lemma {:induction false} StripKeepsNames(v: JsValue, names: Names)
    requires Avoids(v, names)
    ensures Avoids(Strip(v, {}), names)
  {
    match v
    case Arr(items) =>
      forall i | 0 <= i < |items| ensures Avoids(Strip(items[i], {}), names) {
        StripKeepsNames(items[i], names);
      }
    case Obj(keys, vals) =>
      KeptKeysAre(keys, vals, {});
      forall k | k in vals ensures Avoids(Strip(vals[k], {}), names) {
        StripKeepsNames(vals[k], names);
      }
    case _ =>
  }

  lemma StripOnce(v: JsValue)
    requires WellFormed(v) && Avoids(v, InheritedNames)
    ensures WellFormed(Strip(v, {})) && WireField(Strip(v, {})) == WireField(v)
    ensures Avoids(Strip(v, {}), InheritedNames)
    ensures NoEmptyKey(v) ==> NoEmptyKey(Strip(v, {}))
  {
    StripTravels(v);
    StripUndefined(v, {});
    StripKeepsShape(v, {});
    StripKeepsNames(v, InheritedNames);
    if NoEmptyKey(v) {
      StripKeepsNames(v, EmptyName);
    }
  }

  lemma ReparsedIsCopy(copy: Content, c: Content)
    requires CopyOf(copy, c)
    ensures CopyOf(Content(Strip(copy.selectorMap, {}), Strip(copy.domTree, {}), Strip(copy.capture, {})), c)
  {
    StripOnce(copy.selectorMap);
    StripOnce(copy.domTree);
    StripOnce(copy.capture);
  }

  function ReparsedPair(e: Pair): Pair { e.(stored := Reparsed(e.stored)) }

  function ReparsedPairs(es: seq<Pair>): (r: seq<Pair>)
    ensures |r| == |es|
  {
    seq(|es|, i requires 0 <= i < |es| => ReparsedPair(es[i]))
  }

  lemma ReparsedMatched(e: Pair)
    requires Matched(e)
    ensures Matched(ReparsedPair(e)) && Bears(ReparsedPair(e)) == Bears(e)
    ensures Target(Reparsed(e.stored)) == Target(e.stored)
  {
    if e.stored.body.Plain? {
      ReparsedIsCopy(e.stored.body.content, e.pushed.body.content);
    }
  }

  lemma FromReparsed(es: seq<Pair>, x: Pair) returns (e: Pair)
    requires x in ReparsedPairs(es)
    ensures e in es && x == ReparsedPair(e)
  {
    var i :| 0 <= i < |es| && ReparsedPairs(es)[i] == x;
    e := es[i];
  }

  lemma {:induction false} ReparsedBackward(es: seq<Pair>)
    requires Backward(es)
    ensures Backward(ReparsedPairs(es))
  {
    if es != [] {
      var init := es[..|es| - 1];
      ReparsedBackward(init);
      assert ReparsedPairs(es)[..|es| - 1] == ReparsedPairs(init);
      var t := Target(es[|es| - 1].stored);
      if t.Some? {
        var f :| f in init && f.stored.sequence == t.value;
        var i :| 0 <= i < |init| && init[i] == f;
        assert ReparsedPairs(init)[i] in ReparsedPairs(init);
      }
    }
  }

  lemma ReparsedLinked(es: seq<Pair>)
    requires AllMatched(es) && Linked(es)
    ensures AllMatched(ReparsedPairs(es)) && Linked(ReparsedPairs(es))
  {
    forall x | x in ReparsedPairs(es) ensures Matched(x) {
      var e := FromReparsed(es, x);
      ReparsedMatched(e);
    }
    forall x, y | x in ReparsedPairs(es) && y in ReparsedPairs(es) && Target(x.stored) == Some(y.stored.sequence)
      ensures Supports(y, x)
    {
      var e := FromReparsed(es, x);
      var f := FromReparsed(es, y);
      ReparsedMatched(e);
      ReparsedMatched(f);
      assert Supports(f, e);
    }
  }

  lemma ReparsedSound(es: seq<Pair>)
    requires Sound(es)
    ensures Sound(ReparsedPairs(es))
  {
    ReparsedLinked(es);
    ReparsedBackward(es);
    assert forall i | 0 <= i < |es| :: ReparsedPairs(es)[i].stored.sequence == es[i].stored.sequence;
  }

  lemma {:induction false} NewestIsStored(list: seq<Snapshot>)
    ensures NewestFull(list).Some? ==> NewestFull(list).value in list && Full(NewestFull(list).value)
  {
    if list != [] && !Full(list[|list| - 1]) {
      NewestIsStored(list[..|list| - 1]);
    }
  }

  lemma StoredElement(es: seq<Pair>, s: Snapshot) returns (e: Pair)
    requires s in StoredOf(es)
    ensures e in es && e.stored == s
  {
    var i :| 0 <= i < |es| && StoredOf(es)[i] == s;
    e := es[i];
  }

  lemma ReparsedStored(es: seq<Pair>)
    ensures StoredOf(ReparsedPairs(es)) == ReparsedAll(StoredOf(es))
    ensures PushedOf(ReparsedPairs(es)) == PushedOf(es)
  {
  }

  lemma ResumedNumbered(es: seq<Pair>, next: Store)
    requires AllMatched(es) && next.next == NextSequence(StoredOf(es)) && next.inFlight == {}
    ensures Numbered(next, es)
  {
    NextIsAbove(Numbers(StoredOf(es)));
    forall e | e in es ensures 0 <= e.stored.sequence < next.next {
      var i :| 0 <= i < |es| && es[i] == e;
      assert StoredOf(es)[i] == e.stored && Matched(e);
      assert Numbers(StoredOf(es))[i] == e.stored.sequence;
      assert e.stored.sequence in Numbers(StoredOf(es));
    }
  }

  lemma ResumedBaselines(es: seq<Pair>, next: Store)
    requires AllMatched(es)
    requires
      match NewestFull(StoredOf(es))
      case None => next.last == None && next.base == None
      case Some(s) =>
        && s.body.Plain?
        && next.last == Some(Remember(s.sequence, s.url, s.body.content))
        && next.base == Some(DeltaBase(s.sequence, ContentOf(s.body.content)))
    ensures BaselinesNamed(next, es)
  {
    NewestIsStored(StoredOf(es));
    if next.last.Some? {
      var x := StoredElement(es, NewestFull(StoredOf(es)).value);
      assert Matched(x) && CopyOf(x.stored.body.content, x.pushed.body.content);
      assert LastNames(next.last.value, x);
      assert BaseNames(next.base.value, x);
    }
  }

  lemma ResumeIs(st: Store)
    ensures
      var next, list := Resume(st), ReparsedAll(st.stored);
      && next.stored == list && next.next == NextSequence(list) && next.inFlight == {}
      && match NewestFull(list)
         case None => next.last == None && next.base == None
         case Some(s) =>
           && s.body.Plain?
           && next.last == Some(Remember(s.sequence, s.url, s.body.content))
           && next.base == Some(DeltaBase(s.sequence, ContentOf(s.body.content)))
  {
    NewestIsStored(ReparsedAll(st.stored));
  }

  lemma ResumeKeepsInv(st: Store, es: seq<Pair>)
    requires Inv(st, es)
    ensures Inv(Resume(st), ReparsedPairs(es))
  {
    ResumeIs(st);
    ReparsedStored(es);
    ReparsedSound(es);
    ResumedNumbered(ReparsedPairs(es), Resume(st));
    ResumedBaselines(ReparsedPairs(es), Resume(st));
  }

  // ---------- every run ----------

  lemma ReserveKeepsInv(st: Store, es: seq<Pair>)
    requires Inv(st, es)
    ensures Inv(Apply(st, Reserve), es)
  {
  }

  /** A step of any kind, and what it does to the list of pushed snapshots. */
  lemma StepKeepsInv(st: Store, es: seq<Pair>, step: Step) returns (after: seq<Pair>)
    requires Inv(st, es) && Enabled(st, step)
    ensures Inv(Apply(st, step), after)
    ensures PushedOf(after) == PushedOf(es) + if step.Complete? then [Candidate(step)] else []
  {
    match step
    case Reserve =>
      after := es;
      ReserveKeepsInv(st, es);
    case Complete(_, _, _, _, small) =>
      after := es + [PairOf(st, Candidate(step), small)];
      assert PushedOf(after) == PushedOf(es) + [Candidate(step)];
      PushKeepsInv(st, es, Candidate(step), small);
    case Reload =>
      after := ReparsedPairs(es);
      ReparsedStored(es);
      ResumeKeepsInv(st, es);
  }

  lemma Regrouped<T>(a: seq<T>, b: seq<T>, c: seq<T>)
    ensures a + b + c == a + (b + c)
  {
  }

  lemma {:induction false} RunFromKeepsInv(st: Store, es: seq<Pair>, steps: seq<Step>) returns (after: seq<Pair>)
    requires Inv(st, es) && ReachableFrom(st, steps)
    ensures Inv(RunFrom(st, steps), after) && PushedOf(after) == PushedOf(es) + Candidates(steps)
  {
    if steps == [] {
      after := es;
    } else {
      var init, last := steps[..|steps| - 1], steps[|steps| - 1];
      var before := RunFromKeepsInv(st, es, init);
      after := StepKeepsInv(RunFrom(st, init), before, last);
      Regrouped(PushedOf(es), Candidates(init), if last.Complete? then [Candidate(last)] else []);
    }
  }

  lemma EmptyInv()
    ensures Inv(EMPTY, [])
  {
  }

  lemma RunKeepsInv(steps: seq<Step>) returns (es: seq<Pair>)
    requires Reachable(steps)
    ensures Inv(Run(steps), es) && PushedOf(es) == Candidates(steps)
  {
    EmptyInv();
    es := RunFromKeepsInv(EMPTY, [], steps);
    assert PushedOf([]) + Candidates(steps) == Candidates(steps);
  }

  function Wires(list: seq<Snapshot>): (r: seq<WireSnapshot>)
    ensures |r| == |list|
  {
    seq(|list|, i requires 0 <= i < |list| => Serialise(list[i]))
  }

  /** No stored patch has a path that the applier refuses. */
  predicate StoredIntact(list: seq<Snapshot>) {
    forall s | s in list :: s.body.Patched? ==> AllAddressed(s.body.delta.patch)
  }

  lemma StoredIntactIs(es: seq<Pair>)
    ensures StoredIntact(StoredOf(es)) <==> Intact(es)
    ensures Wires(StoredOf(es)) == SerialiseAll(es)
  {
    forall s | s in StoredOf(es) ensures exists e | e in es :: e.stored == s {
      var e := StoredElement(es, s);
    }
    forall e | e in es ensures e.stored in StoredOf(es) {
      var i :| 0 <= i < |es| && es[i] == e;
      assert StoredOf(es)[i] == e.stored;
    }
  }

  lemma RestoredOf(es: seq<Pair>, out: seq<WireSnapshot>)
    requires AllMatched(es) && AllRestored(out, es)
    ensures |out| == |PushedOf(es)|
    ensures forall i | 0 <= i < |out| :: PushedOf(es)[i].body.Plain? && Restored(out[i], PushedOf(es)[i])
  {
    forall i | 0 <= i < |out| ensures PushedOf(es)[i].body.Plain? && Restored(out[i], PushedOf(es)[i]) {
      assert es[i] in es && Matched(es[i]);
    }
  }

  predicate AllNamed(pushed: seq<Snapshot>) { forall s | s in pushed :: s.body.Plain? && NoEmptyKeys(s.body.content) }

  lemma NamedOf(es: seq<Pair>)
    requires AllMatched(es) && Linked(es) && Backward(es) && AllNamed(PushedOf(es))
    ensures Intact(es)
  {
    forall e | e in es ensures NoEmptyKeys(e.pushed.body.content) {
      var i :| 0 <= i < |es| && es[i] == e;
      assert PushedOf(es)[i] in PushedOf(es);
    }
    NamedIsIntact(es);
  }

  lemma SoundListRestores(es: seq<Pair>)
    requires Sound(es)
    ensures
      var r, pushed := ExpandUpTo(Wires(StoredOf(es))), PushedOf(es);
      && (r.Ok? <==> StoredIntact(StoredOf(es)))
      && (r.Ok? ==> |r.value.out| == |pushed|
                    && forall i | 0 <= i < |pushed| :: pushed[i].body.Plain? && Restored(r.value.out[i], pushed[i]))
      && (AllNamed(pushed) ==> r.Ok?)
  {
    StoredIntactIs(es);
    ExpansionRestores(es);
    var r := ExpandUpTo(Wires(StoredOf(es)));
    if r.Ok? {
      RestoredOf(es, r.value.out);
    }
    if AllNamed(PushedOf(es)) {
      NamedOf(es);
    }
  }

  lemma InvParts(st: Store, es: seq<Pair>)
    requires Inv(st, es)
    ensures Sound(es) && st.stored == StoredOf(es)
  {
  }

  /** However captures interleave, whatever the delta sizes, and however often the recording is resumed: the
      stored list expands unless a patch has a refused path, and expanding gives back every pushed snapshot, in
      order, exactly but for geometry in selector maps. Without empty member names it always expands. */
  lemma EveryPushIsRestored(steps: seq<Step>)
    requires Reachable(steps)
    ensures
      var r, pushed := ExpandUpTo(Wires(Run(steps).stored)), Candidates(steps);
      && (r.Ok? <==> StoredIntact(Run(steps).stored))
      && (r.Ok? ==> |r.value.out| == |pushed|
                    && forall i | 0 <= i < |pushed| :: pushed[i].body.Plain? && Restored(r.value.out[i], pushed[i]))
      && (AllNamed(pushed) ==> r.Ok?)
  {
    var es := RunKeepsInv(steps);
    InvParts(Run(steps), es);
    SoundListRestores(es);
  }

  lemma {:induction false} TargetIndex(es: seq<Pair>, i: nat) returns (j: nat)
    requires Backward(es) && i < |es| && Target(es[i].stored).Some?
    ensures j < i && es[j].stored.sequence == Target(es[i].stored).value
  {
    var init := es[..|es| - 1];
    if i < |init| {
      assert init[i] == es[i];
      j := TargetIndex(init, i);
    } else {
      var f :| f in init && f.stored.sequence == Target(es[i].stored).value;
      j :| 0 <= j < |init| && init[j] == f;
    }
  }

  /** A reference names an earlier snapshot that is no reference, a delta an earlier full one: chains are never
      longer than reference, delta, full. */
  lemma LinksPointBack(steps: seq<Step>, i: nat)
    requires Reachable(steps) && i < |Run(steps).stored|
    ensures
      var list := Run(steps).stored;
      Target(list[i]).Some? ==>
        exists j | 0 <= j < i ::
          && list[j].sequence == Target(list[i]).value
          && !list[j].body.Ref?
          && (list[i].body.Patched? ==> Full(list[j]))
  {
    var es := RunKeepsInv(steps);
    var list := Run(steps).stored;
    if Target(list[i]).Some? {
      var j := TargetIndex(es, i);
      assert es[i] in es && es[j] in es;
      assert Supports(es[j], es[i]);
      if list[i].body.Patched? {
        assert CopyOf(list[j].body.content, es[j].pushed.body.content);
      }
      assert list[j].sequence == Target(list[i]).value;
    }
  }

  // ---------- stopping sorts by sequence ----------

  predicate Ascending(list: seq<Snapshot>) { forall i, j | 0 <= i < j < |list| :: list[i].sequence < list[j].sequence }

  /** Every snapshot named has a smaller sequence number. */
  predicate NamesSmaller(list: seq<Snapshot>) {
    forall s | s in list && Target(s).Some? :: Target(s).value < s.sequence
  }

  lemma AscendingSplits(es: seq<Pair>, e: Pair)
    requires Ascending(StoredOf(es + [e]))
    ensures Ascending(StoredOf(es)) && forall f | f in es :: f.stored.sequence < e.stored.sequence
  {
    var all := StoredOf(es + [e]);
    assert all[|es|] == e.stored;
    forall f | f in es ensures f.stored.sequence < e.stored.sequence {
      var i :| 0 <= i < |es| && es[i] == f;
      assert all[i] == f.stored;
    }
    assert forall i | 0 <= i < |es| :: all[i] == StoredOf(es)[i];
  }

  /** In an ascending list whose names all resolve, pointing back is naming a smaller number. */
  lemma {:induction false} AscendingBackward(es: seq<Pair>)
    requires Ascending(StoredOf(es))
    ensures Backward(es)
            <==> forall e | e in es && Target(e.stored).Some? ::
                   Target(e.stored).value < e.stored.sequence && Occurs(es, Target(e.stored).value)
  {
    if es != [] {
      var init, last := es[..|es| - 1], es[|es| - 1];
      assert init + [last] == es;
      Appended(init, last);
      AscendingSplits(init, last);
      AscendingBackward(init);
      forall e | e in init && Target(e.stored).Some? && Target(e.stored).value < e.stored.sequence
        ensures Occurs(init, Target(e.stored).value) <==> Occurs(es, Target(e.stored).value)
      {
        OccursAppended(init, last, Target(e.stored).value);
      }
      if Target(last.stored).Some? {
        OccursAppended(init, last, Target(last.stored).value);
      }
    }
  }

  lemma OccursAppended(es: seq<Pair>, e: Pair, sequence: int)
    ensures Occurs(es + [e], sequence) <==> Occurs(es, sequence) || e.stored.sequence == sequence
  {
    Appended(es, e);
  }

  lemma {:induction false} AscendingUnrepeated(es: seq<Pair>)
    requires Ascending(StoredOf(es))
    ensures Unrepeated(es)
  {
    assert forall i | 0 <= i < |es| :: StoredOf(es)[i].sequence == es[i].stored.sequence;
  }

  /** `finalizeStop` sorts the snapshots by sequence before they are handed out. The sorted list expands exactly
      when, besides having no refused path, every reference and delta names a smaller number than its own. */
  lemma SortedExpandsWhen(st: Store, es: seq<Pair>, sorted: seq<Pair>)
    requires Inv(st, es) && Ascending(StoredOf(sorted))
    requires forall e :: e in sorted <==> e in es
    ensures ExpandUpTo(Wires(StoredOf(sorted))).Ok? <==> NamesSmaller(st.stored) && StoredIntact(st.stored)
    ensures var r := ExpandUpTo(Wires(StoredOf(sorted)));
            r.Ok? ==> |r.value.out| == |sorted|
                      && forall i | 0 <= i < |sorted| :: Matched(sorted[i])
                          && Restored(r.value.out[i], sorted[i].pushed)
  {
    AscendingUnrepeated(sorted);
    AscendingBackward(sorted);
    StoredIntactIs(sorted);
    StoredIntactIs(es);
    assert Intact(sorted) == Intact(es);
    forall e | e in es && Target(e.stored).Some? ensures Occurs(sorted, Target(e.stored).value) {
      TargetOccurs(es, e);
      var f :| f in es && f.stored.sequence == Target(e.stored).value;
      assert f in sorted;
    }
    NamesSmallerIs(es);
    assert Linked(sorted);
    ExpansionRestores(sorted);
    forall i | 0 <= i < |sorted| ensures Matched(sorted[i]) {
      assert sorted[i] in sorted;
    }
  }

  lemma NamesSmallerIs(es: seq<Pair>)
    ensures NamesSmaller(StoredOf(es))
            <==> forall e | e in es && Target(e.stored).Some? :: Target(e.stored).value < e.stored.sequence
  {
    forall s | s in StoredOf(es) ensures exists e | e in es :: e.stored == s {
      var e := StoredElement(es, s);
    }
    forall e | e in es ensures e.stored in StoredOf(es) {
      var i :| 0 <= i < |es| && es[i] == e;
      assert StoredOf(es)[i] == e.stored;
    }
  }

  /** Captures that complete in the order they began leave a list that survives the sort. */
  lemma InOrderNamesSmaller(st: Store, es: seq<Pair>)
    requires Inv(st, es) && Ascending(st.stored)
    ensures NamesSmaller(st.stored)
  {
    AscendingBackward(es);
    NamesSmallerIs(es);
  }

  lemma RunOneMore(st: Store, steps: seq<Step>, step: Step)
    ensures RunFrom(st, steps + [step]) == Apply(RunFrom(st, steps), step)
    ensures ReachableFrom(st, steps + [step]) <==> ReachableFrom(st, steps) && Enabled(RunFrom(st, steps), step)
  {
    assert (steps + [step])[..|steps|] == steps;
  }

  lemma PushThenSame(st: Store, a: Snapshot, b: Snapshot)
    requires st.last == None && st.base == None && a.body.Plain? && a.body == b.body && a.url == b.url
    requires a.body.content.domTree != Undefined
    ensures Push(Push(st, a, false), b, false).stored == st.stored + [a, b.(body := Ref(a.sequence))]
  {
    assert Push(st, a, false).last == Some(Remember(a.sequence, a.url, a.body.content));
  }

  lemma TwoReserved()
    ensures Reachable([Reserve, Reserve])
    ensures Run([Reserve, Reserve]) == Store(2, {0, 1}, [], None, None)
  {
    TwoSteps(EMPTY, Reserve, Reserve);
  }

  /** A capture overtaken by a later one with the same content is stored as a reference to a larger number, which
      the sort then moves in front of its target. */
  lemma OvertakenCaptureBreaksTheSort(url: string, position: Position, content: Content)
    requires Captured(content) && content.domTree != Undefined
    ensures
      var steps := [Reserve, Reserve] + [Complete(1, url, position, content, false)] + [Complete(0, url, position, content, false)];
      && Reachable(steps)
      && Run(steps).stored == [Snapshot(1, url, position, Plain(content)), Snapshot(0, url, position, Ref(1))]
      && !NamesSmaller(Run(steps).stored)
  {
    var first, second := Complete(1, url, position, content, false), Complete(0, url, position, content, false);
    var two := [Reserve, Reserve];
    TwoReserved();
    RunOneMore(EMPTY, two, first);
    RunOneMore(EMPTY, two + [first], second);
    PushThenSame(Run(two), Candidate(first), Candidate(second));
    var all := Run(two + [first] + [second]).stored;
    assert all[1] in all && Target(all[1]) == Some(1);
  }

  // ---------- removing final snapshots ----------

  predicate IsFinal(s: Snapshot) { s.position.phase.Final? }

  function WithoutFinals(list: seq<Snapshot>): seq<Snapshot> {
    if list == [] then []
    else
      var last := list[|list| - 1];
      WithoutFinals(list[..|list| - 1]) + if IsFinal(last) then [] else [last]
  }

  /** `removeFinalSnapshotsInPlace`: the baselines are left as they are. */
  function RemoveFinals(st: Store): Store { st.(stored := WithoutFinals(st.stored)) }

  function KeptPairs(es: seq<Pair>): seq<Pair> {
    if es == [] then []
    else
      var last := es[|es| - 1];
      KeptPairs(es[..|es| - 1]) + if IsFinal(last.stored) then [] else [last]
  }

  predicate SequenceStored(list: seq<Snapshot>, sequence: int) { exists s | s in list :: s.sequence == sequence }

  /** Nothing in the list names a snapshot that is not in it. */
  predicate NamesStored(list: seq<Snapshot>) {
    forall s | s in list && Target(s).Some? :: SequenceStored(list, Target(s).value)
  }

  /** Nothing that stays, and no baseline, names a snapshot that goes. */
  predicate SafeRemoval(st: Store) {
    var kept := WithoutFinals(st.stored);
    && NamesStored(kept)
    && (st.last.Some? ==> SequenceStored(kept, st.last.value.sequence))
    && (st.base.Some? ==> SequenceStored(kept, st.base.value.sequence))
  }

  lemma {:induction false} KeptElements(es: seq<Pair>)
    ensures forall e :: e in KeptPairs(es) <==> e in es && !IsFinal(e.stored)
  {
    if es != [] {
      var init, last := es[..|es| - 1], es[|es| - 1];
      KeptElements(init);
      Appended(init, last);
      assert init + [last] == es;
      Appended(KeptPairs(init), last);
      assert KeptPairs(es) == KeptPairs(init) + if IsFinal(last.stored) then [] else [last];
    }
  }

  lemma {:induction false} KeptStored(es: seq<Pair>)
    ensures StoredOf(KeptPairs(es)) == WithoutFinals(StoredOf(es))
  {
    if es != [] {
      var init, last := es[..|es| - 1], es[|es| - 1];
      KeptStored(init);
      assert StoredOf(es)[..|es| - 1] == StoredOf(init);
    }
  }

  lemma KeptAre(es: seq<Pair>)
    ensures forall e :: e in KeptPairs(es) <==> e in es && !IsFinal(e.stored)
    ensures StoredOf(KeptPairs(es)) == WithoutFinals(StoredOf(es))
  {
    KeptElements(es);
    KeptStored(es);
  }

  lemma {:induction false} KeptUnrepeated(es: seq<Pair>)
    requires Unrepeated(es)
    ensures Unrepeated(KeptPairs(es))
  {
    if es != [] {
      var init, last := es[..|es| - 1], es[|es| - 1];
      KeptUnrepeated(init);
      KeptAre(init);
      assert init + [last] == es;
      LastIsFresh(init, last);
      UnrepeatedAppended(KeptPairs(init), last);
    }
  }

  /** What stays names only what stays. */
  predicate NamesKept(es: seq<Pair>) {
    forall e, f | e in es && f in es && !IsFinal(e.stored)
        && Target(e.stored) == Some(f.stored.sequence) :: !IsFinal(f.stored)
  }

  lemma {:induction false} KeptBackward(es: seq<Pair>)
    requires Backward(es) && NamesKept(es)
    ensures Backward(KeptPairs(es))
  {
    if es != [] {
      var init, last := es[..|es| - 1], es[|es| - 1];
      assert init + [last] == es;
      Appended(init, last);
      KeptBackward(init);
      KeptAre(init);
      var t := Target(last.stored);
      if !IsFinal(last.stored) {
        assert (KeptPairs(init) + [last])[..|KeptPairs(init)|] == KeptPairs(init);
        if t.Some? {
          var f :| f in init && f.stored.sequence == t.value;
          assert last in es && f in es && !IsFinal(f.stored);
          assert f in KeptPairs(init);
        }
        assert Backward(KeptPairs(init) + [last]);
      } else {
        assert KeptPairs(es) == KeptPairs(init);
      }
    }
  }

  lemma SequenceOfKept(es: seq<Pair>, f: Pair)
    requires Unrepeated(es) && f in es
    ensures SequenceStored(WithoutFinals(StoredOf(es)), f.stored.sequence) <==> !IsFinal(f.stored)
  {
    KeptAre(es);
    var kept := StoredOf(KeptPairs(es));
    if SequenceStored(kept, f.stored.sequence) {
      var s :| s in kept && s.sequence == f.stored.sequence;
      var e := StoredElement(KeptPairs(es), s);
      OneBySequence(es, e, f);
    }
    if !IsFinal(f.stored) {
      var i :| 0 <= i < |KeptPairs(es)| && KeptPairs(es)[i] == f;
      assert kept[i] == f.stored;
    }
  }

  lemma KeptLinked(es: seq<Pair>)
    requires Sound(es)
    ensures AllMatched(KeptPairs(es)) && Unrepeated(KeptPairs(es)) && Linked(KeptPairs(es))
  {
    KeptElements(es);
    KeptUnrepeated(es);
  }

  lemma KeptBackwardWhen(es: seq<Pair>)
    requires Sound(es)
    ensures Backward(KeptPairs(es)) <==> NamesKept(es)
  {
    KeptElements(es);
    if NamesKept(es) {
      KeptBackward(es);
    }
    if Backward(KeptPairs(es)) {
      forall e, f | e in es && f in es && !IsFinal(e.stored) && Target(e.stored) == Some(f.stored.sequence)
        ensures !IsFinal(f.stored)
      {
        TargetOccurs(KeptPairs(es), e);
        var g :| g in KeptPairs(es) && g.stored.sequence == f.stored.sequence;
        OneBySequence(es, f, g);
      }
    }
  }

  lemma NamesKeptIs(es: seq<Pair>)
    requires Unrepeated(es) && Backward(es)
    ensures NamesKept(es) <==> NamesStored(WithoutFinals(StoredOf(es)))
  {
    KeptAre(es);
    var kept := WithoutFinals(StoredOf(es));
    forall s | s in kept && Target(s).Some? && NamesKept(es) ensures SequenceStored(kept, Target(s).value) {
      var e := StoredElement(KeptPairs(es), s);
      TargetOccurs(es, e);
      var f :| f in es && f.stored.sequence == Target(s).value;
      SequenceOfKept(es, f);
    }
    forall e, f | e in es && f in es && !IsFinal(e.stored) && Target(e.stored) == Some(f.stored.sequence)
      ensures SequenceStored(kept, f.stored.sequence) == !IsFinal(f.stored) && e.stored in kept
    {
      SequenceOfKept(es, f);
      var i :| 0 <= i < |KeptPairs(es)| && KeptPairs(es)[i] == e;
      assert StoredOf(KeptPairs(es))[i] == e.stored;
    }
  }

  /** Right after the removal the list expands exactly when no patch in it has a refused path and nothing in it
      names a snapshot that was removed. */
  lemma RemovedExpandsWhen(st: Store, es: seq<Pair>)
    requires Inv(st, es)
    ensures
      var kept := RemoveFinals(st).stored;
      ExpandUpTo(Wires(kept)).Ok? <==> NamesStored(kept) && StoredIntact(kept)
  {
    InvParts(st, es);
    KeptLinked(es);
    KeptBackwardWhen(es);
    NamesKeptIs(es);
    KeptStored(es);
    StoredIntactIs(KeptPairs(es));
    ExpansionRestores(KeptPairs(es));
  }

  lemma LastKept(es: seq<Pair>, last: Baseline)
    requires Unrepeated(es) && exists e | e in es :: LastNames(last, e)
    requires SequenceStored(WithoutFinals(StoredOf(es)), last.sequence)
    ensures exists e | e in KeptPairs(es) :: LastNames(last, e)
  {
    KeptElements(es);
    var e :| e in es && LastNames(last, e);
    SequenceOfKept(es, e);
  }

  lemma BaseKept(es: seq<Pair>, base: DeltaBase)
    requires Unrepeated(es) && exists e | e in es :: BaseNames(base, e)
    requires SequenceStored(WithoutFinals(StoredOf(es)), base.sequence)
    ensures exists e | e in KeptPairs(es) :: BaseNames(base, e)
  {
    KeptElements(es);
    var e :| e in es && BaseNames(base, e);
    SequenceOfKept(es, e);
  }

  lemma RemovalNumbered(st: Store, es: seq<Pair>)
    requires Numbered(st, es)
    ensures Numbered(RemoveFinals(st), KeptPairs(es))
  {
    KeptElements(es);
  }

  lemma SafeRemovalBaselines(st: Store, es: seq<Pair>)
    requires Inv(st, es) && SafeRemoval(st)
    ensures BaselinesNamed(RemoveFinals(st), KeptPairs(es))
  {
    if st.last.Some? {
      LastKept(es, st.last.value);
    }
    if st.base.Some? {
      BaseKept(es, st.base.value);
    }
  }

  lemma SafeRemovalKeeps(st: Store, es: seq<Pair>)
    requires Inv(st, es) && SafeRemoval(st)
    ensures Inv(RemoveFinals(st), KeptPairs(es))
  {
    NamesKeptIs(es);
    KeptLinked(es);
    KeptBackwardWhen(es);
    KeptStored(es);
    RemovalNumbered(st, es);
    SafeRemovalBaselines(st, es);
  }

  /** The list after some more steps expands exactly when no patch in it has a refused path. */
  predicate ExpandsAfter(st: Store, steps: seq<Step>) {
    var list := RunFrom(st, steps).stored;
    ExpandUpTo(Wires(list)).Ok? <==> StoredIntact(list)
  }

  ghost predicate ExpandsForever(st: Store) { forall steps | ReachableFrom(st, steps) :: ExpandsAfter(st, steps) }

  lemma SoundExpandsForever(st: Store, es: seq<Pair>)
    requires Inv(st, es)
    ensures ExpandsForever(st)
  {
    forall steps | ReachableFrom(st, steps) ensures ExpandsAfter(st, steps) {
      var after := RunFromKeepsInv(st, es, steps);
      InvParts(RunFrom(st, steps), after);
      SoundListRestores(after);
    }
  }

  // ---------- what an unsafe removal leads to ----------

  lemma WiresLast(list: seq<Snapshot>, s: Snapshot)
    ensures Wires(list + [s])[..|list|] == Wires(list) && Wires(list + [s])[|list|] == Serialise(s)
  {
  }

  /** Only snapshots of the list can be expanded from. */
  lemma {:induction false} ContentIsStored(list: seq<Snapshot>)
    ensures
      var r := ExpandUpTo(Wires(list));
      r.Ok? ==> forall q | q in r.value.content :: SequenceStored(list, q)
  {
    if list != [] {
      var init, last := list[..|list| - 1], list[|list| - 1];
      ContentIsStored(init);
      assert init + [last] == list;
      WiresLast(init, last);
      assert last in list && forall s :: s in init ==> s in list;
      var r := ExpandUpTo(Wires(init));
      if r.Ok? && ExpandUpTo(Wires(list)).Ok? {
        forall q | q in ExpandUpTo(Wires(list)).value.content ensures SequenceStored(list, q) {
          assert q in r.value.content || q == last.sequence;
        }
      }
    }
  }

  lemma MissingTargetFails(list: seq<Snapshot>, s: Snapshot)
    requires Target(s).Some? && !SequenceStored(list, Target(s).value)
    ensures ExpandUpTo(Wires(list + [s])).Err?
  {
    ContentIsStored(list);
    WiresLast(list, s);
  }

  lemma TwoSteps(st: Store, first: Step, second: Step)
    ensures RunFrom(st, [first, second]) == Apply(Apply(st, first), second)
    ensures ReachableFrom(st, [first, second]) <==> Enabled(st, first) && Enabled(Apply(st, first), second)
  {
    RunOneMore(st, [], first);
    RunOneMore(st, [first], second);
    assert [] + [first] == [first] && [first] + [second] == [first, second];
  }

  lemma SameBody(a: Store, b: Store, s: Snapshot, small: bool)
    requires s.body.Plain? && a.last == b.last && a.base == b.base && a.stored == b.stored
    ensures StoredBody(a, s, small) == StoredBody(b, s, small)
    ensures Push(b, s, small).stored == a.stored + [s.(body := StoredBody(a, s, small))]
  {
  }

  lemma CaptureOnce(st: Store, url: string, position: Position, c: Content, small: bool)
    requires Captured(c)
    ensures
      var steps := [Reserve, Complete(st.next, url, position, c, small)];
      var candidate := Snapshot(st.next, url, position, Plain(c));
      && ReachableFrom(st, steps)
      && RunFrom(st, steps).stored == st.stored + [candidate.(body := StoredBody(st, candidate, small))]
  {
    TwoSteps(st, Reserve, Complete(st.next, url, position, c, small));
    SameBody(st, Apply(st, Reserve), Snapshot(st.next, url, position, Plain(c)), small);
  }

  /** One more capture that is stored under the name of a missing snapshot. */
  lemma CaptureFails(st: Store, url: string, position: Position, c: Content, small: bool)
    requires Captured(c) && StoredIntact(st.stored)
    requires
      var body := StoredBody(st, Snapshot(st.next, url, position, Plain(c)), small);
      match body
      case Plain(_) => false
      case Ref(target) => !SequenceStored(st.stored, target)
      case Patched(delta) => AllAddressed(delta.patch) && !SequenceStored(st.stored, delta.base)
    ensures !ExpandsForever(st)
  {
    var candidate := Snapshot(st.next, url, position, Plain(c));
    var s := candidate.(body := StoredBody(st, candidate, small));
    var steps := [Reserve, Complete(st.next, url, position, c, small)];
    CaptureOnce(st, url, position, c, small);
    MissingTargetFails(st.stored, s);
    assert StoredIntact(st.stored + [s]);
    assert !ExpandsAfter(st, steps);
  }

  const POSITION := Position(0, BeforeAction, None)

  /** Capturing again what the remembered snapshot showed stores a reference to it, gone or not. */
  lemma LastIsMissed(st: Store, es: seq<Pair>)
    requires Inv(st, es) && StoredIntact(RemoveFinals(st).stored)
    requires st.last.Some? && !SequenceStored(RemoveFinals(st).stored, st.last.value.sequence)
    ensures !ExpandsForever(RemoveFinals(st))
  {
    var last := st.last.value;
    var e :| e in es && LastNames(last, e);
    var copy: Content :| CopyOf(copy, e.pushed.body.content) && last == Remember(e.stored.sequence, e.pushed.url, copy);
    CopyIsSame(copy, e.pushed.body.content);
    CaptureFails(RemoveFinals(st), last.url, POSITION, copy, false);
  }

  // ---------- one more member makes one operation ----------

  /** A name longer than all of these, of a letter that no inherited name begins with. */
  function LongerThan(keys: seq<string>): (name: string)
    ensures |name| > 0 && name[0] == 'k'
    ensures forall key | key in keys :: |key| < |name|
  {
    if keys == [] then "k"
    else
      var rest := LongerThan(keys[1..]);
      if |keys[0]| < |rest| then rest else "k" + keys[0]
  }

  lemma NoneBeginsWithK()
    ensures NoneHas(OBJECT_PROTOTYPE, 0, 'k')
  {
  }

  lemma GrownContentDiffers(c: Content, name: string)
    requires Captured(c) && c.domTree != Undefined && name !in c.capture.vals && !Inherited(name)
    ensures Diff(ContentOf(c), ContentOf(c.(capture := Grown(c.capture, name)))) == [Edit(Add, ["capture", name], Null)]
  {
    NamesDiffer();
    GrownDiffers(c.capture, name);
    assert name in Grown(c.capture, name).vals;
    ThirdDiffers("selectorMap", "domTree", "capture", c.selectorMap, c.domTree, c.capture, Grown(c.capture, name));
    BelowOne("capture", name);
  }

  lemma GrownContentDelta(sequence: int, c: Content, name: string)
    requires Captured(c) && c.domTree != Undefined && name !in c.capture.vals && !Inherited(name) && name != ""
    ensures
      var delta := BuildSnapshotDelta(sequence, ContentOf(c), ContentOf(c.(capture := Grown(c.capture, name))), true);
      delta.Some? && delta.value.base == sequence && AllAddressed(delta.value.patch)
  {
    GrownContentDiffers(c, name);
    DeltaIsBuiltWhenSmall(sequence, ContentOf(c), ContentOf(c.(capture := Grown(c.capture, name))), true);
    OnePathAddressed(Edit(Add, ["capture", name], Null));
  }

  function OtherUrl(last: Option<Baseline>): (url: string)
    ensures last.Some? ==> url != last.value.url
  {
    if last.Some? then "/" + last.value.url else ""
  }

  lemma FreshName(keys: seq<string>) returns (name: string)
    ensures name !in keys && !Inherited(name) && name != ""
  {
    name := LongerThan(keys);
    NoneBeginsWithK();
    NoneHasNotListed(OBJECT_PROTOTYPE, 0, name);
  }

  lemma GrownCaptured(c: Content, name: string)
    requires Captured(c) && name !in c.capture.vals && !Inherited(name)
    ensures Captured(c.(capture := Grown(c.capture, name)))
  {
    GrownShape(c.capture, name);
  }

  lemma OtherUrlDiffers(last: Option<Baseline>, c: Content)
    ensures !EqualsBaseline(last, OtherUrl(last), c)
  {
  }

  /** Capturing, on another page, what the delta base showed and one more member stores a delta of it, gone or not. */
  lemma BaseIsMissed(st: Store, c: Content, sequence: int)
    requires StoredIntact(st.stored) && Captured(c) && c.domTree != Undefined
    requires st.base == Some(DeltaBase(sequence, ContentOf(c))) && !SequenceStored(st.stored, sequence)
    ensures !ExpandsForever(st)
  {
    var name := FreshName(c.capture.keys);
    assert name !in c.capture.vals;
    GrownContentDelta(sequence, c, name);
    GrownCaptured(c, name);
    var grown := c.(capture := Grown(c.capture, name));
    OtherUrlDiffers(st.last, grown);
    CaptureFails(st, OtherUrl(st.last), POSITION, grown, true);
  }

  lemma RemovedBaseIsMissed(st: Store, es: seq<Pair>)
    requires Inv(st, es) && StoredIntact(RemoveFinals(st).stored)
    requires st.base.Some? && !SequenceStored(RemoveFinals(st).stored, st.base.value.sequence)
    ensures !ExpandsForever(RemoveFinals(st))
  {
    var base := st.base.value;
    var e :| e in es && BaseNames(base, e);
    var copy: Content :| CopyOf(copy, e.pushed.body.content) && base.content == ContentOf(copy);
    CopyIsSame(copy, e.pushed.body.content);
    BaseIsMissed(RemoveFinals(st), copy, base.sequence);
  }

  /** Removing final snapshots leaves a list that expands, now and after whatever is captured or resumed later,
      exactly when the removal is safe: an unsafe one is followed by a capture that no receiver can expand. */
  lemma RemovalExpandsForeverWhen(st: Store, es: seq<Pair>)
    requires Inv(st, es) && StoredIntact(RemoveFinals(st).stored)
    ensures ExpandsForever(RemoveFinals(st)) <==> SafeRemoval(st)
  {
    var kept := RemoveFinals(st).stored;
    if SafeRemoval(st) {
      SafeRemovalKeeps(st, es);
      SoundExpandsForever(RemoveFinals(st), KeptPairs(es));
    } else if !NamesStored(kept) {
      RemovedExpandsWhen(st, es);
      assert ReachableFrom(RemoveFinals(st), []) && !ExpandsAfter(RemoveFinals(st), []);
    } else if st.last.Some? && !SequenceStored(kept, st.last.value.sequence) {
      LastIsMissed(st, es);
    } else {
      RemovedBaseIsMissed(st, es);
    }
  }

  lemma FinalIsGone(st: Store, es: seq<Pair>, s: Snapshot)
    requires st.stored == StoredOf(es) && Numbered(st, es) && s.sequence in st.inFlight && IsFinal(s)
    ensures !SequenceStored(WithoutFinals(st.stored + [s]), s.sequence)
  {
    FinalsConcat(st.stored, [s]);
    assert WithoutFinals([s]) == [];
    KeptAre(es);
    forall t | t in WithoutFinals(st.stored) ensures t.sequence != s.sequence {
      var e := StoredElement(KeptPairs(es), t);
    }
  }

  /** A final capture that is stored whole or as a delta becomes the baseline, and removing it is then unsafe. */
  lemma FinalCaptureIsUnsafe(st: Store, es: seq<Pair>, s: Snapshot, small: bool)
    requires Inv(st, es) && s.sequence in st.inFlight && s.body.Plain? && s.body.content.domTree != Undefined
    requires IsFinal(s) && !StoredBody(st, s, small).Ref?
    ensures !SafeRemoval(Push(st, s, small))
  {
    FinalIsGone(st, es, s.(body := StoredBody(st, s, small)));
  }

  // ---------- the recorder's own form ----------

  lemma {:induction false} FinalsConcat(a: seq<Snapshot>, b: seq<Snapshot>)
    ensures WithoutFinals(a + b) == WithoutFinals(a) + WithoutFinals(b)
  {
    if b == [] {
      assert a + b == a;
    } else {
      var init := b[..|b| - 1];
      FinalsConcat(a, init);
      assert (a + b)[..|a + b| - 1] == a + init;
    }
  }

  lemma FinalsFrom(list: seq<Snapshot>, i: nat)
    requires i < |list|
    ensures WithoutFinals(list[i..]) == (if IsFinal(list[i]) then [] else [list[i]]) + WithoutFinals(list[i + 1..])
  {
    assert list[i..] == [list[i]] + list[i + 1..];
    FinalsConcat([list[i]], list[i + 1..]);
    assert WithoutFinals([list[i]]) == if IsFinal(list[i]) then [] else [list[i]];
  }

  lemma Splice<T>(list: seq<T>, i: nat, rest: seq<T>)
    requires i < |list|
    ensures (list[..i + 1] + rest)[i] == list[i]
    ensures (list[..i + 1] + rest)[..i] + (list[..i + 1] + rest)[i + 1..] == list[..i] + rest
    ensures list[..i + 1] + rest == list[..i] + ([list[i]] + rest)
  {
  }

  /** The fields of the recorder that hold snapshots. */
  class SnapshotBuffer {
    var snapshots: seq<Snapshot>
    var snapshotSequence: nat
    var lastContentSnapshot: Option<Baseline>
    var deltaBase: Option<DeltaBase>
    ghost var inFlight: set<int>

    ghost function View(): Store
      reads this
    {
      Store(snapshotSequence, inFlight, snapshots, lastContentSnapshot, deltaBase)
    }

    constructor ()
      ensures View() == EMPTY
    {
      snapshots, snapshotSequence, lastContentSnapshot, deltaBase := [], 0, None, None;
      inFlight := {};
    }

    /** A capture takes its sequence number when it begins. */
    method BeginCapture() returns (sequence: nat)
      modifies this
      ensures View() == Apply(old(View()), Reserve) && sequence == old(snapshotSequence)
    {
      sequence := snapshotSequence;
      inFlight := inFlight + {sequence};
      snapshotSequence := snapshotSequence + 1;
    }

    /** The wrapped `push`. */
    method PushSnapshot(candidate: Snapshot, small: bool)
      requires candidate.body.Plain?
      modifies this
      ensures View() == Push(old(View()), candidate, small)
    {
      var c := candidate.body.content;
      inFlight := inFlight - {candidate.sequence};
      if c.domTree == Undefined {
        snapshots := snapshots + [candidate];
        return;
      }
      if EqualsBaseline(lastContentSnapshot, candidate.url, c) {
        snapshots := snapshots + [candidate.(body := Ref(lastContentSnapshot.value.sequence))];
        return;
      }
      var delta := TryDelta(deltaBase, c, small);
      lastContentSnapshot := Some(Remember(candidate.sequence, candidate.url, c));
      if delta.Some? {
        snapshots := snapshots + [candidate.(body := Patched(delta.value))];
        return;
      }
      deltaBase := Some(DeltaBase(candidate.sequence, ContentOf(c)));
      snapshots := snapshots + [candidate];
    }

    /** `restoreSnapshotDedupBaseline`. */
    method RestoreDedupBaseline()
      modifies this`lastContentSnapshot, this`deltaBase
      ensures
        match NewestFull(snapshots)
        case None => lastContentSnapshot == None && deltaBase == None
        case Some(s) =>
          && s.body.Plain?
          && lastContentSnapshot == Some(Remember(s.sequence, s.url, s.body.content))
          && deltaBase == Some(DeltaBase(s.sequence, ContentOf(s.body.content)))
    {
      lastContentSnapshot, deltaBase := None, None;
      var index := |snapshots|;
      assert snapshots[..index] == snapshots;
      while index > 0
        invariant 0 <= index <= |snapshots|
        invariant lastContentSnapshot == None && deltaBase == None
        invariant NewestFull(snapshots[..index]) == NewestFull(snapshots)
      {
        index := index - 1;
        assert snapshots[..index + 1][..index] == snapshots[..index];
        var s := snapshots[index];
        if s.body.Plain? && s.body.content.domTree != Undefined {
          lastContentSnapshot := Some(Remember(s.sequence, s.url, s.body.content));
          deltaBase := Some(DeltaBase(s.sequence, ContentOf(s.body.content)));
          return;
        }
      }
    }

    /** `restorePersistedState` in a new document. */
    method RestoreFrom(persisted: seq<Snapshot>)
      modifies this
      ensures View() == Resume(Store(0, {}, persisted, None, None))
    {
      snapshots := ReparsedAll(persisted);
      inFlight := {};
      snapshotSequence := 0;
      var i := 0;
      while i < |snapshots|
        invariant i <= |snapshots| && snapshots == ReparsedAll(persisted) && inFlight == {}
        invariant snapshotSequence == NextSequence(snapshots[..i])
      {
        assert Numbers(snapshots[..i + 1])[..i] == Numbers(snapshots[..i]);
        if snapshots[i].sequence + 1 > snapshotSequence {
          snapshotSequence := snapshots[i].sequence + 1;
        }
        i := i + 1;
      }
      assert snapshots[..i] == snapshots;
      RestoreDedupBaseline();
    }

    /** `removeFinalSnapshotsInPlace`: from the end, so that the indices still to visit stay put. */
    method RemoveFinalSnapshotsInPlace()
      modifies this`snapshots
      ensures View() == RemoveFinals(old(View()))
    {
      var index := |snapshots|;
      ghost var was := snapshots;
      while index > 0
        invariant 0 <= index <= |was| && index <= |snapshots|
        invariant snapshots == was[..index] + WithoutFinals(was[index..])
      {
        index := index - 1;
        FinalsFrom(was, index);
        Splice(was, index, WithoutFinals(was[index + 1..]));
        if snapshots[index].position.phase.Final? {
          snapshots := snapshots[..index] + snapshots[index + 1..];
        }
      }
      assert was[0..] == was;
    }
  }
}
