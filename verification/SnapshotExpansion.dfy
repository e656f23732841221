/**
 Stored snapshots as they travel, and `expandSnapshotReferences` of
 src/rule-generator/converter/snapshot-refs.ts, which turns references and deltas back into content.
 */
module SnapshotExpansion {
  import opened Wrappers
  import opened JsonPatch
  import opened SnapshotDelta
  import opened JsonStrip

  datatype Phase = Initial | BeforeAction | Final

  /** What every snapshot keeps for itself. */
  datatype Position = Position(timestamp: int, phase: Phase, actionIndex: Option<nat>)

  datatype Content = Content(selectorMap: JsValue, domTree: JsValue, capture: JsValue)

  datatype Body = Plain(content: Content) | Ref(target: int) | Patched(delta: Delta)

  datatype Snapshot = Snapshot(sequence: int, url: string, position: Position, body: Body)

  // ---------- on the wire ----------

  datatype Fields = Fields(selectorMap: Option<Json>, domTree: Option<Json>, capture: Option<Json>)

  datatype WireSnapshot =
    WireSnapshot(sequence: int, url: string, position: Position, fields: Fields, ref: Option<int>, delta: Option<Delta>)

  function WireField(v: JsValue): Option<Json> { if v == Undefined then None else Some(Wire(v)) }

  function WireFields(c: Content): Fields {
    Fields(WireField(c.selectorMap), WireField(c.domTree), WireField(c.capture))
  }

  /** References and deltas are stored with an empty selector map. */
  const NO_CONTENT := Fields(Some(JObj(map[])), None, None)

  function Serialise(s: Snapshot): WireSnapshot {
    match s.body
    case Plain(content) => WireSnapshot(s.sequence, s.url, s.position, WireFields(content), None, None)
    case Ref(target) => WireSnapshot(s.sequence, s.url, s.position, NO_CONTENT, Some(target), None)
    case Patched(delta) => WireSnapshot(s.sequence, s.url, s.position, NO_CONTENT, None, Some(delta))
  }

  // ---------- expansion ----------

  /** The fields a target carries replace the snapshot's own. */
  function Overlay(own: Fields, target: Fields): Fields {
    Fields(if target.selectorMap.Some? then target.selectorMap else own.selectorMap,
           if target.domTree.Some? then target.domTree else own.domTree,
           if target.capture.Some? then target.capture else own.capture)
  }

  function Entry(key: string, value: Option<Json>): map<string, Json> {
    if value.Some? then map[key := value.value] else map[]
  }

  /** The object a delta's patch is applied to. */
  function Patchable(f: Fields): Json {
    JObj(Entry("selectorMap", f.selectorMap) + Entry("domTree", f.domTree) + Entry("capture", f.capture))
  }

  function FieldsOf(doc: Json): Fields {
    match doc
    case JObj(members) => Fields(Field(members, "selectorMap"), Field(members, "domTree"), Field(members, "capture"))
    case _ => Fields(None, None, None)
  }

  /** The content known so far, by sequence, and the snapshots already expanded. */
  datatype Progress = Progress(content: map<int, Fields>, out: seq<WireSnapshot>)

  /** One iteration of the loop of `expandSnapshotReferences`. */
  function ExpandNext(p: Progress, s: WireSnapshot): Result<Progress> {
    if s.ref.None? && s.delta.None? then
      Ok(Progress(if s.fields.domTree.Some? then p.content[s.sequence := s.fields] else p.content, p.out + [s]))
    else if s.ref.Some? && s.delta.Some? then Err("carries both ref and patch")
    else if s.sequence < 0 then Err("must be a non-negative integer sequence number")
    else if s.delta.Some? then
      var base := s.delta.value.base;
      if base < 0 then Err("must be a non-negative integer sequence number")
      else if base !in p.content then Err("base does not name an earlier content snapshot")
      else
        match ApplyJsonPatch(Patchable(p.content[base]), s.delta.value.patch)
        case Err(e) => Err(e)
        case Ok(patched) =>
          var full := s.(fields := Overlay(s.fields, FieldsOf(patched)), delta := None);
          Ok(Progress(p.content[s.sequence := full.fields], p.out + [full]))
    else
      var target := s.ref.value;
      if target < 0 then Err("must be a non-negative integer sequence number")
      else if target !in p.content then Err("ref does not name an earlier content snapshot")
      else Ok(Progress(p.content, p.out + [s.(fields := Overlay(s.fields, p.content[target]), ref := None)]))
  }

  /** The loop after as many iterations as `list` has snapshots. */
  function ExpandUpTo(list: seq<WireSnapshot>): Result<Progress> {
    if list == [] then Ok(Progress(map[], []))
    else
      match ExpandUpTo(list[..|list| - 1])
      case Err(e) => Err(e)
      case Ok(p) => ExpandNext(p, list[|list| - 1])
  }

  lemma {:induction false} EarlyFailure(list: seq<WireSnapshot>, n: nat)
    requires n <= |list| && ExpandUpTo(list[..n]).Err?
    ensures ExpandUpTo(list) == ExpandUpTo(list[..n])
  {
    if n < |list| {
      assert list[..|list| - 1][..n] == list[..n];
      EarlyFailure(list[..|list| - 1], n);
    } else {
      assert list[..n] == list;
    }
  }

  /** `expandSnapshotReferences`. */
  method ExpandSnapshotReferences(list: seq<WireSnapshot>) returns (r: Result<seq<WireSnapshot>>)
    ensures match ExpandUpTo(list) case Err(e) => r == Err(e) case Ok(p) => r == Ok(p.out)
  {
    var progress := Progress(map[], []);
    var index := 0;
    while index < |list|
      invariant index <= |list|
      invariant ExpandUpTo(list[..index]) == Ok(progress)
    {
      var next := ExpandNext(progress, list[index]);
      assert list[..index + 1][..index] == list[..index];
      match next {
        case Err(e) =>
          EarlyFailure(list, index + 1);
          return Err(e);
        case Ok(p) => progress := p;
      }
      index := index + 1;
    }
    assert list[..index] == list;
    r := Ok(progress.out);
  }

  // ---------- what a stored snapshot stands for ----------

  /** A snapshot with content, as `captureSnapshot` builds it: an object per field, `domTree` alone may be missing.
      The recorder names members by words of its own or by numbers, never by a name that objects inherit. */
  ghost predicate Captured(c: Content) {
    && c.selectorMap.Obj? && WellFormed(c.selectorMap)
    && c.capture.Obj? && WellFormed(c.capture)
    && (c.domTree == Undefined || (c.domTree.Obj? && WellFormed(c.domTree)))
    && FieldsAvoid(c, InheritedNames)
  }

  predicate FieldsAvoid(c: Content, names: Names) {
    Avoids(c.selectorMap, names) && Avoids(c.domTree, names) && Avoids(c.capture, names)
  }

  predicate NoEmptyKeys(c: Content) { FieldsAvoid(c, EmptyName) }

  /** `copy` is `c`, or what `c` became on its way through storage. */
  ghost predicate CopyOf(copy: Content, c: Content) {
    Captured(copy) && WireFields(copy) == WireFields(c) && (NoEmptyKeys(c) ==> NoEmptyKeys(copy))
  }

  /** A stored snapshot beside the candidate that was pushed for it. */
  datatype Pair = Pair(stored: Snapshot, pushed: Snapshot)

  ghost predicate Matched(e: Pair) {
    && e.pushed.body.Plain? && Captured(e.pushed.body.content)
    && e.stored.sequence == e.pushed.sequence >= 0
    && e.stored.url == e.pushed.url
    && e.stored.position == e.pushed.position
    && (e.stored.body.Plain? ==> CopyOf(e.stored.body.content, e.pushed.body.content))
    && (!e.stored.body.Plain? ==> e.pushed.body.content.domTree != Undefined)
  }

  /** `contentOf`. */
  function ContentOf(c: Content): JsValue {
    Obj(["selectorMap", "domTree", "capture"],
        map["selectorMap" := if c.selectorMap in {Undefined, Null} then Obj([], map[]) else c.selectorMap,
            "domTree" := if c.domTree == Undefined then Null else c.domTree,
            "capture" := if c.capture == Undefined then Null else c.capture])
  }

  function Target(s: Snapshot): Option<int> {
    match s.body
    case Plain(_) => None
    case Ref(target) => Some(target)
    case Patched(delta) => Some(delta.base)
  }

  /** Others may be expanded from this one. */
  predicate Bears(e: Pair) {
    !e.stored.body.Ref? && e.pushed.body.Plain? && e.pushed.body.content.domTree != Undefined
  }

  const RECTS: set<string> := {"boundingRect"}

  /** Equal to a receiver, up to the viewport geometry in the selector map. */
  predicate SameContent(a: Content, b: Content) {
    && Wire(a.domTree) == Wire(b.domTree)
    && Wire(a.capture) == Wire(b.capture)
    && Without(Wire(a.selectorMap), RECTS) == Without(Wire(b.selectorMap), RECTS)
  }

  /** `e` was stored as a reference to, or a patch of, what `f` was pushed with. */
  ghost predicate Supports(f: Pair, e: Pair)
    requires Matched(e) && Matched(f)
  {
    match e.stored.body
    case Plain(_) => true
    case Ref(_) => Bears(f) && e.pushed.url == f.pushed.url && SameContent(f.pushed.body.content, e.pushed.body.content)
    case Patched(delta) =>
      Bears(f) && f.stored.body.Plain? && IsDeltaOf(delta, f.pushed.body.content, e.pushed.body.content)
  }

  /** The patch was computed from a copy of the base. */
  ghost predicate IsDeltaOf(delta: Delta, base: Content, content: Content) {
    exists copy: Content {:trigger CopyOf(copy, base)} ::
      CopyOf(copy, base) && delta.patch == Patch(ContentOf(copy), ContentOf(content))
  }

  ghost predicate AllMatched(es: seq<Pair>) { forall e | e in es :: Matched(e) }

  /** A snapshot that names another one in the list was derived from it. */
  ghost predicate Linked(es: seq<Pair>)
    requires AllMatched(es)
  {
    forall e, f | e in es && f in es && Target(e.stored) == Some(f.stored.sequence) :: Supports(f, e)
  }

  predicate Unrepeated(es: seq<Pair>) {
    forall i, j | 0 <= i < j < |es| :: es[i].stored.sequence != es[j].stored.sequence
  }

  predicate Occurs(es: seq<Pair>, sequence: int) { exists e | e in es :: e.stored.sequence == sequence }

  /** Every snapshot named comes earlier in the list. */
  predicate Backward(es: seq<Pair>) {
    es == [] ||
    (var last := es[|es| - 1].stored;
     && Backward(es[..|es| - 1])
     && (Target(last).Some? ==> Occurs(es[..|es| - 1], Target(last).value)))
  }

  /** No stored patch trips over the applier's guard. */
  predicate Intact(es: seq<Pair>) {
    forall e | e in es :: e.stored.body.Patched? ==> AllAddressed(e.stored.body.delta.patch)
  }

  /** The expanded snapshot is the one that was pushed, up to geometry in its selector map. */
  predicate Restored(w: WireSnapshot, s: Snapshot)
    requires s.body.Plain?
  {
    && w.sequence == s.sequence && w.url == s.url && w.position == s.position
    && w.ref == None && w.delta == None
    && w.fields.domTree == WireField(s.body.content.domTree)
    && w.fields.capture == WireField(s.body.content.capture)
    && w.fields.selectorMap.Some?
    && Without(w.fields.selectorMap.value, RECTS) == Without(Wire(s.body.content.selectorMap), RECTS)
  }

  // ---------- expansion restores what was pushed ----------

  function SerialiseAll(es: seq<Pair>): (r: seq<WireSnapshot>)
    ensures |r| == |es|
  {
    seq(|es|, i requires 0 <= i < |es| => Serialise(es[i].stored))
  }

  /** The content map holds the true content of exactly the snapshots that bear it. */
  ghost predicate ContentIs(content: map<int, Fields>, es: seq<Pair>) {
    && (forall e | e in es && Bears(e) ::
          e.stored.sequence in content && content[e.stored.sequence] == WireFields(e.pushed.body.content))
    && (forall s | s in content :: Borne(es, s))
  }

  predicate Borne(es: seq<Pair>, sequence: int) { exists e | e in es :: Bears(e) && e.stored.sequence == sequence }

  ghost predicate AllRestored(out: seq<WireSnapshot>, es: seq<Pair>)
    requires AllMatched(es)
  {
    |out| == |es| && forall i | 0 <= i < |es| :: (assert es[i] in es; Restored(out[i], es[i].pushed))
  }

  lemma NamesDiffer()
    ensures "selectorMap" != "domTree" && "selectorMap" != "capture" && "domTree" != "capture"
  {
    assert "domTree"[0] != "capture"[0] && "selectorMap"[0] != "capture"[0] && "selectorMap"[0] != "domTree"[0];
  }

  lemma PresentMembers(vals: map<string, JsValue>)
    requires forall k | k in vals :: vals[k] != Undefined
    ensures Wire(Obj([], vals)) == JObj(map k | k in vals :: Wire(vals[k]))
  {
    var members := Wire(Obj([], vals)).members;
    assert members == map k | k in vals :: Wire(vals[k]);
  }

  lemma ThreeMembers(a: string, b: string, c: string, x: JsValue, y: JsValue, z: JsValue)
    requires a != b && a != c && b != c && x != Undefined && y != Undefined && z != Undefined
    ensures Wire(Obj([a, b, c], map[a := x, b := y, c := z])) == JObj(map[a := Wire(x), b := Wire(y), c := Wire(z)])
  {
    var vals: map<string, JsValue> := map[a := x, b := y, c := z];
    PresentMembers(vals);
    assert Wire(Obj([a, b, c], vals)) == Wire(Obj([], vals));
    var wired: map<string, Json> := map k | k in vals :: Wire(vals[k]);
    assert wired.Keys == {a, b, c};
    assert wired[a] == Wire(x) && wired[b] == Wire(y) && wired[c] == Wire(z);
    assert wired == map[a := Wire(x), b := Wire(y), c := Wire(z)];
  }

  lemma ThreeShaped(a: string, b: string, c: string, x: JsValue, y: JsValue, z: JsValue)
    requires a != b && a != c && b != c && WellFormed(x) && WellFormed(y) && WellFormed(z)
    ensures WellFormed(Obj([a, b, c], map[a := x, b := y, c := z]))
  {
    var keys, vals := [a, b, c], map[a := x, b := y, c := z];
    assert Distinct(keys);
    assert forall k :: k in keys <==> k in vals;
  }

  lemma ThreeEntries(a: string, b: string, c: string, x: Json, y: Json, z: Json)
    requires a != b && a != c && b != c
    ensures Entry(a, Some(x)) + Entry(b, Some(y)) + Entry(c, Some(z)) == map[a := x, b := y, c := z]
  {
  }

  lemma ContentShape(c: Content)
    requires Captured(c) && c.domTree != Undefined
    ensures WellFormed(ContentOf(c))
  {
    NamesDiffer();
    ThreeShaped("selectorMap", "domTree", "capture", c.selectorMap, c.domTree, c.capture);
  }

  /** What a full snapshot is patched as is what the delta was computed from. */
  lemma ContentObject(c: Content)
    requires Captured(c) && c.domTree != Undefined
    ensures Wire(ContentOf(c)) == Patchable(WireFields(c))
  {
    NamesDiffer();
    ThreeMembers("selectorMap", "domTree", "capture", c.selectorMap, c.domTree, c.capture);
    ThreeEntries("selectorMap", "domTree", "capture", Wire(c.selectorMap), Wire(c.domTree), Wire(c.capture));
  }

  lemma FieldsReadBack(f: Fields)
    requires f.selectorMap.Some? && f.domTree.Some? && f.capture.Some?
    ensures FieldsOf(Patchable(f)) == f
  {
    NamesDiffer();
    ThreeEntries("selectorMap", "domTree", "capture", f.selectorMap.value, f.domTree.value, f.capture.value);
  }

  predicate NoneHas(names: seq<string>, i: nat, c: char) {
    forall j | 0 <= j < |names| :: |names[j]| > i && names[j][i] != c
  }

  lemma {:induction false} NoneHasNotListed(names: seq<string>, i: nat, name: string)
    requires i < |name| && NoneHas(names, i, name[i])
    ensures !Listed(names, name)
  {
    if names != [] {
      NoneHasNotListed(names[1..], i, name);
    }
  }

  lemma DistinctLetters()
    ensures NoneHas(OBJECT_PROTOTYPE, 0, 's') && NoneHas(OBJECT_PROTOTYPE, 2, 'm') && NoneHas(OBJECT_PROTOTYPE, 4, 'u')
  {
  }

  lemma OwnByLetter(name: string)
    requires |name| > 4 && (name[0] == 's' || name[2] == 'm' || name[4] == 'u')
    ensures !IsOne(InheritedNames, name)
  {
    DistinctLetters();
    NoneHasNotListed(OBJECT_PROTOTYPE, if name[0] == 's' then 0 else if name[2] == 'm' then 2 else 4, name);
  }

  /** None of the three member names of the content is inherited. */
  lemma FieldsAreOwn()
    ensures !IsOne(InheritedNames, "selectorMap")
    ensures !IsOne(InheritedNames, "domTree")
    ensures !IsOne(InheritedNames, "capture")
  {
    OwnByLetter("selectorMap");
    OwnByLetter("domTree");
    OwnByLetter("capture");
  }

  lemma ThreeAvoid(names: Names, a: string, b: string, c: string, x: JsValue, y: JsValue, z: JsValue)
    requires !IsOne(names, a) && !IsOne(names, b) && !IsOne(names, c)
    requires Avoids(x, names) && Avoids(y, names) && Avoids(z, names)
    ensures Avoids(Obj([a, b, c], map[a := x, b := y, c := z]), names)
  {
  }

  lemma ContentAvoids(c: Content, names: Names)
    requires !IsOne(names, "selectorMap") && !IsOne(names, "domTree") && !IsOne(names, "capture")
    requires Captured(c) && c.domTree != Undefined && FieldsAvoid(c, names)
    ensures Avoids(ContentOf(c), names)
  {
    ThreeAvoid(names, "selectorMap", "domTree", "capture", c.selectorMap, c.domTree, c.capture);
  }

  lemma CapturedNames(c: Content)
    requires Captured(c) && c.domTree != Undefined
    ensures Avoids(ContentOf(c), InheritedNames) && Avoids(ContentOf(c), PrototypeName)
  {
    FieldsAreOwn();
    ContentAvoids(c, InheritedNames);
    AvoidsPrototypeName(ContentOf(c));
  }

  /** A patch of a base gives the content back, unless the applier refuses one of its paths. */
  lemma DeltaExpands(delta: Delta, base: Content, content: Content)
    requires Captured(base) && base.domTree != Undefined && Captured(content) && content.domTree != Undefined
    requires IsDeltaOf(delta, base, content)
    ensures ApplyJsonPatch(Patchable(WireFields(base)), delta.patch).Ok? <==> AllAddressed(delta.patch)
    ensures AllAddressed(delta.patch)
            ==> ApplyJsonPatch(Patchable(WireFields(base)), delta.patch) == Ok(Patchable(WireFields(content)))
  {
    var copy: Content :| CopyOf(copy, base) && delta.patch == Patch(ContentOf(copy), ContentOf(content));
    ContentObject(copy);
    ContentObject(content);
    ContentShape(copy);
    ContentShape(content);
    CapturedNames(copy);
    CapturedNames(content);
    AvoidedNamesNeverStay(ContentOf(copy), ContentOf(content));
    DeltaLaw(ContentOf(copy), ContentOf(content));
  }

  /** One iteration, on a snapshot that stands for what was pushed. */
  lemma ExpandPlain(p: Progress, e: Pair)
    requires Matched(e) && e.stored.body.Plain?
    ensures
      ExpandNext(p, Serialise(e.stored))
      == Ok(Progress(if Bears(e) then p.content[e.stored.sequence := WireFields(e.pushed.body.content)] else p.content,
                     p.out + [Serialise(e.stored)]))
    ensures Restored(Serialise(e.stored), e.pushed)
  {
  }

  function RefExpanded(e: Pair, f: Pair): WireSnapshot
    requires f.pushed.body.Plain?
  {
    WireSnapshot(e.stored.sequence, e.stored.url, e.stored.position, WireFields(f.pushed.body.content), None, None)
  }

  lemma ExpandRef(p: Progress, e: Pair, f: Pair)
    requires Matched(e) && e.stored.body.Ref? && Matched(f) && Supports(f, e)
    requires e.stored.body.target == f.stored.sequence && f.stored.sequence in p.content
    requires p.content[f.stored.sequence] == WireFields(f.pushed.body.content)
    ensures ExpandNext(p, Serialise(e.stored)) == Ok(Progress(p.content, p.out + [RefExpanded(e, f)]))
    ensures Restored(RefExpanded(e, f), e.pushed)
  {
    var own := WireFields(f.pushed.body.content);
    assert Overlay(NO_CONTENT, own) == own;
  }

  lemma PatchStep(p: Progress, w: WireSnapshot, patched: Fields)
    requires w.ref.None? && w.delta.Some? && w.sequence >= 0 && w.fields == NO_CONTENT
    requires w.delta.value.base >= 0 && w.delta.value.base in p.content
    requires patched.selectorMap.Some? && patched.domTree.Some? && patched.capture.Some?
    requires ApplyJsonPatch(Patchable(p.content[w.delta.value.base]), w.delta.value.patch) == Ok(Patchable(patched))
    ensures ExpandNext(p, w)
            == Ok(Progress(p.content[w.sequence := patched], p.out + [w.(fields := patched, delta := None)]))
  {
    FieldsReadBack(patched);
    assert Overlay(NO_CONTENT, patched) == patched;
  }

  lemma PatchFails(p: Progress, w: WireSnapshot)
    requires w.ref.None? && w.delta.Some? && w.delta.value.base in p.content
    requires ApplyJsonPatch(Patchable(p.content[w.delta.value.base]), w.delta.value.patch).Err?
    ensures ExpandNext(p, w).Err?
  {
  }

  lemma ExpandPatched(p: Progress, e: Pair, f: Pair)
    requires Matched(e) && e.stored.body.Patched? && Matched(f) && Supports(f, e)
    requires e.stored.body.delta.base == f.stored.sequence && f.stored.sequence in p.content
    requires p.content[f.stored.sequence] == WireFields(f.pushed.body.content)
    ensures
      var r, full := ExpandNext(p, Serialise(e.stored)), Serialise(e.pushed);
      && (AllAddressed(e.stored.body.delta.patch)
          ==> r == Ok(Progress(p.content[e.stored.sequence := full.fields], p.out + [full])))
      && (!AllAddressed(e.stored.body.delta.patch) ==> r.Err?)
  {
    DeltaExpands(e.stored.body.delta, f.pushed.body.content, e.pushed.body.content);
    if AllAddressed(e.stored.body.delta.patch) {
      PatchStep(p, Serialise(e.stored), WireFields(e.pushed.body.content));
    } else {
      PatchFails(p, Serialise(e.stored));
    }
  }

  /** The state of the loop after the pairs of `es`. */
  ghost predicate ProgressIs(p: Progress, es: seq<Pair>)
    requires AllMatched(es)
  {
    ContentIs(p.content, es) && AllRestored(p.out, es)
  }

  lemma LastIsFresh(es: seq<Pair>, e: Pair)
    requires Unrepeated(es + [e])
    ensures forall f | f in es :: f.stored.sequence != e.stored.sequence
  {
    assert (es + [e])[|es|] == e;
    forall f | f in es ensures f.stored.sequence != e.stored.sequence {
      var i :| 0 <= i < |es| && es[i] == f;
      assert (es + [e])[i] == f;
    }
  }

  lemma Appended(es: seq<Pair>, e: Pair)
    ensures forall f :: f in es + [e] <==> f in es || f == e
    ensures AllMatched(es) && Matched(e) <==> AllMatched(es + [e])
  {
    assert e in es + [e];
    assert forall f :: f in es ==> f in es + [e];
  }

  lemma BorneAppended(es: seq<Pair>, e: Pair, sequence: int)
    ensures Borne(es + [e], sequence) <==> Borne(es, sequence) || (Bears(e) && e.stored.sequence == sequence)
  {
    Appended(es, e);
  }

  lemma ContentGrows(content: map<int, Fields>, es: seq<Pair>, e: Pair)
    requires ContentIs(content, es) && Bears(e)
    requires forall f | f in es :: f.stored.sequence != e.stored.sequence
    ensures ContentIs(content[e.stored.sequence := WireFields(e.pushed.body.content)], es + [e])
  {
    forall s ensures Borne(es + [e], s) <==> Borne(es, s) || e.stored.sequence == s {
      BorneAppended(es, e, s);
    }
  }

  lemma ContentStays(content: map<int, Fields>, es: seq<Pair>, e: Pair)
    requires ContentIs(content, es) && !Bears(e)
    ensures ContentIs(content, es + [e])
  {
    forall s ensures Borne(es + [e], s) <==> Borne(es, s) {
      BorneAppended(es, e, s);
    }
  }

  lemma RestoredGrows(out: seq<WireSnapshot>, w: WireSnapshot, es: seq<Pair>, e: Pair)
    requires AllMatched(es) && Matched(e) && AllMatched(es + [e]) && AllRestored(out, es) && Restored(w, e.pushed)
    ensures AllRestored(out + [w], es + [e])
  {
    forall i | 0 <= i < |es + [e]| ensures (es + [e])[i] in es + [e] && Restored((out + [w])[i], (es + [e])[i].pushed) {
      assert i < |es| ==> (es + [e])[i] == es[i] && es[i] in es;
    }
  }

  /** How the loop's state grows over a snapshot that was expanded. */
  lemma ProgressGrows(p: Progress, w: WireSnapshot, es: seq<Pair>, e: Pair)
    requires AllMatched(es) && Matched(e) && AllMatched(es + [e]) && ProgressIs(p, es) && Restored(w, e.pushed)
    requires forall f | f in es :: f.stored.sequence != e.stored.sequence
    ensures
      var content := if Bears(e) then p.content[e.stored.sequence := WireFields(e.pushed.body.content)] else p.content;
      ProgressIs(Progress(content, p.out + [w]), es + [e])
  {
    RestoredGrows(p.out, w, es, e);
    if Bears(e) {
      ContentGrows(p.content, es, e);
    } else {
      ContentStays(p.content, es, e);
    }
  }

  lemma StepFromRef(p: Progress, es: seq<Pair>, e: Pair, f: Pair)
    requires AllMatched(es) && Matched(e) && AllMatched(es + [e]) && ProgressIs(p, es)
    requires forall g | g in es :: g.stored.sequence != e.stored.sequence
    requires Matched(f) && f in es && Target(e.stored) == Some(f.stored.sequence) && Supports(f, e)
    requires e.stored.body.Ref?
    ensures
      var r := ExpandNext(p, Serialise(e.stored));
      r.Ok? && ProgressIs(r.value, es + [e])
  {
    ExpandRef(p, e, f);
    ProgressGrows(p, RefExpanded(e, f), es, e);
  }

  lemma StepFromPatch(p: Progress, es: seq<Pair>, e: Pair, f: Pair)
    requires AllMatched(es) && Matched(e) && AllMatched(es + [e]) && ProgressIs(p, es)
    requires forall g | g in es :: g.stored.sequence != e.stored.sequence
    requires Matched(f) && f in es && Target(e.stored) == Some(f.stored.sequence) && Supports(f, e)
    requires e.stored.body.Patched?
    ensures
      var r := ExpandNext(p, Serialise(e.stored));
      && (r.Ok? <==> AllAddressed(e.stored.body.delta.patch))
      && (r.Ok? ==> ProgressIs(r.value, es + [e]))
  {
    ExpandPatched(p, e, f);
    FullRestored(e);
    ProgressGrows(p, Serialise(e.pushed), es, e);
  }

  lemma FullRestored(e: Pair)
    requires Matched(e) && !e.stored.body.Plain?
    ensures Restored(Serialise(e.pushed), e.pushed)
    ensures Serialise(e.pushed).fields == WireFields(e.pushed.body.content)
  {
  }

  lemma StepFrom(p: Progress, es: seq<Pair>, e: Pair, f: Pair)
    requires AllMatched(es) && Matched(e) && AllMatched(es + [e]) && ProgressIs(p, es)
    requires forall g | g in es :: g.stored.sequence != e.stored.sequence
    requires Matched(f) && f in es && Target(e.stored) == Some(f.stored.sequence) && Supports(f, e)
    ensures
      var r := ExpandNext(p, Serialise(e.stored));
      && (r.Ok? <==> (e.stored.body.Patched? ==> AllAddressed(e.stored.body.delta.patch)))
      && (r.Ok? ==> ProgressIs(r.value, es + [e]))
  {
    if e.stored.body.Ref? {
      StepFromRef(p, es, e, f);
    } else {
      StepFromPatch(p, es, e, f);
    }
  }

  lemma StepOnce(p: Progress, es: seq<Pair>, e: Pair)
    requires AllMatched(es) && Matched(e) && AllMatched(es + [e]) && ProgressIs(p, es)
    requires Unrepeated(es + [e]) && Linked(es + [e])
    ensures
      var r := ExpandNext(p, Serialise(e.stored));
      && (r.Ok? <==> && (Target(e.stored).Some? ==> Occurs(es, Target(e.stored).value))
                     && (e.stored.body.Patched? ==> AllAddressed(e.stored.body.delta.patch)))
      && (r.Ok? ==> ProgressIs(r.value, es + [e]))
  {
    LastIsFresh(es, e);
    Appended(es, e);
    if e.stored.body.Plain? {
      ExpandPlain(p, e);
      ProgressGrows(p, Serialise(e.stored), es, e);
    } else if Occurs(es, Target(e.stored).value) {
      var f :| f in es && f.stored.sequence == Target(e.stored).value;
      StepFrom(p, es, e, f);
    } else {
      assert Target(e.stored).value !in p.content;
    }
  }

  lemma IntactAppended(es: seq<Pair>, e: Pair)
    ensures Intact(es + [e]) <==> Intact(es) && (e.stored.body.Patched? ==> AllAddressed(e.stored.body.delta.patch))
  {
    assert e in es + [e];
    assert forall f :: f in es ==> f in es + [e];
  }

  lemma SplitLast(es: seq<Pair>, e: Pair)
    requires AllMatched(es + [e]) && Unrepeated(es + [e]) && Linked(es + [e])
    ensures AllMatched(es) && Matched(e) && Unrepeated(es) && Linked(es)
  {
    Appended(es, e);
    assert forall i | 0 <= i < |es| :: (es + [e])[i] == es[i];
  }

  lemma ExpandLast(es: seq<Pair>, e: Pair)
    ensures ExpandUpTo(SerialiseAll(es + [e]))
            == match ExpandUpTo(SerialiseAll(es)) case Err(m) => Err(m) case Ok(p) => ExpandNext(p, Serialise(e.stored))
    ensures Backward(es + [e]) <==> Backward(es) && (Target(e.stored).Some? ==> Occurs(es, Target(e.stored).value))
  {
    assert SerialiseAll(es + [e]) == SerialiseAll(es) + [Serialise(e.stored)];
    assert (SerialiseAll(es) + [Serialise(e.stored)])[..|es|] == SerialiseAll(es);
    assert (es + [e])[..|es|] == es;
  }

  /** Expansion succeeds exactly when every reference and delta names an earlier snapshot and every patch passes
      the applier's guard; and then it restores what was pushed, snapshot for snapshot. */
  lemma {:induction false} ExpansionRestores(es: seq<Pair>)
    requires AllMatched(es) && Unrepeated(es) && Linked(es)
    ensures
      var r := ExpandUpTo(SerialiseAll(es));
      && (r.Ok? <==> Backward(es) && Intact(es))
      && (r.Ok? ==> ProgressIs(r.value, es))
  {
    if es != [] {
      var init, e := es[..|es| - 1], es[|es| - 1];
      assert es == init + [e];
      SplitLast(init, e);
      ExpansionRestores(init);
      OneMoreRestores(init, e);
    }
  }

  lemma OneMoreRestores(es: seq<Pair>, e: Pair)
    requires AllMatched(es) && Matched(e) && AllMatched(es + [e]) && Unrepeated(es + [e]) && Linked(es + [e])
    requires
      var r := ExpandUpTo(SerialiseAll(es));
      && (r.Ok? <==> Backward(es) && Intact(es))
      && (r.Ok? ==> ProgressIs(r.value, es))
    ensures
      var r := ExpandUpTo(SerialiseAll(es + [e]));
      && (r.Ok? <==> Backward(es + [e]) && Intact(es + [e]))
      && (r.Ok? ==> ProgressIs(r.value, es + [e]))
  {
    ExpandLast(es, e);
    IntactAppended(es, e);
    var r := ExpandUpTo(SerialiseAll(es));
    if r.Ok? {
      StepOnce(r.value, es, e);
    }
  }

  lemma NamedContent(c: Content)
    requires Captured(c) && c.domTree != Undefined && NoEmptyKeys(c)
    ensures NoEmptyKey(ContentOf(c))
  {
  }

  /** Patches of content without empty member names are never refused. */
  lemma NamedIsIntact(es: seq<Pair>)
    requires AllMatched(es) && Linked(es) && Backward(es)
    requires forall e | e in es :: NoEmptyKeys(e.pushed.body.content)
    ensures Intact(es)
  {
    forall e | e in es && e.stored.body.Patched? ensures AllAddressed(e.stored.body.delta.patch) {
      TargetOccurs(es, e);
      var f :| f in es && f.stored.sequence == e.stored.body.delta.base;
      assert Supports(f, e);
      var base, content := f.pushed.body.content, e.pushed.body.content;
      var copy: Content :| CopyOf(copy, base) && e.stored.body.delta.patch == Patch(ContentOf(copy), ContentOf(content));
      NamedContent(copy);
      NamedContent(content);
      PatchIsAddressed(ContentOf(copy), ContentOf(content));
    }
  }

  lemma {:induction false} TargetOccurs(es: seq<Pair>, e: Pair)
    requires Backward(es) && e in es && Target(e.stored).Some?
    ensures Occurs(es, Target(e.stored).value)
  {
    var init, last := es[..|es| - 1], es[|es| - 1];
    Appended(init, last);
    assert init + [last] == es;
    if e != last {
      TargetOccurs(init, e);
    }
  }
}
