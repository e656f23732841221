/**
 In which form a captured snapshot is stored (extension/src/content.ts:1160-1289): whole, as a reference to an equal one,
 or as a delta to the newest whole one; and what a resumed recording still compares with.
 */
module SnapshotForms {
  import opened Wrappers
  import opened JsonPatch
  import opened SnapshotDelta
  import opened JsonStrip
  import opened SnapshotExpansion
  import opened SnapshotStore

  predicate HasContent(s: Snapshot) { s.body.Plain? && s.body.content.domTree != Undefined }

  /** What two captures are compared by, besides their address: the texts of their parts, geometry left out of the
      selector map. */
  function Compared(c: Content): (JsValue, JsValue, JsValue) {
    (Strip(if c.selectorMap == Undefined || c.selectorMap == Null then Obj([], map[]) else c.selectorMap, {"boundingRect"}),
     Strip(if c.domTree == Undefined then Null else c.domTree, {}),
     Strip(if c.capture == Undefined then Null else c.capture, {}))
  }

  /** The same page with the same content. */
  predicate Repeats(a: Snapshot, b: Snapshot)
    requires HasContent(a) && HasContent(b)
  {
    a.url == b.url && Compared(a.body.content) == Compared(b.body.content)
  }

  function Newest(st: Store): Snapshot
    requires st.stored != []
  {
    st.stored[|st.stored| - 1]
  }

  /** The number under which the content of the snapshot can be found. */
  function Home(s: Snapshot): int { if s.body.Ref? then s.body.target else s.sequence }

  /** The store compares with this content, found under this number. */
  predicate ComparesWith(st: Store, s: Snapshot, number: int)
    requires HasContent(s)
  {
    && st.last.Some? && st.last.value.sequence == number && st.last.value.url == s.url
    && (st.last.value.selectorMap, st.last.value.domTree, st.last.value.capture) == Compared(s.body.content)
  }

  lemma AfterPush(st: Store, a: Snapshot, small: bool)
    requires HasContent(a)
    ensures
      var next := Push(st, a, small);
      && next.stored == st.stored + [a.(body := Newest(next).body)]
      && ComparesWith(next, a, Home(Newest(next)))
  {
  }

  lemma AfterComparing(st: Store, a: Snapshot, number: int, b: Snapshot, small: bool)
    requires HasContent(a) && HasContent(b) && ComparesWith(st, a, number)
    ensures
      var body := Newest(Push(st, b, small)).body;
      (body.Ref? <==> Repeats(a, b)) && (body.Ref? ==> body.target == number)
  {
  }

  /** A snapshot without content is stored as it is, and what comes after it is compared and stored as if it had not
      been there. */
  lemma EmptyIsStoredAsIs(st: Store, s: Snapshot, small: bool)
    requires s.body.Plain? && s.body.content.domTree == Undefined
    ensures
      var next := Push(st, s, small);
      next.stored == st.stored + [s] && next.last == st.last && next.base == st.base
  {
  }

  /** What is pushed has no content, or repeats `a`. */
  predicate NothingNew(a: Snapshot, s: Snapshot)
    requires HasContent(a)
  {
    HasContent(s) ==> Repeats(a, s)
  }

  /** The store after one push after the other; what is small enough is told for each. */
  function PushAll(st: Store, list: seq<Snapshot>, small: seq<bool>): Store
    requires |list| == |small| && forall s | s in list :: s.body.Plain?
    decreases |list|
  {
    if list == [] then st else PushAll(Push(st, list[0], small[0]), list[1..], small[1..])
  }

  lemma {:induction false} StillCompares(st: Store, a: Snapshot, number: int, list: seq<Snapshot>, small: seq<bool>)
    requires HasContent(a) && ComparesWith(st, a, number)
    requires |list| == |small| && forall s | s in list :: s.body.Plain? && NothingNew(a, s)
    ensures ComparesWith(PushAll(st, list, small), a, number)
    decreases |list|
  {
    if list != [] {
      assert NothingNew(a, list[0]);
      if HasContent(list[0]) {
        AfterComparing(st, a, number, list[0], small[0]);
      } else {
        EmptyIsStoredAsIs(st, list[0], small[0]);
      }
      StillCompares(Push(st, list[0], small[0]), a, number, list[1..], small[1..]);
    }
  }

  /** After a capture `a`, and any number of others that have no content or repeat it, a capture is stored as a reference
      exactly when it repeats `a`, and then to where the content of `a` can be found. */
  lemma RepeatedIsReferred(st: Store, a: Snapshot, smallA: bool, between: seq<Snapshot>, small: seq<bool>, b: Snapshot,
      smallB: bool)
    requires HasContent(a) && HasContent(b) && |between| == |small|
    requires forall s | s in between :: s.body.Plain? && NothingNew(a, s)
    ensures
      var first := Push(st, a, smallA);
      var body := Newest(Push(PushAll(first, between, small), b, smallB)).body;
      (body.Ref? <==> Repeats(a, b)) && (body.Ref? ==> body.target == Home(Newest(first)))
  {
    var first := Push(st, a, smallA);
    AfterPush(st, a, smallA);
    StillCompares(first, a, Home(Newest(first)), between, small);
    AfterComparing(PushAll(first, between, small), a, Home(Newest(first)), b, smallB);
  }

  /** The newest whole snapshot that deltas refer to. */
  predicate DeltasReferTo(st: Store, s: Snapshot)
    requires HasContent(s)
  {
    st.base == Some(DeltaBase(s.sequence, ContentOf(s.body.content)))
  }

  /** A capture that repeats nothing is stored as a delta to the newest whole snapshot exactly when there is a delta,
      and whole otherwise; then later deltas refer to it. */
  lemma OtherIsDeltaOrWhole(st: Store, whole: Snapshot, b: Snapshot, small: bool)
    requires HasContent(whole) && HasContent(b) && DeltasReferTo(st, whole) && !Newest(Push(st, b, small)).body.Ref?
    ensures
      var next := Push(st, b, small);
      match BuildSnapshotDelta(whole.sequence, ContentOf(whole.body.content), ContentOf(b.body.content), small)
      case Some(delta) => Newest(next).body == Patched(delta) && DeltasReferTo(next, whole)
      case None => Newest(next) == b && DeltasReferTo(next, b)
  {
  }

  /** The first capture of a recording is stored whole. */
  lemma FirstIsWhole(st: Store, b: Snapshot, small: bool)
    requires HasContent(b) && st.last == None && st.base == None
    ensures Newest(Push(st, b, small)) == b && DeltasReferTo(Push(st, b, small), b)
    ensures ComparesWith(Push(st, b, small), b, b.sequence)
  {
  }

  // ---------- after a resume ----------

  /** Snapshot `n` is the newest in the list that is stored whole. */
  predicate NewestWhole(list: seq<Snapshot>, n: nat) {
    n < |list| && HasContent(list[n]) && forall m | n < m < |list| :: !HasContent(list[m])
  }

  lemma {:induction false} NewestFullIs(list: seq<Snapshot>, n: nat)
    requires NewestWhole(list, n)
    ensures NewestFull(list) == Some(list[n])
  {
    if n < |list| - 1 {
      NewestFullIs(list[..|list| - 1], n);
    }
  }

  lemma {:induction false} NoFull(list: seq<Snapshot>)
    requires forall s | s in list :: !HasContent(s)
    ensures NewestFull(list) == None
  {
    if list != [] {
      assert !HasContent(list[|list| - 1]) by {
        assert list[|list| - 1] in list;
      }
      NoFull(list[..|list| - 1]);
    }
  }

  lemma ReparsedCompares(c: Content)
    ensures Compared(Content(Strip(c.selectorMap, {}), Strip(c.domTree, {}), Strip(c.capture, {}))) == Compared(c)
    ensures Strip(c.domTree, {}) == Undefined <==> c.domTree == Undefined
  {
    StripTwice(c.selectorMap, {"boundingRect"});
    StripTwice(c.domTree, {});
    StripTwice(c.capture, {});
    StripUndefined(c.selectorMap, {});
    StripUndefined(c.domTree, {});
    StripUndefined(c.capture, {});
  }

  lemma ReparsedHasContent(s: Snapshot)
    ensures HasContent(Reparsed(s)) == HasContent(s)
    ensures HasContent(s) ==> Compared(Reparsed(s).body.content) == Compared(s.body.content)
    ensures Reparsed(s).sequence == s.sequence && Reparsed(s).url == s.url
  {
    if s.body.Plain? {
      ReparsedCompares(s.body.content);
    }
  }

  /** After a resume the recorder compares with the newest snapshot stored whole, and deltas refer to it; when none is,
      there is nothing to compare with or to refer to. */
  lemma ResumeComparesWithNewestWhole(st: Store)
    ensures forall n: nat | NewestWhole(st.stored, n) ::
              && ComparesWith(Resume(st), st.stored[n], st.stored[n].sequence)
              && HasContent(Resume(st).stored[n]) && DeltasReferTo(Resume(st), Resume(st).stored[n])
    ensures (forall s | s in st.stored :: !HasContent(s)) ==> Resume(st).last == None && Resume(st).base == None
  {
    var list := ReparsedAll(st.stored);
    forall i | 0 <= i < |list|
      ensures HasContent(list[i]) == HasContent(st.stored[i])
    {
      ReparsedHasContent(st.stored[i]);
    }
    forall n: nat | NewestWhole(st.stored, n)
      ensures ComparesWith(Resume(st), st.stored[n], st.stored[n].sequence)
      ensures HasContent(Resume(st).stored[n]) && DeltasReferTo(Resume(st), Resume(st).stored[n])
    {
      NewestFullIs(list, n);
      ReparsedHasContent(st.stored[n]);
    }
    if forall s | s in st.stored :: !HasContent(s) {
      NoFull(list);
    }
  }

  /** So a capture that repeats the newest snapshot stored whole is stored as a reference to it after a resume. */
  lemma RepeatedAfterResume(st: Store, n: nat, b: Snapshot, small: bool)
    requires NewestWhole(st.stored, n) && HasContent(b)
    ensures
      var body := Newest(Push(Resume(st), b, small)).body;
      (body.Ref? <==> Repeats(st.stored[n], b)) && (body.Ref? ==> body.target == st.stored[n].sequence)
  {
    ResumeComparesWithNewestWhole(st);
    AfterComparing(Resume(st), st.stored[n], st.stored[n].sequence, b, small);
  }
}
