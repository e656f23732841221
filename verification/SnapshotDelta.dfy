/**
 `diffJson` and `buildSnapshotDelta` of extension/src/recording/snapshot-delta.ts, and the law they
 exist for: applying the patch to the base gives the target.
 */
module SnapshotDelta {
  import opened Wrappers
  import opened JsonPointer
  import opened JsonPatch

  /** A value as the page holds it: a member can be present and `undefined`, and members have an order. */
  datatype JsValue =
    | Undefined
    | Null
    | Bool(b: bool)
    | Num(n: real)
    | Str(s: string)
    | Arr(items: seq<JsValue>)
    | Obj(keys: seq<string>, vals: map<string, JsValue>)

  predicate Distinct<T(==)>(s: seq<T>) { forall i, j | 0 <= i < j < |s| :: s[i] != s[j] }

  /** Every object lists each of its members once. */
  ghost predicate WellFormed(v: JsValue) {
    match v
    case Arr(items) => forall i | 0 <= i < |items| :: WellFormed(items[i])
    case Obj(keys, vals) =>
      && Distinct(keys)
      && (forall k :: k in keys <==> k in vals)
      && forall k | k in vals :: WellFormed(vals[k])
    case _ => true
  }

  /** A member that `JSON.stringify` would keep. */
  predicate Owned(vals: map<string, JsValue>, key: string) { key in vals && vals[key] != Undefined }

  /** `present` of `diffJson`: `key in record` also finds inherited names. */
  predicate Present(vals: map<string, JsValue>, key: string) {
    if key in vals then vals[key] != Undefined else Inherited(key)
  }

  /** `JSON.parse(JSON.stringify(v))`: undefined members vanish, undefined items become null. */
  function Wire(v: JsValue): Json {
    match v
    case Undefined => JNull
    case Null => JNull
    case Bool(b) => JBool(b)
    case Num(n) => JNum(n)
    case Str(s) => JStr(s)
    case Arr(items) => JArr(seq(|items|, i requires 0 <= i < |items| => Wire(items[i])))
    case Obj(_, vals) => JObj(map k | k in vals && vals[k] != Undefined :: Wire(vals[k]))
  }

  // ---------- diffJson ----------

  /** An operation before it is printed: its path is still a list of tokens. */
  datatype Edit = Edit(op: OpName, tokens: seq<string>, value: JsValue)

  function Below(token: string, edits: seq<Edit>): (r: seq<Edit>)
    ensures |r| == |edits|
  {
    seq(|edits|, i requires 0 <= i < |edits| => edits[i].(tokens := [token] + edits[i].tokens))
  }

  function JsonSafe(v: JsValue): JsValue { if v == Undefined then Null else v }

  predicate SameContainer(base: JsValue, target: JsValue) { (base.Arr? && target.Arr?) || (base.Obj? && target.Obj?) }

  /** The operations that turn `base` into `target`, with paths relative to them. */
  function Diff(base: JsValue, target: JsValue): seq<Edit>
    decreases target, 3, 0
  {
    if base == target then []
    else if !SameContainer(base, target) then [Edit(Replace, [], JsonSafe(target))]
    else if base.Arr? then
      var shared := if |base.items| <= |target.items| then |base.items| else |target.items|;
      DiffItems(base, target, 0, shared) + Removals(|base.items|, shared) + Additions(target.items, shared)
    else DiffRemovedKeys(base, target, 0) + DiffKeys(base, target, 0)
  }

  function DiffItems(base: JsValue, target: JsValue, i: nat, shared: nat): seq<Edit>
    requires base.Arr? && target.Arr? && i <= shared <= |base.items| && shared <= |target.items|
    decreases target, 2, shared - i
  {
    if i == shared then []
    else Below(Decimal(i), Diff(base.items[i], target.items[i])) + DiffItems(base, target, i + 1, shared)
  }

  /** Trailing items are removed from the end backwards. */
  function Removals(length: nat, shared: nat): seq<Edit> {
    if length <= shared then [] else [Edit(Remove, [Decimal(length - 1)], Undefined)] + Removals(length - 1, shared)
  }

  function Additions(items: seq<JsValue>, i: nat): seq<Edit>
    decreases |items| - i
  {
    if i >= |items| then [] else [Edit(Add, [Decimal(i)], JsonSafe(items[i]))] + Additions(items, i + 1)
  }

  function DiffRemovedKeys(base: JsValue, target: JsValue, i: nat): seq<Edit>
    requires base.Obj? && target.Obj? && i <= |base.keys|
    decreases |base.keys| - i
  {
    if i == |base.keys| then []
    else
      (if Owned(base.vals, base.keys[i]) && !Present(target.vals, base.keys[i])
       then [Edit(Remove, [base.keys[i]], Undefined)] else [])
      + DiffRemovedKeys(base, target, i + 1)
  }

  function DiffKeys(base: JsValue, target: JsValue, i: nat): seq<Edit>
    requires base.Obj? && target.Obj? && i <= |target.keys|
    decreases target, 2, |target.keys| - i
  {
    if i == |target.keys| then []
    else
      var key := target.keys[i];
      (if !Owned(target.vals, key) then []
       else if !Present(base.vals, key) then [Edit(Add, [key], target.vals[key])]
       else if key in base.vals then Below(key, Diff(base.vals[key], target.vals[key]))
       else [Edit(Replace, [key], target.vals[key])])
      + DiffKeys(base, target, i + 1)
  }

  // ---------- running edits ----------

  /** An edit with an empty path replaces the value it is relative to. */
  function Perform(doc: Json, edit: Edit): Result<Json>
    requires edit.op != Unsupported
  {
    if edit.tokens == [] then (if edit.op == Replace then Ok(Wire(edit.value)) else Err("no container"))
    else EditAt(doc, edit.tokens, edit.op, Wire(edit.value))
  }

  predicate Supported(edits: seq<Edit>) {
    forall i | 0 <= i < |edits| :: edits[i].op != Unsupported && (edits[i].tokens == [] ==> edits[i].op == Replace)
  }

  function RunEdits(doc: Json, edits: seq<Edit>): Result<Json>
    requires Supported(edits)
    decreases |edits|
  {
    if edits == [] then Ok(doc)
    else
      match Perform(doc, edits[0])
      case Err(e) => Err(e)
      case Ok(next) => RunEdits(next, edits[1..])
  }

  lemma {:induction false} RunConcat(doc: Json, first: seq<Edit>, second: seq<Edit>)
    requires Supported(first) && Supported(second)
    ensures Supported(first + second)
    ensures RunEdits(doc, first + second)
            == match RunEdits(doc, first) case Err(e) => Err(e) case Ok(mid) => RunEdits(mid, second)
    decreases |first|
  {
    if first == [] {
      assert first + second == second;
    } else {
      assert (first + second)[1..] == first[1..] + second;
      match Perform(doc, first[0])
      case Err(_) =>
      case Ok(next) => RunConcat(next, first[1..], second);
    }
  }

  lemma RunCons(doc: Json, edit: Edit, rest: seq<Edit>)
    requires edit.op != Unsupported && (edit.tokens == [] ==> edit.op == Replace)
    requires Supported(rest) && Perform(doc, edit).Ok?
    ensures Supported([edit] + rest)
    ensures RunEdits(doc, [edit] + rest) == RunEdits(Perform(doc, edit).value, rest)
  {
    assert ([edit] + rest)[1..] == rest;
  }

  /** An edit moved below a token does to the child what it did to the whole. */
  lemma PerformBelow(doc: Json, token: string, edit: Edit)
    requires edit.op != Unsupported && (edit.tokens == [] ==> edit.op == Replace)
    requires Child(doc, token).Ok?
    ensures Perform(doc, edit.(tokens := [token] + edit.tokens))
            == match Perform(Child(doc, token).value, edit)
               case Err(e) => Err(e)
               case Ok(edited) => Ok(Put(doc, token, edited))
  {
    assert ([token] + edit.tokens)[1..] == edit.tokens;
  }

  lemma {:induction false} RunBelow(doc: Json, token: string, edits: seq<Edit>)
    requires Supported(edits) && Child(doc, token).Ok?
    requires RunEdits(Child(doc, token).value, edits).Ok?
    ensures Supported(Below(token, edits))
    ensures RunEdits(doc, Below(token, edits)) == Ok(Put(doc, token, RunEdits(Child(doc, token).value, edits).value))
    decreases |edits|
  {
    var child := Child(doc, token).value;
    if edits == [] {
      PutThenChild(doc, token, child, child);
    } else {
      PerformBelow(doc, token, edits[0]);
      var next := Perform(child, edits[0]).value;
      PutThenChild(doc, token, next, RunEdits(next, edits[1..]).value);
      RunBelow(Put(doc, token, next), token, edits[1..]);
      assert Below(token, edits)[1..] == Below(token, edits[1..]);
    }
  }

  // ---------- every edit is usable ----------

  /** No operation is unknown, lacks its value, or replaces nothing. */
  predicate UsableEdit(edit: Edit) {
    && edit.op != Unsupported
    && (edit.tokens == [] ==> edit.op == Replace)
    && (edit.op != Remove ==> edit.value != Undefined)
  }

  predicate Usable(edits: seq<Edit>) { forall i | 0 <= i < |edits| :: UsableEdit(edits[i]) }

  lemma UsableBelow(token: string, edits: seq<Edit>)
    requires Usable(edits)
    ensures Usable(Below(token, edits))
  {
  }

  /** The valueless operations that `buildSnapshotDelta` guards against are never produced. */
  lemma {:induction false} DiffIsUsable(base: JsValue, target: JsValue)
    ensures Usable(Diff(base, target))
    decreases target, 3, 0
  {
    if base != target && SameContainer(base, target) {
      if base.Arr? {
        var shared := if |base.items| <= |target.items| then |base.items| else |target.items|;
        ItemsUsable(base, target, 0, shared);
        RemovalsUsable(|base.items|, shared);
        AdditionsUsable(target.items, shared);
      } else {
        RemovedKeysUsable(base, target, 0);
        KeysUsable(base, target, 0);
      }
    }
  }

  lemma {:induction false} ItemsUsable(base: JsValue, target: JsValue, i: nat, shared: nat)
    requires base.Arr? && target.Arr? && i <= shared <= |base.items| && shared <= |target.items|
    ensures Usable(DiffItems(base, target, i, shared))
    decreases target, 2, shared - i
  {
    if i < shared {
      DiffIsUsable(base.items[i], target.items[i]);
      UsableBelow(Decimal(i), Diff(base.items[i], target.items[i]));
      ItemsUsable(base, target, i + 1, shared);
    }
  }

  lemma {:induction false} RemovalsUsable(length: nat, shared: nat)
    ensures Usable(Removals(length, shared))
  {
    if length > shared {
      RemovalsUsable(length - 1, shared);
    }
  }

  lemma {:induction false} AdditionsUsable(items: seq<JsValue>, i: nat)
    ensures Usable(Additions(items, i))
    decreases |items| - i
  {
    if i < |items| {
      AdditionsUsable(items, i + 1);
    }
  }

  lemma {:induction false} RemovedKeysUsable(base: JsValue, target: JsValue, i: nat)
    requires base.Obj? && target.Obj? && i <= |base.keys|
    ensures Usable(DiffRemovedKeys(base, target, i))
    decreases |base.keys| - i
  {
    if i < |base.keys| {
      RemovedKeysUsable(base, target, i + 1);
    }
  }

  lemma {:induction false} KeysUsable(base: JsValue, target: JsValue, i: nat)
    requires base.Obj? && target.Obj? && i <= |target.keys|
    ensures Usable(DiffKeys(base, target, i))
    decreases target, 2, |target.keys| - i
  {
    if i < |target.keys| {
      var key := target.keys[i];
      KeysUsable(base, target, i + 1);
      if Owned(target.vals, key) && Owned(base.vals, key) {
        DiffIsUsable(base.vals[key], target.vals[key]);
        UsableBelow(key, Diff(base.vals[key], target.vals[key]));
      }
    }
  }

  // ---------- running the diff gives the target ----------

  function WireAll(items: seq<JsValue>): (r: seq<Json>)
    ensures |r| == |items|
  {
    seq(|items|, i requires 0 <= i < |items| => Wire(items[i]))
  }

  lemma WireArr(items: seq<JsValue>)
    ensures Wire(Arr(items)) == JArr(WireAll(items))
  {
  }

  /** A member the diff leaves alone: the target does not own it, but answers to its name. */
  predicate Stays(base: JsValue, target: JsValue, key: string)
    requires base.Obj? && target.Obj?
  {
    Owned(base.vals, key) && key !in target.vals && Inherited(key)
  }

  /** The target as it travels, with the members the diff leaves alone beside its own at every depth. */
  ghost function Landed(base: JsValue, target: JsValue): Json
    decreases target, 1
  {
    if base == target || !SameContainer(base, target) then Wire(target)
    else if base.Arr? then JArr(LandedItems(base, target))
    else JObj(map k | k in base.vals.Keys + target.vals.Keys && (Owned(target.vals, k) || Stays(base, target, k)) ::
                (if !Owned(target.vals, k) then Wire(base.vals[k])
                 else if Owned(base.vals, k) then Landed(base.vals[k], target.vals[k])
                 else Wire(target.vals[k])))
  }

  ghost function LandedItems(base: JsValue, target: JsValue): (r: seq<Json>)
    requires base.Arr? && target.Arr?
    ensures |r| == |target.items|
    decreases target, 0
  {
    seq(|target.items|, i requires 0 <= i < |target.items| =>
      if i < |base.items| then Landed(base.items[i], target.items[i]) else Wire(target.items[i]))
  }

  /** Somewhere the two are compared member by member, and a member stays behind. */
  ghost predicate Leftover(base: JsValue, target: JsValue)
    decreases target
  {
    && base != target
    && SameContainer(base, target)
    && (if base.Arr? then
          exists i | 0 <= i < |base.items| && i < |target.items| :: Leftover(base.items[i], target.items[i])
        else
          exists k | k in base.vals ::
            Stays(base, target, k)
            || (Owned(base.vals, k) && Owned(target.vals, k) && Leftover(base.vals[k], target.vals[k])))
  }

  lemma {:induction false} LandsWhenNothingStays(base: JsValue, target: JsValue)
    ensures Landed(base, target) == Wire(target) <==> !Leftover(base, target)
    decreases target, 1
  {
    if base != target && SameContainer(base, target) {
      if base.Arr? {
        forall i | 0 <= i < |base.items| && i < |target.items|
          ensures Landed(base.items[i], target.items[i]) == Wire(target.items[i])
                  <==> !Leftover(base.items[i], target.items[i])
        {
          LandsWhenNothingStays(base.items[i], target.items[i]);
        }
        ItemsLand(base, target);
      } else {
        forall k | k in base.vals && Owned(target.vals, k)
          ensures Landed(base.vals[k], target.vals[k]) == Wire(target.vals[k])
                  <==> !Leftover(base.vals[k], target.vals[k])
        {
          LandsWhenNothingStays(base.vals[k], target.vals[k]);
        }
        MembersLand(base, target);
      }
    }
  }

  lemma ItemsLand(base: JsValue, target: JsValue)
    requires base.Arr? && target.Arr? && base != target
    requires forall i | 0 <= i < |base.items| && i < |target.items| ::
               Landed(base.items[i], target.items[i]) == Wire(target.items[i])
               <==> !Leftover(base.items[i], target.items[i])
    ensures Landed(base, target) == Wire(target) <==> !Leftover(base, target)
  {
    var l, t := LandedItems(base, target), WireAll(target.items);
    WireArr(target.items);
    assert l == t <==> forall i | 0 <= i < |l| :: l[i] == t[i];
    if Leftover(base, target) {
      var i :| 0 <= i < |base.items| && i < |target.items| && Leftover(base.items[i], target.items[i]);
      assert l[i] != t[i];
    }
  }

  lemma MembersLand(base: JsValue, target: JsValue)
    requires base.Obj? && target.Obj? && base != target
    requires forall k | k in base.vals && Owned(target.vals, k) ::
               Landed(base.vals[k], target.vals[k]) == Wire(target.vals[k])
               <==> !Leftover(base.vals[k], target.vals[k])
    ensures Landed(base, target) == Wire(target) <==> !Leftover(base, target)
  {
    var l, t := Landed(base, target).members, Wire(target).members;
    assert forall k :: k in t <==> Owned(target.vals, k);
    assert forall k :: k in l <==> Owned(target.vals, k) || Stays(base, target, k);
    if Leftover(base, target) {
      var k :| k in base.vals
        && (Stays(base, target, k)
            || (Owned(base.vals, k) && Owned(target.vals, k) && Leftover(base.vals[k], target.vals[k])));
      if Stays(base, target, k) {
        assert k in l && k !in t;
      } else {
        assert l[k] == Landed(base.vals[k], target.vals[k]) && t[k] == Wire(target.vals[k]);
      }
    } else {
      assert l == t;
    }
  }

  /** Running the edits of a diff on the base, as it travels, yields the target as it travels, beside the
      members that stay. */
  lemma {:induction false} DiffRuns(base: JsValue, target: JsValue)
    requires WellFormed(base) && WellFormed(target)
    ensures Supported(Diff(base, target))
    ensures RunEdits(Wire(base), Diff(base, target)) == Ok(Landed(base, target))
    decreases target, 3, 0
  {
    DiffIsUsable(base, target);
    if base != target && SameContainer(base, target) {
      if base.Arr? {
        ArrayRuns(base, target);
      } else {
        ObjectRuns(base, target);
      }
    }
  }

  lemma {:induction false} ArrayRuns(base: JsValue, target: JsValue)
    requires base.Arr? && target.Arr? && base != target && WellFormed(base) && WellFormed(target)
    ensures Supported(Diff(base, target))
    ensures RunEdits(Wire(base), Diff(base, target)) == Ok(Landed(base, target))
    decreases target, 2, |target.items| + 1
  {
    var b, l := WireAll(base.items), LandedItems(base, target);
    var shared := if |b| <= |l| then |b| else |l|;
    ItemsRun(base, target, 0, shared);
    assert l[..0] + b[0..] == b;
    LengthFits(b, l, shared);
    LengthRuns(target.items, l[..shared] + b[shared..], shared);
    WireArr(base.items);
    NewItemsLand(base, target, shared);
    InTwoParts(JArr(b), JArr(l[..shared] + b[shared..]), JArr(l), DiffItems(base, target, 0, shared),
               Removals(|b|, shared), Additions(target.items, shared));
  }

  lemma NewItemsLand(base: JsValue, target: JsValue, shared: nat)
    requires base.Arr? && target.Arr? && shared <= |target.items| && (shared == |base.items| || shared == |target.items|)
    ensures LandedItems(base, target)[..shared] + WireAll(target.items)[shared..] == LandedItems(base, target)
  {
  }

  lemma LengthFits<T>(b: seq<T>, t: seq<T>, shared: nat)
    requires shared <= |b| && shared <= |t|
    ensures |t[..shared] + b[shared..]| == |b| && (t[..shared] + b[shared..])[..shared] == t[..shared]
  {
  }

  lemma InTwoParts(doc: Json, mid: Json, end: Json, first: seq<Edit>, second: seq<Edit>, third: seq<Edit>)
    requires Supported(first) && RunEdits(doc, first) == Ok(mid)
    requires Supported(second + third) && RunEdits(mid, second + third) == Ok(end)
    ensures Supported(first + second + third) && RunEdits(doc, first + second + third) == Ok(end)
  {
    RunConcat(doc, first, second + third);
    assert first + second + third == first + (second + third);
  }

  /** After the shared items, adjusting the length completes the target. */
  lemma LengthRuns(items: seq<JsValue>, mid: seq<Json>, shared: nat)
    requires shared <= |items| && shared <= |mid| && (shared == |items| || shared == |mid|)
    ensures Supported(Removals(|mid|, shared) + Additions(items, shared))
    ensures RunEdits(JArr(mid), Removals(|mid|, shared) + Additions(items, shared))
            == Ok(JArr(mid[..shared] + WireAll(items)[shared..]))
  {
    RemovalsRun(mid, shared);
    AdditionsRun(items, mid[..shared]);
    RunConcat(JArr(mid), Removals(|mid|, shared), Additions(items, shared));
  }

  lemma SwapOne<T>(l: seq<T>, b: seq<T>, i: nat)
    requires i < |l| && i < |b|
    ensures |l[..i] + b[i..]| == |b| && (l[..i] + b[i..])[i] == b[i]
    ensures (l[..i] + b[i..])[i := l[i]] == l[..i + 1] + b[i + 1..]
  {
  }

  /** After item `i` the array holds the target's first items and the base's others. */
  lemma {:induction false} ItemsRun(base: JsValue, target: JsValue, i: nat, shared: nat)
    requires base.Arr? && target.Arr? && i <= shared <= |base.items| && shared <= |target.items|
    requires WellFormed(base) && WellFormed(target)
    ensures Supported(DiffItems(base, target, i, shared))
    ensures
      var b, l := WireAll(base.items), LandedItems(base, target);
      RunEdits(JArr(l[..i] + b[i..]), DiffItems(base, target, i, shared)) == Ok(JArr(l[..shared] + b[shared..]))
    decreases target, 2, shared - i
  {
    ItemsUsable(base, target, i, shared);
    if i < shared {
      var b, l := WireAll(base.items), LandedItems(base, target);
      var doc := JArr(l[..i] + b[i..]);
      DiffRuns(base.items[i], target.items[i]);
      IndexReadsBack(i, |b|, false);
      SwapOne(l, b, i);
      var edits := Diff(base.items[i], target.items[i]);
      RunBelow(doc, Decimal(i), edits);
      ItemsRun(base, target, i + 1, shared);
      RunConcat(doc, Below(Decimal(i), edits), DiffItems(base, target, i + 1, shared));
    }
  }

  lemma {:induction false} RemovalsRun(items: seq<Json>, shared: nat)
    requires shared <= |items|
    ensures Supported(Removals(|items|, shared))
    ensures RunEdits(JArr(items), Removals(|items|, shared)) == Ok(JArr(items[..shared]))
    decreases |items|
  {
    RemovalsUsable(|items|, shared);
    if shared < |items| {
      var n := |items| - 1;
      IndexReadsBack(n, |items|, false);
      assert items[..n] + items[n + 1..] == items[..n];
      assert items[..n][..shared] == items[..shared];
      RemovalsRun(items[..n], shared);
      RunCons(JArr(items), Edit(Remove, [Decimal(n)], Undefined), Removals(n, shared));
    } else {
      assert items[..shared] == items;
    }
  }

  lemma TakeOne<T>(start: seq<T>, t: seq<T>)
    requires |start| < |t|
    ensures start + [t[|start|]] + t[|start| + 1..] == start + t[|start|..]
  {
  }

  lemma AdditionStep(start: seq<Json>, token: string, item: JsValue, rest: seq<Edit>)
    requires token == Decimal(|start|) && Supported(rest)
    ensures Supported([Edit(Add, [token], JsonSafe(item))] + rest)
    ensures RunEdits(JArr(start), [Edit(Add, [token], JsonSafe(item))] + rest)
            == RunEdits(JArr(start + [Wire(item)]), rest)
  {
    IndexReadsBack(|start|, |start|, true);
    var edit := Edit(Add, [token], JsonSafe(item));
    assert start[..|start|] + [Wire(item)] + start[|start|..] == start + [Wire(item)];
    RunCons(JArr(start), edit, rest);
  }

  lemma {:induction false} AdditionsRun(items: seq<JsValue>, start: seq<Json>)
    requires |start| <= |items|
    ensures Supported(Additions(items, |start|))
    ensures RunEdits(JArr(start), Additions(items, |start|)) == Ok(JArr(start + WireAll(items)[|start|..]))
    decreases |items| - |start|
  {
    var i := |start|;
    AdditionsUsable(items, i);
    var t := WireAll(items);
    if i < |items| {
      AdditionsRun(items, start + [t[i]]);
      AdditionStep(start, Decimal(i), items[i], Additions(items, i + 1));
      TakeOne(start, t);
    } else {
      assert start + t[i..] == start;
    }
  }

  // ---------- objects ----------

  /** The members while removals run: those of the base, less the ones already dropped. */
  ghost function AfterRemovals(base: JsValue, target: JsValue, done: set<string>): map<string, Json>
    requires base.Obj? && target.Obj?
  {
    map k | k in base.vals && base.vals[k] != Undefined
        && !(k in done && !Present(target.vals, k)) :: Wire(base.vals[k])
  }

  /** The members while the target's keys are visited: visited ones have landed, the rest are still the base's. */
  ghost function AfterKeys(base: JsValue, target: JsValue, done: set<string>): map<string, Json>
    requires base.Obj? && target.Obj?
  {
    map k | k in base.vals.Keys + target.vals.Keys
        && ((Owned(target.vals, k) && (k in done || Owned(base.vals, k))) || Stays(base, target, k)) ::
      (if k !in done || !Owned(target.vals, k) then Wire(base.vals[k])
       else if Owned(base.vals, k) then Landed(base.vals[k], target.vals[k])
       else Wire(target.vals[k]))
  }

  function Visited(keys: seq<string>, i: nat): set<string>
    requires i <= |keys|
  {
    set k | k in keys[..i]
  }

  lemma VisitedStep(keys: seq<string>, i: nat)
    requires i < |keys| && Distinct(keys)
    ensures keys[i] !in Visited(keys, i)
    ensures Visited(keys, i + 1) == Visited(keys, i) + {keys[i]}
  {
    assert keys[..i + 1] == keys[..i] + [keys[i]];
  }

  lemma RemovalStep(base: JsValue, target: JsValue, done: set<string>, key: string)
    requires base.Obj? && target.Obj? && key !in done
    ensures
      var before, after := AfterRemovals(base, target, done), AfterRemovals(base, target, done + {key});
      if Owned(base.vals, key) && !Present(target.vals, key) then key in before && after == before - {key}
      else after == before
  {
  }

  lemma KeyStep(base: JsValue, target: JsValue, done: set<string>, key: string)
    requires base.Obj? && target.Obj? && key !in done
    ensures
      var before, after := AfterKeys(base, target, done), AfterKeys(base, target, done + {key});
      if !Owned(target.vals, key) then after == before
      else if !Owned(base.vals, key) then after == before[key := Wire(target.vals[key])]
      else
        && key in before && before[key] == Wire(base.vals[key])
        && after == before[key := Landed(base.vals[key], target.vals[key])]
  {
  }

  lemma RemovalsStart(base: JsValue, target: JsValue)
    requires base.Obj? && target.Obj?
    ensures Wire(base) == JObj(AfterRemovals(base, target, Visited(base.keys, 0)))
  {
    var all := map k | k in base.vals && base.vals[k] != Undefined :: Wire(base.vals[k]);
    assert all == AfterRemovals(base, target, {});
    assert Visited(base.keys, 0) == {};
  }

  lemma AllRemovals(base: JsValue, target: JsValue, done: set<string>)
    requires base.Obj? && target.Obj? && forall k :: k in done <==> k in base.vals
    ensures AfterRemovals(base, target, done) == AfterKeys(base, target, {})
  {
    var a, b := AfterRemovals(base, target, done), AfterKeys(base, target, {});
    assert forall k :: k in a <==> Owned(base.vals, k) && Present(target.vals, k);
    assert forall k :: k in b <==> Owned(base.vals, k) && Present(target.vals, k);
  }

  lemma RemovalsEnd(base: JsValue, target: JsValue)
    requires base.Obj? && target.Obj? && WellFormed(base)
    ensures AfterRemovals(base, target, Visited(base.keys, |base.keys|)) == AfterKeys(base, target, {})
  {
    assert base.keys[..|base.keys|] == base.keys;
    AllRemovals(base, target, Visited(base.keys, |base.keys|));
  }

  lemma KeysEnd(base: JsValue, target: JsValue)
    requires base.Obj? && target.Obj? && base != target && WellFormed(target)
    ensures JObj(AfterKeys(base, target, Visited(target.keys, |target.keys|))) == Landed(base, target)
  {
    assert target.keys[..|target.keys|] == target.keys;
    var done := Visited(target.keys, |target.keys|);
    assert forall k :: k in done <==> k in target.vals;
    var l := Landed(base, target).members;
    assert AfterKeys(base, target, done) == l;
  }

  lemma {:induction false} ObjectRuns(base: JsValue, target: JsValue)
    requires base.Obj? && target.Obj? && base != target && WellFormed(base) && WellFormed(target)
    ensures Supported(Diff(base, target))
    ensures RunEdits(Wire(base), Diff(base, target)) == Ok(Landed(base, target))
    decreases target, 2, |target.keys| + 1
  {
    RemovedKeysRun(base, target, 0);
    KeysRun(base, target, 0);
    RemovalsStart(base, target);
    RemovalsEnd(base, target);
    KeysEnd(base, target);
    assert Visited(target.keys, 0) == {};
    RunConcat(Wire(base), DiffRemovedKeys(base, target, 0), DiffKeys(base, target, 0));
  }

  lemma {:induction false} RemovedKeysRun(base: JsValue, target: JsValue, i: nat)
    requires base.Obj? && target.Obj? && i <= |base.keys| && WellFormed(base)
    ensures Supported(DiffRemovedKeys(base, target, i))
    ensures RunEdits(JObj(AfterRemovals(base, target, Visited(base.keys, i))), DiffRemovedKeys(base, target, i))
            == Ok(JObj(AfterRemovals(base, target, Visited(base.keys, |base.keys|))))
    decreases |base.keys| - i
  {
    RemovedKeysUsable(base, target, i);
    if i < |base.keys| {
      var key := base.keys[i];
      VisitedStep(base.keys, i);
      RemovalStep(base, target, Visited(base.keys, i), key);
      RemovedKeysRun(base, target, i + 1);
      var before := AfterRemovals(base, target, Visited(base.keys, i));
      var rest := DiffRemovedKeys(base, target, i + 1);
      if Owned(base.vals, key) && !Present(target.vals, key) {
        RemoveKey(before, key, rest);
      } else {
        assert DiffRemovedKeys(base, target, i) == rest;
      }
    }
  }

  lemma RemoveKey(members: map<string, Json>, key: string, rest: seq<Edit>)
    requires key in members && Supported(rest)
    ensures Supported([Edit(Remove, [key], Undefined)] + rest)
    ensures RunEdits(JObj(members), [Edit(Remove, [key], Undefined)] + rest) == RunEdits(JObj(members - {key}), rest)
  {
    RunCons(JObj(members), Edit(Remove, [key], Undefined), rest);
  }

  lemma SetKey(members: map<string, Json>, key: string, op: OpName, value: JsValue, rest: seq<Edit>)
    requires op == Add || (op == Replace && Inherited(key))
    requires Supported(rest)
    ensures Supported([Edit(op, [key], value)] + rest)
    ensures RunEdits(JObj(members), [Edit(op, [key], value)] + rest) == RunEdits(JObj(members[key := Wire(value)]), rest)
  {
    RunCons(JObj(members), Edit(op, [key], value), rest);
  }

  lemma EditKey(members: map<string, Json>, key: string, edits: seq<Edit>, rest: seq<Edit>)
    requires key in members && Supported(edits) && Supported(rest) && RunEdits(members[key], edits).Ok?
    ensures Supported(Below(key, edits) + rest)
    ensures RunEdits(JObj(members), Below(key, edits) + rest)
            == RunEdits(JObj(members[key := RunEdits(members[key], edits).value]), rest)
  {
    RunBelow(JObj(members), key, edits);
    RunConcat(JObj(members), Below(key, edits), rest);
  }

  lemma {:induction false} KeysRun(base: JsValue, target: JsValue, i: nat)
    requires base.Obj? && target.Obj? && i <= |target.keys| && WellFormed(base) && WellFormed(target)
    ensures Supported(DiffKeys(base, target, i))
    ensures RunEdits(JObj(AfterKeys(base, target, Visited(target.keys, i))), DiffKeys(base, target, i))
            == Ok(JObj(AfterKeys(base, target, Visited(target.keys, |target.keys|))))
    decreases target, 2, |target.keys| - i
  {
    KeysUsable(base, target, i);
    if i < |target.keys| {
      var key := target.keys[i];
      VisitedStep(target.keys, i);
      KeyStep(base, target, Visited(target.keys, i), key);
      KeysRun(base, target, i + 1);
      var members := AfterKeys(base, target, Visited(target.keys, i));
      var rest := DiffKeys(base, target, i + 1);
      if !Owned(target.vals, key) {
        assert DiffKeys(base, target, i) == rest;
      } else if !Present(base.vals, key) {
        SetKey(members, key, Add, target.vals[key], rest);
      } else if key !in base.vals {
        SetKey(members, key, Replace, target.vals[key], rest);
      } else {
        DiffRuns(base.vals[key], target.vals[key]);
        EditKey(members, key, Diff(base.vals[key], target.vals[key]), rest);
      }
    }
  }

  // ---------- the printed patch ----------

  /** An edit as it is pushed and then stringified: an undefined value is lost. */
  function Print(edit: Edit): PatchOp {
    PatchOp(edit.op, Render(edit.tokens), if edit.value == Undefined then None else Some(Wire(edit.value)))
  }

  function PrintAll(edits: seq<Edit>): seq<PatchOp> {
    if edits == [] then [] else [Print(edits[0])] + PrintAll(edits[1..])
  }

  /** The guard of the applier: a path has a last token, and it is not empty. */
  predicate Addressed(op: PatchOp) {
    match ParsePointer(op.path)
    case Err(_) => false
    case Ok(tokens) => tokens[|tokens| - 1] != ""
  }

  predicate AllAddressed(patch: seq<PatchOp>) { forall op | op in patch :: Addressed(op) }

  lemma PrintedStep(doc: Json, edit: Edit)
    requires UsableEdit(edit)
    ensures ApplyOp(doc, Print(edit)).Ok? ==> Addressed(Print(edit))
    ensures Addressed(Print(edit)) ==> ApplyOp(doc, Print(edit)) == Perform(doc, edit)
  {
    if edit.tokens != [] {
      ParseRender(edit.tokens);
    }
  }

  /** Applying printed edits is running them, and it fails exactly when some path is refused. */
  lemma {:induction false} PrintedRun(doc: Json, edits: seq<Edit>)
    requires Usable(edits) && RunEdits(doc, edits).Ok?
    ensures ApplyJsonPatch(doc, PrintAll(edits)).Ok? <==> AllAddressed(PrintAll(edits))
    ensures AllAddressed(PrintAll(edits)) ==> ApplyJsonPatch(doc, PrintAll(edits)) == RunEdits(doc, edits)
    decreases |edits|
  {
    if edits != [] {
      var rest := edits[1..];
      assert PrintAll(edits)[0] == Print(edits[0]) && PrintAll(edits)[1..] == PrintAll(rest);
      PrintedStep(doc, edits[0]);
      if Addressed(Print(edits[0])) {
        PrintedRun(Perform(doc, edits[0]).value, rest);
      }
    }
  }

  const MAX_DELTA_PATCH_OPS := 2048

  datatype Delta = Delta(base: int, patch: seq<PatchOp>)

  /** The patch of a diff, as text. */
  function Patch(base: JsValue, candidate: JsValue): seq<PatchOp> { PrintAll(Diff(base, candidate)) }

  predicate Valueless(op: PatchOp) { op.op in {Add, Replace} && op.value == None }

  /** `buildSnapshotDelta`; `small` stands for the comparison of the two serialised lengths. */
  function BuildSnapshotDelta(sequence: int, base: JsValue, candidate: JsValue, small: bool): Option<Delta> {
    var patch := Patch(base, candidate);
    if |patch| == 0 || |patch| > MAX_DELTA_PATCH_OPS then None
    else if exists op | op in patch :: Valueless(op) then None
    else if !small then None
    else Some(Delta(sequence, patch))
  }

  lemma {:induction false} PrintAllHasValues(edits: seq<Edit>)
    requires Usable(edits)
    ensures forall op | op in PrintAll(edits) :: !Valueless(op)
    ensures |PrintAll(edits)| == |edits|
  {
    if edits != [] {
      PrintAllHasValues(edits[1..]);
    }
  }

  /** Falling back to a full snapshot is decided by the operation count and the size alone: no operation of a
      diff ever loses its value. */
  lemma DeltaIsBuiltWhenSmall(sequence: int, base: JsValue, candidate: JsValue, small: bool)
    ensures BuildSnapshotDelta(sequence, base, candidate, small).Some?
            <==> small && 0 < |Diff(base, candidate)| <= 2048
  {
    DiffIsUsable(base, candidate);
    PrintAllHasValues(Diff(base, candidate));
  }

  // ---------- names of members ----------

  /** Names a value can do without: the empty one, those every object inherits, and the one of them that sets
      the prototype and adds no member when it is assigned to. */
  datatype Names = EmptyName | InheritedNames | PrototypeName

  predicate IsOne(names: Names, name: string) {
    match names
    case EmptyName => name == ""
    case InheritedNames => Inherited(name)
    case PrototypeName => name == OBJECT_PROTOTYPE[0]
  }

  /** No member anywhere has one of these names. */
  predicate Avoids(v: JsValue, names: Names) {
    match v
    case Arr(items) => forall i | 0 <= i < |items| :: Avoids(items[i], names)
    case Obj(keys, vals) =>
      && (forall k | k in keys :: !IsOne(names, k))
      && (forall k | k in vals :: !IsOne(names, k) && Avoids(vals[k], names))
    case _ => true
  }

  /** The law of the delta: the applier accepts the patch exactly when every path passes its guard, and the
      result is then the candidate, as both travel, exactly when no compared object of the base owns an
      inherited name that the candidate lacks. */
  lemma DeltaLaw(base: JsValue, candidate: JsValue)
    requires WellFormed(base) && WellFormed(candidate) && Avoids(candidate, PrototypeName)
    ensures ApplyJsonPatch(Wire(base), Patch(base, candidate)).Ok? <==> AllAddressed(Patch(base, candidate))
    ensures ApplyJsonPatch(Wire(base), Patch(base, candidate)) == Ok(Wire(candidate))
            <==> AllAddressed(Patch(base, candidate)) && !Leftover(base, candidate)
  {
    DiffIsUsable(base, candidate);
    DiffRuns(base, candidate);
    PrintedRun(Wire(base), Diff(base, candidate));
    LandsWhenNothingStays(base, candidate);
  }

  lemma {:induction false} AvoidedNamesNeverStay(base: JsValue, target: JsValue)
    requires Avoids(base, InheritedNames)
    ensures !Leftover(base, target)
    decreases target
  {
    if base != target && SameContainer(base, target) {
      if base.Arr? {
        forall i | 0 <= i < |base.items| && i < |target.items| ensures !Leftover(base.items[i], target.items[i]) {
          AvoidedNamesNeverStay(base.items[i], target.items[i]);
        }
      } else {
        forall k | k in base.vals && Owned(target.vals, k) ensures !Leftover(base.vals[k], target.vals[k]) {
          AvoidedNamesNeverStay(base.vals[k], target.vals[k]);
        }
      }
    }
  }

  /** Avoiding the inherited names leaves none that sets the prototype. */
  lemma {:induction false} AvoidsPrototypeName(v: JsValue)
    requires Avoids(v, InheritedNames)
    ensures Avoids(v, PrototypeName)
  {
    FirstIsInherited(OBJECT_PROTOTYPE[0]);
    match v
    case Arr(items) =>
      forall i | 0 <= i < |items| ensures Avoids(items[i], PrototypeName) {
        AvoidsPrototypeName(items[i]);
      }
    case Obj(keys, vals) =>
      forall k | k in vals ensures Avoids(vals[k], PrototypeName) {
        AvoidsPrototypeName(vals[k]);
      }
    case _ =>
  }

  lemma FirstIsInherited(name: string)
    requires name == OBJECT_PROTOTYPE[0]
    ensures Inherited(name)
  {
  }

  lemma InheritedIsLong(name: string)
    requires Inherited(name)
    ensures |name| > 1
  {
    LongListed(OBJECT_PROTOTYPE, name);
  }

  // ---------- when the guard passes ----------

  /** No member anywhere is named by the empty string. */
  predicate NoEmptyKey(v: JsValue) { Avoids(v, EmptyName) }

  predicate TokensNonEmpty(tokens: seq<string>) { forall token | token in tokens :: token != "" }

  predicate PathsNonEmpty(edits: seq<Edit>) { forall edit | edit in edits :: TokensNonEmpty(edit.tokens) }

  /** Every edit is below the value as a whole, at a path of non-empty tokens. */
  predicate ProperPaths(edits: seq<Edit>) { forall edit | edit in edits :: edit.tokens != [] && TokensNonEmpty(edit.tokens) }

  lemma PathsBelow(token: string, edits: seq<Edit>)
    requires token != "" && PathsNonEmpty(edits)
    ensures ProperPaths(Below(token, edits))
  {
    forall edit | edit in Below(token, edits) ensures edit.tokens != [] && TokensNonEmpty(edit.tokens) {
      var i :| 0 <= i < |edits| && edit == Below(token, edits)[i];
      assert edits[i] in edits;
    }
  }

  lemma {:induction false} DiffPaths(base: JsValue, target: JsValue)
    requires NoEmptyKey(base) && NoEmptyKey(target)
    ensures PathsNonEmpty(Diff(base, target))
    ensures SameContainer(base, target) ==> ProperPaths(Diff(base, target))
    decreases target, 3, 0
  {
    if base != target && SameContainer(base, target) {
      if base.Arr? {
        var shared := if |base.items| <= |target.items| then |base.items| else |target.items|;
        ItemsPaths(base, target, 0, shared);
        RemovalsPaths(|base.items|, shared);
        AdditionsPaths(target.items, shared);
      } else {
        RemovedKeysPaths(base, target, 0);
        KeysPaths(base, target, 0);
      }
    }
  }

  lemma {:induction false} ItemsPaths(base: JsValue, target: JsValue, i: nat, shared: nat)
    requires base.Arr? && target.Arr? && i <= shared <= |base.items| && shared <= |target.items|
    requires NoEmptyKey(base) && NoEmptyKey(target)
    ensures ProperPaths(DiffItems(base, target, i, shared))
    decreases target, 2, shared - i
  {
    if i < shared {
      DiffPaths(base.items[i], target.items[i]);
      PathsBelow(Decimal(i), Diff(base.items[i], target.items[i]));
      ItemsPaths(base, target, i + 1, shared);
    }
  }

  lemma {:induction false} RemovalsPaths(length: nat, shared: nat)
    ensures ProperPaths(Removals(length, shared))
  {
    if length > shared {
      RemovalsPaths(length - 1, shared);
    }
  }

  lemma {:induction false} AdditionsPaths(items: seq<JsValue>, i: nat)
    ensures ProperPaths(Additions(items, i))
    decreases |items| - i
  {
    if i < |items| {
      AdditionsPaths(items, i + 1);
    }
  }

  lemma {:induction false} RemovedKeysPaths(base: JsValue, target: JsValue, i: nat)
    requires base.Obj? && target.Obj? && i <= |base.keys| && NoEmptyKey(base)
    ensures ProperPaths(DiffRemovedKeys(base, target, i))
    decreases |base.keys| - i
  {
    if i < |base.keys| {
      RemovedKeysPaths(base, target, i + 1);
    }
  }

  lemma {:induction false} KeysPaths(base: JsValue, target: JsValue, i: nat)
    requires base.Obj? && target.Obj? && i <= |target.keys| && NoEmptyKey(base) && NoEmptyKey(target)
    ensures ProperPaths(DiffKeys(base, target, i))
    decreases target, 2, |target.keys| - i
  {
    if i < |target.keys| {
      var key := target.keys[i];
      KeysPaths(base, target, i + 1);
      if Owned(target.vals, key) && Owned(base.vals, key) {
        DiffPaths(base.vals[key], target.vals[key]);
        PathsBelow(key, Diff(base.vals[key], target.vals[key]));
      }
    }
  }

  lemma {:induction false} PrintedPaths(edits: seq<Edit>)
    requires ProperPaths(edits)
    ensures AllAddressed(PrintAll(edits))
  {
    if edits != [] {
      assert edits[0] in edits;
      ParseRender(edits[0].tokens);
      assert edits[0].tokens[|edits[0].tokens| - 1] in edits[0].tokens;
      PrintedPaths(edits[1..]);
    }
  }

  /** Two objects without empty member names always patch. */
  lemma PatchIsAddressed(base: JsValue, candidate: JsValue)
    requires SameContainer(base, candidate) && NoEmptyKey(base) && NoEmptyKey(candidate)
    ensures AllAddressed(Patch(base, candidate))
  {
    DiffPaths(base, candidate);
    PrintedPaths(Diff(base, candidate));
  }

  /** A member named by the empty string defeats the patch that removes it. */
  lemma EmptyKeyDefeatsPatch()
    ensures
      var base, candidate := Obj([""], map["" := Null]), Obj([], map[]);
      && WellFormed(base) && WellFormed(candidate)
      && BuildSnapshotDelta(0, base, candidate, true).Some?
      && ApplyJsonPatch(Wire(base), Patch(base, candidate)).Err?
  {
    EmptyIsNotInherited("");
    LoneRemovalFails(Obj([""], map["" := Null]), Obj([], map[]), "");
  }

  lemma LoneRemovalFails(base: JsValue, candidate: JsValue, key: string)
    requires base.Obj? && candidate.Obj? && base.keys == [key] && candidate.keys == [] && key == ""
    requires Owned(base.vals, key) && !Present(candidate.vals, key)
    ensures BuildSnapshotDelta(0, base, candidate, true).Some?
    ensures ApplyJsonPatch(Wire(base), Patch(base, candidate)).Err?
  {
    var edit := Edit(Remove, [key], Undefined);
    LoneRemoval(base, candidate, key);
    DeltaIsBuiltWhenSmall(0, base, candidate, true);
    EmptyTokenRefused(edit);
    assert Patch(base, candidate)[0] == Print(edit);
    ApplyFirstFails(Wire(base), Patch(base, candidate));
  }

  lemma ApplyFirstFails(doc: Json, patch: seq<PatchOp>)
    requires patch != [] && !Addressed(patch[0])
    ensures ApplyJsonPatch(doc, patch).Err?
  {
  }

  lemma EmptyIsNotInherited(name: string)
    requires name == ""
    ensures !Inherited(name)
  {
    if Inherited(name) {
      InheritedIsLong(name);
    }
  }

  lemma LoneRemoval(base: JsValue, target: JsValue, key: string)
    requires base.Obj? && target.Obj? && base.keys == [key] && target.keys == []
    requires Owned(base.vals, key) && !Present(target.vals, key)
    ensures Diff(base, target) == [Edit(Remove, [key], Undefined)]
  {
    assert DiffRemovedKeys(base, target, 1) == [];
    assert DiffRemovedKeys(base, target, 0) == [Edit(Remove, [key], Undefined)];
  }

  lemma EmptyTokenRefused(edit: Edit)
    requires edit.tokens == [""]
    ensures !Addressed(Print(edit))
  {
    ParseRender(edit.tokens);
  }

  /** A member whose name every object answers to is not removed: every path is accepted, and yet the result
      is not the candidate. */
  lemma InheritedNameStays(name: string)
    requires Inherited(name)
    ensures
      var base := Obj([name, "a"], map[name := Num(0.0), "a" := Num(0.0)]);
      var candidate := Obj(["a"], map["a" := Num(1.0)]);
      && WellFormed(base) && WellFormed(candidate) && NoEmptyKey(base) && NoEmptyKey(candidate)
      && BuildSnapshotDelta(0, base, candidate, true).Some?
      && ApplyJsonPatch(Wire(base), Patch(base, candidate)).Ok?
      && ApplyJsonPatch(Wire(base), Patch(base, candidate)) != Ok(Wire(candidate))
  {
    InheritedIsLong(name);
    StayingMember(Obj([name, "a"], map[name := Num(0.0), "a" := Num(0.0)]), Obj(["a"], map["a" := Num(1.0)]), name, "a");
  }

  lemma StayingMember(base: JsValue, candidate: JsValue, name: string, key: string)
    requires Inherited(name) && |name| > 1 && |key| == 1
    requires base.Obj? && base.keys == [name, key] && base.vals.Keys == {name, key}
    requires candidate.Obj? && candidate.keys == [key] && candidate.vals.Keys == {key}
    requires base.vals[name] == Num(0.0) && base.vals[key] == Num(0.0) && candidate.vals[key] == Num(1.0)
    ensures WellFormed(base) && WellFormed(candidate) && NoEmptyKey(base) && NoEmptyKey(candidate)
    ensures BuildSnapshotDelta(0, base, candidate, true).Some?
    ensures ApplyJsonPatch(Wire(base), Patch(base, candidate)).Ok?
    ensures ApplyJsonPatch(Wire(base), Patch(base, candidate)) != Ok(Wire(candidate))
  {
    ShapeOfTwo(base, name, key);
    ShapeOfOne(candidate, key);
    ShortNameAvoids(candidate, key);
    StayingSmall(base, candidate, name, key);
    StayingSpoils(base, candidate, name);
  }

  lemma ShapeOfTwo(v: JsValue, first: string, second: string)
    requires v.Obj? && v.keys == [first, second] && v.vals.Keys == {first, second} && |first| > 1 && |second| == 1
    requires v.vals[first].Num? && v.vals[second].Num?
    ensures WellFormed(v) && NoEmptyKey(v)
  {
    LongIsNamed(first);
    LongIsNamed(second);
    NumbersShaped(v);
  }

  lemma ShapeOfOne(v: JsValue, key: string)
    requires v.Obj? && v.keys == [key] && v.vals.Keys == {key} && |key| == 1 && v.vals[key].Num?
    ensures WellFormed(v) && NoEmptyKey(v)
  {
    LongIsNamed(key);
    NumbersShaped(v);
  }

  lemma LongIsNamed(name: string)
    requires |name| > 0
    ensures !IsOne(EmptyName, name)
  {
  }

  lemma StayingSmall(base: JsValue, candidate: JsValue, name: string, key: string)
    requires Inherited(name)
    requires base.Obj? && base.keys == [name, key] && base.vals.Keys == {name, key}
    requires candidate.Obj? && candidate.keys == [key] && candidate.vals.Keys == {key} && name != key
    requires base.vals[name] == Num(0.0) && base.vals[key] == Num(0.0) && candidate.vals[key] == Num(1.0)
    ensures BuildSnapshotDelta(0, base, candidate, true).Some?
  {
    OneReplacement(base, candidate);
    DeltaIsBuiltWhenSmall(0, base, candidate, true);
  }

  lemma NumbersShaped(v: JsValue)
    requires v.Obj? && Distinct(v.keys) && forall k :: k in v.keys <==> k in v.vals
    requires forall k | k in v.vals :: v.vals[k].Num? && !IsOne(EmptyName, k)
    ensures WellFormed(v) && NoEmptyKey(v)
  {
  }

  lemma StayingSpoils(base: JsValue, candidate: JsValue, name: string)
    requires WellFormed(base) && WellFormed(candidate) && NoEmptyKey(base) && NoEmptyKey(candidate)
    requires base.Obj? && candidate.Obj? && Stays(base, candidate, name) && Avoids(candidate, PrototypeName)
    ensures ApplyJsonPatch(Wire(base), Patch(base, candidate)).Ok?
    ensures ApplyJsonPatch(Wire(base), Patch(base, candidate)) != Ok(Wire(candidate))
  {
    PatchIsAddressed(base, candidate);
    DeltaLaw(base, candidate);
  }

  lemma ShortNameAvoids(v: JsValue, name: string)
    requires v.Obj? && v.keys == [name] && v.vals.Keys == {name} && v.vals[name].Num? && |name| == 1
    ensures Avoids(v, PrototypeName)
  {
    if IsOne(PrototypeName, name) {
      FirstIsInherited(name);
      InheritedIsLong(name);
    }
  }

  lemma OneReplacement(base: JsValue, target: JsValue)
    requires base.Obj? && target.Obj? && |base.keys| == 2 && |target.keys| == 1
    requires forall key | key in base.keys :: Owned(base.vals, key) && Present(target.vals, key)
    requires
      var key := target.keys[0];
      && Owned(base.vals, key) && Owned(target.vals, key)
      && base.vals[key] == Num(0.0) && target.vals[key] == Num(1.0)
    ensures |Diff(base, target)| == 1
  {
    assert DiffRemovedKeys(base, target, 2) == [];
    assert DiffRemovedKeys(base, target, 1) == [];
    assert DiffRemovedKeys(base, target, 0) == [];
    assert DiffKeys(base, target, 1) == [];
    assert |DiffKeys(base, target, 0)| == 1;
  }

  // ---------- one member more ----------

  function Grown(v: JsValue, name: string): JsValue
    requires v.Obj?
  {
    Obj(v.keys + [name], v.vals[name := Null])
  }

  lemma GrownShape(v: JsValue, name: string)
    requires v.Obj? && WellFormed(v) && Avoids(v, InheritedNames) && name !in v.vals && !Inherited(name)
    ensures WellFormed(Grown(v, name)) && Avoids(Grown(v, name), InheritedNames)
  {
    var keys := v.keys + [name];
    assert forall i, j | 0 <= i < j < |keys| :: keys[i] != keys[j] by {
      assert forall i | 0 <= i < |v.keys| :: v.keys[i] in v.keys;
    }
    assert forall k :: k in keys <==> k in v.keys || k == name;
  }

  lemma {:induction false} SameKeysSilent(v: JsValue, name: string, i: nat)
    requires v.Obj? && WellFormed(v) && name !in v.vals && !Inherited(name) && i <= |v.keys|
    ensures DiffKeys(v, Grown(v, name), i) == [Edit(Add, [name], Null)]
    decreases |v.keys| - i
  {
    var target := Grown(v, name);
    if i == |v.keys| {
      assert DiffKeys(v, target, i + 1) == [];
    } else {
      SameKeysSilent(v, name, i + 1);
      var key := v.keys[i];
      assert target.keys[i] == key && key != name && key in v.vals;
      assert Below(key, []) == [];
    }
  }

  lemma {:induction false} NothingRemoved(base: JsValue, target: JsValue, i: nat)
    requires base.Obj? && target.Obj? && i <= |base.keys|
    requires forall key | key in base.keys && Owned(base.vals, key) :: Present(target.vals, key)
    ensures DiffRemovedKeys(base, target, i) == []
    decreases |base.keys| - i
  {
    if i < |base.keys| {
      NothingRemoved(base, target, i + 1);
    }
  }

  lemma GrownDiffers(v: JsValue, name: string)
    requires v.Obj? && WellFormed(v) && name !in v.vals && !Inherited(name)
    ensures Diff(v, Grown(v, name)) == [Edit(Add, [name], Null)]
  {
    NothingRemoved(v, Grown(v, name), 0);
    SameKeysSilent(v, name, 0);
    assert name in Grown(v, name).vals;
  }

  /** Two objects of the same three members that differ in the last of them alone. */
  lemma ThirdDiffers(a: string, b: string, c: string, x: JsValue, y: JsValue, z: JsValue, z': JsValue)
    requires a != b && a != c && b != c && x != Undefined && y != Undefined && z.Obj? && z'.Obj? && z != z'
    ensures Diff(Obj([a, b, c], map[a := x, b := y, c := z]), Obj([a, b, c], map[a := x, b := y, c := z']))
            == Below(c, Diff(z, z'))
  {
    var base, target := Obj([a, b, c], map[a := x, b := y, c := z]), Obj([a, b, c], map[a := x, b := y, c := z']);
    NothingRemoved(base, target, 0);
    assert base.vals[c] != target.vals[c];
    assert Below(a, []) == [] && Below(b, []) == [];
    assert DiffKeys(base, target, 3) == [];
    assert DiffKeys(base, target, 2) == Below(c, Diff(z, z'));
    assert DiffKeys(base, target, 1) == Below(c, Diff(z, z'));
    assert DiffKeys(base, target, 0) == Below(c, Diff(z, z'));
  }

  lemma BelowOne(token: string, name: string)
    ensures Below(token, [Edit(Add, [name], Null)]) == [Edit(Add, [token, name], Null)]
  {
    assert [token] + [name] == [token, name];
  }

  lemma OnePathAddressed(edit: Edit)
    requires edit.tokens != [] && edit.tokens[|edit.tokens| - 1] != ""
    ensures AllAddressed(PrintAll([edit]))
  {
    ParseRender(edit.tokens);
    assert PrintAll([edit]) == [Print(edit)];
  }
}
