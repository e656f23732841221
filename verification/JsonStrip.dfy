/**
 What `JSON.stringify` keeps of a value held by the page (extension/src/content.ts:1248-1276): undefined
 members vanish, and a replacer may drop further members by name at every depth.
 */
module JsonStrip {
  import opened JsonPatch
  import opened SnapshotDelta

  predicate Kept(vals: map<string, JsValue>, key: string, drop: set<string>) { Owned(vals, key) && key !in drop }

  function KeptKeys(keys: seq<string>, vals: map<string, JsValue>, drop: set<string>): seq<string> {
    if keys == [] then []
    else (if Kept(vals, keys[0], drop) then [keys[0]] else []) + KeptKeys(keys[1..], vals, drop)
  }

  /** The value that parsing the serialised text gives back; two values have the same text exactly when they
      strip to the same value, for member order is kept. */
  function Strip(v: JsValue, drop: set<string>): JsValue {
    match v
    case Arr(items) =>
      Arr(seq(|items|, i requires 0 <= i < |items| => if items[i] == Undefined then Null else Strip(items[i], drop)))
    case Obj(keys, vals) =>
      Obj(KeptKeys(keys, vals, drop), map k | k in vals && vals[k] != Undefined && k !in drop :: Strip(vals[k], drop))
    case _ => v
  }

  /** The same omission on a value that already travels. */
  function Without(j: Json, drop: set<string>): Json {
    match j
    case JArr(items) => JArr(seq(|items|, i requires 0 <= i < |items| => Without(items[i], drop)))
    case JObj(members) => JObj(map k | k in members && k !in drop :: Without(members[k], drop))
    case _ => j
  }

  lemma {:induction false} StripUndefined(v: JsValue, drop: set<string>)
    ensures Strip(v, drop) == Undefined <==> v == Undefined
  {
  }

  lemma {:induction false} KeptKeysAre(keys: seq<string>, vals: map<string, JsValue>, drop: set<string>)
    ensures forall k :: k in KeptKeys(keys, vals, drop) <==> k in keys && Kept(vals, k, drop)
    ensures Distinct(keys) ==> Distinct(KeptKeys(keys, vals, drop))
  {
    if keys != [] {
      KeptKeysAre(keys[1..], vals, drop);
      if Distinct(keys) {
        DistinctTail(keys);
      }
    }
  }

  lemma DistinctTail<T>(keys: seq<T>)
    requires keys != [] && Distinct(keys)
    ensures Distinct(keys[1..]) && keys[0] !in keys[1..]
  {
  }

  /** What is compared as text is what travels, less the dropped members. */
  lemma {:induction false} WireOfStrip(v: JsValue, drop: set<string>)
    ensures Wire(Strip(v, drop)) == Without(Wire(v), drop)
    decreases v, 1
  {
    match v
    case Arr(items) =>
      forall i | 0 <= i < |items| ensures Wire(Strip(items[i], drop)) == Without(Wire(items[i]), drop) {
        WireOfStrip(items[i], drop);
      }
    case Obj(keys, vals) => WireOfMembers(v, drop);
    case _ =>
  }

  lemma {:induction false} WireOfMembers(v: JsValue, drop: set<string>)
    requires v.Obj?
    ensures Wire(Strip(v, drop)) == Without(Wire(v), drop)
    decreases v, 0, 1
  {
    var a, b := Wire(Strip(v, drop)).members, Without(Wire(v), drop).members;
    forall k ensures (k in a <==> k in b) && (k in a ==> a[k] == b[k]) {
      WireOfMember(v, drop, k);
    }
    assert a == b;
  }

  lemma {:induction false} WireOfMember(v: JsValue, drop: set<string>, k: string)
    requires v.Obj?
    ensures
      var a, b := Wire(Strip(v, drop)).members, Without(Wire(v), drop).members;
      (k in a <==> k in b) && (k in a ==> a[k] == b[k])
    decreases v, 0, 0
  {
    if k in v.vals {
      WireOfStrip(v.vals[k], drop);
      StripUndefined(v.vals[k], drop);
    }
  }

  lemma {:induction false} WithoutNothing(j: Json)
    ensures Without(j, {}) == j
  {
    match j
    case JArr(items) =>
      forall i | 0 <= i < |items| ensures Without(items[i], {}) == items[i] {
        WithoutNothing(items[i]);
      }
    case JObj(members) =>
      forall k | k in members ensures Without(members[k], {}) == members[k] {
        WithoutNothing(members[k]);
      }
      assert Without(j, {}).members == members;
    case _ =>
  }

  /** A value and its copy through text are the same to every receiver. */
  lemma StripTravels(v: JsValue)
    ensures Wire(Strip(v, {})) == Wire(v)
  {
    WireOfStrip(v, {});
    WithoutNothing(Wire(v));
  }

  lemma {:induction false} StripKeepsShape(v: JsValue, drop: set<string>)
    requires WellFormed(v)
    ensures WellFormed(Strip(v, drop))
  {
    match v
    case Arr(items) =>
      forall i | 0 <= i < |items| ensures WellFormed(Strip(items[i], drop)) {
        StripKeepsShape(items[i], drop);
      }
    case Obj(keys, vals) =>
      KeptKeysAre(keys, vals, drop);
      forall k | k in vals ensures WellFormed(Strip(vals[k], drop)) {
        StripKeepsShape(vals[k], drop);
      }
    case _ =>
  }

  lemma {:induction false} KeptTwice(keys: seq<string>, vals: map<string, JsValue>, drop: set<string>)
    ensures KeptKeys(KeptKeys(keys, vals, {}), Strip(Obj(keys, vals), {}).vals, drop) == KeptKeys(keys, vals, drop)
  {
    if keys != [] {
      var once := Strip(Obj(keys, vals), {}).vals;
      KeptTwice(keys[1..], vals, drop);
      assert once == Strip(Obj(keys[1..], vals), {}).vals;
      var rest := KeptKeys(keys[1..], vals, {});
      if Kept(vals, keys[0], {}) {
        StripUndefined(vals[keys[0]], {});
        assert ([keys[0]] + rest)[1..] == rest;
        assert Kept(once, keys[0], drop) == Kept(vals, keys[0], drop);
      } else {
        assert KeptKeys(keys, vals, {}) == rest;
      }
    }
  }

  /** Going through text once before a comparison does not change what is compared. */
  lemma {:induction false} StripTwice(v: JsValue, drop: set<string>)
    ensures Strip(Strip(v, {}), drop) == Strip(v, drop)
    decreases v, 1
  {
    match v
    case Arr(items) =>
      forall i | 0 <= i < |items| ensures Strip(Strip(items[i], {}), drop) == Strip(items[i], drop) {
        StripTwice(items[i], drop);
        StripUndefined(items[i], {});
      }
      assert Strip(Strip(v, {}), drop).items == Strip(v, drop).items;
    case Obj(keys, vals) =>
      KeptTwice(keys, vals, drop);
      StripMembersTwice(v, drop);
    case _ =>
  }

  lemma {:induction false} StripMembersTwice(v: JsValue, drop: set<string>)
    requires v.Obj?
    ensures Strip(Strip(v, {}), drop).vals == Strip(v, drop).vals
    decreases v, 0
  {
    var once := Strip(v, {}).vals;
    forall k | k in v.vals
      ensures Strip(Strip(v.vals[k], {}), drop) == Strip(v.vals[k], drop)
      ensures Strip(v.vals[k], {}) == Undefined <==> v.vals[k] == Undefined
    {
      StripTwice(v.vals[k], drop);
      StripUndefined(v.vals[k], {});
    }
    assert forall k | k in once :: once[k] == Strip(v.vals[k], {}) && once[k] != Undefined;
    assert Strip(Strip(v, {}), drop).vals == map k | k in once && k !in drop :: Strip(once[k], drop);
  }
}
