/**
 What the operations of a diff address (extension/src/recording/snapshot-delta.ts): only places where the two values
 differ, each in the smallest way.
 */
module SnapshotEdits {
  import opened JsonPointer
  import opened JsonPatch
  import opened SnapshotDelta

  function Inner(e: Edit): Edit
    requires e.tokens != []
  {
    e.(tokens := e.tokens[1..])
  }

  /** The operation goes down through containers of one kind that differ, along members or items that both have, and
      ends at a difference: it replaces what is not the same container, removes what only the base has, or brings what
      only the target has, under an inherited name as a replacement. */
  predicate Addresses(base: JsValue, target: JsValue, e: Edit)
    decreases |e.tokens|
  {
    && base != target
    && if e.tokens == [] then e.op == Replace && !SameContainer(base, target) && e.value == JsonSafe(target)
       else if base.Arr? && target.Arr? then InItems(base.items, target.items, e)
       else base.Obj? && target.Obj? && InMembers(base.vals, target.vals, e)
  }

  predicate InItems(base: seq<JsValue>, target: seq<JsValue>, e: Edit)
    requires e.tokens != []
    decreases |e.tokens|, 0
  {
    || (exists i | 0 <= i < |base| && i < |target| :: e.tokens[0] == Decimal(i) && Addresses(base[i], target[i], Inner(e)))
    || (e.op == Remove && exists i | |target| <= i < |base| :: e.tokens == [Decimal(i)])
    || (e.op == Add && exists i | |base| <= i < |target| :: e.tokens == [Decimal(i)] && e.value == JsonSafe(target[i]))
  }

  predicate InMembers(base: map<string, JsValue>, target: map<string, JsValue>, e: Edit)
    requires e.tokens != []
    decreases |e.tokens|, 0
  {
    var key := e.tokens[0];
    || (key in base && Owned(target, key) && Addresses(base[key], target[key], Inner(e)))
    || (e.op == Remove && e.tokens == [key] && Owned(base, key) && !Owned(target, key))
    || (e.tokens == [key] && Owned(target, key) && !Owned(base, key) && e.value == target[key]
        && e.op == if Inherited(key) && key !in base then Replace else Add)
  }

  ghost predicate AllAddress(base: JsValue, target: JsValue, edits: seq<Edit>) {
    forall e | e in edits :: Addresses(base, target, e)
  }

  lemma BelowElement(token: string, edits: seq<Edit>, e: Edit) returns (inner: Edit)
    requires e in Below(token, edits)
    ensures inner in edits && e.tokens != [] && e.tokens[0] == token && Inner(e) == inner
  {
    var i :| 0 <= i < |edits| && e == Below(token, edits)[i];
    inner := edits[i];
    assert ([token] + inner.tokens)[1..] == inner.tokens;
  }

  /** Every operation of a diff addresses a difference. */
  lemma {:induction false} DiffAddressesDifferences(base: JsValue, target: JsValue)
    ensures AllAddress(base, target, Diff(base, target))
    decreases target, 3, 0
  {
    if base != target && SameContainer(base, target) {
      if base.Arr? {
        var shared := if |base.items| <= |target.items| then |base.items| else |target.items|;
        ItemsAddress(base, target, 0, shared);
        RemovalsAddress(base, target, |base.items|, shared);
        AdditionsAddress(base, target, shared);
      } else {
        RemovedKeysAddress(base, target, 0);
        KeysAddress(base, target, 0);
      }
    }
  }

  lemma {:induction false} ItemsAddress(base: JsValue, target: JsValue, i: nat, shared: nat)
    requires base.Arr? && target.Arr? && base != target && i <= shared <= |base.items| && shared <= |target.items|
    ensures AllAddress(base, target, DiffItems(base, target, i, shared))
    decreases target, 2, shared - i
  {
    if i < shared {
      DiffAddressesDifferences(base.items[i], target.items[i]);
      ItemsAddress(base, target, i + 1, shared);
      var first := Below(Decimal(i), Diff(base.items[i], target.items[i]));
      forall e | e in first ensures Addresses(base, target, e) {
        var inner := BelowElement(Decimal(i), Diff(base.items[i], target.items[i]), e);
        assert InItems(base.items, target.items, e);
      }
    }
  }

  lemma {:induction false} RemovalsAddress(base: JsValue, target: JsValue, length: nat, shared: nat)
    requires base.Arr? && target.Arr? && base != target && length <= |base.items|
    requires shared <= |base.items| && shared <= |target.items| && (shared == |base.items| || shared == |target.items|)
    ensures AllAddress(base, target, Removals(length, shared))
    decreases length
  {
    if length > shared {
      RemovalsAddress(base, target, length - 1, shared);
      var e := Edit(Remove, [Decimal(length - 1)], Undefined);
      assert InItems(base.items, target.items, e);
    }
  }

  lemma {:induction false} AdditionsAddress(base: JsValue, target: JsValue, i: nat)
    requires base.Arr? && target.Arr? && base != target && (i >= |base.items| || i >= |target.items|)
    ensures AllAddress(base, target, Additions(target.items, i))
    decreases |target.items| - i
  {
    if i < |target.items| {
      AdditionsAddress(base, target, i + 1);
      var e := Edit(Add, [Decimal(i)], JsonSafe(target.items[i]));
      assert InItems(base.items, target.items, e);
    }
  }

  lemma {:induction false} RemovedKeysAddress(base: JsValue, target: JsValue, i: nat)
    requires base.Obj? && target.Obj? && base != target && i <= |base.keys|
    ensures AllAddress(base, target, DiffRemovedKeys(base, target, i))
    decreases |base.keys| - i
  {
    if i < |base.keys| {
      RemovedKeysAddress(base, target, i + 1);
      var e := Edit(Remove, [base.keys[i]], Undefined);
      if Owned(base.vals, base.keys[i]) && !Present(target.vals, base.keys[i]) {
        assert InMembers(base.vals, target.vals, e);
      }
    }
  }

  lemma {:induction false} KeysAddress(base: JsValue, target: JsValue, i: nat)
    requires base.Obj? && target.Obj? && base != target && i <= |target.keys|
    ensures AllAddress(base, target, DiffKeys(base, target, i))
    decreases target, 2, |target.keys| - i
  {
    if i < |target.keys| {
      var key := target.keys[i];
      KeysAddress(base, target, i + 1);
      if Owned(target.vals, key) {
        KeyAddresses(base, target, key);
      }
    }
  }

  /** The operations for one member of the target. */
  lemma {:induction false} KeyAddresses(base: JsValue, target: JsValue, key: string)
    requires base.Obj? && target.Obj? && base != target && Owned(target.vals, key)
    ensures
      AllAddress(base, target,
                 if !Present(base.vals, key) then [Edit(Add, [key], target.vals[key])]
                 else if key in base.vals then Below(key, Diff(base.vals[key], target.vals[key]))
                 else [Edit(Replace, [key], target.vals[key])])
    decreases target, 1
  {
    if Present(base.vals, key) && key in base.vals {
      DiffAddressesDifferences(base.vals[key], target.vals[key]);
      var edits := Diff(base.vals[key], target.vals[key]);
      forall e | e in Below(key, edits) ensures Addresses(base, target, e) {
        var inner := BelowElement(key, edits, e);
        assert InMembers(base.vals, target.vals, e);
      }
    } else {
      assert InMembers(base.vals, target.vals, Edit(Add, [key], target.vals[key])) || Present(base.vals, key);
      assert InMembers(base.vals, target.vals, Edit(Replace, [key], target.vals[key])) || !Present(base.vals, key);
    }
  }
}
