/**
 `applyJsonPatch` of src/rule-generator/converter/json-patch.ts: the RFC 6902 subset that snapshot
 deltas use, applied to JSON as it travels on the wire.
 */
module JsonPatch {
  import opened Wrappers
  import opened JsonPointer

  /** A JSON value on the wire; the order of an object's members carries no meaning there. */
  datatype Json =
    | JNull
    | JBool(b: bool)
    | JNum(n: real)
    | JStr(s: string)
    | JArr(items: seq<Json>)
    | JObj(members: map<string, Json>)

  type Object = map<string, Json>

  /** A member of an object; `None` where JavaScript reads `undefined`. */
  function Field(o: Object, key: string): Option<Json> { if key in o then Some(o[key]) else None }

  // ---------- names every object answers to ----------

  /** What `name in record` finds on the prototype of every object. */
  const OBJECT_PROTOTYPE: seq<string> := [
    "__proto__", "constructor", "hasOwnProperty", "isPrototypeOf", "propertyIsEnumerable", "toLocaleString", "toString",
    "valueOf", "__defineGetter__", "__defineSetter__", "__lookupGetter__", "__lookupSetter__"
  ]

  predicate Listed(names: seq<string>, name: string) {
    names != [] && (names[0] == name || Listed(names[1..], name))
  }

  predicate Inherited(name: string) { Listed(OBJECT_PROTOTYPE, name) }

  lemma {:induction false} ListedIn(names: seq<string>, name: string)
    ensures Listed(names, name) <==> name in names
  {
    if names != [] {
      ListedIn(names[1..], name);
      assert names == [names[0]] + names[1..];
    }
  }

  predicate AllLong(names: seq<string>) { forall i | 0 <= i < |names| :: |names[i]| > 1 }

  lemma {:induction false} LongListed(names: seq<string>, name: string)
    requires AllLong(names) && Listed(names, name)
    ensures |name| > 1
  {
    if names[0] != name {
      LongListed(names[1..], name);
    }
  }

  datatype OpName = Add | Replace | Remove | Unsupported

  datatype PatchOp = PatchOp(op: OpName, path: string, value: Option<Json>)

  // ---------- one step into a container ----------

  function Child(doc: Json, token: string): Result<Json> {
    match doc
    case JArr(items) =>
      (match ArrayIndex(token, |items|, false) case Ok(i) => Ok(items[i]) case Err(e) => Err(e))
    case JObj(members) =>
      if token in members then Ok(members[token])
      else if Inherited(token) then Err("patch path traverses a non-container")
      else Err("patch path does not exist")
    case _ => Err("patch path traverses a non-container")
  }

  function Put(doc: Json, token: string, child: Json): Json
    requires Child(doc, token).Ok?
  {
    match doc
    case JArr(items) => JArr(items[ArrayIndex(token, |items|, false).value := child])
    case JObj(members) => JObj(members[token := child])
  }

  /** Two tokens lead to the same child. */
  predicate SamePlace(doc: Json, token: string, other: string) {
    match doc
    case JArr(items) =>
      var a, b := ArrayIndex(token, |items|, false), ArrayIndex(other, |items|, false);
      a.Ok? && b.Ok? && a.value == b.value
    case _ => token == other
  }

  lemma PutThenChild(doc: Json, token: string, first: Json, second: Json)
    requires Child(doc, token).Ok?
    ensures forall other {:trigger SamePlace(doc, token, other)} ::
              Child(Put(doc, token, first), other) == if SamePlace(doc, token, other) then Ok(first) else Child(doc, other)
    ensures Child(Put(doc, token, first), token) == Ok(first)
    ensures Put(Put(doc, token, first), token, second) == Put(doc, token, second)
    ensures Put(doc, token, Child(doc, token).value) == doc
  {
  }

  /** What an operation does to the container its last token addresses. */
  function EditContainer(doc: Json, last: string, op: OpName, value: Json): Result<Json>
    requires op != Unsupported
  {
    match doc
    case JArr(items) =>
      (match ArrayIndex(last, |items|, op == Add)
       case Err(e) => Err(e)
       case Ok(i) =>
         if op == Add then Ok(JArr(items[..i] + [value] + items[i..]))
         else if op == Replace then Ok(JArr(items[i := value]))
         else Ok(JArr(items[..i] + items[i + 1..])))
    case JObj(members) =>
      if op == Add then Ok(JObj(members[last := value]))
      else if last !in members && !Inherited(last) then Err("patch path does not exist")
      else if op == Replace then Ok(JObj(members[last := value]))
      else Ok(JObj(members - {last}))
    case _ => Err("patch path addresses a non-container")
  }

  function EditAt(doc: Json, tokens: seq<string>, op: OpName, value: Json): Result<Json>
    requires tokens != [] && op != Unsupported
    decreases |tokens|
  {
    if |tokens| == 1 then EditContainer(doc, tokens[0], op, value)
    else
      match Child(doc, tokens[0])
      case Err(e) => Err(e)
      case Ok(child) =>
        match EditAt(child, tokens[1..], op, value)
        case Err(e) => Err(e)
        case Ok(edited) => Ok(Put(doc, tokens[0], edited))
  }

  // ---------- a whole patch ----------

  /** One iteration of the loop over the operations. */
  function ApplyOp(root: Json, op: PatchOp): Result<Json> {
    if op.op == Unsupported then Err("unsupported patch op")
    else if op.op != Remove && op.value.None? then Err("patch op requires a value")
    else
      match ParsePointer(op.path)
      case Err(e) => Err(e)
      case Ok(tokens) =>
        if tokens[|tokens| - 1] == "" then Err("patch path must not address the document root")
        else EditAt(root, tokens, op.op, if op.value.Some? then op.value.value else JNull)
  }

  function ApplyJsonPatch(root: Json, ops: seq<PatchOp>): Result<Json>
    decreases |ops|
  {
    if ops == [] then Ok(root)
    else
      match ApplyOp(root, ops[0])
      case Err(e) => Err(e)
      case Ok(next) => ApplyJsonPatch(next, ops[1..])
  }

  /** The loop of `applyJsonPatch`. */
  method ApplyPatch(root: Json, ops: seq<PatchOp>) returns (r: Result<Json>)
    ensures r == ApplyJsonPatch(root, ops)
  {
    var doc := root;
    var i := 0;
    while i < |ops|
      invariant i <= |ops|
      invariant ApplyJsonPatch(doc, ops[i..]) == ApplyJsonPatch(root, ops)
    {
      var next := ApplyOp(doc, ops[i]);
      match next {
        case Err(e) => return Err(e);
        case Ok(edited) => doc := edited;
      }
      assert ops[i..][1..] == ops[i + 1..];
      i := i + 1;
    }
    r := Ok(doc);
  }
}
