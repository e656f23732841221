/**
 The input generator of scripts/staging-task-inputs.ts and the part of JSON Schema it aims at (JSON Schema
 Validation 2020-12, sections 6.1, 6.2.2, 6.2.4, 6.3.1, 6.3.2, 6.4.1, 6.4.2 and 6.5.3, with `properties` and
 `items` of the core specification).
 */
module TaskInputs {
  import opened Wrappers
  import opened JsonPatch

  function AsObject(v: Json): Object { if v.JObj? then v.members else map[] }

  function ObjectField(o: Object, key: string): Object {
    match Field(o, key)
    case Some(JObj(members)) => members
    case _ => map[]
  }

  function TextField(o: Object, key: string): string {
    match Field(o, key)
    case Some(JStr(s)) => s
    case _ => ""
  }

  function NumberField(o: Object, key: string): Option<real> {
    match Field(o, key)
    case Some(JNum(n)) => Some(n)
    case _ => None
  }

  function ListField(o: Object, key: string): seq<Json> {
    match Field(o, key)
    case Some(JArr(items)) => items
    case _ => []
  }

  // ---------- strings ----------

  const RESULT_TEXT := "semantic action complete"
  const BUTTON_ID := "semantic-action"
  const RESULT_ID := "semantic-result"

  /** Lower case, as far as a search for these lower-case words can tell. */
  function Lower(s: string): (r: string)
    ensures |r| == |s|
  {
    seq(|s|, i requires 0 <= i < |s| => if 'A' <= s[i] <= 'Z' then s[i] + ' ' else s[i])
  }

  predicate ReadsAt(text: string, i: nat, word: string) { i + |word| <= |text| && text[i..i + |word|] == word }

  predicate Includes(text: string, word: string) { exists i | 0 <= i <= |text| :: ReadsAt(text, i, word) }

  predicate Mentions(phrase: string, words: seq<string>) { exists word | word in words :: Includes(phrase, word) }

  /** `fixtureString`. */
  function FixtureString(name: string, property: Object): string {
    var phrase := Lower(name + " " + TextField(property, "description"));
    if Mentions(phrase, ["selector"]) && Mentions(phrase, ["button", "action"]) then "#" + BUTTON_ID
    else if Mentions(phrase, ["selector"]) && Mentions(phrase, ["result", "output"]) then "#" + RESULT_ID
    else if Mentions(phrase, ["expected", "text", "value"]) then RESULT_TEXT
    else if Mentions(phrase, ["button", "action"]) then BUTTON_ID
    else if Mentions(phrase, ["result", "output"]) then RESULT_ID
    else "stage10-" + name
  }

  /** The length the generator sees: characters beyond U+FFFF count twice. */
  function UnitLength(s: string): nat {
    if s == [] then 0 else UnitLength(s[..|s| - 1]) + if s[|s| - 1] as int > 0xFFFF then 2 else 1
  }

  function Xs(n: int): string { if n <= 0 then [] else Xs(n - 1) + "x" }

  /** `value.padEnd(minLength, 'x')`. */
  function PadEnd(value: string, minLength: real): string { value + Xs(minLength.Floor - UnitLength(value)) }

  // ---------- the generator ----------

  function RequiredNames(schema: Object): set<string> {
    set v | v in ListField(schema, "required") && v.JStr? :: v.s
  }

  /** `numberValue`. */
  function NumberValue(property: Object): real {
    var minimum, maximum := NumberField(property, "minimum"), NumberField(property, "maximum");
    if minimum.Some? then minimum.value
    else if maximum.Some? && maximum.value < 1.0 then maximum.value
    else 1.0
  }

  function MinItems(property: Object): nat {
    var n := NumberField(property, "minItems");
    if n.Some? && n.value.Floor > 0 then n.value.Floor else 0
  }

  function Copies(v: Json, n: nat): seq<Json> { seq(n, i requires 0 <= i < n => v) }

  predicate HasEnum(property: Object) { ListField(property, "enum") != [] }

  const SECRET_ERROR := "staging harness cannot synthesize required secret input"

  /** `synthesizeValue`. */
  function SynthesizeValue(name: string, raw: Json): Result<Json>
    decreases raw, 2
  {
    var property := AsObject(raw);
    if HasEnum(property) then Ok(ListField(property, "enum")[0])
    else
      match TextField(property, "type")
      case "string" =>
        var min := NumberField(property, "minLength");
        Ok(JStr(PadEnd(FixtureString(name, property), if min.Some? then min.value else 0.0)))
      case "integer" => Ok(JNum(NumberValue(property)))
      case "number" => Ok(JNum(NumberValue(property)))
      case "boolean" => Ok(JBool(true))
      case "array" =>
        (match ItemValue(name + "Item", raw)
         case Err(e) => Err(e)
         case Ok(item) => Ok(JArr(Copies(item, MinItems(property)))))
      case "object" =>
        (match BuildRequiredInputs(raw)
         case Err(e) => Err(e)
         case Ok(inputs) => Ok(JObj(inputs)))
      case _ => Ok(JStr(FixtureString(name, property)))
  }

  /** The value made for `items`; an absent or malformed item schema counts as an empty one. */
  function ItemValue(name: string, raw: Json): Result<Json>
    decreases raw, 0
  {
    match Field(AsObject(raw), "items")
    case Some(JObj(o)) => SynthesizeValue(name, AsObject(raw)["items"])
    case _ => Ok(JStr(FixtureString(name, map[])))
  }

  /** A property that gets a value. */
  predicate Wanted(schema: Object, name: string) {
    && name in ObjectField(schema, "properties") && name in RequiredNames(schema)
    && "default" !in AsObject(ObjectField(schema, "properties")[name])
  }

  predicate Secret(property: Object) { Field(property, "x-secret") == Some(JBool(true)) }

  /** What the loop's body does for a wanted property. */
  function PropertyValue(schema: Json, name: string): Result<Json>
    requires Wanted(AsObject(schema), name)
    decreases schema, 0
  {
    var raw := ObjectField(AsObject(schema), "properties")[name];
    assert AsObject(schema)["properties"].members[name] == raw;
    if Secret(AsObject(raw)) then Err(SECRET_ERROR) else SynthesizeValue(name, raw)
  }

  /** `buildRequiredInputs`: one value for each wanted property, unless one of them cannot be made. */
  function BuildRequiredInputs(schema: Json): Result<Object>
    decreases schema, 1
  {
    var o := AsObject(schema);
    var names := set name | name in ObjectField(o, "properties") && Wanted(o, name);
    if exists name | name in names :: PropertyValue(schema, name).Err? then Err(SECRET_ERROR)
    else Ok(map name | name in names :: PropertyValue(schema, name).value)
  }

  function BuildTaskInputs(inputSchema: Json): Result<Object> { BuildRequiredInputs(inputSchema) }

  // ---------- the keys ----------

  /** The generated keys are exactly the required properties without a declared default. */
  lemma KeysAreExact(schema: Json, name: string)
    requires BuildRequiredInputs(schema).Ok?
    ensures name in BuildRequiredInputs(schema).value <==> Wanted(AsObject(schema), name)
    ensures Wanted(AsObject(schema), name)
            ==> PropertyValue(schema, name) == Ok(BuildRequiredInputs(schema).value[name])
  {
  }

  // ---------- when it throws ----------

  /** One step of the traversal: into a wanted property, or into the item schema of an array. */
  datatype Turn = Into(name: string) | Item

  /** What the traversal meets below a property schema that has no enumeration. */
  function Below(raw: Json, turn: Turn): Option<Json> {
    var o := AsObject(raw);
    if HasEnum(o) then None
    else
      match turn
      case Item =>
        if TextField(o, "type") == "array" && "items" in o && o["items"].JObj? then Some(o["items"]) else None
      case Into(name) =>
        if TextField(o, "type") == "object" then Wanting(raw, name) else None
  }

  function Wanting(schema: Json, name: string): Option<Json> {
    if Wanted(AsObject(schema), name) then Some(ObjectField(AsObject(schema), "properties")[name]) else None
  }

  /** The path leads from a property schema to a secret one. */
  predicate ReachesSecret(raw: Json, path: seq<Turn>)
    decreases |path|
  {
    if path == [] then false
    else
      match Below(raw, path[0])
      case None => false
      case Some(next) =>
        (path[0].Into? && Secret(AsObject(next)) && |path| == 1)
        || (!(path[0].Into? && Secret(AsObject(next))) && ReachesSecret(next, path[1..]))
  }

  /** The same from the schema of the inputs, which is entered whatever its type and enumeration. */
  predicate InputsReachSecret(schema: Json, path: seq<Turn>) {
    path != [] && path[0].Into? &&
    match Wanting(schema, path[0].name)
    case None => false
    case Some(next) =>
      (Secret(AsObject(next)) && |path| == 1) || (!Secret(AsObject(next)) && ReachesSecret(next, path[1..]))
  }

  lemma {:induction false} FailureHasPath(name: string, raw: Json) returns (path: seq<Turn>)
    requires SynthesizeValue(name, raw).Err?
    ensures ReachesSecret(raw, path)
    decreases raw, 1
  {
    var o := AsObject(raw);
    if TextField(o, "type") == "array" {
      var rest := FailureHasPath(name + "Item", o["items"]);
      path := [Item] + rest;
      assert path[1..] == rest && Below(raw, Item) == Some(o["items"]);
    } else {
      path := InputsFailureHasPath(raw);
      assert Below(raw, path[0]) == Wanting(raw, path[0].name);
    }
  }

  lemma {:induction false} InputsFailureHasPath(schema: Json) returns (path: seq<Turn>)
    requires BuildRequiredInputs(schema).Err?
    ensures InputsReachSecret(schema, path)
    decreases schema, 0
  {
    var o := AsObject(schema);
    var name :| name in ObjectField(o, "properties") && Wanted(o, name) && PropertyValue(schema, name).Err?;
    var raw := ObjectField(o, "properties")[name];
    assert o["properties"].members[name] == raw;
    if Secret(AsObject(raw)) {
      path := [Into(name)];
    } else {
      var rest := FailureHasPath(name, raw);
      path := [Into(name)] + rest;
      assert path[1..] == rest;
    }
  }

  lemma {:induction false} PathMeansFailure(name: string, raw: Json, path: seq<Turn>)
    requires ReachesSecret(raw, path)
    ensures SynthesizeValue(name, raw).Err?
    decreases |path|, 1
  {
    var o := AsObject(raw);
    if path[0].Item? {
      assert Below(raw, path[0]) == Some(o["items"]);
      PathMeansFailure(name + "Item", o["items"], path[1..]);
    } else {
      assert Below(raw, path[0]) == Wanting(raw, path[0].name);
      InputsPathMeansFailure(raw, path);
    }
  }

  lemma {:induction false} InputsPathMeansFailure(schema: Json, path: seq<Turn>)
    requires InputsReachSecret(schema, path)
    ensures BuildRequiredInputs(schema).Err?
    decreases |path|, 0
  {
    var name := path[0].name;
    var raw := ObjectField(AsObject(schema), "properties")[name];
    if !Secret(AsObject(raw)) {
      PathMeansFailure(name, raw, path[1..]);
    }
    assert PropertyValue(schema, name).Err?;
  }

  /** The generator throws exactly when some path of wanted properties and item schemas leads to a required secret:
      enumerations and defaults stop the traversal, an array's length does not. */
  lemma ThrowsWhenSecretIsReached(inputSchema: Json)
    ensures BuildTaskInputs(inputSchema).Err? <==> exists path: seq<Turn> :: InputsReachSecret(inputSchema, path)
  {
    if BuildTaskInputs(inputSchema).Err? {
      var path := InputsFailureHasPath(inputSchema);
    }
    forall path: seq<Turn> | InputsReachSecret(inputSchema, path) ensures BuildTaskInputs(inputSchema).Err? {
      InputsPathMeansFailure(inputSchema, path);
    }
  }

  // ---------- the validator ----------

  predicate TypeIs(t: string, v: Json) {
    match t
    case "null" => v.JNull?
    case "boolean" => v.JBool?
    case "number" => v.JNum?
    case "integer" => v.JNum? && v.n == v.n.Floor as real
    case "string" => v.JStr?
    case "array" => v.JArr?
    case "object" => v.JObj?
    case _ => false
  }

  predicate TypeOk(o: Object, v: Json) {
    match Field(o, "type")
    case Some(JStr(t)) => TypeIs(t, v)
    case Some(JArr(ts)) => exists i | 0 <= i < |ts| :: ts[i].JStr? && TypeIs(ts[i].s, v)
    case _ => true
  }

  predicate EnumOk(o: Object, v: Json) {
    match Field(o, "enum")
    case Some(JArr(values)) => v in values
    case _ => true
  }

  predicate AtLeast(o: Object, key: string, n: real) { NumberField(o, key).Some? ==> NumberField(o, key).value <= n }

  predicate AtMost(o: Object, key: string, n: real) { NumberField(o, key).Some? ==> n <= NumberField(o, key).value }

  /** The size of a value is within the bounds of its kind, and no required member is missing. */
  predicate BoundsOk(o: Object, v: Json) {
    match v
    case JNum(n) => AtLeast(o, "minimum", n) && AtMost(o, "maximum", n)
    case JStr(s) => AtLeast(o, "minLength", |s| as real) && AtMost(o, "maxLength", |s| as real)
    case JArr(items) => AtLeast(o, "minItems", |items| as real) && AtMost(o, "maxItems", |items| as real)
    case JObj(members) => forall name | name in RequiredNames(o) :: name in members
    case _ => true
  }

  /** The keywords of a schema that look at one value as a whole. */
  predicate KeywordsOk(o: Object, v: Json) { TypeOk(o, v) && EnumOk(o, v) && BoundsOk(o, v) }

  /** A JSON value satisfies a schema; a schema that is no object accepts everything but `false` accepts nothing. */
  predicate Validates(schema: Json, v: Json)
    decreases v
  {
    match schema
    case JObj(o) =>
      KeywordsOk(o, v) &&
      (match v
       case JArr(items) => "items" in o ==> forall i | 0 <= i < |items| :: Validates(o["items"], items[i])
       case JObj(members) =>
         forall name | name in members && name in ObjectField(o, "properties") ::
           Validates(ObjectField(o, "properties")[name], members[name])
       case _ => true)
    case JBool(b) => b
    case _ => true
  }

  /** Declared properties with a default. */
  function Defaulted(o: Object): set<string> {
    var properties := ObjectField(o, "properties");
    set name | name in properties && "default" in AsObject(properties[name])
  }

  /** The value with every declared default filled in where it is missing; enumerated values are kept as they are. */
  function Fill(schema: Json, v: Json): Json
    decreases v
  {
    var o := AsObject(schema);
    if HasEnum(o) then v
    else
      match v
      case JArr(items) =>
        if "items" in o then JArr(seq(|items|, i requires 0 <= i < |items| => Fill(o["items"], items[i]))) else v
      case JObj(members) =>
        var properties := ObjectField(o, "properties");
        JObj(map name | name in members.Keys + Defaulted(o) ::
          if name in members then (if name in properties then Fill(properties[name], members[name]) else members[name])
          else AsObject(properties[name])["default"])
      case _ => v
  }

  // ---------- the supported fragment ----------

  const TYPES: seq<string> := ["string", "integer", "number", "boolean", "array", "object"]

  /** A property schema of one of the known types, or with an enumeration, all the way down. */
  predicate Fragment(name: string, raw: Json)
    decreases raw, 1
  {
    raw.JObj? &&
    var o := raw.members;
    if "enum" in o then HasEnum(o)
    else
      && "type" in o && o["type"].JStr? && o["type"].s in TYPES
      && (o["type"].s == "array" && "items" in o ==> Fragment(name + "Item", o["items"]))
      && (o["type"].s == "object" ==> InputsFragment(raw))
  }

  /** An object schema whose wanted properties are in the fragment. */
  predicate InputsFragment(schema: Json)
    decreases schema, 0
  {
    schema.JObj? &&
    var o := schema.members;
    && "enum" !in o && Field(o, "type") in {None, Some(JStr("object"))}
    && ("properties" in o ==> o["properties"].JObj?)
    && (forall name | name in ObjectField(o, "properties") && Wanted(o, name) ::
          Fragment(name, ObjectField(o, "properties")[name]))
  }

  // ---------- schemas that the generator meets ----------

  predicate Whole(n: real) { n == n.Floor as real }

  function PaddedText(name: string, o: Object): string {
    var min := NumberField(o, "minLength");
    PadEnd(FixtureString(name, o), if min.Some? then min.value else 0.0)
  }

  /** How many characters padding adds: characters beyond U+FFFF take the place of two. */
  function Padding(name: string, o: Object): nat {
    var min, units := NumberField(o, "minLength"), UnitLength(FixtureString(name, o));
    if min.Some? && min.value.Floor > units then min.value.Floor - units else 0
  }

  /** The fixture is long enough as it is, or padding brings it to the lower bound: a whole one, and no character
      of the fixture counts twice. The padded text stays within the upper bound. */
  predicate TextFits(name: string, o: Object) {
    var min, fixture := NumberField(o, "minLength"), FixtureString(name, o);
    && (min.Some? ==> min.value <= |fixture| as real || (Whole(min.value) && UnitLength(fixture) == |fixture|))
    && AtMost(o, "maxLength", (|fixture| + Padding(name, o)) as real)
  }

  /** The bounds are consistent, and an integer is asked for with a whole bound. */
  predicate NumberFits(o: Object) {
    var minimum, maximum := NumberField(o, "minimum"), NumberField(o, "maximum");
    && (minimum.Some? && maximum.Some? ==> minimum.value <= maximum.value)
    && (TextField(o, "type") == "integer" ==>
          (minimum.Some? ==> Whole(minimum.value))
          && (minimum.None? && maximum.Some? && maximum.value < 1.0 ==> Whole(maximum.value)))
  }

  /** A positive lower bound is whole, and no more items are asked for than allowed. */
  predicate ItemsFit(o: Object) {
    var min := NumberField(o, "minItems");
    && (min.Some? ==> Whole(min.value) || min.value <= 0.0)
    && AtMost(o, "maxItems", MinItems(o) as real)
  }

  /** The parts of a value satisfy the schemas of the parts. */
  predicate PartsValidate(o: Object, v: Json) {
    match v
    case JArr(items) => "items" in o ==> forall i | 0 <= i < |items| :: Validates(o["items"], items[i])
    case JObj(members) =>
      forall name | name in members && name in ObjectField(o, "properties") ::
        Validates(ObjectField(o, "properties")[name], members[name])
    case _ => true
  }

  /** The first of an enumeration has the declared type, is within the bounds, and its parts are valid. */
  predicate FirstFits(o: Object)
    requires HasEnum(o)
  {
    var first := ListField(o, "enum")[0];
    TypeOk(o, first) && BoundsOk(o, first) && PartsValidate(o, first)
  }

  /** The first of an enumeration fits; otherwise the bounds of the type can be met. */
  predicate Fits(name: string, raw: Json)
    decreases raw, 1
  {
    var o := AsObject(raw);
    if HasEnum(o) then FirstFits(o)
    else
      match TextField(o, "type")
      case "string" => TextFits(name, o)
      case "integer" => NumberFits(o)
      case "number" => NumberFits(o)
      case "array" => ItemsFit(o) && (MinItems(o) > 0 && "items" in o && o["items"].JObj? ==> Fits(name + "Item", o["items"]))
      case "object" => InputsFit(raw)
      case _ => true
  }

  /** Required names are declared, defaults satisfy their schemas, and wanted properties fit. */
  predicate InputsFit(schema: Json)
    decreases schema, 0
  {
    var o := AsObject(schema);
    && (forall name | name in RequiredNames(o) :: name in ObjectField(o, "properties"))
    && (forall name | name in Defaulted(o) ::
          Validates(ObjectField(o, "properties")[name], AsObject(ObjectField(o, "properties")[name])["default"]))
    && (forall name | name in ObjectField(o, "properties") && Wanted(o, name) ::
          InputFits(schema, name))
  }

  predicate InputFits(schema: Json, name: string)
    requires Wanted(AsObject(schema), name)
    decreases schema, 0, 0
  {
    var raw := ObjectField(AsObject(schema), "properties")[name];
    assert AsObject(schema)["properties"].members[name] == raw;
    Fits(name, raw)
  }

  // ---------- generated inputs validate ----------

  lemma {:induction false} UnitsCoverLength(s: string)
    ensures UnitLength(s) >= |s|
  {
    if s != [] {
      UnitsCoverLength(s[..|s| - 1]);
    }
  }

  lemma {:induction false} XsLength(n: int)
    ensures |Xs(n)| == if n <= 0 then 0 else n
  {
    if n > 0 {
      XsLength(n - 1);
    }
  }

  lemma PaddedLength(name: string, o: Object)
    ensures |PaddedText(name, o)| == |FixtureString(name, o)| + Padding(name, o)
  {
    var min, units := NumberField(o, "minLength"), UnitLength(FixtureString(name, o));
    XsLength((if min.Some? then min.value else 0.0).Floor - units);
  }

  /** The text made for a schema satisfies it exactly when its bounds can be met. */
  lemma TextValidatesWhenItFits(name: string, o: Object)
    requires Field(o, "type") == Some(JStr("string")) && "enum" !in o
    ensures Validates(JObj(o), JStr(PaddedText(name, o))) <==> TextFits(name, o)
  {
    PaddedLength(name, o);
    UnitsCoverLength(FixtureString(name, o));
    LongEnough(|FixtureString(name, o)|, UnitLength(FixtureString(name, o)), NumberField(o, "minLength"));
  }

  lemma LongEnough(n: nat, units: nat, min: Option<real>)
    requires units >= n
    ensures
      var padding := if min.Some? && min.value.Floor > units then min.value.Floor - units else 0;
      (min.Some? ==> min.value <= (n + padding) as real)
      <==> (min.Some? ==> min.value <= n as real || (Whole(min.value) && units == n))
  {
  }

  /** The number made for a schema satisfies it exactly when its bounds are consistent and whole where they must be. */
  lemma NumberValidatesWhenItFits(o: Object)
    requires Field(o, "type") in {Some(JStr("integer")), Some(JStr("number"))} && "enum" !in o
    ensures Validates(JObj(o), JNum(NumberValue(o))) <==> NumberFits(o)
  {
    assert "integer" != "number" by { assert "integer"[0] != "number"[0]; }
    assert 1.0 == (1.0).Floor as real;
  }

  lemma ItemCountFits(o: Object)
    ensures AtLeast(o, "minItems", MinItems(o) as real) && AtMost(o, "maxItems", MinItems(o) as real) <==> ItemsFit(o)
  {
  }

  lemma FirstValidatesWhenItFits(o: Object)
    requires HasEnum(o)
    ensures Validates(JObj(o), ListField(o, "enum")[0]) <==> FirstFits(o)
  {
    var first := ListField(o, "enum")[0];
    assert first in ListField(o, "enum");
    assert Validates(JObj(o), first) <==> KeywordsOk(o, first) && PartsValidate(o, first);
  }

  /** What a schema of the fragment makes satisfies it, once the declared defaults are filled in, exactly when the
      schema fits. */
  lemma {:induction false} ValueValidatesWhenItFits(name: string, raw: Json)
    requires Fragment(name, raw) && SynthesizeValue(name, raw).Ok?
    ensures Validates(raw, Fill(raw, SynthesizeValue(name, raw).value)) <==> Fits(name, raw)
    decreases raw, 2
  {
    var o := raw.members;
    if "enum" in o {
      FirstValidatesWhenItFits(o);
    } else {
      match o["type"].s
      case "string" => TextValidatesWhenItFits(name, o);
      case "integer" => NumberValidatesWhenItFits(o);
      case "number" => NumberValidatesWhenItFits(o);
      case "array" => ArrayValidatesWhenItFits(name, raw);
      case "object" => InputsValidateWhenTheyFit(raw);
      case _ =>
    }
  }

  /** The array that is made, before and after filling. */
  lemma FilledCopies(raw: Json, item: Json)
    requires raw.JObj? && !HasEnum(raw.members)
    ensures
      var n := MinItems(raw.members);
      Fill(raw, JArr(Copies(item, n)))
      == JArr(Copies(if "items" in raw.members then Fill(raw.members["items"], item) else item, n))
  {
    var o := raw.members;
    var v := JArr(Copies(item, MinItems(o)));
    if "items" in o {
      assert Fill(raw, v).items == Copies(Fill(o["items"], item), MinItems(o));
    }
  }

  lemma CopiesValidate(o: Object, item: Json)
    requires Field(o, "type") == Some(JStr("array")) && "enum" !in o
    ensures Validates(JObj(o), JArr(Copies(item, MinItems(o))))
            <==> ItemsFit(o) && (MinItems(o) > 0 && "items" in o ==> Validates(o["items"], item))
  {
    ItemCountFits(o);
    var items := Copies(item, MinItems(o));
    assert MinItems(o) > 0 ==> items[0] == item;
  }

  lemma {:induction false} ArrayValidatesWhenItFits(name: string, raw: Json)
    requires Fragment(name, raw) && SynthesizeValue(name, raw).Ok?
    requires "enum" !in raw.members && raw.members["type"] == JStr("array")
    ensures Validates(raw, Fill(raw, SynthesizeValue(name, raw).value)) <==> Fits(name, raw)
    decreases raw, 0
  {
    var o := raw.members;
    var item := ItemValue(name + "Item", raw).value;
    assert SynthesizeValue(name, raw).value == JArr(Copies(item, MinItems(o)));
    FilledCopies(raw, item);
    if "items" in o {
      CopiesValidate(o, Fill(o["items"], item));
      ValueValidatesWhenItFits(name + "Item", o["items"]);
    } else {
      CopiesValidate(o, item);
    }
  }

  lemma {:induction false} PropertyValidatesWhenItFits(schema: Json, name: string)
    requires InputsFragment(schema) && BuildRequiredInputs(schema).Ok? && Wanted(schema.members, name)
    ensures
      var raw, inputs := ObjectField(schema.members, "properties")[name], BuildRequiredInputs(schema).value;
      name in inputs && (Validates(raw, Fill(raw, inputs[name])) <==> InputFits(schema, name))
    decreases schema, 0
  {
    var raw := ObjectField(schema.members, "properties")[name];
    KeysAreExact(schema, name);
    assert schema.members["properties"].members[name] == raw;
    assert Fragment(name, raw);
    ValueValidatesWhenItFits(name, raw);
  }

  /** The filled inputs, member by member. */
  lemma FilledMembers(schema: Json, name: string)
    requires schema.JObj? && !HasEnum(schema.members) && BuildRequiredInputs(schema).Ok?
    ensures
      var o, inputs := schema.members, BuildRequiredInputs(schema).value;
      var filled := Fill(schema, JObj(inputs)).members;
      && (name in filled <==> Wanted(o, name) || name in Defaulted(o))
      && (Wanted(o, name) ==> name in inputs && filled[name] == Fill(ObjectField(o, "properties")[name], inputs[name]))
      && (name in Defaulted(o) ==> filled[name] == AsObject(ObjectField(o, "properties")[name])["default"])
  {
    KeysAreExact(schema, name);
  }

  /** The generated inputs of a schema in the fragment satisfy it, once the declared defaults are filled in, exactly
      when the schema fits: required names are declared, defaults are valid, and every bound on the way can be met. */
  lemma {:induction false} InputsValidateWhenTheyFit(schema: Json)
    requires InputsFragment(schema) && BuildRequiredInputs(schema).Ok?
    ensures Validates(schema, Fill(schema, JObj(BuildRequiredInputs(schema).value))) <==> InputsFit(schema)
    decreases schema, 1
  {
    var o := schema.members;
    var properties := ObjectField(o, "properties");
    var filled := Fill(schema, JObj(BuildRequiredInputs(schema).value)).members;
    forall name ensures name in filled <==> Wanted(o, name) || name in Defaulted(o) {
      FilledMembers(schema, name);
    }
    forall name | name in RequiredNames(o) ensures name in filled <==> name in properties {
      assert name in properties ==> Wanted(o, name) || name in Defaulted(o);
    }
    forall name | Wanted(o, name) ensures Validates(properties[name], filled[name]) <==> InputFits(schema, name) {
      FilledMembers(schema, name);
      PropertyValidatesWhenItFits(schema, name);
    }
    forall name | name in Defaulted(o) ensures filled[name] == AsObject(properties[name])["default"] {
      FilledMembers(schema, name);
    }
    assert KeywordsOk(o, JObj(filled)) <==> forall name | name in RequiredNames(o) :: name in properties;
  }

  lemma ShortPhraseMentionsNothing(phrase: string, words: seq<string>)
    requires |phrase| == 2 && forall word | word in words :: |word| > 2
    ensures !Mentions(phrase, words)
  {
  }

  lemma ShortNamesMentionNothing(name: string, o: Object)
    requires |name| == 1 && TextField(o, "description") == ""
    ensures FixtureString(name, o) == "stage10-" + name
  {
    var phrase := Lower(name + " " + TextField(o, "description"));
    ShortPhraseMentionsNothing(phrase, ["selector"]);
    ShortPhraseMentionsNothing(phrase, ["expected", "text", "value"]);
    ShortPhraseMentionsNothing(phrase, ["button", "action"]);
    ShortPhraseMentionsNothing(phrase, ["result", "output"]);
  }

  lemma {:induction false} UnitsAdd(a: string, b: string)
    ensures UnitLength(a + b) == UnitLength(a) + UnitLength(b)
    decreases |b|
  {
    if b == [] {
      assert a + b == a;
    } else {
      assert (a + b)[..|a + b| - 1] == a + b[..|b| - 1];
      UnitsAdd(a, b[..|b| - 1]);
    }
  }

  /** Padding counts characters beyond U+FFFF twice, a validator counts them once: a required string named by one
      such character, of at least ten characters, is made one character short. */
  lemma AstralNameUnderpads(c: char, o: Object)
    requires c as int > 0xFFFF && o == map["type" := JStr("string"), "minLength" := JNum(10.0)]
    ensures SynthesizeValue([c], JObj(o)) == Ok(JStr("stage10-" + [c]))
    ensures !Validates(JObj(o), JStr("stage10-" + [c]))
  {
    var text := "stage10-" + [c];
    assert "description" !in o && "enum" !in o;
    ShortNamesMentionNothing([c], o);
    UnitsCoverLength("stage10-");
    UnitsAdd("stage10-", [c]);
    assert UnitLength([c]) == 2;
    assert Xs(0) == [] && text + [] == text;
    assert UnitLength(text) >= 10;
    XsLength(10 - UnitLength(text));
    assert PadEnd(text, 10.0) == text;
    assert NumberField(o, "minLength") == Some(10.0) && |text| == 9;
  }

  // ---------- the generator's own form ----------

  /** `buildRequiredInputs`: the properties in any order, the first failure ends it. */
  method CollectInputs(schema: Json) returns (r: Result<Object>)
    ensures r == BuildRequiredInputs(schema)
  {
    var o := AsObject(schema);
    var properties := ObjectField(o, "properties");
    var remaining := properties.Keys;
    var inputs: Object := map[];
    while remaining != {}
      invariant remaining <= properties.Keys
      invariant forall name | name in properties && name !in remaining
          && Wanted(o, name) :: PropertyValue(schema, name).Ok?
      invariant forall name :: name in inputs <==> name in properties && name !in remaining && Wanted(o, name)
      invariant forall name | name in inputs :: PropertyValue(schema, name) == Ok(inputs[name])
      decreases remaining
    {
      var name :| name in remaining;
      remaining := remaining - {name};
      if !Wanted(o, name) {
        continue;
      }
      var value := PropertyValue(schema, name);
      match value {
        case Err(e) => return Err(SECRET_ERROR);
        case Ok(v) => inputs := inputs[name := v];
      }
    }
    assert forall name | name in properties && Wanted(o, name) :: PropertyValue(schema, name).Ok?;
    assert inputs == BuildRequiredInputs(schema).value;
    r := Ok(inputs);
  }
}
