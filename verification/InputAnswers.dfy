/**
 Which value the input generator of scripts/staging-task-inputs.ts makes for which schema, in terms of the schema's own
 fields: the fixture for each kind of mention, the value for each type, the keys.
 */
module InputAnswers {
  import opened Wrappers
  import opened JsonPatch
  import opened TaskInputs

  // ---------- mentions ----------

  /** The same letter in either case. */
  predicate SameLetter(c: char, lower: char) { c == lower || ('A' <= c <= 'Z' && c as int + 32 == lower as int) }

  predicate SaysAt(text: string, i: nat, word: string) {
    i + |word| <= |text| && forall k | 0 <= k < |word| :: SameLetter(text[i + k], word[k])
  }

  /** The word stands in the text, in upper or lower case. */
  predicate Says(text: string, word: string) { exists i | 0 <= i <= |text| :: SaysAt(text, i, word) }

  predicate LowerCase(word: string) { forall k | 0 <= k < |word| :: 'a' <= word[k] <= 'z' }

  lemma ReadsAtIs(text: string, i: nat, word: string)
    requires LowerCase(word)
    ensures ReadsAt(Lower(text), i, word) <==> SaysAt(text, i, word)
  {
    if i + |word| <= |text| {
      var read := Lower(text)[i..i + |word|];
      forall k | 0 <= k < |word| ensures read[k] == word[k] <==> SameLetter(text[i + k], word[k]) {
        assert read[k] == Lower(text)[i + k];
      }
      if SaysAt(text, i, word) {
        assert read == word;
      }
    }
  }

  lemma IncludesIs(text: string, word: string)
    requires LowerCase(word)
    ensures Includes(Lower(text), word) <==> Says(text, word)
  {
    forall i: nat ensures ReadsAt(Lower(text), i, word) <==> SaysAt(text, i, word) {
      ReadsAtIs(text, i, word);
    }
  }

  lemma MentionsIs(text: string, words: seq<string>)
    requires forall word | word in words :: LowerCase(word)
    ensures Mentions(Lower(text), words) <==> exists word | word in words :: Says(text, word)
  {
    forall word | word in words ensures Includes(Lower(text), word) <==> Says(text, word) {
      IncludesIs(text, word);
    }
  }

  lemma MentionsOne(text: string, a: string)
    requires LowerCase(a)
    ensures Mentions(Lower(text), [a]) <==> Says(text, a)
  {
    MentionsIs(text, [a]);
    assert a in [a];
  }

  lemma MentionsTwo(text: string, a: string, b: string)
    requires LowerCase(a) && LowerCase(b)
    ensures Mentions(Lower(text), [a, b]) <==> Says(text, a) || Says(text, b)
  {
    MentionsIs(text, [a, b]);
    assert a in [a, b] && b in [a, b];
  }

  lemma MentionsThree(text: string, a: string, b: string, c: string)
    requires LowerCase(a) && LowerCase(b) && LowerCase(c)
    ensures Mentions(Lower(text), [a, b, c]) <==> Says(text, a) || Says(text, b) || Says(text, c)
  {
    MentionsIs(text, [a, b, c]);
    assert a in [a, b, c] && b in [a, b, c] && c in [a, b, c];
  }

  /** What a property is searched in: its name, a blank, and its description if that is a text. */
  function Label(name: string, property: Object): string {
    name + " " + if "description" in property && property["description"].JStr? then property["description"].s else ""
  }

  /** Which fixture a text gets: selectors of the button or the result, the text to expect, their identifiers, or a
      text made of the name; the first that is mentioned, in this order. */
  lemma FixtureFor(name: string, property: Object)
    ensures
      var phrase := Label(name, property);
      var button, result := Says(phrase, "button") || Says(phrase, "action"), Says(phrase, "result") || Says(phrase, "output");
      FixtureString(name, property)
      == if Says(phrase, "selector") && button then "#semantic-action"
         else if Says(phrase, "selector") && result then "#semantic-result"
         else if Says(phrase, "expected") || Says(phrase, "text") || Says(phrase, "value") then "semantic action complete"
         else if button then "semantic-action"
         else if result then "semantic-result"
         else "stage10-" + name
  {
    var phrase := Label(name, property);
    assert phrase == name + " " + TextField(property, "description");
    MentionsOne(phrase, "selector");
    MentionsTwo(phrase, "button", "action");
    MentionsTwo(phrase, "result", "output");
    MentionsThree(phrase, "expected", "text", "value");
    assert "#" + "semantic-action" == "#semantic-action" && "#" + "semantic-result" == "#semantic-result";
  }

  // ---------- values ----------

  function Bound(property: Object, key: string): Option<real> {
    if key in property && property[key].JNum? then Some(property[key].n) else None
  }

  lemma {:induction false} XsAre(n: int)
    ensures |Xs(n)| == (if n > 0 then n else 0) && forall k | 0 <= k < |Xs(n)| :: Xs(n)[k] == 'x'
  {
    if n > 0 {
      XsAre(n - 1);
    }
  }

  /** Code units: two for a character beyond U+FFFF, one for any other. */
  lemma UnitsOf(s: string, c: char)
    ensures UnitLength(s + [c]) == UnitLength(s) + if c as int < 0x1_0000 then 1 else 2
  {
    assert (s + [c])[..|s|] == s;
  }

  /** A text is its fixture, and then as many letters x as it falls short of the lower bound, in code units. */
  lemma TextAnswer(name: string, raw: Json)
    requires raw.JObj? && !HasEnum(raw.members) && Field(raw.members, "type") == Some(JStr("string"))
    ensures
      var o := raw.members;
      var fixture, r := FixtureString(name, o), SynthesizeValue(name, raw);
      var short := if Bound(o, "minLength").Some? then Bound(o, "minLength").value.Floor - UnitLength(fixture) else 0;
      && r.Ok? && r.value.JStr? && fixture <= r.value.s
      && |r.value.s| == |fixture| + (if short > 0 then short else 0)
      && forall k | |fixture| <= k < |r.value.s| :: r.value.s[k] == 'x'
  {
    var o := raw.members;
    var min := Bound(o, "minLength");
    assert min == NumberField(o, "minLength");
    XsAre((if min.Some? then min.value else 0.0).Floor - UnitLength(FixtureString(name, o)));
  }

  lemma TypeNamesDiffer()
    ensures "string" != "integer" && "string" != "number" && "string" != "boolean" && "string" != "array"
    ensures "integer" != "number" && "integer" != "boolean" && "integer" != "array" && "integer" != "object"
    ensures "number" != "boolean" && "number" != "array" && "number" != "object" && "string" != "object"
    ensures "boolean" != "array" && "boolean" != "object" && "array" != "object"
  {
    assert "string"[0] == 's' && "integer"[0] == 'i' && "number"[0] == 'n' && "boolean"[0] == 'b' && "array"[0] == 'a'
        && "object"[0] == 'o';
  }

  /** The first of an enumeration; otherwise by type: a number is its lower bound, or else one, or an upper bound below
      one; a truth value is true; an object is made of its wanted properties. */
  lemma ValueAnswer(name: string, raw: Json)
    requires raw.JObj?
    ensures
      var o, r := raw.members, SynthesizeValue(name, raw);
      if "enum" in o && o["enum"].JArr? && o["enum"].items != [] then r == Ok(o["enum"].items[0])
      else if "type" !in o || !o["type"].JStr? then r == Ok(JStr(FixtureString(name, o)))
      else if o["type"].s in ["integer", "number"] then
        r == Ok(JNum(if Bound(o, "minimum").Some? then Bound(o, "minimum").value
                     else if Bound(o, "maximum").Some? && Bound(o, "maximum").value < 1.0 then Bound(o, "maximum").value
                     else 1.0))
      else if o["type"].s == "boolean" then r == Ok(JBool(true))
      else if o["type"].s == "object" then
        r == match BuildRequiredInputs(raw) case Err(e) => Err(e) case Ok(inputs) => Ok(JObj(inputs))
      else o["type"].s in ["string", "array"] || r == Ok(JStr(FixtureString(name, o)))
  {
    TypeNamesDiffer();
  }

  /** An array has the items it needs, each made for the item schema under the name of an item. */
  lemma ArrayAnswer(name: string, raw: Json)
    requires raw.JObj? && !HasEnum(raw.members) && Field(raw.members, "type") == Some(JStr("array"))
    ensures
      var o, r := raw.members, SynthesizeValue(name, raw);
      var item := if "items" in o && o["items"].JObj? then SynthesizeValue(name + "Item", o["items"])
                  else Ok(JStr(FixtureString(name + "Item", map[])));
      var least := Bound(o, "minItems");
      var n := if least.Some? && least.value.Floor > 0 then least.value.Floor else 0;
      match item
      case Err(e) => r == Err(e)
      case Ok(v) => r.Ok? && r.value.JArr? && |r.value.items| == n && forall k | 0 <= k < n :: r.value.items[k] == v
  {
    TypeNamesDiffer();
  }

  /** A value is made for exactly the declared properties that are required by name and declare no default; a secret
      among them fails. */
  lemma KeysAnswer(schema: Json, name: string)
    requires schema.JObj? && "properties" in schema.members && schema.members["properties"].JObj?
    requires "required" in schema.members && schema.members["required"].JArr?
    ensures
      var properties := schema.members["properties"].members;
      var wanted := && name in properties && JStr(name) in schema.members["required"].items
                    && !(properties[name].JObj? && "default" in properties[name].members);
      var secret := wanted && properties[name].JObj? && "x-secret" in properties[name].members
                    && properties[name].members["x-secret"] == JBool(true);
      var r := BuildRequiredInputs(schema);
      && (secret ==> r.Err?)
      && (r.Ok? ==> (name in r.value <==> wanted)
                    && (wanted ==> SynthesizeValue(name, properties[name]) == Ok(r.value[name])))
  {
    var o := schema.members;
    var properties := o["properties"].members;
    assert name in RequiredNames(o) <==> JStr(name) in o["required"].items;
    assert Wanted(o, name) ==>
        PropertyValue(schema, name) in {Err(SECRET_ERROR), SynthesizeValue(name, properties[name])};
    if BuildRequiredInputs(schema).Ok? {
      KeysAreExact(schema, name);
    }
  }
}
