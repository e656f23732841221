/** `redact` of scripts/external-production-qualification.js: secrets are taken out of every string leaf of a value. */
module NestedRedaction {
  import opened Wrappers
  import opened Text
  import opened Redaction

  const REDACTED: Text := Units("[REDACTED]")

  /** A JavaScript value; `Opaque` stands for everything `redact` returns as it is (numbers, booleans, null). */
  datatype Value =
    | Leaf(text: Text)
    | Opaque(id: int)
    | List(items: seq<Value>)
    | Record(entries: seq<(Text, Value)>)

  // ---------- split and join ----------

  /** `text.split(separator)` for a non-empty separator. */
  function Split(text: Text, separator: Text): (parts: seq<Text>)
    requires separator != []
    ensures parts != []
    decreases |text|
  {
    if text == [] then [[]]
    else if separator <= text then [[]] + Split(text[|separator|..], separator)
    else
      var rest := Split(text[1..], separator);
      [[text[0]] + rest[0]] + rest[1..]
  }

  /** `parts.join(glue)`. */
  function Join(parts: seq<Text>, glue: Text): Text
    requires parts != []
  {
    if |parts| == 1 then parts[0] else parts[0] + glue + Join(parts[1..], glue)
  }

  function ReplaceAll(text: Text, secret: Text, replacement: Text): Text
    requires secret != []
  {
    Join(Split(text, secret), replacement)
  }

  /** Splitting and joining is the leftmost scan for one secret. */
  lemma {:induction false} ReplaceAllIsScan(text: Text, secret: Text, replacement: Text)
    requires secret != []
    ensures ReplaceAll(text, secret, replacement) == Scan({secret}, replacement, text)
    decreases |text|
  {
    if text != [] {
      var n := MatchLength({secret}, text);
      if secret <= text {
        assert text[..|secret|] == secret;
        assert n == |secret|;
        ReplaceAllIsScan(text[n..], secret, replacement);
        var parts := Split(text, secret);
        assert parts[1..] == Split(text[n..], secret);
        assert parts[0] + replacement == replacement;
      } else {
        assert n == 0;
        ReplaceAllIsScan(text[1..], secret, replacement);
        JoinHead(text[0], Split(text[1..], secret), replacement);
      }
      assert Pieces({secret}, text)[1..] == Pieces({secret}, text[if n > 0 then n else 1..]);
    }
  }

  lemma JoinHead(unit: CodeUnit, parts: seq<Text>, glue: Text)
    requires parts != []
    ensures Join([[unit] + parts[0]] + parts[1..], glue) == [unit] + Join(parts, glue)
  {
    if |parts| > 1 {
      assert ([[unit] + parts[0]] + parts[1..])[1..] == parts[1..];
      assert ([unit] + parts[0]) + glue + Join(parts[1..], glue) == [unit] + (parts[0] + glue + Join(parts[1..], glue));
    }
  }

  // ---------- one string ----------

  /** `secrets.filter(Boolean).reduce(...)`: the secrets are replaced one after the other. */
  function RedactText(text: Text, secrets: seq<Text>): Text
    decreases |secrets|
  {
    if secrets == [] then text
    else if secrets[0] == [] then RedactText(text, secrets[1..])
    else RedactText(ReplaceAll(text, secrets[0], REDACTED), secrets[1..])
  }

  /** The replacement cannot be part of any secret. */
  predicate Redactable(secrets: seq<Text>) {
    forall s | s in secrets && s != [] :: Apart(REDACTED, s)
  }

  /** Redacting further secrets cannot bring an absent needle back. */
  lemma {:induction false} RedactTextKeepsAbsent(text: Text, secrets: seq<Text>, needle: Text)
    requires needle != [] && Apart(REDACTED, needle)
    requires !Contains(text, needle)
    ensures !Contains(RedactText(text, secrets), needle)
    decreases |secrets|
  {
    if secrets != [] && secrets[0] == [] {
      RedactTextKeepsAbsent(text, secrets[1..], needle);
    } else if secrets != [] {
      var next := ReplaceAll(text, secrets[0], REDACTED);
      ReplaceAllIsScan(text, secrets[0], REDACTED);
      if Contains(next, needle) {
        var at :| 0 <= at <= |next| && OccursAt(needle, next, at);
        var from := OutputComesFromPlainInput({secrets[0]}, REDACTED, text, needle, at);
      }
      RedactTextKeepsAbsent(next, secrets[1..], needle);
    }
  }

  lemma {:induction false} RedactTextHides(text: Text, secrets: seq<Text>, secret: Text)
    requires Redactable(secrets) && secret in secrets && secret != []
    ensures !Contains(RedactText(text, secrets), secret)
    decreases |secrets|
  {
    assert Redactable(secrets[1..]);
    if secrets[0] == [] {
      RedactTextHides(text, secrets[1..], secret);
    } else {
      var next := ReplaceAll(text, secrets[0], REDACTED);
      if secrets[0] == secret {
        ReplaceAllIsScan(text, secret, REDACTED);
        ScanHidesSecrets({secret}, REDACTED, text, secret);
        RedactTextKeepsAbsent(next, secrets[1..], secret);
      } else {
        RedactTextHides(next, secrets[1..], secret);
      }
    }
  }

  lemma {:induction false} RedactTextLeavesClean(text: Text, secrets: seq<Text>)
    requires forall s | s in secrets && s != [] :: !Contains(text, s)
    ensures RedactText(text, secrets) == text
    decreases |secrets|
  {
    if secrets != [] {
      if secrets[0] != [] {
        ReplaceAllIsScan(text, secrets[0], REDACTED);
        ScanLeavesCleanInput({secrets[0]}, REDACTED, text);
      }
      RedactTextLeavesClean(text, secrets[1..]);
    }
  }

  // ---------- what lies between ----------

  /** The part holds no separator, nor begins one that ends in the separator after it. */
  predicate Clear(part: Text, separator: Text) {
    forall at | 0 <= at < |part| :: !OccursAt(separator, part + separator, at)
  }

  /** Reading from the left, these are the stretches between the occurrences of the separator. */
  predicate Between(parts: seq<Text>, separator: Text) {
    && parts != [] && !Contains(parts[|parts| - 1], separator)
    && forall i | 0 <= i < |parts| - 1 :: Clear(parts[i], separator)
  }

  lemma StartsWithin(needle: Text, head: Text, rest: Text)
    requires |needle| <= |head|
    ensures needle <= head + rest <==> OccursAt(needle, head, 0)
  {
    assert (head + rest)[..|needle|] == head[..|needle|] == head[0..0 + |needle|];
  }

  lemma ClearLonger(unit: CodeUnit, part: Text, separator: Text)
    requires separator != []
    ensures Clear([unit] + part, separator)
            <==> Clear(part, separator) && !OccursAt(separator, [unit] + part + separator, 0)
  {
    var longer := [unit] + part + separator;
    assert longer == [unit] + (part + separator);
    forall at: nat ensures OccursAt(separator, longer, at + 1) <==> OccursAt(separator, part + separator, at) {
      OccursInRight([unit], part + separator, separator, at + 1);
    }
    if Clear([unit] + part, separator) {
      forall at | 0 <= at < |part| ensures !OccursAt(separator, part + separator, at) {
        assert !OccursAt(separator, longer, at + 1);
      }
    }
    if Clear(part, separator) && !OccursAt(separator, longer, 0) {
      forall at | 0 <= at < |[unit] + part| ensures !OccursAt(separator, longer, at) {
        assert at > 0 ==> !OccursAt(separator, part + separator, at - 1);
      }
    }
  }

  lemma ContainsLonger(unit: CodeUnit, part: Text, separator: Text)
    requires separator != []
    ensures Contains([unit] + part, separator) <==> Contains(part, separator) || OccursAt(separator, [unit] + part, 0)
  {
    forall at: nat ensures OccursAt(separator, [unit] + part, at + 1) <==> OccursAt(separator, part, at) {
      OccursInRight([unit], part, separator, at + 1);
    }
    if Contains([unit] + part, separator) {
      var at :| 0 <= at <= |[unit] + part| && OccursAt(separator, [unit] + part, at);
      assert at > 0 ==> OccursAt(separator, part, at - 1);
    }
    if Contains(part, separator) {
      var at :| 0 <= at <= |part| && OccursAt(separator, part, at);
      assert OccursAt(separator, [unit] + part, at + 1);
    }
  }

  lemma LastLonger(unit: CodeUnit, part: Text, separator: Text)
    requires separator != []
    ensures Between([[unit] + part], separator) <==> Between([part], separator) && !(separator <= [unit] + part)
  {
    ContainsLonger(unit, part, separator);
    if |separator| <= |[unit] + part| {
      StartsWithin(separator, [unit] + part, []);
      assert ([unit] + part) + [] == [unit] + part;
    }
  }

  lemma BetweenFirst(part: Text, rest: seq<Text>, separator: Text)
    requires rest != []
    ensures Between([part] + rest, separator) <==> Clear(part, separator) && Between(rest, separator)
  {
    var parts := [part] + rest;
    assert parts[|parts| - 1] == rest[|rest| - 1];
    if Between(parts, separator) {
      assert parts[0] == part;
      forall i | 0 <= i < |rest| - 1 ensures Clear(rest[i], separator) {
        assert Clear(parts[i + 1], separator) && parts[i + 1] == rest[i];
      }
    }
    if Clear(part, separator) && Between(rest, separator) {
      forall i | 0 <= i < |parts| - 1 ensures Clear(parts[i], separator) {
        assert i > 0 ==> parts[i] == rest[i - 1];
      }
    }
  }

  lemma JoinFirst(part: Text, rest: seq<Text>, glue: Text)
    requires rest != []
    ensures Join([part] + rest, glue) == part + glue + Join(rest, glue)
  {
    assert ([part] + rest)[1..] == rest;
  }

  /** One unit more in the first stretch. */
  lemma FirstLonger(unit: CodeUnit, part: Text, rest: seq<Text>, separator: Text)
    requires separator != [] && rest != []
    ensures Between([[unit] + part] + rest, separator)
            <==> Between([part] + rest, separator) && !(separator <= [unit] + Join([part] + rest, separator))
  {
    BetweenFirst([unit] + part, rest, separator);
    BetweenFirst(part, rest, separator);
    JoinFirst(part, rest, separator);
    ClearLonger(unit, part, separator);
    StartsWithin(separator, [unit] + part + separator, Join(rest, separator));
    assert [unit] + (part + separator + Join(rest, separator)) == [unit] + part + separator + Join(rest, separator);
  }

  lemma BetweenLonger(unit: CodeUnit, parts: seq<Text>, separator: Text)
    requires separator != [] && parts != []
    ensures Between([[unit] + parts[0]] + parts[1..], separator)
            <==> Between(parts, separator) && !(separator <= [unit] + Join(parts, separator))
  {
    assert parts == [parts[0]] + parts[1..];
    if |parts| == 1 {
      assert [[unit] + parts[0]] + parts[1..] == [[unit] + parts[0]];
      LastLonger(unit, parts[0], separator);
    } else {
      FirstLonger(unit, parts[0], parts[1..], separator);
    }
  }

  lemma SplitUnit(unit: CodeUnit, text: Text, secret: Text)
    requires secret != []
    ensures
      var rest := Split(text, secret);
      !(secret <= [unit] + text) ==> Split([unit] + text, secret) == [[unit] + rest[0]] + rest[1..]
  {
    assert ([unit] + text)[1..] == text;
  }

  lemma SplitSecret(text: Text, secret: Text)
    requires secret != []
    ensures Split(secret + text, secret) == [[]] + Split(text, secret)
  {
    assert (secret + text)[|secret|..] == text;
  }

  /** Splitting finds exactly these stretches. */
  lemma {:induction false} SplitJoined(parts: seq<Text>, secret: Text)
    requires secret != [] && Between(parts, secret)
    ensures Split(Join(parts, secret), secret) == parts
    decreases |parts|, |parts[0]|
  {
    var part, rest := parts[0], parts[1..];
    assert parts == [part] + rest;
    if part != [] {
      var shorter := [part[1..]] + rest;
      assert part == [part[0]] + part[1..] && shorter[1..] == rest;
      BetweenLonger(part[0], shorter, secret);
      SplitJoined(shorter, secret);
      JoinHead(part[0], shorter, secret);
      SplitUnit(part[0], Join(shorter, secret), secret);
    } else if rest != [] {
      BetweenFirst(part, rest, secret);
      JoinFirst(part, rest, secret);
      SplitJoined(rest, secret);
      assert [] + secret + Join(rest, secret) == secret + Join(rest, secret);
      SplitSecret(Join(rest, secret), secret);
    }
  }

  /** Every text has such stretches. */
  lemma {:induction false} SplitIsBetween(text: Text, secret: Text)
    requires secret != []
    ensures Join(Split(text, secret), secret) == text && Between(Split(text, secret), secret)
    decreases |text|
  {
    if secret <= text {
      var after := text[|secret|..];
      assert text == secret + after;
      SplitIsBetween(after, secret);
      SplitSecret(after, secret);
      BetweenFirst([], Split(after, secret), secret);
      JoinFirst([], Split(after, secret), secret);
      assert [] + secret + after == secret + after;
    } else if text != [] {
      var after := text[1..];
      assert text == [text[0]] + after;
      SplitIsBetween(after, secret);
      UnitIsBetween(text[0], after, secret);
    }
  }

  lemma UnitIsBetween(unit: CodeUnit, after: Text, secret: Text)
    requires secret != [] && !(secret <= [unit] + after)
    requires Join(Split(after, secret), secret) == after && Between(Split(after, secret), secret)
    ensures Join(Split([unit] + after, secret), secret) == [unit] + after && Between(Split([unit] + after, secret), secret)
  {
    SplitUnit(unit, after, secret);
    BetweenLonger(unit, Split(after, secret), secret);
    JoinHead(unit, Split(after, secret), secret);
  }

  /** With several secrets each is taken out of what the ones before it left; an empty one takes out nothing. */
  lemma {:induction false} RedactTextInTurn(text: Text, first: seq<Text>, second: seq<Text>)
    ensures RedactText(text, first + second) == RedactText(RedactText(text, first), second)
    decreases |first|
  {
    if first == [] {
      assert first + second == second;
    } else {
      assert (first + second)[1..] == first[1..] + second;
      var next := if first[0] == [] then text else ReplaceAll(text, first[0], REDACTED);
      RedactTextInTurn(next, first[1..], second);
    }
  }

  /** One more secret: what lies between its occurrences, in the text that the secrets before it left, is kept as it
      is, and each occurrence becomes the replacement. */
  lemma KeepsWhatLiesBetween(text: Text, secrets: seq<Text>, secret: Text, parts: seq<Text>)
    requires secret != [] && Between(parts, secret) && RedactText(text, secrets) == Join(parts, secret)
    ensures RedactText(text, secrets + [secret]) == Join(parts, Units("[REDACTED]"))
    ensures RedactText(text, secrets + [[]]) == RedactText(text, secrets)
  {
    RedactTextInTurn(text, secrets, [secret]);
    RedactTextInTurn(text, secrets, [[]]);
    SplitJoined(parts, secret);
    assert [secret][1..] == [];
  }

  // ---------- nested values ----------

  function Redact(value: Value, secrets: seq<Text>): Value {
    match value
    case Leaf(text) => Leaf(RedactText(text, secrets))
    case List(items) => List(seq(|items|, i requires 0 <= i < |items| => Redact(items[i], secrets)))
    case Record(entries) =>
      Record(seq(|entries|, i requires 0 <= i < |entries| => (entries[i].0, Redact(entries[i].1, secrets))))
    case Opaque(_) => value
  }

  /** The same tree, the same keys and the same non-string leaves. */
  predicate SameShape(left: Value, right: Value) {
    match left
    case Leaf(_) => right.Leaf?
    case Opaque(_) => right == left
    case List(items) =>
      right.List? && |right.items| == |items| && forall i | 0 <= i < |items| :: SameShape(items[i], right.items[i])
    case Record(entries) =>
      && right.Record? && |right.entries| == |entries|
      && forall i | 0 <= i < |entries| ::
        entries[i].0 == right.entries[i].0 && SameShape(entries[i].1, right.entries[i].1)
  }

  /** No string leaf of the value contains the needle. */
  predicate LeavesAvoid(value: Value, needle: Text) {
    match value
    case Leaf(text) => !Contains(text, needle)
    case Opaque(_) => true
    case List(items) => forall i | 0 <= i < |items| :: LeavesAvoid(items[i], needle)
    case Record(entries) => forall i | 0 <= i < |entries| :: LeavesAvoid(entries[i].1, needle)
  }

  lemma {:induction false} RedactKeepsShape(value: Value, secrets: seq<Text>)
    ensures SameShape(value, Redact(value, secrets))
  {
    match value
    case List(items) =>
      forall i | 0 <= i < |items| ensures SameShape(items[i], Redact(items[i], secrets)) {
        RedactKeepsShape(items[i], secrets);
      }
    case Record(entries) =>
      forall i | 0 <= i < |entries| ensures SameShape(entries[i].1, Redact(entries[i].1, secrets)) {
        RedactKeepsShape(entries[i].1, secrets);
      }
    case _ =>
  }

  /** At every depth, no string of the redacted value contains any of the secrets. */
  lemma {:induction false} RedactHidesSecrets(value: Value, secrets: seq<Text>, secret: Text)
    requires Redactable(secrets) && secret in secrets && secret != []
    ensures LeavesAvoid(Redact(value, secrets), secret)
  {
    match value
    case Leaf(text) => RedactTextHides(text, secrets, secret);
    case List(items) =>
      forall i | 0 <= i < |items| ensures LeavesAvoid(Redact(items[i], secrets), secret) {
        RedactHidesSecrets(items[i], secrets, secret);
      }
    case Record(entries) =>
      forall i | 0 <= i < |entries| ensures LeavesAvoid(Redact(entries[i].1, secrets), secret) {
        RedactHidesSecrets(entries[i].1, secrets, secret);
      }
    case Opaque(_) =>
  }

  /** What is found in a value by following positions. */
  function At(value: Value, path: seq<nat>): Option<Value>
    decreases |path|
  {
    if path == [] then Some(value)
    else
      match value
      case List(items) => if path[0] < |items| then At(items[path[0]], path[1..]) else None
      case Record(entries) => if path[0] < |entries| then At(entries[path[0]].1, path[1..]) else None
      case _ => None
  }

  /** Every string, at every depth, is replaced by its redaction, and nothing else is. */
  lemma {:induction false} EveryLeafIsRedacted(value: Value, secrets: seq<Text>, path: seq<nat>)
    ensures
      match At(value, path)
      case Some(Leaf(text)) => At(Redact(value, secrets), path) == Some(Leaf(RedactText(text, secrets)))
      case Some(Opaque(id)) => At(Redact(value, secrets), path) == Some(Opaque(id))
      case found => found.Some? <==> At(Redact(value, secrets), path).Some?
    decreases |path|
  {
    if path != [] {
      match value
      case List(items) =>
        if path[0] < |items| {
          EveryLeafIsRedacted(items[path[0]], secrets, path[1..]);
        }
      case Record(entries) =>
        if path[0] < |entries| {
          EveryLeafIsRedacted(entries[path[0]].1, secrets, path[1..]);
        }
      case _ =>
    }
  }

  /** Redacting a second time changes nothing. */
  lemma {:induction false} RedactIsIdempotent(value: Value, secrets: seq<Text>)
    requires Redactable(secrets)
    ensures Redact(Redact(value, secrets), secrets) == Redact(value, secrets)
  {
    match value
    case Leaf(text) =>
      forall s | s in secrets && s != [] ensures !Contains(RedactText(text, secrets), s) {
        RedactTextHides(text, secrets, s);
      }
      RedactTextLeavesClean(RedactText(text, secrets), secrets);
    case List(items) =>
      forall i | 0 <= i < |items| ensures Redact(Redact(items[i], secrets), secrets) == Redact(items[i], secrets) {
        RedactIsIdempotent(items[i], secrets);
      }
    case Record(entries) =>
      forall i | 0 <= i < |entries|
        ensures Redact(Redact(entries[i].1, secrets), secrets) == Redact(entries[i].1, secrets)
      {
        RedactIsIdempotent(entries[i].1, secrets);
      }
    case Opaque(_) =>
  }
}
