/**
 The pointer texts of src/rule-generator/converter/json-patch.ts and
 extension/src/recording/snapshot-delta.ts: how a path of tokens is printed and read back.
 */
module JsonPointer {
  import opened Wrappers

  // ---------- token escapes ----------

  /** `escapeToken`: "~" is written "~0", then "/" is written "~1". */
  function EscapeToken(token: string): string {
    if token == [] then []
    else (if token[0] == '~' then "~0" else if token[0] == '/' then "~1" else [token[0]]) + EscapeToken(token[1..])
  }

  /** `replace(/~1/g, '/')`. */
  function UnescapeSlash(token: string): string {
    if token == [] then []
    else if |token| > 1 && token[0] == '~' && token[1] == '1' then "/" + UnescapeSlash(token[2..])
    else [token[0]] + UnescapeSlash(token[1..])
  }

  /** `replace(/~0/g, '~')`. */
  function UnescapeTilde(token: string): string {
    if token == [] then []
    else if |token| > 1 && token[0] == '~' && token[1] == '0' then "~" + UnescapeTilde(token[2..])
    else [token[0]] + UnescapeTilde(token[1..])
  }

  function UnescapeToken(token: string): string { UnescapeTilde(UnescapeSlash(token)) }

  /** What remains after the first of the two replacements. */
  function TildesEscaped(token: string): string {
    if token == [] then [] else (if token[0] == '~' then "~0" else [token[0]]) + TildesEscaped(token[1..])
  }

  lemma {:induction false} SlashPass(token: string)
    ensures UnescapeSlash(EscapeToken(token)) == TildesEscaped(token)
  {
    if token != [] {
      SlashPass(token[1..]);
      var rest := EscapeToken(token[1..]);
      if token[0] == '~' {
        assert ("~0" + rest)[1..] == "0" + rest && ("0" + rest)[1..] == rest;
        assert UnescapeSlash("0" + rest) == "0" + UnescapeSlash(rest);
        assert UnescapeSlash("~0" + rest) == "~" + ("0" + UnescapeSlash(rest));
      } else if token[0] == '/' {
        assert ("~1" + rest)[2..] == rest;
      } else {
        assert ([token[0]] + rest)[1..] == rest;
      }
    }
  }

  lemma {:induction false} TildePass(token: string)
    ensures UnescapeTilde(TildesEscaped(token)) == token
  {
    if token != [] {
      TildePass(token[1..]);
      var rest := TildesEscaped(token[1..]);
      if token[0] == '~' {
        assert ("~0" + rest)[2..] == rest;
      } else {
        assert ([token[0]] + rest)[1..] == rest;
      }
    }
  }

  lemma UnescapeEscape(token: string)
    ensures UnescapeToken(EscapeToken(token)) == token
  {
    SlashPass(token);
    TildePass(token);
  }

  // ---------- pointers ----------

  function Render(tokens: seq<string>): string {
    if tokens == [] then "" else "/" + EscapeToken(tokens[0]) + Render(tokens[1..])
  }

  /** `text.split('/')`. */
  function SplitSlash(text: string): (r: seq<string>)
    ensures r != []
  {
    if text == [] then [""]
    else
      var rest := SplitSlash(text[1..]);
      if text[0] == '/' then [""] + rest else [[text[0]] + rest[0]] + rest[1..]
  }

  function UnescapeAll(parts: seq<string>): (r: seq<string>)
    ensures |r| == |parts|
  {
    seq(|parts|, i requires 0 <= i < |parts| => UnescapeToken(parts[i]))
  }

  /** `parsePointer`. */
  function ParsePointer(pointer: string): (r: Result<seq<string>>)
    ensures r.Ok? ==> r.value != []
  {
    if pointer == [] || pointer[0] != '/' then Err("patch path must be a rooted JSON pointer")
    else Ok(UnescapeAll(SplitSlash(pointer[1..])))
  }

  lemma {:induction false} EscapeHasNoSlash(token: string)
    ensures '/' !in EscapeToken(token)
  {
    if token != [] {
      EscapeHasNoSlash(token[1..]);
    }
  }

  lemma {:induction false} SplitAfterToken(head: string, rest: string)
    requires '/' !in head
    ensures SplitSlash(head + "/" + rest) == [head] + SplitSlash(rest)
    ensures SplitSlash(head) == [head]
  {
    if head == [] {
      assert (head + "/" + rest)[1..] == rest;
    } else {
      SplitAfterToken(head[1..], rest);
      assert (head + "/" + rest)[1..] == head[1..] + "/" + rest;
      assert [head[0]] + head[1..] == head;
    }
  }

  function EscapeAll(tokens: seq<string>): seq<string> {
    if tokens == [] then [] else [EscapeToken(tokens[0])] + EscapeAll(tokens[1..])
  }

  lemma SplitHead(head: string, rest: string)
    requires '/' !in head && (rest == [] || rest[0] == '/')
    ensures SplitSlash(head + rest) == [head] + if rest == [] then [] else SplitSlash(rest[1..])
  {
    if rest == [] {
      assert head + rest == head;
      SplitAfterToken(head, "");
    } else {
      assert head + rest == head + "/" + rest[1..];
      SplitAfterToken(head, rest[1..]);
    }
  }

  lemma AfterSlash(head: string, rest: string)
    ensures ("/" + head + rest)[0] == '/' && ("/" + head + rest)[1..] == head + rest
  {
  }

  lemma RenderHead(tokens: seq<string>)
    requires tokens != []
    ensures Render(tokens) != [] && Render(tokens)[0] == '/'
    ensures Render(tokens)[1..] == EscapeToken(tokens[0]) + Render(tokens[1..])
  {
    AfterSlash(EscapeToken(tokens[0]), Render(tokens[1..]));
  }

  lemma {:induction false} SplitRender(tokens: seq<string>)
    requires tokens != []
    ensures Render(tokens) != [] && SplitSlash(Render(tokens)[1..]) == EscapeAll(tokens)
    decreases |tokens|
  {
    var head, rest := EscapeToken(tokens[0]), Render(tokens[1..]);
    EscapeHasNoSlash(tokens[0]);
    RenderHead(tokens);
    if |tokens| > 1 {
      RenderHead(tokens[1..]);
      SplitHead(head, rest);
      SplitRender(tokens[1..]);
    } else {
      SplitHead(head, []);
      assert EscapeAll(tokens[1..]) == [];
    }
  }

  lemma {:induction false} UnescapeEscapeAll(tokens: seq<string>)
    ensures UnescapeAll(EscapeAll(tokens)) == tokens
  {
    if tokens != [] {
      UnescapeEscape(tokens[0]);
      UnescapeEscapeAll(tokens[1..]);
      var rest := EscapeAll(tokens[1..]);
      assert UnescapeAll([EscapeToken(tokens[0])] + rest) == [tokens[0]] + UnescapeAll(rest);
    }
  }

  /** Reading a printed path gives the path back: no token can be confused with a separator or an escape. */
  lemma ParseRender(tokens: seq<string>)
    requires tokens != []
    ensures ParsePointer(Render(tokens)) == Ok(tokens)
  {
    RenderHead(tokens);
    SplitRender(tokens);
    UnescapeEscapeAll(tokens);
  }

  // ---------- array indices ----------

  function DigitChar(d: nat): char
    requires d < 10
  {
    "0123456789"[d]
  }

  predicate IsDigit(c: char) { '0' <= c <= '9' }

  function DigitValue(c: char): nat
    requires IsDigit(c)
  {
    c as int - '0' as int
  }

  /** The decimal form an array index takes in a path. */
  function Decimal(n: nat): (r: string)
    ensures r != []
  {
    if n < 10 then [DigitChar(n)] else Decimal(n / 10) + [DigitChar(n % 10)]
  }

  /** `Number(token)` for a token of digits. */
  function DigitsValue(token: string): nat
    requires forall i | 0 <= i < |token| :: IsDigit(token[i])
  {
    if token == [] then 0
    else 10 * DigitsValue(token[..|token| - 1]) + DigitValue(token[|token| - 1])
  }

  /** `^(0|[1-9][0-9]*)$`. */
  predicate CanonicalIndex(token: string) {
    && token != []
    && (forall i | 0 <= i < |token| :: IsDigit(token[i]))
    && (token[0] == '0' ==> token == "0")
  }

  /** `arrayIndex`. */
  function ArrayIndex(token: string, length: nat, allowAppend: bool): (r: Result<nat>)
    ensures r.Ok? ==> r.value < length || (allowAppend && r.value == length)
  {
    if !CanonicalIndex(token) then Err("patch path array index must be a non-negative integer")
    else
      var index := DigitsValue(token);
      if index < length || (allowAppend && index == length) then Ok(index)
      else Err("patch path array index out of bounds")
  }

  lemma {:induction false} DecimalReadsBack(n: nat)
    ensures CanonicalIndex(Decimal(n)) && DigitsValue(Decimal(n)) == n
    ensures n > 0 ==> Decimal(n)[0] != '0'
  {
    if n >= 10 {
      DecimalReadsBack(n / 10);
      var init := Decimal(n / 10);
      assert Decimal(n)[..|init|] == init;
      assert Decimal(n)[0] == init[0];
    } else {
      assert Decimal(n)[..0] == [];
    }
  }

  /** An index printed into a path addresses that index, exactly when it is in range. */
  lemma IndexReadsBack(n: nat, length: nat, allowAppend: bool)
    ensures
      var r := ArrayIndex(Decimal(n), length, allowAppend);
      if n < length || (allowAppend && n == length) then r == Ok(n) else r.Err?
  {
    DecimalReadsBack(n);
  }
}
