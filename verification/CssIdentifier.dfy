/**
 `cssEscapeFallback` of extension/src/content.ts against the parser it must satisfy: "consume an ident
 sequence" (section 4.3.11 of CSS Syntax Module Level 3), "consume an escaped code point" (4.3.7) and
 the two checks they rely on (4.3.8 and 4.3.9).
 */
module CssIdentifier {
  import opened Text

  const REPLACEMENT_CHARACTER: CodeUnit := 0xFFFD
  const BACKSLASH: CodeUnit := 0x5C
  const SPACE: CodeUnit := 0x20
  const HYPHEN: CodeUnit := 0x2D

  predicate Digit(u: CodeUnit) { 0x30 <= u <= 0x39 }

  predicate Letter(u: CodeUnit) { 0x41 <= u <= 0x5A || 0x61 <= u <= 0x7A }

  // ---------- parsing ----------

  /** "ident code point" of section 4.2. */
  predicate IdentUnit(u: CodeUnit) { u >= 0x80 || Letter(u) || u == 0x5F || Digit(u) || u == HYPHEN }

  /** "ident-start code point" of section 4.2. */
  predicate IdentStartUnit(u: CodeUnit) { u >= 0x80 || Letter(u) || u == 0x5F }

  /** Section 4.3.8, at the head of the input. */
  predicate ValidEscape(input: Text) {
    input != [] && input[0] == BACKSLASH && (|input| > 1 ==> input[1] != 0x0A)
  }

  /** Section 4.3.9, at the head of the input. */
  predicate WouldStartIdent(input: Text) {
    && input != []
    && (if input[0] == HYPHEN then
          |input| > 1 && (IdentStartUnit(input[1]) || input[1] == HYPHEN || ValidEscape(input[1..]))
        else IdentStartUnit(input[0]) || ValidEscape(input))
  }

  function HexValue(u: CodeUnit): (v: int)
    ensures v >= 0 ==> v < 16
  {
    if Digit(u) then u - 0x30
    else if 0x41 <= u <= 0x46 then u - 0x37
    else if 0x61 <= u <= 0x66 then u - 0x57
    else -1
  }

  /** How many hexadecimal digits, at most `limit`, stand at the head of the input. */
  function HexRun(input: Text, limit: nat): (n: nat)
    ensures n <= |input| && n <= limit
    ensures forall k | 0 <= k < n :: HexValue(input[k]) >= 0
  {
    if limit == 0 || input == [] || HexValue(input[0]) < 0 then 0 else 1 + HexRun(input[1..], limit - 1)
  }

  function HexNumber(digits: Text): nat
    requires forall k | 0 <= k < |digits| :: HexValue(digits[k]) >= 0
  {
    if digits == [] then 0 else 16 * HexNumber(digits[..|digits| - 1]) + HexValue(digits[|digits| - 1])
  }

  predicate Whitespace(u: CodeUnit) { u == 0x0A || u == 0x09 || u == SPACE }

  /** Section 4.3.7: the code point after a backslash, and the remaining input. */
  function ConsumeEscaped(input: Text): (r: (int, Text))
    ensures |r.1| <= |input|
  {
    if input == [] then (REPLACEMENT_CHARACTER, [])
    else
      var n := HexRun(input, 6);
      if n == 0 then (input[0], input[1..])
      else
        var number := HexNumber(input[..n]);
        var rest := if n < |input| && Whitespace(input[n]) then input[n + 1..] else input[n..];
        (if number == 0 || 0xD800 <= number <= 0xDFFF || number > 0x10FFFF then REPLACEMENT_CHARACTER else number, rest)
  }

  /** Section 4.3.11: the value of the identifier at the head of the input, and the remaining input. */
  function ConsumeIdent(input: Text): (seq<int>, Text)
    decreases |input|
  {
    if input != [] && IdentUnit(input[0]) then
      var (value, rest) := ConsumeIdent(input[1..]);
      ([input[0]] + value, rest)
    else if ValidEscape(input) then
      var (point, after) := ConsumeEscaped(input[1..]);
      var (value, rest) := ConsumeIdent(after);
      ([point] + value, rest)
    else ([], input)
  }

  // ---------- printing ----------

  function HexDigit(v: int): CodeUnit
    requires 0 <= v < 16
  {
    if v < 10 then 0x30 + v else 0x37 + v
  }

  /** `\`, at least two upper-case hexadecimal digits, and the space that ends them. */
  function HexEscape(u: CodeUnit): Text
    requires u < 0x100
  {
    [BACKSLASH, HexDigit(u / 16), HexDigit(u % 16), SPACE]
  }

  /** Must the code unit at `i` be written as a hexadecimal escape? */
  predicate NeedsEscape(value: Text, i: nat)
    requires i < |value|
  {
    || (value[i] != 0 && !IdentUnit(value[i]))
    || (i == 0 && Digit(value[0]))
    || (i == 0 && value == [HYPHEN])
    || (i == 1 && Digit(value[1]) && value[0] == HYPHEN)
  }

  function EscapedUnit(value: Text, i: nat): Text
    requires i < |value|
  {
    if value[i] == 0 then [REPLACEMENT_CHARACTER]
    else if NeedsEscape(value, i) then HexEscape(value[i])
    else [value[i]]
  }

  function EscapedFrom(value: Text, i: nat): Text
    requires i <= |value|
    decreases |value| - i
  {
    if i == |value| then [] else EscapedUnit(value, i) + EscapedFrom(value, i + 1)
  }

  function Escaped(value: Text): Text { EscapedFrom(value, 0) }

  /** The value an identifier can carry: NUL cannot appear in one and reads as U+FFFD. */
  function NulReplaced(value: Text): Text {
    seq(|value|, i requires 0 <= i < |value| => if value[i] == 0 then REPLACEMENT_CHARACTER else value[i])
  }

  /** Letters, digits, hyphens, underscores, and everything beyond ASCII. */
  predicate Plain(u: CodeUnit) {
    0x61 <= u <= 0x7A || 0x41 <= u <= 0x5A || 0x30 <= u <= 0x39 || u == 0x2D || u == 0x5F || u >= 0x80
  }

  /** A digit that begins the value, or follows a hyphen that does. */
  predicate LeadingDigit(value: Text, i: nat)
    requires i < |value|
  {
    0x30 <= value[i] <= 0x39 && (i == 0 || (i == 1 && value[0] == 0x2D))
  }

  const UPPER_CASE_HEX: Text := Units("0123456789ABCDEF")

  /** A code unit is written as it is exactly when it is plain, no leading digit, and no hyphen that stands alone; NUL is
      written as U+FFFD, and every other unit as a backslash, its number in two upper-case hexadecimal digits, and a
      space. */
  lemma WrittenAsItIsWhen(value: Text, i: nat)
    requires i < |value|
    ensures
      var u, written := value[i], EscapedUnit(value, i);
      if u == 0 then written == [0xFFFD]
      else if Plain(u) && !LeadingDigit(value, i) && value != [0x2D] then written == [u]
      else u < 0x100 && written == [0x5C, UPPER_CASE_HEX[u / 16], UPPER_CASE_HEX[u % 16], 0x20]
  {
    assert value == [HYPHEN] <==> |value| == 1 && value[0] == HYPHEN;
    var u := value[i];
    if u < 0x100 {
      HexDigitIs(u / 16);
      HexDigitIs(u % 16);
    }
  }

  lemma HexDigitIs(v: int)
    requires 0 <= v < 16
    ensures HexDigit(v) == UPPER_CASE_HEX[v]
  {
    assert UPPER_CASE_HEX[v] == "0123456789ABCDEF"[v] as int;
  }

  // ---------- the two undo each other ----------

  /** Two digits and a space are read as exactly one code point. */
  lemma EscapeReadsBack(u: CodeUnit, rest: Text)
    requires 0 < u < 0x100
    ensures ValidEscape(HexEscape(u) + rest)
    ensures ConsumeEscaped((HexEscape(u) + rest)[1..]) == (u, rest)
  {
    var high, low := HexDigit(u / 16), HexDigit(u % 16);
    var input := (HexEscape(u) + rest)[1..];
    assert input == [high, low, SPACE] + rest;
    assert input[1..][1..] == [SPACE] + rest;
    assert HexRun(input[1..][1..], 4) == 0;
    assert HexRun(input[1..], 5) == 1;
    assert HexRun(input, 6) == 2;
    assert input[..2] == [high, low];
    assert [high, low][..1] == [high];
    assert HexNumber([high]) == 16 * HexNumber([high][..0]) + u / 16;
    assert HexNumber([high, low]) == u;
    assert input[3..] == rest;
  }

  lemma {:induction false} ParsesFrom(value: Text, i: nat)
    requires i <= |value|
    ensures ConsumeIdent(EscapedFrom(value, i)) == (NulReplaced(value)[i..], [])
    decreases |value| - i
  {
    if i < |value| {
      var rest := EscapedFrom(value, i + 1);
      ParsesFrom(value, i + 1);
      assert NulReplaced(value)[i..] == [NulReplaced(value)[i]] + NulReplaced(value)[i + 1..];
      var input := EscapedUnit(value, i) + rest;
      if value[i] != 0 && NeedsEscape(value, i) {
        EscapeReadsBack(value[i], rest);
        assert !IdentUnit(input[0]) && ValidEscape(input);
        assert ConsumeIdent(input) == ([value[i]] + ConsumeIdent(rest).0, []);
      } else {
        assert input[1..] == rest && IdentUnit(input[0]);
        assert ConsumeIdent(input) == ([input[0]] + ConsumeIdent(rest).0, []);
      }
    } else {
      assert NulReplaced(value)[i..] == [];
    }
  }

  /** For every non-empty string the output is one whole identifier whose value is that string. */
  lemma {:induction false} EscapeRoundTrip(value: Text)
    requires value != []
    ensures WouldStartIdent(Escaped(value))
    ensures ConsumeIdent(Escaped(value)) == (NulReplaced(value), [])
  {
    ParsesFrom(value, 0);
    assert NulReplaced(value)[0..] == NulReplaced(value);
    var output := Escaped(value);
    assert output == EscapedUnit(value, 0) + EscapedFrom(value, 1);
    if value[0] == HYPHEN && |value| > 1 {
      var second := EscapedUnit(value, 1);
      assert output[1..] == second + EscapedFrom(value, 2);
      if value[1] != 0 && NeedsEscape(value, 1) {
        EscapeReadsBack(value[1], EscapedFrom(value, 2));
      }
      assert output[1] == second[0];
    } else if value[0] != 0 && NeedsEscape(value, 0) {
      EscapeReadsBack(value[0], EscapedFrom(value, 1));
    }
  }

  /** Two strings share an escape exactly when they differ in nothing but NUL against U+FFFD. */
  lemma EscapeSeparates(left: Text, right: Text)
    ensures Escaped(left) == Escaped(right) <==> NulReplaced(left) == NulReplaced(right)
  {
    ParsesFrom(left, 0);
    ParsesFrom(right, 0);
    assert NulReplaced(left)[0..] == NulReplaced(left) && NulReplaced(right)[0..] == NulReplaced(right);
    if NulReplaced(left) == NulReplaced(right) {
      assert |left| == |NulReplaced(left)| == |right|;
      SameEscape(left, right, 0);
    }
  }

  lemma {:induction false} SameEscape(left: Text, right: Text, i: nat)
    requires |left| == |right| && i <= |left| && NulReplaced(left) == NulReplaced(right)
    ensures EscapedFrom(left, i) == EscapedFrom(right, i)
    decreases |left| - i
  {
    if i < |left| {
      SameEscape(left, right, i + 1);
      forall k | 0 <= k < |left|
        ensures left[k] == right[k] || {left[k], right[k]} == {0, REPLACEMENT_CHARACTER}
      {
        assert NulReplaced(left)[k] == NulReplaced(right)[k];
      }
      if left == [HYPHEN] {
        assert right == [HYPHEN];
      }
    }
  }

  /** Nothing in the output is changed by the input preprocessing of section 3.3: it has no control character. */
  lemma {:induction false} NoControlsFrom(value: Text, i: nat)
    requires i <= |value|
    ensures forall k | 0 <= k < |EscapedFrom(value, i)| ::
              EscapedFrom(value, i)[k] >= 0x20 && EscapedFrom(value, i)[k] != 0x7F
    decreases |value| - i
  {
    if i < |value| {
      NoControlsFrom(value, i + 1);
    }
  }

  /** The loop of `cssEscapeFallback`. */
  method CssEscapeFallback(value: Text) returns (result: Text)
    ensures result == Escaped(value)
    ensures value != [] ==> WouldStartIdent(result) && ConsumeIdent(result) == (NulReplaced(value), [])
  {
    result := [];
    var i := 0;
    while i < |value|
      invariant i <= |value|
      invariant result + EscapedFrom(value, i) == Escaped(value)
    {
      var code := value[i];
      var piece: Text;
      if code == 0x0000 {
        piece := [REPLACEMENT_CHARACTER];
      } else if 0x0001 <= code <= 0x001F || code == 0x007F {
        piece := HexEscape(code);
      } else if i == 0 && Digit(code) {
        piece := HexEscape(code);
      } else if i == 0 && code == 0x002D && |value| == 1 {
        piece := HexEscape(code);
      } else if i == 1 && Digit(code) && value[0] == 0x002D {
        piece := HexEscape(code);
      } else if code >= 0x0080 || code == 0x002D || code == 0x005F || Digit(code) || Letter(code) {
        piece := [code];
      } else {
        piece := HexEscape(code);
      }
      assert piece == EscapedUnit(value, i);
      TextJoins(result, piece, EscapedFrom(value, i + 1));
      result := result + piece;
      i := i + 1;
    }
    if value != [] {
      EscapeRoundTrip(value);
    }
    assert result + [] == result;
  }
}
