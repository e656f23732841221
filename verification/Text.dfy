/** Strings as the program sees them: sequences of UTF-16 code units. */
module Text {

  type CodeUnit = u: int | 0 <= u < 0x1_0000

  type Text = seq<CodeUnit>

  predicate OccursAt(needle: Text, hay: Text, at: int) {
    0 <= at && at + |needle| <= |hay| && hay[at..at + |needle|] == needle
  }

  predicate Contains(hay: Text, needle: Text) {
    exists at | 0 <= at <= |hay| :: OccursAt(needle, hay, at)
  }

  /** The code units of a literal written in the basic multilingual plane. */
  function Units(s: string): Text
    requires forall i | 0 <= i < |s| :: s[i] as int < 0x1_0000
  {
    seq(|s|, i requires 0 <= i < |s| => s[i] as int)
  }

  /** The last `limit` code units of a text. */
  function Tail(text: Text, limit: nat): (r: Text)
    ensures |r| <= limit && |r| <= |text|
  {
    if |text| <= limit then text else text[|text| - limit..]
  }

  lemma TailContains(text: Text, limit: nat, needle: Text)
    requires Contains(Tail(text, limit), needle)
    ensures Contains(text, needle)
  {
    var t := Tail(text, limit);
    var at :| 0 <= at <= |t| && OccursAt(needle, t, at);
    var shift := |text| - |t|;
    assert t == text[shift..];
    assert text[shift + at..shift + at + |needle|] == t[at..at + |needle|];
    assert OccursAt(needle, text, shift + at);
  }

  /** Cutting early and cutting late keep the same last code units. */
  lemma TailAppend(left: Text, right: Text, limit: nat)
    ensures Tail(Tail(left, limit) + right, limit) == Tail(left + right, limit)
  {
    if |left| > limit {
      var cut := |left| - limit;
      assert left == left[..cut] + left[cut..];
      assert left + right == left[..cut] + (left[cut..] + right);
    }
  }

  /** An occurrence past the left part of a concatenation is an occurrence in the right part. */
  lemma OccursInRight(left: Text, right: Text, needle: Text, at: int)
    requires at >= |left|
    ensures OccursAt(needle, left + right, at) <==> OccursAt(needle, right, at - |left|)
  {
    if at + |needle| <= |left + right| {
      assert (left + right)[at..at + |needle|] == right[at - |left|..at - |left| + |needle|];
    }
  }

  lemma TextJoins(a: Text, b: Text, c: Text)
    ensures a + (b + c) == (a + b) + c
  {
  }
}
