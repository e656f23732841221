/**
 The one-shot, leftmost-longest scan that both redactors are measured against: it reads the whole
 input at once and takes the secrets as a set, so neither chunking nor the order of the secrets
 can matter to it.
 */
module Redaction {
  import opened Text

  /** What one step of the scan keeps (a single code unit) or hides (a whole secret). */
  datatype Piece = Plain(unit: CodeUnit) | Hidden(secret: Text)

  /** The longest `n <= bound` such that the first `n` code units spell a secret; 0 if there is none. */
  function LongestUpTo(secrets: set<Text>, input: Text, bound: nat): (n: nat)
    requires bound <= |input|
    ensures n <= bound
    ensures n > 0 ==> input[..n] in secrets
    ensures forall k | n < k <= bound :: input[..k] !in secrets
  {
    if bound == 0 || input[..bound] in secrets then bound else LongestUpTo(secrets, input, bound - 1)
  }

  function MatchLength(secrets: set<Text>, input: Text): (n: nat)
    ensures n <= |input|
    ensures n > 0 ==> input[..n] in secrets
    ensures forall k | n < k <= |input| :: input[..k] !in secrets
  {
    LongestUpTo(secrets, input, |input|)
  }

  function Pieces(secrets: set<Text>, input: Text): seq<Piece>
    decreases |input|
  {
    if input == [] then []
    else
      var n := MatchLength(secrets, input);
      if n > 0 then [Hidden(input[..n])] + Pieces(secrets, input[n..])
      else [Plain(input[0])] + Pieces(secrets, input[1..])
  }

  function Source(pieces: seq<Piece>): Text {
    if pieces == [] then []
    else (match pieces[0] case Plain(u) => [u] case Hidden(s) => s) + Source(pieces[1..])
  }

  function Shown(piece: Piece, replacement: Text): Text {
    match piece case Plain(u) => [u] case Hidden(_) => replacement
  }

  function Show(pieces: seq<Piece>, replacement: Text): Text {
    if pieces == [] then [] else Shown(pieces[0], replacement) + Show(pieces[1..], replacement)
  }

  /** The one-shot scan of a whole input. */
  function Scan(secrets: set<Text>, replacement: Text, input: Text): Text {
    Show(Pieces(secrets, input), replacement)
  }

  /** For each code unit of the source: does it lie inside a redacted span? */
  function Mask(pieces: seq<Piece>): seq<bool> {
    if pieces == [] then []
    else (match pieces[0] case Plain(_) => [false] case Hidden(s) => seq(|s|, _ => true)) + Mask(pieces[1..])
  }

  /** The scan neither drops nor invents input: its pieces spell exactly what was read. */
  lemma {:induction false} PiecesSpellInput(secrets: set<Text>, input: Text)
    ensures Source(Pieces(secrets, input)) == input
    ensures |Mask(Pieces(secrets, input))| == |input|
    decreases |input|
  {
    if input != [] {
      var n := MatchLength(secrets, input);
      var step := if n > 0 then n else 1;
      PiecesSpellInput(secrets, input[step..]);
      assert input == input[..step] + input[step..];
      assert Pieces(secrets, input)[1..] == Pieces(secrets, input[step..]);
    }
  }

  predicate Begins(secrets: set<Text>, input: Text, secret: Text) { secret in secrets && secret != [] && secret <= input }

  /** From the left: a unit is shown only where no secret begins, and where one begins the longest is hidden. */
  predicate LeftmostLongest(secrets: set<Text>, pieces: seq<Piece>) {
    pieces == [] ||
    (var input := Source(pieces);
     && (match pieces[0]
         case Plain(_) => forall s | s in secrets :: !Begins(secrets, input, s)
         case Hidden(hidden) =>
           Begins(secrets, input, hidden) && forall s | s in secrets && Begins(secrets, input, s) :: |s| <= |hidden|)
     && LeftmostLongest(secrets, pieces[1..]))
  }

  lemma FirstPiece(secrets: set<Text>, input: Text)
    requires input != []
    ensures
      var n := MatchLength(secrets, input);
      if n > 0 then
        Begins(secrets, input, input[..n]) && forall s | s in secrets && Begins(secrets, input, s) :: |s| <= n
      else forall s | s in secrets :: !Begins(secrets, input, s)
  {
    forall s | s in secrets && Begins(secrets, input, s) ensures |s| <= MatchLength(secrets, input) {
      assert s == input[..|s|];
    }
  }

  /** The scan cuts its input in the one way that is leftmost and longest. */
  lemma {:induction false} PiecesAreForced(secrets: set<Text>, pieces: seq<Piece>)
    ensures LeftmostLongest(secrets, pieces) <==> pieces == Pieces(secrets, Source(pieces))
    decreases |pieces|
  {
    if pieces != [] {
      var input := Source(pieces);
      PiecesAreForced(secrets, pieces[1..]);
      var first := match pieces[0] case Plain(u) => [u] case Hidden(h) => h;
      assert input == first + Source(pieces[1..]);
      if input != [] {
        FirstPiece(secrets, input);
        ForcedHead(secrets, pieces, first);
      } else {
        assert pieces != Pieces(secrets, input);
        assert !LeftmostLongest(secrets, pieces);
      }
    }
  }

  lemma ForcedHead(secrets: set<Text>, pieces: seq<Piece>, first: Text)
    requires pieces != [] && Source(pieces) != [] && Source(pieces) == first + Source(pieces[1..])
    requires first == match pieces[0] case Plain(u) => [u] case Hidden(h) => h
    requires LeftmostLongest(secrets, pieces[1..]) <==> pieces[1..] == Pieces(secrets, Source(pieces[1..]))
    ensures LeftmostLongest(secrets, pieces) <==> pieces == Pieces(secrets, Source(pieces))
  {
    var input := Source(pieces);
    var n := MatchLength(secrets, input);
    var step := if n > 0 then n else 1;
    var forced := Pieces(secrets, input);
    FirstPiece(secrets, input);
    assert forced[1..] == Pieces(secrets, input[step..]);
    if forced[0] == pieces[0] {
      assert |first| == step && input[step..] == Source(pieces[1..]);
      assert pieces == [pieces[0]] + pieces[1..] && forced == [forced[0]] + forced[1..];
    } else {
      assert input[..|first|] == first;
      assert |first| == step ==> first == input[..step];
    }
  }

  /** Every occurrence of a secret in the input starts inside a redacted span. */
  lemma {:induction false} OccurrenceStartsHidden(secrets: set<Text>, input: Text, secret: Text, at: nat)
    requires secret in secrets && secret != [] && OccursAt(secret, input, at)
    ensures |Mask(Pieces(secrets, input))| == |input| && Mask(Pieces(secrets, input))[at]
    decreases |input|
  {
    PiecesSpellInput(secrets, input);
    var n := MatchLength(secrets, input);
    var step := if n > 0 then n else 1;
    assert Pieces(secrets, input)[1..] == Pieces(secrets, input[step..]);
    if at == 0 {
      assert input[..|secret|] == secret;
    } else if at >= step {
      assert input[step..][at - step..at - step + |secret|] == input[at..at + |secret|];
      OccurrenceStartsHidden(secrets, input[step..], secret, at - step);
    }
  }

  /** The needle, put at offset `d` from the replacement's start, agrees with it wherever the two overlap. */
  predicate AgreesAt(replacement: Text, needle: Text, d: int) {
    forall k | 0 <= k < |needle| && 0 <= d + k < |replacement| :: needle[k] == replacement[d + k]
  }

  /** Wherever the two overlap, or have the replacement between two units of the needle, they disagree. */
  predicate Apart(replacement: Text, needle: Text) {
    forall d | -|needle| < d < |replacement| :: !AgreesAt(replacement, needle, d)
  }

  /** A needle that can end after the replacement's first unit but has begun before it finds only plain units. */
  lemma {:induction false} PrefixIsPlain(pieces: seq<Piece>, replacement: Text, needle: Text, i: nat)
    requires Apart(replacement, needle) && i <= |needle|
    requires i == 0 ==> pieces != [] && pieces[0].Plain?
    requires OccursAt(needle[i..], Show(pieces, replacement), 0)
    ensures |needle| - i <= |pieces|
    ensures OccursAt(needle[i..], Source(pieces), 0)
  {
    if i < |needle| {
      var shown := Show(pieces, replacement);
      assert needle[i..] == shown[..|needle| - i];
      if pieces[0].Hidden? {
        var d: int := 0 - i;
        forall k | 0 <= k < |needle| && 0 <= d + k < |replacement| ensures needle[k] == replacement[d + k] {
          assert needle[i..][k - i] == shown[k - i];
        }
        assert AgreesAt(replacement, needle, d);
      }
      var rest := Show(pieces[1..], replacement);
      assert needle[i] == needle[i..][0] == shown[0];
      assert shown[1..] == rest;
      assert needle[i..][1..] == needle[i + 1..];
      assert rest[..|needle| - i - 1] == shown[1..|needle| - i];
      PrefixIsPlain(pieces[1..], replacement, needle, i + 1);
      var source := Source(pieces[1..]);
      assert Source(pieces) == [needle[i]] + source;
      assert source[..|needle| - i - 1] == needle[i + 1..];
      assert needle[i..] == [needle[i]] + needle[i + 1..];
    }
  }

  /**
   A needle that the replacement cannot be part of can only appear in the output where it already stood in
   the input, beginning at a code unit that the scan left plain.
   */
  lemma {:induction false} OutputComesFromPlainInput(secrets: set<Text>, replacement: Text, input: Text,
      needle: Text, at: nat)
    returns (from: nat)
    requires needle != [] && Apart(replacement, needle)
    requires OccursAt(needle, Scan(secrets, replacement, input), at)
    ensures OccursAt(needle, input, from)
    ensures |Mask(Pieces(secrets, input))| == |input| && !Mask(Pieces(secrets, input))[from]
    decreases |input|
  {
    PiecesSpellInput(secrets, input);
    var pieces := Pieces(secrets, input);
    var n := MatchLength(secrets, input);
    if at == 0 && n == 0 {
      assert needle[0..] == needle;
      PrefixIsPlain(pieces, replacement, needle, 0);
      from := 0;
    } else {
      if n > 0 {
        NeedleNotInReplacement(Show(pieces, replacement), replacement, needle, at);
      }
      var head := Shown(pieces[0], replacement);
      var step := if n > 0 then n else 1;
      assert pieces[1..] == Pieces(secrets, input[step..]);
      OccursInRight(head, Show(pieces[1..], replacement), needle, at);
      var inner := OutputComesFromPlainInput(secrets, replacement, input[step..], needle, at - |head|);
      PiecesSpellInput(secrets, input[step..]);
      from := inner + step;
      assert input == input[..step] + input[step..];
      OccursInRight(input[..step], input[step..], needle, from);
    }
  }

  lemma NeedleNotInReplacement(out: Text, replacement: Text, needle: Text, at: nat)
    requires needle != [] && Apart(replacement, needle)
    requires replacement <= out && OccursAt(needle, out, at)
    ensures at >= |replacement|
  {
    if at < |replacement| {
      forall k | 0 <= k < |needle| && 0 <= at + k < |replacement| ensures needle[k] == replacement[at + k] {
        assert out[at..at + |needle|][k] == out[at + k];
      }
      assert AgreesAt(replacement, needle, at);
    }
  }

  /** No secret survives the scan, provided the replacement cannot be part of it. */
  lemma ScanHidesSecrets(secrets: set<Text>, replacement: Text, input: Text, secret: Text)
    requires secret in secrets && secret != [] && Apart(replacement, secret)
    ensures !Contains(Scan(secrets, replacement, input), secret)
  {
    var out := Scan(secrets, replacement, input);
    if Contains(out, secret) {
      var at :| 0 <= at <= |out| && OccursAt(secret, out, at);
      var from := OutputComesFromPlainInput(secrets, replacement, input, secret, at);
      OccurrenceStartsHidden(secrets, input, secret, from);
      assert false;
    }
  }

  /**
   The proviso is needed: a secret that the replacement spells is put back by its own redaction. The
   input that shows it is the secret itself.
   */
  lemma ReplacementCanSpellSecret(secrets: set<Text>, replacement: Text, secret: Text)
    requires secret in secrets && secret != [] && Contains(replacement, secret)
    ensures Contains(Scan(secrets, replacement, secret), secret)
  {
    assert secret[..|secret|] == secret;
    assert MatchLength(secrets, secret) == |secret|;
    assert secret[|secret|..] == [];
    var pieces := Pieces(secrets, secret);
    var n := MatchLength(secrets, secret);
    assert pieces[1..] == Pieces(secrets, secret[n..]) == [];
    assert Show(pieces, replacement) == replacement + Show([], replacement);
    var at :| 0 <= at <= |replacement| && OccursAt(secret, replacement, at);
    assert OccursAt(secret, Show(pieces, replacement), at);
  }

  /** So is a secret that begins before the replacement and ends inside it. */
  lemma StraddlingSecretLeaks(replacement: Text, secret: Text)
    requires |secret| >= 2 && secret[0] !in secret[1..] && secret[1..] <= replacement
    ensures Contains(Scan({secret}, replacement, [secret[0]] + secret), secret)
  {
    var input := [secret[0]] + secret;
    assert input[1..] == secret && input[1] == secret[0];
    assert input[..|secret|][1] == secret[0] && secret[1] in secret[1..];
    assert MatchLength({secret}, input) == 0;
    assert secret[..|secret|] == secret && secret[|secret|..] == [];
    assert MatchLength({secret}, secret) == |secret|;
    assert Pieces({secret}, secret) == [Hidden(secret)];
    assert Pieces({secret}, input) == [Plain(secret[0]), Hidden(secret)];
    var out := Show([Plain(secret[0]), Hidden(secret)], replacement);
    assert Show([Hidden(secret)], replacement) == replacement;
    assert [Plain(secret[0]), Hidden(secret)][1..] == [Hidden(secret)];
    assert out == [secret[0]] + replacement;
    assert OccursAt(secret, out, 0);
  }

  /** A text in which no secret occurs passes through untouched. */
  lemma {:induction false} ScanLeavesCleanInput(secrets: set<Text>, replacement: Text, input: Text)
    requires forall s | s in secrets && s != [] :: !Contains(input, s)
    ensures Scan(secrets, replacement, input) == input
    decreases |input|
  {
    if input != [] {
      var n := MatchLength(secrets, input);
      if n > 0 {
        assert OccursAt(input[..n], input, 0);
        assert false;
      }
      forall s | s in secrets && s != [] ensures !Contains(input[1..], s) {
        if Contains(input[1..], s) {
          var at :| 0 <= at <= |input[1..]| && OccursAt(s, input[1..], at);
          assert input[at + 1..at + 1 + |s|] == input[1..][at..at + |s|];
          assert OccursAt(s, input, at + 1);
        }
      }
      ScanLeavesCleanInput(secrets, replacement, input[1..]);
      assert Pieces(secrets, input)[1..] == Pieces(secrets, input[1..]);
    }
  }

  // ---------- one secret: exactly when it can leak ----------

  /** Redacting its first full occurrence, the scan leaves the first `k` units of the secret plain before it. */
  predicate PlainBefore(secret: Text, k: nat)
    requires k <= |secret|
  {
    forall i | 0 <= i < k :: !OccursAt(secret, secret[..k] + secret, i)
  }

  /** The replacement can be part of the secret at an offset that the scan produces: the secret begins inside the
      replacement, or before it with units that the scan leaves plain. */
  predicate CanLeak(secret: Text, replacement: Text) {
    || (exists d | 0 <= d < |replacement| :: AgreesAt(replacement, secret, d))
    || (exists k | 0 < k < |secret| :: AgreesAt(replacement, secret, 0 - k) && PlainBefore(secret, k))
  }

  /** What is shorter than the secret stays as it is. */
  lemma {:induction false} ShortIsPlain(secret: Text, replacement: Text, input: Text)
    requires |input| < |secret|
    ensures Scan({secret}, replacement, input) == input
    decreases |input|
  {
    if input != [] {
      assert MatchLength({secret}, input) == 0;
      ShortIsPlain(secret, replacement, input[1..]);
      assert Pieces({secret}, input)[1..] == Pieces({secret}, input[1..]);
    }
  }

  lemma HiddenFirst(secret: Text, replacement: Text, rest: Text)
    requires secret != []
    ensures Scan({secret}, replacement, secret + rest) == replacement + Scan({secret}, replacement, rest)
  {
    var input := secret + rest;
    assert input[..|secret|] == secret;
    assert MatchLength({secret}, input) == |secret|;
    assert input[|secret|..] == rest;
    assert Pieces({secret}, input)[1..] == Pieces({secret}, rest);
  }

  lemma PlainFirst(secret: Text, replacement: Text, input: Text)
    requires secret != [] && input != [] && !OccursAt(secret, input, 0)
    ensures Scan({secret}, replacement, input) == [input[0]] + Scan({secret}, replacement, input[1..])
  {
    if MatchLength({secret}, input) > 0 {
      assert OccursAt(secret, input, 0);
    }
    assert Pieces({secret}, input)[1..] == Pieces({secret}, input[1..]);
  }

  predicate NoneStarts(secret: Text, input: Text, n: nat) { forall j | 0 <= j < n :: !OccursAt(secret, input, j) }

  lemma NoneStartsLater(secret: Text, unit: CodeUnit, input: Text, n: nat)
    requires NoneStarts(secret, [unit] + input, n + 1)
    ensures NoneStarts(secret, input, n)
  {
    forall j | 0 <= j < n ensures !OccursAt(secret, input, j) {
      OccursInRight([unit], input, secret, j + 1);
    }
  }

  /** Units at which no secret starts stay plain. */
  lemma {:induction false} PlainPrefix(secret: Text, replacement: Text, prefix: Text, rest: Text)
    requires secret != [] && NoneStarts(secret, prefix + rest, |prefix|)
    ensures Scan({secret}, replacement, prefix + rest) == prefix + Scan({secret}, replacement, rest)
    decreases |prefix|
  {
    var shown := Scan({secret}, replacement, rest);
    if prefix == [] {
      assert prefix + rest == rest && prefix + shown == shown;
    } else {
      var unit, more := prefix[0], prefix[1..];
      assert prefix == [unit] + more;
      TextJoins([unit], more, rest);
      TextJoins([unit], more, shown);
      NoneStartsLater(secret, unit, more + rest, |more|);
      PlainPrefix(secret, replacement, more, rest);
      OnePlain(secret, replacement, unit, more + rest);
    }
  }

  lemma OnePlain(secret: Text, replacement: Text, unit: CodeUnit, input: Text)
    requires secret != [] && !OccursAt(secret, [unit] + input, 0)
    ensures Scan({secret}, replacement, [unit] + input) == [unit] + Scan({secret}, replacement, input)
  {
    PlainFirst(secret, replacement, [unit] + input);
    assert ([unit] + input)[1..] == input;
  }

  /** Units that follow do not change where the secret starts. */
  lemma StartsAlike(secret: Text, k: nat, rest: Text, i: nat)
    requires i < k <= |secret|
    ensures OccursAt(secret, secret[..k] + (secret + rest), i) <==> OccursAt(secret, secret[..k] + secret, i)
  {
    assert (secret[..k] + (secret + rest))[i..i + |secret|] == (secret[..k] + secret)[i..i + |secret|];
  }

  /** The first `k` units stay plain, the secret after them is redacted, and so is nothing that follows. */
  lemma PlainThenHidden(secret: Text, replacement: Text, k: nat, rest: Text)
    requires k <= |secret| && PlainBefore(secret, k) && |rest| < |secret|
    ensures Scan({secret}, replacement, secret[..k] + (secret + rest)) == secret[..k] + (replacement + rest)
  {
    forall j | 0 <= j < k ensures !OccursAt(secret, secret[..k] + (secret + rest), j) {
      StartsAlike(secret, k, rest, j);
    }
    PlainPrefix(secret, replacement, secret[..k], secret + rest);
    HiddenFirst(secret, replacement, rest);
    ShortIsPlain(secret, replacement, rest);
  }

  /** The secret begins inside the replacement: it is read when the secret is followed by its own last units. */
  lemma LeaksInside(secret: Text, replacement: Text, d: nat) returns (input: Text)
    requires secret != [] && d < |replacement| && AgreesAt(replacement, secret, d)
    ensures Contains(Scan({secret}, replacement, input), secret)
  {
    var covered := |replacement| - d;
    var rest := if covered < |secret| then secret[covered..] else [];
    input := secret + rest;
    HiddenFirst(secret, replacement, rest);
    ShortIsPlain(secret, replacement, rest);
    var out := replacement + rest;
    forall j | 0 <= j < |secret| ensures out[d + j] == secret[j] {
    }
    assert out[d..d + |secret|] == secret;
    assert OccursAt(secret, out, d);
  }

  /** What the secret has before, under and after the replacement. */
  function AfterReplacement(secret: Text, replacement: Text, k: nat): (rest: Text)
    ensures 0 < k < |secret| ==> |rest| < |secret|
  {
    if k + |replacement| < |secret| then secret[k + |replacement|..] else []
  }

  lemma ReadAcross(secret: Text, replacement: Text, k: nat)
    requires 0 < k < |secret| && AgreesAt(replacement, secret, 0 - k)
    ensures OccursAt(secret, secret[..k] + (replacement + AfterReplacement(secret, replacement, k)), 0)
  {
    var rest := AfterReplacement(secret, replacement, k);
    var out := secret[..k] + (replacement + rest);
    var d: int := 0 - k;
    forall j | 0 <= j < |secret| ensures out[j] == secret[j] {
      if j < k {
        assert out[j] == secret[..k][j];
      } else if j < k + |replacement| {
        assert out[j] == (replacement + rest)[j - k] == replacement[d + j];
      } else {
        assert out[j] == (replacement + rest)[j - k] == rest[j - k - |replacement|];
      }
    }
    assert out[0..|secret|] == secret;
  }

  /** The secret begins before the replacement. */
  lemma LeaksAcross(secret: Text, replacement: Text, k: nat) returns (input: Text)
    requires 0 < k < |secret| && AgreesAt(replacement, secret, 0 - k) && PlainBefore(secret, k)
    ensures Contains(Scan({secret}, replacement, input), secret)
  {
    var rest := AfterReplacement(secret, replacement, k);
    input := secret[..k] + (secret + rest);
    PlainThenHidden(secret, replacement, k, rest);
    ReadAcross(secret, replacement, k);
  }

  lemma AcrossHidden(secret: Text, replacement: Text, input: Text, i: nat)
    requires 0 < i < |secret| && i <= |input| && input[..i] == secret[..i] && NoneStarts(secret, input, i)
    requires OccursAt(secret, input[i..], 0) && OccursAt(secret[i..], Scan({secret}, replacement, input[i..]), 0)
    ensures CanLeak(secret, replacement)
  {
    HiddenNow(secret, replacement, input[i..]);
    BeginsPlain(secret, input, i);
    MeetsAcross(secret, replacement, Scan({secret}, replacement, input[i..]), i);
  }

  lemma AcrossPlain(secret: Text, replacement: Text, input: Text, i: nat)
    requires 0 < i < |secret| && i <= |input| && input[..i] == secret[..i] && NoneStarts(secret, input, i)
    requires !OccursAt(secret, input[i..], 0) && OccursAt(secret[i..], Scan({secret}, replacement, input[i..]), 0)
    ensures i < |input| && input[..i + 1] == secret[..i + 1] && NoneStarts(secret, input, i + 1)
    ensures OccursAt(secret[i + 1..], Scan({secret}, replacement, input[i + 1..]), 0)
  {
    var rest := input[i..];
    assert rest != [] by {
      assert |Scan({secret}, replacement, rest)| > 0;
    }
    PlainFirst(secret, replacement, rest);
    FirstUnit(secret[i..], rest[0], Scan({secret}, replacement, rest[1..]));
    OneUnitFurther(secret, input, i);
    OccursLater(secret, input, i);
  }

  /** The first `i` units of the secret stayed plain; the rest of it is read in what is shown after them. */
  lemma {:induction false} AcrossMeans(secret: Text, replacement: Text, input: Text, i: nat)
    requires 0 < i <= |secret| && i <= |input| && input[..i] == secret[..i] && NoneStarts(secret, input, i)
    requires OccursAt(secret[i..], Scan({secret}, replacement, input[i..]), 0)
    ensures CanLeak(secret, replacement)
    decreases |secret| - i
  {
    if i == |secret| {
      assert OccursAt(secret, input, 0);
    } else if OccursAt(secret, input[i..], 0) {
      AcrossHidden(secret, replacement, input, i);
    } else {
      AcrossPlain(secret, replacement, input, i);
      AcrossMeans(secret, replacement, input, i + 1);
    }
  }

  lemma HiddenNow(secret: Text, replacement: Text, input: Text)
    requires secret != [] && OccursAt(secret, input, 0)
    ensures replacement <= Scan({secret}, replacement, input)
  {
    assert input == secret + input[|secret|..];
    HiddenFirst(secret, replacement, input[|secret|..]);
  }

  lemma FirstUnit(needle: Text, unit: CodeUnit, after: Text)
    requires needle != [] && OccursAt(needle, [unit] + after, 0)
    ensures needle[0] == unit && OccursAt(needle[1..], after, 0)
  {
    var hay := [unit] + after;
    assert needle == hay[..|needle|];
    assert needle[1..] == hay[1..|needle|] == after[..|needle| - 1];
  }

  lemma OneUnitFurther(secret: Text, input: Text, i: nat)
    requires i < |secret| && i < |input| && input[..i] == secret[..i] && secret[i..][0] == input[i..][0]
    ensures input[..i + 1] == secret[..i + 1] && secret[i..][1..] == secret[i + 1..] && input[i..][1..] == input[i + 1..]
  {
  }

  lemma OccursLater(secret: Text, input: Text, i: nat)
    requires i <= |input|
    ensures OccursAt(secret, input, i) <==> OccursAt(secret, input[i..], 0)
  {
    if i + |secret| <= |input| {
      assert input[i..][..|secret|] == input[i..i + |secret|];
    }
  }

  lemma BeginsPlain(secret: Text, input: Text, i: nat)
    requires i <= |secret| && i <= |input| && input[..i] == secret[..i] && OccursAt(secret, input[i..], 0)
    requires NoneStarts(secret, input, i)
    ensures PlainBefore(secret, i)
  {
    var rest := input[i..][|secret|..];
    assert input == secret[..i] + (secret + rest);
    forall j | 0 <= j < i ensures !OccursAt(secret, secret[..i] + secret, j) {
      StartsAlike(secret, i, rest, j);
    }
  }

  lemma MeetsAcross(secret: Text, replacement: Text, shown: Text, i: nat)
    requires 0 < i < |secret| && PlainBefore(secret, i)
    requires replacement <= shown && OccursAt(secret[i..], shown, 0)
    ensures CanLeak(secret, replacement)
  {
    var d: int := 0 - i;
    forall k | 0 <= k < |secret| && 0 <= d + k < |replacement| ensures secret[k] == replacement[d + k] {
      assert secret[i..][k - i] == shown[0..|secret| - i][k - i];
    }
    assert AgreesAt(replacement, secret, d);
  }

  lemma MeetsInside(secret: Text, replacement: Text, shown: Text, at: nat)
    requires at < |replacement| && replacement <= shown && OccursAt(secret, shown, at)
    ensures CanLeak(secret, replacement)
  {
    forall k | 0 <= k < |secret| && 0 <= at + k < |replacement| ensures secret[k] == replacement[at + k] {
      assert shown[at..at + |secret|][k] == shown[at + k];
    }
    assert AgreesAt(replacement, secret, at);
  }

  lemma {:induction false} LeakMeans(secret: Text, replacement: Text, input: Text, at: nat)
    requires secret != [] && OccursAt(secret, Scan({secret}, replacement, input), at)
    ensures CanLeak(secret, replacement)
    decreases |input|
  {
    var shown := Scan({secret}, replacement, input);
    if OccursAt(secret, input, 0) {
      var rest := input[|secret|..];
      assert input == secret + rest;
      HiddenFirst(secret, replacement, rest);
      if at < |replacement| {
        MeetsInside(secret, replacement, shown, at);
      } else {
        OccursInRight(replacement, Scan({secret}, replacement, rest), secret, at);
        LeakMeans(secret, replacement, rest, at - |replacement|);
      }
    } else {
      assert input != [] by {
        assert |shown| > 0;
      }
      PlainFirst(secret, replacement, input);
      var after := Scan({secret}, replacement, input[1..]);
      if at > 0 {
        OccursInRight([input[0]], after, secret, at);
        LeakMeans(secret, replacement, input[1..], at - 1);
      } else {
        FirstUnit(secret, input[0], after);
        assert input[..1] == secret[..1];
        AcrossMeans(secret, replacement, input, 1);
      }
    }
  }

  /** For one secret the condition is exact: some input leaves it readable in what is shown exactly when it agrees
      with the replacement at an offset that the scan can produce. */
  lemma SecretLeaksWhen(secret: Text, replacement: Text)
    requires secret != []
    ensures (exists input: Text :: Contains(Scan({secret}, replacement, input), secret)) <==> CanLeak(secret, replacement)
  {
    if input: Text :| Contains(Scan({secret}, replacement, input), secret) {
      var shown := Scan({secret}, replacement, input);
      var at :| 0 <= at <= |shown| && OccursAt(secret, shown, at);
      LeakMeans(secret, replacement, input, at);
    }
    if CanLeak(secret, replacement) {
      if d :| 0 <= d < |replacement| && AgreesAt(replacement, secret, d) {
        var input := LeaksInside(secret, replacement, d);
      } else {
        var k :| 0 < k < |secret| && AgreesAt(replacement, secret, 0 - k) && PlainBefore(secret, k);
        var input := LeaksAcross(secret, replacement, k);
      }
    }
  }
}
