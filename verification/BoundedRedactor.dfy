/**
 The streaming redactor of scripts/bounded-redaction.ts: it receives its input in chunks, looks ahead
 by at most one secret, keeps a bounded tail of output, and still agrees with the one-shot scan.
 */
module BoundedRedactor {
  import opened Wrappers
  import opened Text
  import opened Redaction

  const DEFAULT_REPLACEMENT: Text := Units("[REDACTED]")

  // ---------- the list of secrets ----------

  predicate Descending(secrets: seq<Text>) {
    forall i, j | 0 <= i < j < |secrets| :: |secrets[i]| >= |secrets[j]|
  }

  function InsertByLength(sorted: seq<Text>, secret: Text): (r: seq<Text>)
    requires Descending(sorted)
    ensures Descending(r)
    ensures forall s :: s in r <==> s in sorted || s == secret
  {
    if sorted == [] || |sorted[0]| < |secret| then [secret] + sorted
    else
      var rest := InsertByLength(sorted[1..], secret);
      assert forall s | s in rest :: |s| <= |sorted[0]|;
      [sorted[0]] + rest
  }

  /** The distinct non-empty secrets, longest first. */
  function PrepareSecrets(secrets: seq<Text>): (r: seq<Text>)
    ensures Descending(r)
    ensures forall s :: s in r <==> s in secrets && s != []
  {
    if secrets == [] then []
    else
      var last := secrets[|secrets| - 1];
      var rest := PrepareSecrets(secrets[..|secrets| - 1]);
      assert secrets == secrets[..|secrets| - 1] + [last];
      if last == [] || last in rest then rest
      else InsertByLength(rest, last)
  }

  function AsSet(secrets: seq<Text>): set<Text> { set s | s in secrets }

  /** The first listed secret that starts at `index`, as `Array.prototype.find` reports it. */
  function FindSecret(secrets: seq<Text>, input: Text, index: nat): (r: Option<Text>)
    requires index <= |input|
    ensures r.Some? ==> r.value in secrets && OccursAt(r.value, input, index)
  {
    if secrets == [] then None
    else if OccursAt(secrets[0], input, index) then Some(secrets[0])
    else FindSecret(secrets[1..], input, index)
  }

  /** In a list sorted longest first, the first match is the longest match. */
  lemma {:induction false} FirstMatchIsLongest(secrets: seq<Text>, input: Text, index: nat)
    requires index <= |input| && Descending(secrets) && [] !in secrets
    ensures
      var n := MatchLength(AsSet(secrets), input[index..]);
      FindSecret(secrets, input, index) == if n > 0 then Some(input[index..index + n]) else None
  {
    var rest := input[index..];
    var n := MatchLength(AsSet(secrets), rest);
    var found := FindSecret(secrets, input, index);
    FindIsFirst(secrets, input, index);
    if n > 0 {
      assert rest[..n] == input[index..index + n];
      assert OccursAt(rest[..n], input, index);
      assert found.Some?;
    }
    if found.Some? {
      assert found.value == input[index..index + |found.value|] == rest[..|found.value|];
      assert rest[..|found.value|] in AsSet(secrets);
      assert |found.value| <= n;
      assert rest[..n] in secrets;
      assert |found.value| >= n;
    }
  }

  lemma {:induction false} FindIsFirst(secrets: seq<Text>, input: Text, index: nat)
    requires index <= |input| && Descending(secrets)
    ensures
      var found := FindSecret(secrets, input, index);
      forall s | s in secrets && OccursAt(s, input, index) :: found.Some? && |found.value| >= |s|
  {
    if secrets != [] {
      FindIsFirst(secrets[1..], input, index);
      if OccursAt(secrets[0], input, index) {
        assert forall s | s in secrets :: |secrets[0]| >= |s|;
      }
    }
  }

  // ---------- the scan that stops while `keep` code units remain ----------

  /** How far one step of the scan reads, and what it shows for it. */
  function Step(secrets: set<Text>, input: Text): (n: nat)
    requires input != []
    ensures 1 <= n <= |input|
  {
    var n := MatchLength(secrets, input);
    if n > 0 then n else 1
  }

  function StepShows(secrets: set<Text>, replacement: Text, input: Text): Text
    requires input != []
  {
    if MatchLength(secrets, input) > 0 then replacement else [input[0]]
  }

  /** What the scan has shown, and what it has not read, when at most `keep` code units remain. */
  function ScanUntil(secrets: set<Text>, replacement: Text, input: Text, keep: nat): (Text, Text)
    decreases |input|
  {
    if |input| <= keep then ([], input)
    else
      var (shown, rest) := ScanUntil(secrets, replacement, input[Step(secrets, input)..], keep);
      (StepShows(secrets, replacement, input) + shown, rest)
  }

  /** After showing `shown` and reading up to `index`, the rest of the scan completes the result. */
  predicate Resumed(secrets: set<Text>, replacement: Text, input: Text, index: nat, shown: Text, keep: nat)
    requires index <= |input|
  {
    var all, later := ScanUntil(secrets, replacement, input, keep), ScanUntil(secrets, replacement, input[index..], keep);
    all.0 == shown + later.0 && all.1 == later.1
  }

  lemma ResumeStep(secrets: set<Text>, replacement: Text, input: Text, index: nat, shown: Text, keep: nat, n: nat,
      more: Text)
    requires index < |input| && |input| - index > keep && Resumed(secrets, replacement, input, index, shown, keep)
    requires n == Step(secrets, input[index..]) && more == StepShows(secrets, replacement, input[index..])
    ensures index + n <= |input| && Resumed(secrets, replacement, input, index + n, shown + more, keep)
  {
    assert input[index..][n..] == input[index + n..];
    var later := ScanUntil(secrets, replacement, input[index + n..], keep);
    TextJoins(shown, more, later.0);
  }

  lemma ResumedEnd(secrets: set<Text>, replacement: Text, input: Text, index: nat, shown: Text, keep: nat)
    requires index <= |input| && |input| - index <= keep && Resumed(secrets, replacement, input, index, shown, keep)
    ensures (shown, input[index..]) == ScanUntil(secrets, replacement, input, keep)
  {
    assert shown + [] == shown;
  }

  lemma ResumedStart(secrets: set<Text>, replacement: Text, input: Text, keep: nat)
    ensures Resumed(secrets, replacement, input, 0, [], keep)
  {
    assert input[0..] == input;
    var all := ScanUntil(secrets, replacement, input, keep);
    assert [] + all.0 == all.0;
  }

  /** The step, as the loop finds it. */
  lemma FoundStep(secrets: seq<Text>, replacement: Text, input: Text, index: nat)
    requires Descending(secrets) && [] !in secrets && index < |input|
    ensures
      match FindSecret(secrets, input, index)
      case Some(secret) =>
        Step(AsSet(secrets), input[index..]) == |secret| && StepShows(AsSet(secrets), replacement, input[index..]) == replacement
      case None =>
        Step(AsSet(secrets), input[index..]) == 1 && StepShows(AsSet(secrets), replacement, input[index..]) == [input[index]]
  {
    FirstMatchIsLongest(secrets, input, index);
  }

  lemma ResumeFound(secrets: seq<Text>, replacement: Text, input: Text, index: nat, shown: Text, keep: nat, secret: Text)
    requires Descending(secrets) && [] !in secrets && index < |input| && |input| - index > keep
    requires FindSecret(secrets, input, index) == Some(secret)
    requires Resumed(AsSet(secrets), replacement, input, index, shown, keep)
    ensures index + |secret| <= |input|
    ensures Resumed(AsSet(secrets), replacement, input, index + |secret|, shown + replacement, keep)
  {
    FoundStep(secrets, replacement, input, index);
    ResumeStep(AsSet(secrets), replacement, input, index, shown, keep, |secret|, replacement);
  }

  lemma ResumePlain(secrets: seq<Text>, replacement: Text, input: Text, index: nat, shown: Text, keep: nat)
    requires Descending(secrets) && [] !in secrets && index < |input| && |input| - index > keep
    requires FindSecret(secrets, input, index) == None
    requires Resumed(AsSet(secrets), replacement, input, index, shown, keep)
    ensures Resumed(AsSet(secrets), replacement, input, index + 1, shown + [input[index]], keep)
  {
    FoundStep(secrets, replacement, input, index);
    ResumeStep(AsSet(secrets), replacement, input, index, shown, keep, 1, [input[index]]);
  }

  predicate Bounded(secrets: set<Text>, keep: nat) {
    forall s | s in secrets :: |s| <= keep + 1
  }

  /** With more than `keep` code units in sight, what follows cannot change the match. */
  lemma MatchIsLocal(secrets: set<Text>, left: Text, right: Text, keep: nat)
    requires Bounded(secrets, keep) && |left| > keep
    ensures MatchLength(secrets, left + right) == MatchLength(secrets, left)
  {
    var whole := left + right;
    var n, m := MatchLength(secrets, left), MatchLength(secrets, whole);
    assert forall k | 0 <= k <= |left| :: whole[..k] == left[..k];
    if m > 0 {
      assert |whole[..m]| <= keep + 1;
    }
  }

  /** Scanning a prefix and then its remainder with the continuation is scanning the whole. */
  lemma {:induction false} ScanResumes(secrets: set<Text>, replacement: Text, left: Text, right: Text, keep: nat,
      stop: nat)
    requires Bounded(secrets, keep) && stop <= keep
    ensures
      var first := ScanUntil(secrets, replacement, left, keep);
      var second := ScanUntil(secrets, replacement, first.1 + right, stop);
      ScanUntil(secrets, replacement, left + right, stop) == (first.0 + second.0, second.1)
    decreases |left|
  {
    if |left| > keep {
      var after := left[Step(secrets, left)..];
      ScanResumes(secrets, replacement, after, right, keep, stop);
      ScanStep(secrets, replacement, left, right, keep, stop);
      var first := ScanUntil(secrets, replacement, after, keep);
      var second := ScanUntil(secrets, replacement, first.1 + right, stop);
      TextJoins(StepShows(secrets, replacement, left), first.0, second.0);
      assert ScanUntil(secrets, replacement, left, keep) == (StepShows(secrets, replacement, left) + first.0, first.1);
    } else {
      var second := ScanUntil(secrets, replacement, left + right, stop);
      assert [] + second.0 == second.0;
    }
  }

  lemma ScanStep(secrets: set<Text>, replacement: Text, left: Text, right: Text, keep: nat, stop: nat)
    requires Bounded(secrets, keep) && stop <= keep < |left|
    ensures
      var (shown, last) := ScanUntil(secrets, replacement, left[Step(secrets, left)..] + right, stop);
      ScanUntil(secrets, replacement, left + right, stop) == (StepShows(secrets, replacement, left) + shown, last)
  {
    MatchIsLocal(secrets, left, right, keep);
    assert (left + right)[Step(secrets, left)..] == left[Step(secrets, left)..] + right;
  }

  /** Scanning to the end is the one-shot scan. */
  lemma {:induction false} ScanToEnd(secrets: set<Text>, replacement: Text, input: Text)
    ensures ScanUntil(secrets, replacement, input, 0) == (Scan(secrets, replacement, input), [])
    decreases |input|
  {
    if input != [] {
      var step := Step(secrets, input);
      ScanToEnd(secrets, replacement, input[step..]);
      assert Pieces(secrets, input)[1..] == Pieces(secrets, input[step..]);
    }
  }

  lemma {:induction false} RemainderIsShortSuffix(secrets: set<Text>, replacement: Text, input: Text, keep: nat)
    ensures
      var rest := ScanUntil(secrets, replacement, input, keep).1;
      |rest| <= keep && |rest| <= |input| && rest == input[|input| - |rest|..]
    decreases |input|
  {
    if |input| > keep {
      RemainderIsShortSuffix(secrets, replacement, input[Step(secrets, input)..], keep);
    }
  }

  /**
   What the redactor shows is a function of everything it was given, not of how that was cut: the last
   `limit` code units of the one-shot scan.
   */
  function Rendered(secrets: set<Text>, replacement: Text, fed: Text, limit: nat): Text {
    Tail(Scan(secrets, replacement, fed), limit)
  }

  /** Whatever the chunking and the truncation, no secret can be read in what is shown. */
  lemma RenderedHidesSecrets(secrets: set<Text>, replacement: Text, fed: Text, limit: nat, secret: Text)
    requires secret in secrets && secret != [] && Apart(replacement, secret)
    ensures !Contains(Rendered(secrets, replacement, fed, limit), secret)
  {
    if Contains(Rendered(secrets, replacement, fed, limit), secret) {
      TailContains(Scan(secrets, replacement, fed), limit, secret);
      ScanHidesSecrets(secrets, replacement, fed, secret);
    }
  }

  /** What is rendered is the end of the one-shot scan of everything fed: all of it, or as much as the limit allows. */
  lemma RenderedIsTheEnd(secrets: set<Text>, replacement: Text, fed: Text, limit: nat, start: Text, end: Text)
    requires Scan(secrets, replacement, fed) == start + end
    requires |end| == limit || (|end| < limit && start == [])
    ensures Rendered(secrets, replacement, fed, limit) == end
  {
    assert (start + end)[|start|..] == end;
  }

  class BoundedRedactor {
    const maxOutputChars: int
    const secrets: seq<Text>
    const overlapChars: nat
    const replacement: Text
    var pending: Text
    var output: Text
    /** Everything appended so far, in order. */
    ghost var fed: Text

    ghost predicate Valid()
      reads this
    {
      && maxOutputChars > 0
      && Descending(secrets) && [] !in secrets
      && Bounded(AsSet(secrets), overlapChars)
      && (secrets == [] ==> overlapChars == 0)
      && (secrets != [] ==> exists s | s in secrets :: |s| == overlapChars + 1)
      && var (shown, rest) := ScanUntil(AsSet(secrets), replacement, fed, overlapChars);
         output == Tail(shown, maxOutputChars) && pending == rest
    }

    constructor (maxOutputChars: int, secrets: seq<Text>, replacement: Text := DEFAULT_REPLACEMENT)
      requires maxOutputChars > 0
      ensures Valid() && fed == []
      ensures this.maxOutputChars == maxOutputChars && this.replacement == replacement
      ensures forall s :: s in this.secrets <==> s in secrets && s != []
    {
      var prepared := PrepareSecrets(secrets);
      this.maxOutputChars := maxOutputChars;
      this.secrets := prepared;
      assert prepared != [] ==> prepared[0] in prepared;
      // Longest first, so the first length bounds the others.
      this.overlapChars := if prepared == [] then 0 else |prepared[0]| - 1;
      this.replacement := replacement;
      pending := [];
      output := [];
      fed := [];
    }

    /** `append`: the state reached depends on the concatenation of the chunks alone. */
    method Append(chunk: Text)
      requires Valid()
      modifies this
      ensures Valid() && fed == old(fed) + chunk
      ensures |pending| <= overlapChars && |output| <= maxOutputChars
    {
      var combined := pending + chunk;
      var sanitized, rest := SanitizePrefix(combined, overlapChars);
      ghost var all := AsSet(secrets);
      ghost var (shown, _) := ScanUntil(all, replacement, fed, overlapChars);
      ScanResumes(all, replacement, fed, chunk, overlapChars, overlapChars);
      TailAppend(shown, sanitized, maxOutputChars);
      pending := rest;
      output := Tail(output + sanitized, maxOutputChars);
      fed := fed + chunk;
      RemainderIsShortSuffix(all, replacement, fed, overlapChars);
    }

    /** `render`: the last `maxOutputChars` code units of the one-shot scan of everything appended. */
    method Render() returns (r: Text)
      requires Valid()
      ensures r == Rendered(AsSet(secrets), replacement, fed, maxOutputChars)
    {
      var sanitized, _ := SanitizePrefix(pending, 0);
      r := Tail(output + sanitized, maxOutputChars);
      ghost var all := AsSet(secrets);
      ghost var (shown, _) := ScanUntil(all, replacement, fed, overlapChars);
      ScanResumes(all, replacement, fed, [], overlapChars, 0);
      assert fed + [] == fed && pending + [] == pending;
      ScanToEnd(all, replacement, fed);
      TailAppend(shown, sanitized, maxOutputChars);
    }

    method SanitizePrefix(input: Text, retainedChars: nat) returns (sanitized: Text, rest: Text)
      requires Descending(secrets) && [] !in secrets
      ensures (sanitized, rest) == ScanUntil(AsSet(secrets), replacement, input, retainedChars)
    {
      var processingLimit := if |input| > retainedChars then |input| - retainedChars else 0;
      var index := 0;
      sanitized := [];
      ResumedStart(AsSet(secrets), replacement, input, retainedChars);
      while index < processingLimit
        invariant index <= |input|
        invariant Resumed(AsSet(secrets), replacement, input, index, sanitized, retainedChars)
      {
        match FindSecret(secrets, input, index) {
          case Some(secret) =>
            ResumeFound(secrets, replacement, input, index, sanitized, retainedChars, secret);
            sanitized := sanitized + replacement;
            index := index + |secret|;
          case None =>
            ResumePlain(secrets, replacement, input, index, sanitized, retainedChars);
            sanitized := sanitized + [input[index]];
            index := index + 1;
        }
      }
      rest := input[index..];
      ResumedEnd(AsSet(secrets), replacement, input, index, sanitized, retainedChars);
    }
  }

  /** The constructor's check: only a positive bound makes a redactor. */
  method Create(maxOutputChars: int, secrets: seq<Text>, replacement: Text := DEFAULT_REPLACEMENT)
    returns (r: Result<BoundedRedactor>)
    ensures r.Ok? <==> maxOutputChars > 0
    ensures r.Ok? ==> fresh(r.value) && r.value.Valid() && r.value.fed == []
  {
    if maxOutputChars <= 0 {
      return Err("maxOutputChars must be a positive integer");
    }
    var redactor := new BoundedRedactor(maxOutputChars, secrets, replacement);
    r := Ok(redactor);
  }
}
