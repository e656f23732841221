/**
 Numbering that resumes above what a list already holds (extension/src/content.ts:906-909).
 */
module SequenceNumbers {
  /** The smallest number above all of these, and at least zero. */
  function NextNumber(numbers: seq<int>): nat {
    if numbers == [] then 0
    else
      var rest, mine := NextNumber(numbers[..|numbers| - 1]), numbers[|numbers| - 1] + 1;
      if mine > rest then mine else rest
  }

  lemma {:induction false} NextIsAbove(numbers: seq<int>)
    ensures forall n | n in numbers :: n < NextNumber(numbers)
  {
    if numbers != [] {
      NextIsAbove(numbers[..|numbers| - 1]);
      assert numbers == numbers[..|numbers| - 1] + [numbers[|numbers| - 1]];
    }
  }

  /** It is no higher than it needs to be. */
  lemma {:induction false} NextIsAttained(numbers: seq<int>)
    ensures NextNumber(numbers) == 0 || exists i | 0 <= i < |numbers| :: numbers[i] == NextNumber(numbers) - 1
  {
    if numbers != [] {
      var n := |numbers| - 1;
      NextIsAttained(numbers[..n]);
      if numbers[n] != NextNumber(numbers) - 1 && NextNumber(numbers) != 0 {
        var i :| 0 <= i < n && numbers[..n][i] == NextNumber(numbers[..n]) - 1;
        assert numbers[i] == NextNumber(numbers) - 1;
      }
    }
  }
}
