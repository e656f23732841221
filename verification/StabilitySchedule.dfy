/**
 The block-shuffled scenario schedule of scripts/e2e-replay-mv3-stability.ts: every ten iterations
 replay the same fixed mix in an order drawn from the seed.
 */
module StabilitySchedule {
  import opened Wrappers

  datatype Scenario =
    | NavigationReinjection
    | DuplicateTerminal
    | ServiceWorkerRestart
    | RetainedTabSupersession
    | ApprovalAbortCleanup
    | TerminalCleanupMatrix

  /** The mix every ten iterations replay. The facts below hold for any mix of ten. */
  const BLOCK: seq<Scenario> := [
    NavigationReinjection, NavigationReinjection, NavigationReinjection,
    DuplicateTerminal, DuplicateTerminal,
    ServiceWorkerRestart, ServiceWorkerRestart,
    RetainedTabSupersession, ApprovalAbortCleanup, TerminalCleanupMatrix
  ]

  // ---------- the generator ----------

  const TWO_TO_THE_32: nat := 0x1_0000_0000

  /** The outputs of the generator a seed selects, in the order they are drawn; 32 bits of each count. */
  type Draws = int -> int

  /** `a * b`, by repeated addition so that proofs stay within linear arithmetic. */
  function Times(a: nat, b: nat): nat { if b == 0 then 0 else Times(a, b - 1) + a }

  lemma {:induction false} TimesIsProduct(a: nat, b: nat)
    ensures Times(a, b) == a * b
  {
    if b > 0 {
      TimesIsProduct(a, b - 1);
      assert a * (b - 1) + a == a * b;
    }
  }

  lemma {:induction false} TimesBelow(a: nat, b: nat)
    requires a < TWO_TO_THE_32
    ensures Times(a, b) <= TWO_TO_THE_32 * b && (b > 0 ==> Times(a, b) < TWO_TO_THE_32 * b)
  {
    if b > 0 {
      TimesBelow(a, b - 1);
    }
  }

  /** `Math.floor(random() * bound)`: 36 significant bits, so the floating-point product is exact. */
  function Pick(draws: Draws, k: nat, bound: nat): (r: nat)
    requires bound > 0
    ensures r < bound
  {
    var draw := draws(k) % TWO_TO_THE_32;
    TimesBelow(draw, bound);
    Times(draw, bound) / TWO_TO_THE_32
  }

  class SeededRandom {
    const draws: Draws
    /** How many numbers have been drawn. */
    var state: nat

    constructor (draws: Draws)
      ensures this.draws == draws && state == 0
    {
      this.draws := draws;
      state := 0;
    }

    method NextIndex(bound: nat) returns (r: nat)
      requires bound > 0
      modifies this
      ensures state == old(state) + 1 && r == Pick(draws, old(state), bound) && r < bound
    {
      r := Pick(draws, state, bound);
      state := state + 1;
    }
  }

  // ---------- the schedule a seed determines ----------

  function Swapped<T>(s: seq<T>, i: nat, j: nat): seq<T>
    requires i < |s| && j < |s|
  {
    s[i := s[j]][j := s[i]]
  }

  /** The block after the swaps at `index`, `index - 1`, ..., 1; each swap uses one draw. */
  function Shuffle<T>(block: seq<T>, index: nat, draws: Draws, k: nat): (r: seq<T>)
    requires index == 0 || index < |block|
    ensures |r| == |block|
    decreases index
  {
    if index == 0 then block
    else Shuffle(Swapped(block, index, Pick(draws, k, index + 1)), index - 1, draws, k + 1)
  }

  /** The `i`-th shuffle of the mix; a shuffle of ten draws nine numbers. */
  function ShuffledBlock(mix: seq<Scenario>, draws: Draws, i: nat): (r: seq<Scenario>)
    requires mix != []
    ensures |r| == |mix|
  {
    Shuffle(mix, |mix| - 1, draws, 9 * i)
  }

  /** The schedule reads off one shuffled block of ten after the other. */
  ghost predicate IsSchedule(schedule: seq<Scenario>, mix: seq<Scenario>, draws: Draws)
    requires |mix| == 10
  {
    forall b: nat, j | 0 <= j < 10 && 10 * b + j < |schedule| ::
      schedule[10 * b + j] == ShuffledBlock(mix, draws, b)[j]
  }

  lemma SwapIsPermutation<T>(s: seq<T>, i: nat, j: nat)
    requires i < |s| && j < |s|
    ensures multiset(Swapped(s, i, j)) == multiset(s)
  {
  }

  lemma {:induction false} ShuffleIsPermutation<T>(block: seq<T>, index: nat, draws: Draws, k: nat)
    requires index == 0 || index < |block|
    ensures multiset(Shuffle(block, index, draws, k)) == multiset(block)
    decreases index
  {
    if index > 0 {
      var j := Pick(draws, k, index + 1);
      SwapIsPermutation(block, index, j);
      ShuffleIsPermutation(Swapped(block, index, j), index - 1, draws, k + 1);
    }
  }

  /** A seed determines the schedule: of two campaigns with one seed, the shorter begins the longer. */
  lemma ScheduleIsDetermined(short: seq<Scenario>, long: seq<Scenario>, mix: seq<Scenario>, draws: Draws)
    requires |mix| == 10 && |short| <= |long|
    requires IsSchedule(short, mix, draws) && IsSchedule(long, mix, draws)
    ensures short <= long
  {
    forall i | 0 <= i < |short| ensures short[i] == long[i] {
      var b, j := i / 10, i % 10;
      assert i == 10 * b + j;
      assert short[10 * b + j] == ShuffledBlock(mix, draws, b)[j];
    }
  }

  /** Each aligned block of ten is a permutation of the mix; a cut-off last block is part of one. */
  lemma ScheduleBlocks(schedule: seq<Scenario>, mix: seq<Scenario>, draws: Draws, b: nat)
    requires |mix| == 10 && IsSchedule(schedule, mix, draws) && 10 * b <= |schedule|
    ensures 10 * b + 10 <= |schedule| ==> multiset(schedule[10 * b..10 * b + 10]) == multiset(mix)
    ensures 10 * b + 10 > |schedule| ==> multiset(schedule[10 * b..]) <= multiset(mix)
  {
    var end := if 10 * b + 10 <= |schedule| then 10 * b + 10 else |schedule|;
    BlockSlice(schedule, mix, draws, b, end);
    ShuffleIsPermutation(mix, |mix| - 1, draws, 9 * b);
    PartOf(ShuffledBlock(mix, draws, b), end - 10 * b);
    assert end == |schedule| ==> schedule[10 * b..] == schedule[10 * b..end];
  }

  lemma BlockSlice(schedule: seq<Scenario>, mix: seq<Scenario>, draws: Draws, b: nat, end: nat)
    requires |mix| == 10 && IsSchedule(schedule, mix, draws)
    requires 10 * b <= end <= |schedule| && end <= 10 * b + 10
    ensures schedule[10 * b..end] == ShuffledBlock(mix, draws, b)[..end - 10 * b]
  {
    forall j | 0 <= j < end - 10 * b ensures schedule[10 * b..end][j] == ShuffledBlock(mix, draws, b)[j] {
      assert schedule[10 * b + j] == ShuffledBlock(mix, draws, b)[j];
    }
  }

  lemma PartOf<T>(s: seq<T>, n: nat)
    requires n <= |s|
    ensures multiset(s[..n]) <= multiset(s)
    ensures n == |s| ==> s[..n] == s
  {
    assert s == s[..n] + s[n..];
  }

  /** Over any length, each scenario keeps its share of the mix up to one cut-off block. */
  lemma {:induction false} ScheduleCounts(
    schedule: seq<Scenario>, mix: seq<Scenario>, draws: Draws, full: nat, scenario: Scenario)
    requires |mix| == 10 && IsSchedule(schedule, mix, draws) && 10 * full <= |schedule| < 10 * full + 10
    ensures Times(multiset(mix)[scenario], full) <= multiset(schedule)[scenario]
    ensures multiset(schedule)[scenario]
            <= Times(multiset(mix)[scenario], if |schedule| == 10 * full then full else full + 1)
  {
    BlockCounts(schedule[..10 * full], mix, draws, full, scenario);
    ScheduleBlocks(schedule, mix, draws, full);
    assert schedule == schedule[..10 * full] + schedule[10 * full..];
  }

  lemma {:induction false} BlockCounts(
    schedule: seq<Scenario>, mix: seq<Scenario>, draws: Draws, full: nat, scenario: Scenario)
    requires |mix| == 10 && IsSchedule(schedule, mix, draws) && |schedule| == 10 * full
    ensures multiset(schedule)[scenario] == Times(multiset(mix)[scenario], full)
  {
    if full > 0 {
      var cut := 10 * (full - 1);
      BlockCounts(schedule[..cut], mix, draws, full - 1, scenario);
      ScheduleBlocks(schedule, mix, draws, full - 1);
      assert schedule[cut..] == schedule[cut..cut + 10];
      assert schedule == schedule[..cut] + schedule[cut..];
    }
  }

  /** The mix: three, two, two, and one of each other scenario in ten. */
  lemma BlockShares()
    ensures |BLOCK| == 10
    ensures multiset(BLOCK) == multiset{NavigationReinjection, NavigationReinjection, NavigationReinjection,
                                        DuplicateTerminal, DuplicateTerminal, ServiceWorkerRestart, ServiceWorkerRestart,
                                        RetainedTabSupersession, ApprovalAbortCleanup, TerminalCleanupMatrix}
  {
  }

  // ---------- the loops ----------

  method ShuffleInPlace(block: array<Scenario>, random: SeededRandom)
    requires block.Length == 10
    modifies block, random
    ensures block[..] == Shuffle(old(block[..]), block.Length - 1, random.draws, old(random.state))
    ensures random.state == old(random.state) + 9
  {
    var index := block.Length - 1;
    while index > 0
      invariant 0 <= index <= 9
      invariant random.state == old(random.state) + 9 - index
      invariant Shuffle(block[..], index, random.draws, random.state) == Shuffle(old(block[..]), block.Length - 1, random.draws, old(random.state))
    {
      ghost var before := block[..];
      var swapIndex := random.NextIndex(index + 1);
      block[index], block[swapIndex] := block[swapIndex], block[index];
      assert block[..] == Swapped(before, index, swapIndex);
      index := index - 1;
    }
  }

  /** `buildReplayStabilitySchedule`; `draws` is the generator that the seed selects. */
  method BuildReplayStabilitySchedule(iterations: int, seed: int, draws: Draws, mix: seq<Scenario> := BLOCK)
    returns (r: Result<seq<Scenario>>)
    requires |mix| == 10
    ensures r.Ok? <==> iterations > 0 && 0 <= seed <= 0xffff_ffff
    ensures r.Ok? ==> |r.value| == iterations && IsSchedule(r.value, mix, draws)
  {
    if iterations <= 0 {
      return Err("iterations must be a positive integer");
    }
    if seed < 0 || seed > 0xffff_ffff {
      return Err("seed must be an unsigned 32-bit integer");
    }
    var random := new SeededRandom(draws);
    var schedule: seq<Scenario> := [];
    ghost var blocks := 0;
    while |schedule| < iterations
      invariant |schedule| <= iterations
      invariant |schedule| < iterations ==> |schedule| == 10 * blocks && random.state == 9 * blocks
      invariant IsSchedule(schedule, mix, draws)
    {
      var block := new Scenario[10](i requires 0 <= i < 10 => mix[i]);
      assert block[..] == mix;
      ShuffleInPlace(block, random);
      var wanted := iterations - |schedule|;
      AppendBlock(schedule, mix, draws, blocks, if wanted < 10 then wanted else 10);
      schedule := schedule + block[..if wanted < 10 then wanted else 10];
      blocks := blocks + 1;
    }
    r := Ok(schedule);
  }

  lemma AppendBlock(schedule: seq<Scenario>, mix: seq<Scenario>, draws: Draws, b: nat, taken: nat)
    requires |mix| == 10 && IsSchedule(schedule, mix, draws) && |schedule| == 10 * b && taken <= 10
    ensures IsSchedule(schedule + ShuffledBlock(mix, draws, b)[..taken], mix, draws)
  {
    var block := ShuffledBlock(mix, draws, b);
    var longer := schedule + block[..taken];
    forall c: nat, j | 0 <= j < 10 && 10 * c + j < |longer|
      ensures longer[10 * c + j] == ShuffledBlock(mix, draws, c)[j]
    {
      if c < b {
        assert schedule[10 * c + j] == ShuffledBlock(mix, draws, c)[j];
      } else {
        assert c == b;
      }
    }
  }
}
