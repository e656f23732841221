/** Which orders the shuffle of scripts/e2e-replay-mv3-stability.ts can bring out: all of them. */
module StabilityOrders {
  import opened StabilitySchedule

  /** The index picked is the part of the range that the draw falls into, of `bound` equal parts. */
  lemma PickIs(draws: Draws, k: nat, bound: nat, r: nat)
    requires bound > 0
    ensures
      var draw := draws(k) % 0x1_0000_0000;
      Pick(draws, k, bound) == r <==> 0x1_0000_0000 * r <= draw * bound < 0x1_0000_0000 * r + 0x1_0000_0000
  {
    var draw := draws(k) % TWO_TO_THE_32;
    TimesIsProduct(draw, bound);
    TimesBelow(draw, bound);
  }

  /** A draw that picks this index. */
  function DrawFor(j: nat, bound: nat): int
    requires j < bound
  {
    (TWO_TO_THE_32 * j + bound - 1) / bound
  }

  lemma DivisionFits(top: nat, bound: nat)
    requires bound > 0
    ensures top - bound < (top / bound) * bound <= top
  {
  }

  lemma TimesMonotone(a: int, b: int, c: nat)
    ensures a <= b ==> a * c <= b * c
  {
    if a <= b {
      assert (b - a) * c >= 0;
    }
  }

  lemma DrawInRange(j: nat, bound: nat)
    requires j < bound <= 10
    ensures
      var draw := DrawFor(j, bound);
      0 <= draw < TWO_TO_THE_32 && TWO_TO_THE_32 * j <= draw * bound <= TWO_TO_THE_32 * j + bound - 1
  {
    var top := TWO_TO_THE_32 * j + bound - 1;
    assert top < TWO_TO_THE_32 * bound;
    DivisionFits(top, bound);
    TimesMonotone(TWO_TO_THE_32, top / bound, bound);
  }

  lemma DrawPicks(draws: Draws, k: nat, j: nat, bound: nat)
    requires j < bound <= 10 && draws(k) == DrawFor(j, bound)
    ensures Pick(draws, k, bound) == j
  {
    DrawInRange(j, bound);
    PickIs(draws, k, bound, j);
  }

  /** The draws of `first`, and from then on those of `rest`. */
  function Then(first: int, rest: Draws, k: nat): Draws { i => if i == k then first else rest(i) }

  lemma {:induction false} LaterDrawsMatter<T>(block: seq<T>, index: nat, draws: Draws, other: Draws, k: nat)
    requires index == 0 || index < |block|
    requires forall i | i >= k :: draws(i) == other(i)
    ensures Shuffle(block, index, draws, k) == Shuffle(block, index, other, k)
    decreases index
  {
    if index > 0 {
      LaterDrawsMatter(Swapped(block, index, Pick(draws, k, index + 1)), index - 1, draws, other, k + 1);
    }
  }

  lemma {:induction false} ShuffleLeavesRest<T>(block: seq<T>, index: nat, draws: Draws, k: nat)
    requires index == 0 || index < |block|
    ensures forall i | index < i < |block| :: Shuffle(block, index, draws, k)[i] == block[i]
    decreases index
  {
    if index > 0 {
      ShuffleLeavesRest(Swapped(block, index, Pick(draws, k, index + 1)), index - 1, draws, k + 1);
    }
  }

  lemma Cancelled<T>(a: multiset<T>, b: multiset<T>, c: multiset<T>)
    requires a + c == b + c
    ensures a == b
  {
    assert a == (a + c) - c && b == (b + c) - c;
  }

  lemma FoundBelow<T>(block: seq<T>, order: seq<T>, index: nat) returns (j: nat)
    requires index < |block| == |order| && multiset(block) == multiset(order) && block[index + 1..] == order[index + 1..]
    ensures j <= index && block[j] == order[index]
  {
    assert block == block[..index + 1] + block[index + 1..] && order == order[..index + 1] + order[index + 1..];
    assert multiset(block) == multiset(block[..index + 1]) + multiset(block[index + 1..]);
    assert multiset(order) == multiset(order[..index + 1]) + multiset(order[index + 1..]);
    Cancelled(multiset(block[..index + 1]), multiset(order[..index + 1]), multiset(block[index + 1..]));
    assert order[index] in order[..index + 1];
    assert order[index] in multiset(block[..index + 1]);
    assert order[index] in block[..index + 1];
    j :| 0 <= j < |block[..index + 1]| && block[..index + 1][j] == order[index];
  }

  lemma SwapPlaces<T>(block: seq<T>, order: seq<T>, index: nat, j: nat)
    requires j <= index < |block| == |order| && multiset(block) == multiset(order)
    requires block[index + 1..] == order[index + 1..] && block[j] == order[index]
    ensures
      var swapped := Swapped(block, index, j);
      multiset(swapped) == multiset(order) && swapped[index..] == order[index..]
  {
    var swapped := Swapped(block, index, j);
    SwapIsPermutation(block, index, j);
    forall i | index <= i < |block| ensures swapped[i] == order[i] {
      if i > index {
        assert block[index + 1..][i - index - 1] == order[index + 1..][i - index - 1];
      }
    }
    assert swapped[index..] == order[index..];
  }

  /** Every order of a block comes out of the shuffle for some draws: nothing is favoured by leaving it out. */
  lemma {:induction false} EveryOrderIsDrawn<T>(block: seq<T>, order: seq<T>, index: nat, k: nat) returns (draws: Draws)
    requires |block| == |order| <= 10 && multiset(block) == multiset(order)
    requires (index == 0 && |block| <= 1) || index < |block|
    requires block != [] ==> block[index + 1..] == order[index + 1..]
    ensures Shuffle(block, index, draws, k) == order
    decreases index
  {
    if index == 0 {
      draws := i => 0;
      if block != [] {
        var j := FoundBelow(block, order, 0);
        assert block == [block[0]] + block[1..] && order == [order[0]] + order[1..];
      } else {
        assert multiset(order) == multiset{};
      }
    } else {
      var j := FoundBelow(block, order, index);
      SwapPlaces(block, order, index, j);
      var swapped := Swapped(block, index, j);
      var rest := EveryOrderIsDrawn(swapped, order, index - 1, k + 1);
      draws := Then(DrawFor(j, index + 1), rest, k);
      DrawPicks(draws, k, j, index + 1);
      LaterDrawsMatter(swapped, index - 1, draws, rest, k + 1);
    }
  }
}
