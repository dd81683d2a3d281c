/**
 * The bit-reversal permutation that ends every forward DCT butterfly
 * network: as a reordering of a sequence (even positions first, then odd
 * positions, each half reordered the same way) and as a map on indices.
 */
module BitReversal {
  import opened Txfm

  /** The elements at even positions, in order. */
  function Evens(b: seq<int>): (e: seq<int>)
    ensures |e| == (|b| + 1) / 2
  {
    seq((|b| + 1) / 2, i requires 0 <= i < (|b| + 1) / 2 => b[2 * i])
  }

  /** The elements at odd positions, in order. */
  function Odds(b: seq<int>): (o: seq<int>)
    ensures |o| == |b| / 2
  {
    seq(|b| / 2, i requires 0 <= i < |b| / 2 => b[2 * i + 1])
  }

  /** Together the even and the odd positions hold every element of `b`, each once. */
  lemma {:induction false} EvensAndOddsPartition(b: seq<int>)
    ensures multiset(Evens(b)) + multiset(Odds(b)) == multiset(b)
    decreases |b|
  {
    if |b| >= 2 {
      EvensAndOddsPartition(b[2..]);
      assert Evens(b) == [b[0]] + Evens(b[2..]);
      assert Odds(b) == [b[1]] + Odds(b[2..]);
      assert b == [b[0]] + [b[1]] + b[2..];
    } else if |b| == 1 {
      assert Odds(b) == [];
    }
  }

  /** Bit-reversal order, as the even-then-odd split applied recursively. */
  function BitReversalOrder(b: seq<int>): (r: seq<int>)
    ensures |r| == |b|
    decreases |b|
  {
    if |b| <= 1 then b else BitReversalOrder(Evens(b)) + BitReversalOrder(Odds(b))
  }

  /** Bit-reversal order keeps every element, each as often. */
  lemma {:induction false} BitReversalOrderRearranges(b: seq<int>)
    ensures multiset(BitReversalOrder(b)) == multiset(b)
    decreases |b|
  {
    if |b| > 1 {
      BitReversalOrderRearranges(Evens(b));
      BitReversalOrderRearranges(Odds(b));
      EvensAndOddsPartition(b);
    }
  }

  /**
   * `i < 2^k` with its `k` binary digits in reverse order: the top digit
   * becomes the lowest and the other `k - 1` digits are reversed above it.
   */
  function BitReverse(i: nat, k: nat): (r: nat)
    requires i < Pow2(k)
    ensures r < Pow2(k)
  {
    if k == 0 then 0
    else if i < Pow2(k - 1) then 2 * BitReverse(i, k - 1)
    else 2 * BitReverse(i - Pow2(k - 1), k - 1) + 1
  }

  /** Position `i` of the bit-reversal order of `2^k` elements holds element `BitReverse(i, k)`. */
  lemma {:induction false} BitReversalOrderIndex(b: seq<int>, k: nat)
    requires |b| == Pow2(k)
    ensures forall i :: 0 <= i < |b| ==> BitReversalOrder(b)[i] == b[BitReverse(i, k)]
    decreases k
  {
    if k > 0 {
      var e, o := Evens(b), Odds(b);
      BitReversalOrderIndex(e, k - 1);
      BitReversalOrderIndex(o, k - 1);
    }
  }
}
