/**
 * The collaborators the forward 1-D transforms take from the transform
 * header: the cosine table `cospi_arr` with its first precision
 * `cos_bit_min`, the rounding rotation `half_btf` and the bit counter
 * `get_max_bit`. Their definitions are not part of this model, so they are
 * carried as values of `Env`. Every property proved here holds for every
 * table whose rows have 64 entries, unless its lemma names a further
 * assumption about `half_btf` or `get_max_bit`.
 */
module Txfm {

  datatype Option<T> = None | Some(value: T)

  /** The header-defined primitives, uninterpreted. */
  datatype Env = Env(
    cospiArr: seq<seq<int>>,                   // one row of scaled cosines per precision
    cosBitMin: int,                            // the precision of row 0
    halfBtf: (int, int, int, int, int) -> int, // half_btf(w0, in0, w1, in1, bit)
    getMaxBit: int -> int)                     // index of the highest set bit
  {
    /** Every row of the table has the 64 entries cospi[0..63]. */
    predicate Valid()
    {
      forall k :: 0 <= k < |cospiArr| ==> |cospiArr[k]| == 64
    }

    /** `bit` selects an existing row: cos_bit - cos_bit_min is a row index. */
    predicate CosBitOk(bit: int)
    {
      cosBitMin <= bit < cosBitMin + |cospiArr|
    }

    /**
     * A rotation whose weighted sum `w0 * in0 + w1 * in1` is zero rounds to
     * zero, as a rounding shift of that sum does.
     */
    ghost predicate ZeroSumRotatesToZero()
    {
      forall w0, in0, w1, in1, bit :: w0 * in0 + w1 * in1 == 0 ==> halfBtf(w0, in0, w1, in1, bit) == 0
    }

    /** The row `cospi_arr[bit - cos_bit_min]` a rotation stage reads. */
    function Cospi(bit: int): (row: seq<int>)
      requires Valid() && CosBitOk(bit)
      ensures |row| == 64
    {
      cospiArr[bit - cosBitMin]
    }
  }

  /** A rotation of two zero inputs is zero. */
  lemma RotationOfZeros(env: Env, w0: int, w1: int, bit: int)
    requires env.ZeroSumRotatesToZero()
    ensures env.halfBtf(w0, 0, w1, 0, bit) == 0
  {
    assert w0 * 0 + w1 * 0 == 0;
  }

  /** A rotation of two equal inputs under opposite weights is zero. */
  lemma OpposedRotationOfEquals(env: Env, w: int, v: int, bit: int)
    requires env.ZeroSumRotatesToZero()
    ensures env.halfBtf(-w, v, w, v, bit) == 0
  {
    assert (-w) * v + w * v == 0;
  }

  /** The rotation stages `first..last` may index the table with `cosBit`. */
  predicate CosBitsOk(env: Env, cosBit: seq<int>, first: nat, last: nat)
  {
    last < |cosBit| && forall s :: first <= s <= last ==> env.CosBitOk(cosBit[s])
  }

  /** 2 to the power `n`, and 1 for every `n <= 0`. */
  function Pow2(n: int): (p: nat)
    ensures p >= 1
  {
    if n <= 0 then 1 else 2 * Pow2(n - 1)
  }

  lemma {:induction false} Pow2Monotone(m: int, n: int)
    requires m <= n
    ensures Pow2(m) <= Pow2(n)
    decreases n - m
  {
    if m < n {
      Pow2Monotone(m, n - 1);
    }
  }

  /** 2^31, the first magnitude a 32-bit signed integer cannot hold. */
  lemma Pow2Of31()
    ensures Pow2(31) == 0x8000_0000
  {
    assert Pow2(8) == 0x100;
    assert Pow2(16) == 0x1_0000;
    assert Pow2(24) == 0x100_0000;
  }
}
