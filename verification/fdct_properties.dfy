/**
 * What the butterfly networks of FdctStages promise: the first stage is the
 * mirror butterfly, the last stage is the bit-reversal permutation, the
 * positions a stage does not rotate or butterfly pass through unchanged,
 * and the even outputs of each network are the half-size network applied
 * to the mirror sums of its input, one stage later and with the precisions
 * `cos_bit` shifted by one; a run that passes its range checks contains a
 * half-size run that passes its own, with `stage_range` shifted by one.
 * Given only that a rotation with a zero weighted sum is zero, a constant
 * input reaches only the DC coefficient and a mirror-symmetric input only
 * the even coefficients.
 */
module FdctProperties {
  import opened Txfm
  import opened FdctStages
  import opened BitReversal
  import opened RangeChecking

  // ------------------------------------------------------------ first stage

  lemma Fdct4Stage1IsMirrorButterfly(x: seq<int>)
    requires |x| == 4
    ensures IsMirrorButterfly(x, Fdct4Stage1(x))
  {
  }

  lemma Fdct8Stage1IsMirrorButterfly(x: seq<int>)
    requires |x| == 8
    ensures IsMirrorButterfly(x, Fdct8Stage1(x))
  {
  }

  lemma Fdct16Stage1IsMirrorButterfly(x: seq<int>)
    requires |x| == 16
    ensures IsMirrorButterfly(x, Fdct16Stage1(x))
  {
    var r := Fdct16Stage1(x);
    assert r == seq(16, i requires 0 <= i < 16 => if i < 8 then x[i] + x[15 - i] else x[15 - i] - x[i]);
  }

  /** The lower half of a mirror butterfly is the mirror sums. */
  lemma MirrorButterflyLowerHalf(x: seq<int>, r: seq<int>)
    requires IsMirrorButterfly(x, r)
    ensures r[..|x| / 2] == MirrorSums(x)
  {
  }

  /** A mirror butterfly of a constant vector has zero differences. */
  lemma MirrorDifferencesOfConstantVanish(x: seq<int>, r: seq<int>)
    requires IsMirrorButterfly(x, r)
    requires forall i :: 0 <= i < |x| ==> x[i] == x[0]
    ensures forall j :: |x| / 2 <= j < |x| ==> r[j] == 0
  {
    forall j | |x| / 2 <= j < |x|
      ensures r[j] == 0
    {
      assert x[|x| - 1 - j] == x[0] && x[j] == x[0];
    }
  }

  lemma Fdct4ConstantInput(x: seq<int>)
    requires |x| == 4 && forall i :: 0 <= i < 4 ==> x[i] == x[0]
    ensures forall j :: 2 <= j < 4 ==> Fdct4Stage1(x)[j] == 0
  {
    Fdct4Stage1IsMirrorButterfly(x);
    MirrorDifferencesOfConstantVanish(x, Fdct4Stage1(x));
  }

  lemma Fdct8ConstantInput(x: seq<int>)
    requires |x| == 8 && forall i :: 0 <= i < 8 ==> x[i] == x[0]
    ensures forall j :: 4 <= j < 8 ==> Fdct8Stage1(x)[j] == 0
  {
    Fdct8Stage1IsMirrorButterfly(x);
    MirrorDifferencesOfConstantVanish(x, Fdct8Stage1(x));
  }

  lemma Fdct16ConstantInput(x: seq<int>)
    requires |x| == 16 && forall i :: 0 <= i < 16 ==> x[i] == x[0]
    ensures forall j :: 8 <= j < 16 ==> Fdct16Stage1(x)[j] == 0
  {
    Fdct16Stage1IsMirrorButterfly(x);
    MirrorDifferencesOfConstantVanish(x, Fdct16Stage1(x));
  }

  /**
   * A constant input has all its energy in the DC coefficient: every output
   * but position 0 is exactly zero, and a zero input gives a zero output.
   * This holds for every cosine table, given only that a rotation with a
   * zero weighted sum is zero.
   */
  lemma Fdct4ConstantInputIsDcOnly(env: Env, x: seq<int>, cosBit: seq<int>)
    requires env.Valid() && CosBitsOk(env, cosBit, 2, 2) && env.ZeroSumRotatesToZero()
    requires |x| == 4 && forall i :: 0 <= i < 4 ==> x[i] == x[0]
    ensures forall j :: 1 <= j < 4 ==> Fdct4(env, x, cosBit)[j] == 0
    ensures x[0] == 0 ==> Fdct4(env, x, cosBit) == [0, 0, 0, 0]
  {
    var t := Fdct4Buffers(env, x, cosBit);
    var c := x[0];
    assert t[1] == [2 * c, 2 * c, 0, 0];
    var cospi := env.Cospi(cosBit[2]);
    OpposedRotationOfEquals(env, cospi[32], 2 * c, cosBit[2]);
    RotationOfZeros(env, cospi[48], cospi[16], cosBit[2]);
    RotationOfZeros(env, cospi[48], -cospi[16], cosBit[2]);
  }

  lemma Fdct8ConstantInputIsDcOnly(env: Env, x: seq<int>, cosBit: seq<int>)
    requires env.Valid() && CosBitsOk(env, cosBit, 2, 4) && env.ZeroSumRotatesToZero()
    requires |x| == 8 && forall i :: 0 <= i < 8 ==> x[i] == x[0]
    ensures forall j :: 1 <= j < 8 ==> Fdct8(env, x, cosBit)[j] == 0
    ensures x[0] == 0 ==> Fdct8(env, x, cosBit) == [0, 0, 0, 0, 0, 0, 0, 0]
  {
    var m := MirrorSums(x);
    assert forall i :: 0 <= i < 4 ==> m[i] == m[0];
    Fdct8SymmetricInputHasNoOddOutputs(env, x, cosBit);
    Fdct8EvenOutputsAreFdct4(env, x, cosBit);
    Fdct4ConstantInputIsDcOnly(env, m, cosBit[1..]);
    DcOnlyFromHalves(Fdct8(env, x, cosBit), Fdct4(env, m, cosBit[1..]));
  }

  lemma Fdct16ConstantInputIsDcOnly(env: Env, x: seq<int>, cosBit: seq<int>)
    requires env.Valid() && CosBitsOk(env, cosBit, 2, 6) && env.ZeroSumRotatesToZero()
    requires |x| == 16 && forall i :: 0 <= i < 16 ==> x[i] == x[0]
    ensures forall j :: 1 <= j < 16 ==> Fdct16(env, x, cosBit)[j] == 0
    ensures x[0] == 0 ==> Fdct16(env, x, cosBit) == seq(16, _ => 0)
  {
    var m := MirrorSums(x);
    assert forall i :: 0 <= i < 8 ==> m[i] == m[0];
    Fdct16SymmetricInputHasNoOddOutputs(env, x, cosBit);
    Fdct16EvenOutputsAreFdct8(env, x, cosBit);
    Fdct8ConstantInputIsDcOnly(env, m, cosBit[1..]);
    DcOnlyFromHalves(Fdct16(env, x, cosBit), Fdct8(env, m, cosBit[1..]));
  }

  /**
   * A vector whose odd positions are zero and whose even positions are a
   * vector that is zero past position 0 is itself zero past position 0.
   */
  lemma DcOnlyFromHalves(y: seq<int>, e: seq<int>)
    requires |y| == 2 * |e| && Evens(y) == e
    requires forall k :: 0 <= k < |e| ==> y[2 * k + 1] == 0
    requires forall j :: 1 <= j < |e| ==> e[j] == 0
    ensures forall j :: 1 <= j < |y| ==> y[j] == 0
    ensures |e| > 0 && e[0] == 0 ==> y == seq(|y|, _ => 0)
  {
    forall j | 1 <= j < |y|
      ensures y[j] == 0
    {
      var k := j / 2;
      if j == 2 * k {
        assert y[j] == Evens(y)[k];
      } else {
        assert j == 2 * k + 1;
      }
    }
    if |e| > 0 && e[0] == 0 {
      assert y[0] == Evens(y)[0];
    }
  }

  // ------------------------------------------------------- symmetric input

  /** The second half of `b` is all zero. */
  predicate UpperHalfZero(b: seq<int>)
  {
    forall j :: |b| / 2 <= j < |b| ==> b[j] == 0
  }

  /** A mirror-symmetric input has zero differences after the first stage. */
  lemma MirrorDifferencesOfSymmetricVanish(x: seq<int>, r: seq<int>)
    requires IsMirrorButterfly(x, r)
    requires forall i :: 0 <= i < |x| ==> x[i] == x[|x| - 1 - i]
    ensures UpperHalfZero(r)
  {
    forall j | |x| / 2 <= j < |x|
      ensures r[j] == 0
    {
      assert x[j] == x[|x| - 1 - j];
    }
  }

  // The rotation and butterfly stages map a zero upper half to a zero upper
  // half, given that rotations of zeros are zero.

  lemma Fdct4Stage2KeepsUpperHalfZero(env: Env, bit: int, b: seq<int>)
    requires env.Valid() && env.CosBitOk(bit) && env.ZeroSumRotatesToZero() && |b| == 4 && UpperHalfZero(b)
    ensures UpperHalfZero(Fdct4Stage2(env, bit, b))
  {
    var cospi := env.Cospi(bit);
    RotationOfZeros(env, cospi[48], cospi[16], bit);
    RotationOfZeros(env, cospi[48], -cospi[16], bit);
  }

  lemma Fdct8Stage2KeepsUpperHalfZero(env: Env, bit: int, b: seq<int>)
    requires env.Valid() && env.CosBitOk(bit) && env.ZeroSumRotatesToZero() && |b| == 8 && UpperHalfZero(b)
    ensures UpperHalfZero(Fdct8Stage2(env, bit, b))
  {
    var cospi := env.Cospi(bit);
    RotationOfZeros(env, -cospi[32], cospi[32], bit);
    RotationOfZeros(env, cospi[32], cospi[32], bit);
  }

  lemma Fdct8Stage3KeepsUpperHalfZero(env: Env, bit: int, b: seq<int>)
    requires env.Valid() && env.CosBitOk(bit) && env.ZeroSumRotatesToZero() && |b| == 8 && UpperHalfZero(b)
    ensures UpperHalfZero(Fdct8Stage3(env, bit, b))
  {
  }

  lemma Fdct8Stage4KeepsUpperHalfZero(env: Env, bit: int, b: seq<int>)
    requires env.Valid() && env.CosBitOk(bit) && env.ZeroSumRotatesToZero() && |b| == 8 && UpperHalfZero(b)
    ensures UpperHalfZero(Fdct8Stage4(env, bit, b))
  {
    var cospi := env.Cospi(bit);
    RotationOfZeros(env, cospi[56], cospi[8], bit);
    RotationOfZeros(env, cospi[24], cospi[40], bit);
    RotationOfZeros(env, cospi[24], -cospi[40], bit);
    RotationOfZeros(env, cospi[56], -cospi[8], bit);
  }

  lemma Fdct16Stage2KeepsUpperHalfZero(env: Env, bit: int, b: seq<int>)
    requires env.Valid() && env.CosBitOk(bit) && env.ZeroSumRotatesToZero() && |b| == 16 && UpperHalfZero(b)
    ensures UpperHalfZero(Fdct16Stage2(env, bit, b))
  {
    var cospi := env.Cospi(bit);
    RotationOfZeros(env, -cospi[32], cospi[32], bit);
    RotationOfZeros(env, cospi[32], cospi[32], bit);
  }

  lemma Fdct16Stage3KeepsUpperHalfZero(env: Env, bit: int, b: seq<int>)
    requires env.Valid() && env.CosBitOk(bit) && env.ZeroSumRotatesToZero() && |b| == 16 && UpperHalfZero(b)
    ensures UpperHalfZero(Fdct16Stage3(env, bit, b))
  {
  }

  lemma Fdct16Stage4KeepsUpperHalfZero(env: Env, bit: int, b: seq<int>)
    requires env.Valid() && env.CosBitOk(bit) && env.ZeroSumRotatesToZero() && |b| == 16 && UpperHalfZero(b)
    ensures UpperHalfZero(Fdct16Stage4(env, bit, b))
  {
    var cospi := env.Cospi(bit);
    RotationOfZeros(env, -cospi[16], cospi[48], bit);
    RotationOfZeros(env, -cospi[48], -cospi[16], bit);
    RotationOfZeros(env, cospi[48], -cospi[16], bit);
    RotationOfZeros(env, cospi[16], cospi[48], bit);
  }

  lemma Fdct16Stage5KeepsUpperHalfZero(env: Env, bit: int, b: seq<int>)
    requires env.Valid() && env.CosBitOk(bit) && env.ZeroSumRotatesToZero() && |b| == 16 && UpperHalfZero(b)
    ensures UpperHalfZero(Fdct16Stage5(env, bit, b))
  {
  }

  lemma Fdct16Stage6KeepsUpperHalfZero(env: Env, bit: int, b: seq<int>)
    requires env.Valid() && env.CosBitOk(bit) && env.ZeroSumRotatesToZero() && |b| == 16 && UpperHalfZero(b)
    ensures UpperHalfZero(Fdct16Stage6(env, bit, b))
  {
    var cospi := env.Cospi(bit);
    RotationOfZeros(env, cospi[60], cospi[4], bit);
    RotationOfZeros(env, cospi[28], cospi[36], bit);
    RotationOfZeros(env, cospi[44], cospi[20], bit);
    RotationOfZeros(env, cospi[12], cospi[52], bit);
    RotationOfZeros(env, cospi[12], -cospi[52], bit);
    RotationOfZeros(env, cospi[44], -cospi[20], bit);
    RotationOfZeros(env, cospi[28], -cospi[36], bit);
    RotationOfZeros(env, cospi[60], -cospi[4], bit);
  }

  /**
   * A mirror-symmetric input, `x[i] == x[N-1-i]`, has zero odd
   * coefficients, as the even-symmetric DCT-II basis promises, for every
   * cosine table, given that rotations of zeros are zero.
   */
  lemma Fdct4SymmetricInputHasNoOddOutputs(env: Env, x: seq<int>, cosBit: seq<int>)
    requires env.Valid() && CosBitsOk(env, cosBit, 2, 2) && env.ZeroSumRotatesToZero()
    requires |x| == 4 && forall i :: 0 <= i < 4 ==> x[i] == x[3 - i]
    ensures Fdct4(env, x, cosBit)[1] == 0 && Fdct4(env, x, cosBit)[3] == 0
  {
    var t := Fdct4Buffers(env, x, cosBit);
    Fdct4Stage1IsMirrorButterfly(x);
    MirrorDifferencesOfSymmetricVanish(x, t[1]);
    Fdct4Stage2KeepsUpperHalfZero(env, cosBit[2], t[1]);
    assert t[2][2] == 0 && t[2][3] == 0;
  }

  lemma Fdct8SymmetricInputHasNoOddOutputs(env: Env, x: seq<int>, cosBit: seq<int>)
    requires env.Valid() && CosBitsOk(env, cosBit, 2, 4) && env.ZeroSumRotatesToZero()
    requires |x| == 8 && forall i :: 0 <= i < 8 ==> x[i] == x[7 - i]
    ensures forall k :: 0 <= k < 4 ==> Fdct8(env, x, cosBit)[2 * k + 1] == 0
  {
    var s1 := Fdct8Stage1(x);
    Fdct8Stage1IsMirrorButterfly(x);
    MirrorDifferencesOfSymmetricVanish(x, s1);
    var s4 := Fdct8Stage4(env, cosBit[4], Fdct8Stage3(env, cosBit[3], Fdct8Stage2(env, cosBit[2], s1)));
    Fdct8RotationStagesKeepUpperHalfZero(env, cosBit, s1);
    assert Fdct8(env, x, cosBit) == Fdct8Stage5(s4);
    Fdct8LastStageOddsFromUpperHalf(s4);
  }

  /** Stages 2 to 4 of the 8-point network keep a zero upper half zero. */
  lemma Fdct8RotationStagesKeepUpperHalfZero(env: Env, cosBit: seq<int>, s1: seq<int>)
    requires env.Valid() && CosBitsOk(env, cosBit, 2, 4) && env.ZeroSumRotatesToZero()
    requires |s1| == 8 && UpperHalfZero(s1)
    ensures UpperHalfZero(Fdct8Stage4(env, cosBit[4], Fdct8Stage3(env, cosBit[3], Fdct8Stage2(env, cosBit[2], s1))))
  {
    var s2 := Fdct8Stage2(env, cosBit[2], s1);
    Fdct8Stage2KeepsUpperHalfZero(env, cosBit[2], s1);
    var s3 := Fdct8Stage3(env, cosBit[3], s2);
    Fdct8Stage3KeepsUpperHalfZero(env, cosBit[3], s2);
    Fdct8Stage4KeepsUpperHalfZero(env, cosBit[4], s3);
  }

  /** The odd outputs of the last 8-point stage are its upper half, reordered. */
  lemma Fdct8LastStageOddsFromUpperHalf(b: seq<int>)
    requires |b| == 8 && UpperHalfZero(b)
    ensures forall k :: 0 <= k < 4 ==> Fdct8Stage5(b)[2 * k + 1] == 0
  {
  }

  lemma Fdct16SymmetricInputHasNoOddOutputs(env: Env, x: seq<int>, cosBit: seq<int>)
    requires env.Valid() && CosBitsOk(env, cosBit, 2, 6) && env.ZeroSumRotatesToZero()
    requires |x| == 16 && forall i :: 0 <= i < 16 ==> x[i] == x[15 - i]
    ensures forall k :: 0 <= k < 8 ==> Fdct16(env, x, cosBit)[2 * k + 1] == 0
  {
    var s1 := Fdct16Stage1(x);
    Fdct16Stage1IsMirrorButterfly(x);
    MirrorDifferencesOfSymmetricVanish(x, s1);
    var s4 := Fdct16Stage4(env, cosBit[4], Fdct16Stage3(env, cosBit[3], Fdct16Stage2(env, cosBit[2], s1)));
    var s6 := Fdct16Stage6(env, cosBit[6], Fdct16Stage5(env, cosBit[5], s4));
    Fdct16RotationStagesKeepUpperHalfZero(env, cosBit, s1);
    assert Fdct16(env, x, cosBit) == Fdct16Stage7(s6);
    Fdct16LastStageOddsFromUpperHalf(s6);
  }

  /** Stages 2 to 6 of the 16-point network keep a zero upper half zero. */
  lemma Fdct16RotationStagesKeepUpperHalfZero(env: Env, cosBit: seq<int>, s1: seq<int>)
    requires env.Valid() && CosBitsOk(env, cosBit, 2, 6) && env.ZeroSumRotatesToZero()
    requires |s1| == 16 && UpperHalfZero(s1)
    ensures var s4 := Fdct16Stage4(env, cosBit[4], Fdct16Stage3(env, cosBit[3], Fdct16Stage2(env, cosBit[2], s1)));
      UpperHalfZero(Fdct16Stage6(env, cosBit[6], Fdct16Stage5(env, cosBit[5], s4)))
  {
    var s2 := Fdct16Stage2(env, cosBit[2], s1);
    Fdct16Stage2KeepsUpperHalfZero(env, cosBit[2], s1);
    var s3 := Fdct16Stage3(env, cosBit[3], s2);
    Fdct16Stage3KeepsUpperHalfZero(env, cosBit[3], s2);
    var s4 := Fdct16Stage4(env, cosBit[4], s3);
    Fdct16Stage4KeepsUpperHalfZero(env, cosBit[4], s3);
    var s5 := Fdct16Stage5(env, cosBit[5], s4);
    Fdct16Stage5KeepsUpperHalfZero(env, cosBit[5], s4);
    Fdct16Stage6KeepsUpperHalfZero(env, cosBit[6], s5);
  }

  /** The odd outputs of the last 16-point stage are its upper half, reordered. */
  lemma Fdct16LastStageOddsFromUpperHalf(b: seq<int>)
    requires |b| == 16 && UpperHalfZero(b)
    ensures forall k :: 0 <= k < 8 ==> Fdct16Stage7(b)[2 * k + 1] == 0
  {
  }

  // ------------------------------------------------------------- last stage

  /** Two elements are already in bit-reversal order. */
  lemma BitReversalOrderOfPair(b: seq<int>)
    requires |b| == 2
    ensures BitReversalOrder(b) == b
  {
    assert Evens(b) == [b[0]] && Odds(b) == [b[1]];
  }

  lemma Fdct4LastStageIsBitReversalOrder(b: seq<int>)
    requires |b| == 4
    ensures Fdct4Stage3(b) == BitReversalOrder(b)
  {
    var e, o := Evens(b), Odds(b);
    assert e == [b[0], b[2]] && o == [b[1], b[3]];
    BitReversalOrderOfPair(e);
    BitReversalOrderOfPair(o);
  }

  lemma Fdct8LastStageIsBitReversalOrder(b: seq<int>)
    requires |b| == 8
    ensures Fdct8Stage5(b) == BitReversalOrder(b)
  {
    var e, o := Evens(b), Odds(b);
    assert e == [b[0], b[2], b[4], b[6]];
    assert o == [b[1], b[3], b[5], b[7]];
    Fdct4LastStageIsBitReversalOrder(e);
    Fdct4LastStageIsBitReversalOrder(o);
  }

  lemma Fdct16LastStageIsBitReversalOrder(b: seq<int>)
    requires |b| == 16
    ensures Fdct16Stage7(b) == BitReversalOrder(b)
  {
    var e, o := Evens(b), Odds(b);
    assert e == [b[0], b[2], b[4], b[6], b[8], b[10], b[12], b[14]];
    assert o == [b[1], b[3], b[5], b[7], b[9], b[11], b[13], b[15]];
    Fdct8LastStageIsBitReversalOrder(e);
    Fdct8LastStageIsBitReversalOrder(o);
  }

  /** `output[i] = step[bitrev(i)]`, so the coefficients rearrange the last rotation stage. */
  lemma Fdct4LastStageIsBitReversal(b: seq<int>)
    requires |b| == 4
    ensures forall i :: 0 <= i < 4 ==> Fdct4Stage3(b)[i] == b[BitReverse(i, 2)]
    ensures multiset(Fdct4Stage3(b)) == multiset(b)
  {
    Fdct4LastStageIsBitReversalOrder(b);
    BitReversalOrderIndex(b, 2);
    BitReversalOrderRearranges(b);
  }

  lemma Fdct8LastStageIsBitReversal(b: seq<int>)
    requires |b| == 8
    ensures forall i :: 0 <= i < 8 ==> Fdct8Stage5(b)[i] == b[BitReverse(i, 3)]
    ensures multiset(Fdct8Stage5(b)) == multiset(b)
  {
    Fdct8LastStageIsBitReversalOrder(b);
    BitReversalOrderIndex(b, 3);
    BitReversalOrderRearranges(b);
  }

  lemma Fdct16LastStageIsBitReversal(b: seq<int>)
    requires |b| == 16
    ensures forall i :: 0 <= i < 16 ==> Fdct16Stage7(b)[i] == b[BitReverse(i, 4)]
    ensures multiset(Fdct16Stage7(b)) == multiset(b)
  {
    Fdct16LastStageIsBitReversalOrder(b);
    BitReversalOrderIndex(b, 4);
    BitReversalOrderRearranges(b);
  }

  // ----------------------------------------------------------- pass-through

  lemma Fdct8Stage2PassesThrough(env: Env, bit: int, b: seq<int>)
    requires env.Valid() && env.CosBitOk(bit) && |b| == 8
    ensures Fdct8Stage2(env, bit, b)[4] == b[4] && Fdct8Stage2(env, bit, b)[7] == b[7]
  {
  }

  lemma Fdct8Stage4PassesThrough(env: Env, bit: int, b: seq<int>)
    requires env.Valid() && env.CosBitOk(bit) && |b| == 8
    ensures Fdct8Stage4(env, bit, b)[..4] == b[..4]
  {
  }

  lemma Fdct16Stage2PassesThrough(env: Env, bit: int, b: seq<int>)
    requires env.Valid() && env.CosBitOk(bit) && |b| == 16
    ensures Fdct16Stage2(env, bit, b)[8..10] == b[8..10] && Fdct16Stage2(env, bit, b)[14..] == b[14..]
  {
  }

  lemma Fdct16Stage6PassesThrough(env: Env, bit: int, b: seq<int>)
    requires env.Valid() && env.CosBitOk(bit) && |b| == 16
    ensures Fdct16Stage6(env, bit, b)[..8] == b[..8]
  {
  }

  // ---------------------------------------------------------------- nesting

  // Stage k + 1 of a network, on the lower half of the buffer, is stage k
  // of the half-size network: the nesting one stage later that the even
  // outputs follow from.

  lemma Fdct8Stage2LowerHalf(env: Env, bit: int, b: seq<int>)
    requires env.Valid() && env.CosBitOk(bit) && |b| == 8
    ensures Fdct8Stage2(env, bit, b)[..4] == Fdct4Stage1(b[..4])
  {
  }

  lemma Fdct8Stage3LowerHalf(env: Env, bit: int, b: seq<int>)
    requires env.Valid() && env.CosBitOk(bit) && |b| == 8
    ensures Fdct8Stage3(env, bit, b)[..4] == Fdct4Stage2(env, bit, b[..4])
  {
  }

  lemma Fdct16Stage2LowerHalf(env: Env, bit: int, b: seq<int>)
    requires env.Valid() && env.CosBitOk(bit) && |b| == 16
    ensures Fdct16Stage2(env, bit, b)[..8] == Fdct8Stage1(b[..8])
  {
  }

  lemma Fdct16Stage3LowerHalf(env: Env, bit: int, b: seq<int>)
    requires env.Valid() && env.CosBitOk(bit) && |b| == 16
    ensures Fdct16Stage3(env, bit, b)[..8] == Fdct8Stage2(env, bit, b[..8])
  {
  }

  lemma Fdct16Stage4LowerHalf(env: Env, bit: int, b: seq<int>)
    requires env.Valid() && env.CosBitOk(bit) && |b| == 16
    ensures Fdct16Stage4(env, bit, b)[..8] == Fdct8Stage3(env, bit, b[..8])
  {
  }

  lemma Fdct16Stage5LowerHalf(env: Env, bit: int, b: seq<int>)
    requires env.Valid() && env.CosBitOk(bit) && |b| == 16
    ensures Fdct16Stage5(env, bit, b)[..8] == Fdct8Stage4(env, bit, b[..8])
  {
  }

  /** The even positions of the last stage reorder the lower half as the half-size network does. */
  lemma Fdct8LastStageEvens(b: seq<int>)
    requires |b| == 8
    ensures Evens(Fdct8Stage5(b)) == Fdct4Stage3(b[..4])
  {
  }

  lemma Fdct16LastStageEvens(b: seq<int>)
    requires |b| == 16
    ensures Evens(Fdct16Stage7(b)) == Fdct8Stage5(b[..8])
  {
  }

  /**
   * Stages 1-4 of `vp10_fdct8_new` on indices 0..3 are the buffers of
   * `vp10_fdct4_new` on the mirror sums, one stage later; stage 4 passes
   * them through.
   */
  lemma Fdct8NestsFdct4(env: Env, x: seq<int>, cosBit: seq<int>)
    requires env.Valid() && CosBitsOk(env, cosBit, 2, 4) && |x| == 8
    ensures CosBitsOk(env, cosBit[1..], 2, 2)
    ensures var t, u := Fdct8Buffers(env, x, cosBit), Fdct4Buffers(env, MirrorSums(x), cosBit[1..]);
      t[1][..4] == u[0] && t[2][..4] == u[1] && t[3][..4] == u[2] && t[4][..4] == u[2]
  {
    var t := Fdct8Buffers(env, x, cosBit);
    assert cosBit[1..][2] == cosBit[3];
    Fdct8Stage1IsMirrorButterfly(x);
    MirrorButterflyLowerHalf(x, t[1]);
    Fdct8Stage2LowerHalf(env, cosBit[2], t[1]);
    Fdct8Stage3LowerHalf(env, cosBit[3], t[2]);
    Fdct8Stage4PassesThrough(env, cosBit[4], t[3]);
  }

  /** The even outputs of `vp10_fdct8_new` are `vp10_fdct4_new` of the mirror sums. */
  lemma Fdct8EvenOutputsAreFdct4(env: Env, x: seq<int>, cosBit: seq<int>)
    requires env.Valid() && CosBitsOk(env, cosBit, 2, 4) && |x| == 8
    ensures CosBitsOk(env, cosBit[1..], 2, 2)
    ensures Evens(Fdct8(env, x, cosBit)) == Fdct4(env, MirrorSums(x), cosBit[1..])
  {
    Fdct8NestsFdct4(env, x, cosBit);
    Fdct8LastStageEvens(Fdct8Buffers(env, x, cosBit)[4]);
  }

  /**
   * Stages 1-6 of `vp10_fdct16_new` on indices 0..7 are the buffers of
   * `vp10_fdct8_new` on the mirror sums, one stage later; stage 6 passes
   * them through.
   */
  lemma Fdct16NestsFdct8(env: Env, x: seq<int>, cosBit: seq<int>)
    requires env.Valid() && CosBitsOk(env, cosBit, 2, 6) && |x| == 16
    ensures CosBitsOk(env, cosBit[1..], 2, 4)
    ensures var t, u := Fdct16Buffers(env, x, cosBit), Fdct8Buffers(env, MirrorSums(x), cosBit[1..]);
      t[1][..8] == u[0] && t[2][..8] == u[1] && t[3][..8] == u[2] && t[4][..8] == u[3] &&
      t[5][..8] == u[4] && t[6][..8] == u[4]
  {
    var t := Fdct16Buffers(env, x, cosBit);
    assert cosBit[1..][2] == cosBit[3] && cosBit[1..][3] == cosBit[4] && cosBit[1..][4] == cosBit[5];
    Fdct16Stage1IsMirrorButterfly(x);
    MirrorButterflyLowerHalf(x, t[1]);
    Fdct16Stage2LowerHalf(env, cosBit[2], t[1]);
    Fdct16Stage3LowerHalf(env, cosBit[3], t[2]);
    Fdct16Stage4LowerHalf(env, cosBit[4], t[3]);
    Fdct16Stage5LowerHalf(env, cosBit[5], t[4]);
    Fdct16Stage6PassesThrough(env, cosBit[6], t[5]);
  }

  /** The even outputs of `vp10_fdct16_new` are `vp10_fdct8_new` of the mirror sums. */
  lemma Fdct16EvenOutputsAreFdct8(env: Env, x: seq<int>, cosBit: seq<int>)
    requires env.Valid() && CosBitsOk(env, cosBit, 2, 6) && |x| == 16
    ensures CosBitsOk(env, cosBit[1..], 2, 4)
    ensures Evens(Fdct16(env, x, cosBit)) == Fdct8(env, MirrorSums(x), cosBit[1..])
  {
    Fdct16NestsFdct8(env, x, cosBit);
    Fdct16LastStageEvens(Fdct16Buffers(env, x, cosBit)[6]);
  }

  /** Every fourth output of `vp10_fdct16_new` is `vp10_fdct4_new` of the twice-folded input. */
  lemma Fdct16QuarterOutputsAreFdct4(env: Env, x: seq<int>, cosBit: seq<int>)
    requires env.Valid() && CosBitsOk(env, cosBit, 2, 6) && |x| == 16
    ensures CosBitsOk(env, cosBit[2..], 2, 2)
    ensures Evens(Evens(Fdct16(env, x, cosBit))) == Fdct4(env, MirrorSums(MirrorSums(x)), cosBit[2..])
  {
    Fdct16EvenOutputsAreFdct8(env, x, cosBit);
    Fdct8EvenOutputsAreFdct4(env, MirrorSums(x), cosBit[1..]);
    assert cosBit[1..][1..] == cosBit[2..];
  }

  // ------------------------------------------------------- nested checks

  lemma EmbeddedFourInSix(t: seq<seq<int>>, u: seq<seq<int>>)
    requires |t| == 6 && |u| == 4
    requires forall s :: 0 <= s < 6 ==> |t[s]| == 8
    requires forall s :: 0 <= s < 4 ==> |u[s]| == 4
    requires t[1][..4] == u[0] && t[2][..4] == u[1] && t[3][..4] == u[2]
    requires t[4][..4] == u[2] && multiset(u[3]) == multiset(u[2])
    ensures Embedded(t, u)
  {
  }

  lemma EmbeddedSixInEight(t: seq<seq<int>>, u: seq<seq<int>>)
    requires |t| == 8 && |u| == 6
    requires forall s :: 0 <= s < 8 ==> |t[s]| == 16
    requires forall s :: 0 <= s < 6 ==> |u[s]| == 8
    requires t[1][..8] == u[0] && t[2][..8] == u[1] && t[3][..8] == u[2] && t[4][..8] == u[3]
    requires t[5][..8] == u[4] && t[6][..8] == u[4] && multiset(u[5]) == multiset(u[4])
    ensures Embedded(t, u)
  {
  }

  /**
   * When every check of `vp10_fdct8_new` passes, so does every check of the
   * `vp10_fdct4_new` run on the mirror sums, with `stage_range` shifted by
   * one stage.
   */
  lemma Fdct8ChecksCoverFdct4(env: Env, x: seq<int>, cosBit: seq<int>, stageRange: seq<int>)
    requires env.Valid() && CosBitsOk(env, cosBit, 2, 4) && |x| == 8 && |stageRange| >= 6
    ensures CosBitsOk(env, cosBit[1..], 2, 2)
    ensures FirstOverflow(env, Fdct8Buffers(env, x, cosBit), stageRange, 0) == Pass ==>
      FirstOverflow(env, Fdct4Buffers(env, MirrorSums(x), cosBit[1..]), stageRange[1..], 0) == Pass
  {
    Fdct8NestsFdct4(env, x, cosBit);
    var t, u := Fdct8Buffers(env, x, cosBit), Fdct4Buffers(env, MirrorSums(x), cosBit[1..]);
    Fdct4LastStageIsBitReversal(u[2]);
    EmbeddedFourInSix(t, u);
    EmbeddedRunPasses(env, t, u, stageRange);
  }

  /**
   * When every check of `vp10_fdct16_new` passes, so does every check of
   * the `vp10_fdct8_new` run on the mirror sums, with `stage_range` shifted
   * by one stage.
   */
  lemma Fdct16ChecksCoverFdct8(env: Env, x: seq<int>, cosBit: seq<int>, stageRange: seq<int>)
    requires env.Valid() && CosBitsOk(env, cosBit, 2, 6) && |x| == 16 && |stageRange| >= 8
    ensures CosBitsOk(env, cosBit[1..], 2, 4)
    ensures FirstOverflow(env, Fdct16Buffers(env, x, cosBit), stageRange, 0) == Pass ==>
      FirstOverflow(env, Fdct8Buffers(env, MirrorSums(x), cosBit[1..]), stageRange[1..], 0) == Pass
  {
    Fdct16NestsFdct8(env, x, cosBit);
    var t, u := Fdct16Buffers(env, x, cosBit), Fdct8Buffers(env, MirrorSums(x), cosBit[1..]);
    Fdct8LastStageIsBitReversal(u[4]);
    EmbeddedSixInEight(t, u);
    EmbeddedRunPasses(env, t, u, stageRange);
  }
}
