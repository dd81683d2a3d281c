/**
 * The stages of the forward 1-D DCT-II butterfly networks for 4, 8 and 16
 * points, each as a pure function from the buffer before the stage to the
 * buffer after it. Rotation stages take the stage's precision `bit`
 * (`cos_bit[stage]`) and read the coefficient row `env.Cospi(bit)`.
 *
 * How the networks nest, and what each stage leaves unchanged, is stated
 * and proved in FdctProperties.
 */
module FdctStages {
  import opened Txfm

  /**
   * `r` is the mirror butterfly of `x`: the lower half holds the sums of
   * mirrored pairs, the upper half their differences (for an even length,
   * `r[|x|/2 + i] == x[|x|/2 - 1 - i] - x[|x|/2 + i]`).
   */
  predicate IsMirrorButterfly(x: seq<int>, r: seq<int>)
  {
    |r| == |x| &&
    (forall i :: 0 <= i < |x| / 2 ==> r[i] == x[i] + x[|x| - 1 - i]) &&
    (forall j :: |x| / 2 <= j < |x| ==> r[j] == x[|x| - 1 - j] - x[j])
  }

  /** The sums of mirrored pairs, `x[i] + x[|x|-1-i]` for `i < |x|/2`. */
  function MirrorSums(x: seq<int>): (m: seq<int>)
    ensures |m| == |x| / 2
  {
    seq(|x| / 2, i requires 0 <= i < |x| / 2 => x[i] + x[|x| - 1 - i])
  }

  // ---------------------------------------------------------------- 4 points

  function Fdct4Stage1(x: seq<int>): (r: seq<int>)
    requires |x| == 4
    ensures |r| == 4
  {
    [x[0] + x[3], x[1] + x[2], -x[2] + x[1], -x[3] + x[0]]
  }

  function Fdct4Stage2(env: Env, bit: int, b: seq<int>): (r: seq<int>)
    requires env.Valid() && env.CosBitOk(bit) && |b| == 4
    ensures |r| == 4
  {
    var cospi := env.Cospi(bit);
    [env.halfBtf(cospi[32], b[0], cospi[32], b[1], bit),
     env.halfBtf(-cospi[32], b[1], cospi[32], b[0], bit),
     env.halfBtf(cospi[48], b[2], cospi[16], b[3], bit),
     env.halfBtf(cospi[48], b[3], -cospi[16], b[2], bit)]
  }

  function Fdct4Stage3(b: seq<int>): (r: seq<int>)
    requires |b| == 4
    ensures |r| == 4
  {
    [b[0], b[2], b[1], b[3]]
  }

  /** The buffers after stages 0 (the input) to 3 of `vp10_fdct4_new`. */
  function Fdct4Buffers(env: Env, x: seq<int>, cosBit: seq<int>): (t: seq<seq<int>>)
    requires env.Valid() && CosBitsOk(env, cosBit, 2, 2) && |x| == 4
    ensures |t| == 4 && t[0] == x
    ensures forall s :: 0 <= s < |t| ==> |t[s]| == 4
  {
    var s1 := Fdct4Stage1(x);
    var s2 := Fdct4Stage2(env, cosBit[2], s1);
    var s3 := Fdct4Stage3(s2);
    [x, s1, s2, s3]
  }

  /** The coefficients `vp10_fdct4_new` leaves in `output`. */
  function Fdct4(env: Env, x: seq<int>, cosBit: seq<int>): (y: seq<int>)
    requires env.Valid() && CosBitsOk(env, cosBit, 2, 2) && |x| == 4
    ensures |y| == |x|
  {
    Fdct4Buffers(env, x, cosBit)[3]
  }

  // ---------------------------------------------------------------- 8 points

  function Fdct8Stage1(x: seq<int>): (r: seq<int>)
    requires |x| == 8
    ensures |r| == 8
  {
    [x[0] + x[7], x[1] + x[6], x[2] + x[5], x[3] + x[4],
     -x[4] + x[3], -x[5] + x[2], -x[6] + x[1], -x[7] + x[0]]
  }

  function Fdct8Stage2(env: Env, bit: int, b: seq<int>): (r: seq<int>)
    requires env.Valid() && env.CosBitOk(bit) && |b| == 8
    ensures |r| == 8
  {
    var cospi := env.Cospi(bit);
    [b[0] + b[3], b[1] + b[2], -b[2] + b[1], -b[3] + b[0],
     b[4],
     env.halfBtf(-cospi[32], b[5], cospi[32], b[6], bit),
     env.halfBtf(cospi[32], b[6], cospi[32], b[5], bit),
     b[7]]
  }

  function Fdct8Stage3(env: Env, bit: int, b: seq<int>): (r: seq<int>)
    requires env.Valid() && env.CosBitOk(bit) && |b| == 8
    ensures |r| == 8
  {
    var cospi := env.Cospi(bit);
    [env.halfBtf(cospi[32], b[0], cospi[32], b[1], bit),
     env.halfBtf(-cospi[32], b[1], cospi[32], b[0], bit),
     env.halfBtf(cospi[48], b[2], cospi[16], b[3], bit),
     env.halfBtf(cospi[48], b[3], -cospi[16], b[2], bit),
     b[4] + b[5], -b[5] + b[4], -b[6] + b[7], b[7] + b[6]]
  }

  function Fdct8Stage4(env: Env, bit: int, b: seq<int>): (r: seq<int>)
    requires env.Valid() && env.CosBitOk(bit) && |b| == 8
    ensures |r| == 8
  {
    var cospi := env.Cospi(bit);
    [b[0], b[1], b[2], b[3],
     env.halfBtf(cospi[56], b[4], cospi[8], b[7], bit),
     env.halfBtf(cospi[24], b[5], cospi[40], b[6], bit),
     env.halfBtf(cospi[24], b[6], -cospi[40], b[5], bit),
     env.halfBtf(cospi[56], b[7], -cospi[8], b[4], bit)]
  }

  function Fdct8Stage5(b: seq<int>): (r: seq<int>)
    requires |b| == 8
    ensures |r| == 8
  {
    [b[0], b[4], b[2], b[6], b[1], b[5], b[3], b[7]]
  }

  /** The buffers after stages 0 (the input) to 5 of `vp10_fdct8_new`. */
  function Fdct8Buffers(env: Env, x: seq<int>, cosBit: seq<int>): (t: seq<seq<int>>)
    requires env.Valid() && CosBitsOk(env, cosBit, 2, 4) && |x| == 8
    ensures |t| == 6 && t[0] == x
    ensures forall s :: 0 <= s < |t| ==> |t[s]| == 8
  {
    var s1 := Fdct8Stage1(x);
    var s2 := Fdct8Stage2(env, cosBit[2], s1);
    var s3 := Fdct8Stage3(env, cosBit[3], s2);
    var s4 := Fdct8Stage4(env, cosBit[4], s3);
    var s5 := Fdct8Stage5(s4);
    [x, s1, s2, s3, s4, s5]
  }

  /** The coefficients `vp10_fdct8_new` leaves in `output`. */
  function Fdct8(env: Env, x: seq<int>, cosBit: seq<int>): (y: seq<int>)
    requires env.Valid() && CosBitsOk(env, cosBit, 2, 4) && |x| == 8
    ensures |y| == |x|
  {
    Fdct8Buffers(env, x, cosBit)[5]
  }

  // --------------------------------------------------------------- 16 points

  function Fdct16Stage1(x: seq<int>): (r: seq<int>)
    requires |x| == 16
    ensures |r| == 16
  {
    [x[0] + x[15], x[1] + x[14], x[2] + x[13], x[3] + x[12],
     x[4] + x[11], x[5] + x[10], x[6] + x[9], x[7] + x[8],
     -x[8] + x[7], -x[9] + x[6], -x[10] + x[5], -x[11] + x[4],
     -x[12] + x[3], -x[13] + x[2], -x[14] + x[1], -x[15] + x[0]]
  }

  function Fdct16Stage2(env: Env, bit: int, b: seq<int>): (r: seq<int>)
    requires env.Valid() && env.CosBitOk(bit) && |b| == 16
    ensures |r| == 16
  {
    var cospi := env.Cospi(bit);
    [b[0] + b[7], b[1] + b[6], b[2] + b[5], b[3] + b[4],
     -b[4] + b[3], -b[5] + b[2], -b[6] + b[1], -b[7] + b[0],
     b[8], b[9],
     env.halfBtf(-cospi[32], b[10], cospi[32], b[13], bit),
     env.halfBtf(-cospi[32], b[11], cospi[32], b[12], bit),
     env.halfBtf(cospi[32], b[12], cospi[32], b[11], bit),
     env.halfBtf(cospi[32], b[13], cospi[32], b[10], bit),
     b[14], b[15]]
  }

  function Fdct16Stage3(env: Env, bit: int, b: seq<int>): (r: seq<int>)
    requires env.Valid() && env.CosBitOk(bit) && |b| == 16
    ensures |r| == 16
  {
    var cospi := env.Cospi(bit);
    [b[0] + b[3], b[1] + b[2], -b[2] + b[1], -b[3] + b[0],
     b[4],
     env.halfBtf(-cospi[32], b[5], cospi[32], b[6], bit),
     env.halfBtf(cospi[32], b[6], cospi[32], b[5], bit),
     b[7],
     b[8] + b[11], b[9] + b[10], -b[10] + b[9], -b[11] + b[8],
     -b[12] + b[15], -b[13] + b[14], b[14] + b[13], b[15] + b[12]]
  }

  function Fdct16Stage4(env: Env, bit: int, b: seq<int>): (r: seq<int>)
    requires env.Valid() && env.CosBitOk(bit) && |b| == 16
    ensures |r| == 16
  {
    var cospi := env.Cospi(bit);
    [env.halfBtf(cospi[32], b[0], cospi[32], b[1], bit),
     env.halfBtf(-cospi[32], b[1], cospi[32], b[0], bit),
     env.halfBtf(cospi[48], b[2], cospi[16], b[3], bit),
     env.halfBtf(cospi[48], b[3], -cospi[16], b[2], bit),
     b[4] + b[5], -b[5] + b[4], -b[6] + b[7], b[7] + b[6],
     b[8],
     env.halfBtf(-cospi[16], b[9], cospi[48], b[14], bit),
     env.halfBtf(-cospi[48], b[10], -cospi[16], b[13], bit),
     b[11], b[12],
     env.halfBtf(cospi[48], b[13], -cospi[16], b[10], bit),
     env.halfBtf(cospi[16], b[14], cospi[48], b[9], bit),
     b[15]]
  }

  function Fdct16Stage5(env: Env, bit: int, b: seq<int>): (r: seq<int>)
    requires env.Valid() && env.CosBitOk(bit) && |b| == 16
    ensures |r| == 16
  {
    var cospi := env.Cospi(bit);
    [b[0], b[1], b[2], b[3],
     env.halfBtf(cospi[56], b[4], cospi[8], b[7], bit),
     env.halfBtf(cospi[24], b[5], cospi[40], b[6], bit),
     env.halfBtf(cospi[24], b[6], -cospi[40], b[5], bit),
     env.halfBtf(cospi[56], b[7], -cospi[8], b[4], bit),
     b[8] + b[9], -b[9] + b[8], -b[10] + b[11], b[11] + b[10],
     b[12] + b[13], -b[13] + b[12], -b[14] + b[15], b[15] + b[14]]
  }

  function Fdct16Stage6(env: Env, bit: int, b: seq<int>): (r: seq<int>)
    requires env.Valid() && env.CosBitOk(bit) && |b| == 16
    ensures |r| == 16
  {
    var cospi := env.Cospi(bit);
    [b[0], b[1], b[2], b[3], b[4], b[5], b[6], b[7],
     env.halfBtf(cospi[60], b[8], cospi[4], b[15], bit),
     env.halfBtf(cospi[28], b[9], cospi[36], b[14], bit),
     env.halfBtf(cospi[44], b[10], cospi[20], b[13], bit),
     env.halfBtf(cospi[12], b[11], cospi[52], b[12], bit),
     env.halfBtf(cospi[12], b[12], -cospi[52], b[11], bit),
     env.halfBtf(cospi[44], b[13], -cospi[20], b[10], bit),
     env.halfBtf(cospi[28], b[14], -cospi[36], b[9], bit),
     env.halfBtf(cospi[60], b[15], -cospi[4], b[8], bit)]
  }

  function Fdct16Stage7(b: seq<int>): (r: seq<int>)
    requires |b| == 16
    ensures |r| == 16
  {
    [b[0], b[8], b[4], b[12], b[2], b[10], b[6], b[14],
     b[1], b[9], b[5], b[13], b[3], b[11], b[7], b[15]]
  }

  /** The buffers after stages 0 (the input) to 7 of `vp10_fdct16_new`. */
  function Fdct16Buffers(env: Env, x: seq<int>, cosBit: seq<int>): (t: seq<seq<int>>)
    requires env.Valid() && CosBitsOk(env, cosBit, 2, 6) && |x| == 16
    ensures |t| == 8 && t[0] == x
    ensures forall s :: 0 <= s < |t| ==> |t[s]| == 16
  {
    var s1 := Fdct16Stage1(x);
    var s2 := Fdct16Stage2(env, cosBit[2], s1);
    var s3 := Fdct16Stage3(env, cosBit[3], s2);
    var s4 := Fdct16Stage4(env, cosBit[4], s3);
    var s5 := Fdct16Stage5(env, cosBit[5], s4);
    var s6 := Fdct16Stage6(env, cosBit[6], s5);
    var s7 := Fdct16Stage7(s6);
    [x, s1, s2, s3, s4, s5, s6, s7]
  }

  /** The coefficients `vp10_fdct16_new` leaves in `output`. */
  function Fdct16(env: Env, x: seq<int>, cosBit: seq<int>): (y: seq<int>)
    requires env.Valid() && CosBitsOk(env, cosBit, 2, 6) && |x| == 16
    ensures |y| == |x|
  {
    Fdct16Buffers(env, x, cosBit)[7]
  }
}
