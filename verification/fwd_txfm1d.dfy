/**
 * The forward 1-D DCT-II transforms as the source runs them: every stage
 * writes its buffer element by element, alternating between the caller's
 * `output` and a local `step` array (`bf1` is the buffer being written,
 * `bf0` the one read), and `range_check` runs after every stage. The
 * `checking` flag selects the build: with it, the first failed check stops
 * the call and is returned; without it, every check is empty.
 *
 * Each stage is a method of its own (its element writes, grouped in a
 * method proved to produce the stage's function of the buffer it reads,
 * then the check), proved to leave the run's buffer for that stage and
 * the outcome of the checks so far.
 */
module FwdTxfm1d {
  import opened Txfm
  import opened RangeChecking
  import opened FdctStages

  // Helpers: an array equals the literal sequence of its elements.

  /** An array of 4 elements, as the sequence of its elements. */
  lemma ArrayElements4(a: array<int>)
    requires a.Length == 4
    ensures a[..] == [a[0], a[1], a[2], a[3]]
  {
  }

  /** An array of 8 elements, as the sequence of its elements. */
  lemma ArrayElements8(a: array<int>)
    requires a.Length == 8
    ensures a[..] == [a[0], a[1], a[2], a[3], a[4], a[5], a[6], a[7]]
  {
  }

  /** An array of 16 elements, as the sequence of its elements. */
  lemma ArrayElements16(a: array<int>)
    requires a.Length == 16
    ensures a[..] == [a[0], a[1], a[2], a[3], a[4], a[5], a[6], a[7],
                      a[8], a[9], a[10], a[11], a[12], a[13], a[14], a[15]]
  {
  }

  // ------------------------------------------------------------ 4 points

  /**
   * The element writes of stage 1 of `vp10_fdct4_new`. Every element is
   * read before any is written; the arrays are distinct, so this is the
   * order of the source's statements in effect.
   */
  method WriteFdct4Stage1(input: array<int>, bf1: array<int>)
    requires input.Length == 4 && bf1.Length == 4 && input != bf1
    modifies bf1
    ensures bf1[..] == Fdct4Stage1(old(input[..]))
  {
    ArrayElements4(input);
    var v0 := input[0] + input[3];
    var v1 := input[1] + input[2];
    var v2 := -input[2] + input[1];
    var v3 := -input[3] + input[0];
    assert [v0, v1, v2, v3] == Fdct4Stage1(input[..]);
    bf1[0] := v0;
    bf1[1] := v1;
    bf1[2] := v2;
    bf1[3] := v3;
    ArrayElements4(bf1);
  }

  /**
   * The element writes of stage 2 of `vp10_fdct4_new`. Every element is
   * read before any is written; the arrays are distinct, so this is the
   * order of the source's statements in effect.
   */
  method WriteFdct4Stage2(env: Env, bit: int, bf0: array<int>, bf1: array<int>)
    requires env.Valid() && env.CosBitOk(bit)
    requires bf0.Length == 4 && bf1.Length == 4 && bf0 != bf1
    modifies bf1
    ensures bf1[..] == Fdct4Stage2(env, bit, old(bf0[..]))
  {
    var cospi := env.Cospi(bit);
    ArrayElements4(bf0);
    var v0 := env.halfBtf(cospi[32], bf0[0], cospi[32], bf0[1], bit);
    var v1 := env.halfBtf(-cospi[32], bf0[1], cospi[32], bf0[0], bit);
    var v2 := env.halfBtf(cospi[48], bf0[2], cospi[16], bf0[3], bit);
    var v3 := env.halfBtf(cospi[48], bf0[3], -cospi[16], bf0[2], bit);
    assert [v0, v1, v2, v3] == Fdct4Stage2(env, bit, bf0[..]);
    bf1[0] := v0;
    bf1[1] := v1;
    bf1[2] := v2;
    bf1[3] := v3;
    ArrayElements4(bf1);
  }

  /**
   * The element writes of stage 3 of `vp10_fdct4_new`. Every element is
   * read before any is written; the arrays are distinct, so this is the
   * order of the source's statements in effect.
   */
  method WriteFdct4Stage3(bf0: array<int>, bf1: array<int>)
    requires bf0.Length == 4 && bf1.Length == 4 && bf0 != bf1
    modifies bf1
    ensures bf1[..] == Fdct4Stage3(old(bf0[..]))
  {
    ArrayElements4(bf0);
    var v0 := bf0[0];
    var v1 := bf0[2];
    var v2 := bf0[1];
    var v3 := bf0[3];
    assert [v0, v1, v2, v3] == Fdct4Stage3(bf0[..]);
    bf1[0] := v0;
    bf1[1] := v1;
    bf1[2] := v2;
    bf1[3] := v3;
    ArrayElements4(bf1);
  }

  /**
   * Stage 1 of `vp10_fdct4_new`: its element writes, then `range_check`
   * of the buffer written. `t` is the run's sequence of buffers.
   */
  method RunFdct4Stage1(env: Env, checking: bool, stage: nat, input: array<int>, bf1: array<int>, size: nat,
                         cosBit: seq<int>, stageRange: seq<int>, ghost t: seq<seq<int>>)
    returns (status: Outcome)
    requires env.Valid() && CosBitsOk(env, cosBit, 2, 2) && |stageRange| >= 4
    requires stage == 1 && size == 4
    requires input.Length == 4 && bf1.Length == 4 && input != bf1
    requires |t| == 4 && |t[0]| == 4 && t == Fdct4Buffers(env, t[0], cosBit) && input[..] == t[0]
    requires checking ==> FirstOverflow(env, t[..stage], stageRange, 0) == Pass
    modifies bf1
    ensures bf1[..] == t[1]
    ensures status == if checking then FirstOverflow(env, t[..stage + 1], stageRange, 0) else Pass
  {
    WriteFdct4Stage1(input, bf1);
    assert bf1[..size] == t[stage];
    status := RangeCheck(env, checking, stage, bf1, size, stageRange[stage]);
    if checking {
      assert t[..stage + 1] == t[..stage] + [t[stage]];
      FirstOverflowAppend(env, t[..stage], t[stage], stageRange, 0);
    }
  }

  /**
   * Stage 2 of `vp10_fdct4_new`: its element writes, then `range_check`
   * of the buffer written. `t` is the run's sequence of buffers.
   */
  method RunFdct4Stage2(env: Env, checking: bool, stage: nat, bf0: array<int>, bf1: array<int>, size: nat,
                         cosBit: seq<int>, stageRange: seq<int>, ghost t: seq<seq<int>>)
    returns (status: Outcome)
    requires env.Valid() && CosBitsOk(env, cosBit, 2, 2) && |stageRange| >= 4
    requires stage == 2 && size == 4
    requires bf0.Length == 4 && bf1.Length == 4 && bf0 != bf1
    requires |t| == 4 && |t[0]| == 4 && t == Fdct4Buffers(env, t[0], cosBit) && bf0[..] == t[1]
    requires checking ==> FirstOverflow(env, t[..stage], stageRange, 0) == Pass
    modifies bf1
    ensures bf1[..] == t[2]
    ensures status == if checking then FirstOverflow(env, t[..stage + 1], stageRange, 0) else Pass
  {
    WriteFdct4Stage2(env, cosBit[stage], bf0, bf1);
    assert bf1[..size] == t[stage];
    status := RangeCheck(env, checking, stage, bf1, size, stageRange[stage]);
    if checking {
      assert t[..stage + 1] == t[..stage] + [t[stage]];
      FirstOverflowAppend(env, t[..stage], t[stage], stageRange, 0);
    }
  }

  /**
   * Stage 3 of `vp10_fdct4_new`: its element writes, then `range_check`
   * of the buffer written. `t` is the run's sequence of buffers.
   */
  method RunFdct4Stage3(env: Env, checking: bool, stage: nat, bf0: array<int>, bf1: array<int>, size: nat,
                         cosBit: seq<int>, stageRange: seq<int>, ghost t: seq<seq<int>>)
    returns (status: Outcome)
    requires env.Valid() && CosBitsOk(env, cosBit, 2, 2) && |stageRange| >= 4
    requires stage == 3 && size == 4
    requires bf0.Length == 4 && bf1.Length == 4 && bf0 != bf1
    requires |t| == 4 && |t[0]| == 4 && t == Fdct4Buffers(env, t[0], cosBit) && bf0[..] == t[2]
    requires checking ==> FirstOverflow(env, t[..stage], stageRange, 0) == Pass
    modifies bf1
    ensures bf1[..] == t[3]
    ensures status == if checking then FirstOverflow(env, t[..stage + 1], stageRange, 0) else Pass
  {
    WriteFdct4Stage3(bf0, bf1);
    assert bf1[..size] == t[stage];
    status := RangeCheck(env, checking, stage, bf1, size, stageRange[stage]);
    if checking {
      assert t[..stage + 1] == t[..stage] + [t[stage]];
      FirstOverflowAppend(env, t[..stage], t[stage], stageRange, 0);
    }
  }

  /**
   * `vp10_fdct4_new` (vp10/common/vp10_fwd_txfm1d.c lines 42-83). In the checking build the call
   * stops at the first failed check and reports it; otherwise `output`
   * holds the coefficients. `input` is never written.
   */
  method Fdct4New(env: Env, input: array<int>, output: array<int>, cosBit: seq<int>, stageRange: seq<int>,
                   checking: bool)
    returns (status: Outcome)
    requires env.Valid() && CosBitsOk(env, cosBit, 2, 2) && |stageRange| >= 4
    requires input.Length == 4 && output.Length == 4 && input != output
    modifies output
    ensures unchanged(input)
    ensures status == if checking then FirstOverflow(env, Fdct4Buffers(env, old(input[..]), cosBit), stageRange, 0) else Pass
    ensures status == Pass ==> output[..] == Fdct4(env, old(input[..]), cosBit)
  {
    var size := 4;
    var stage := 0;
    var bf0: array<int>, bf1: array<int>;
    var step := new int[4];
    ghost var t := Fdct4Buffers(env, input[..], cosBit);

    // stage 0
    status := RangeCheck(env, checking, stage, input, size, stageRange[stage]);
    if checking {
      assert input[..size] == t[stage];
      assert t[..stage + 1] == t[..stage] + [t[stage]];
      FirstOverflowAppend(env, t[..stage], t[stage], stageRange, 0);
    }
    if status.Overflow? {
      FirstOverflowOfPrefix(env, t, stageRange, stage + 1);
      return;
    }

    // stage 1
    stage := stage + 1;
    bf1 := output;
    status := RunFdct4Stage1(env, checking, stage, input, bf1, size, cosBit, stageRange, t);
    if status.Overflow? {
      FirstOverflowOfPrefix(env, t, stageRange, stage + 1);
      return;
    }

    // stage 2
    stage := stage + 1;
    bf0 := output;
    bf1 := step;
    status := RunFdct4Stage2(env, checking, stage, bf0, bf1, size, cosBit, stageRange, t);
    if status.Overflow? {
      FirstOverflowOfPrefix(env, t, stageRange, stage + 1);
      return;
    }

    // stage 3
    stage := stage + 1;
    bf0 := step;
    bf1 := output;
    status := RunFdct4Stage3(env, checking, stage, bf0, bf1, size, cosBit, stageRange, t);
    if status.Overflow? {
      FirstOverflowOfPrefix(env, t, stageRange, stage + 1);
      return;
    }

    assert t[..stage + 1] == t;
  }

  // ------------------------------------------------------------ 8 points

  /**
   * The element writes of stage 1 of `vp10_fdct8_new`. Every element is
   * read before any is written; the arrays are distinct, so this is the
   * order of the source's statements in effect.
   */
  method WriteFdct8Stage1(input: array<int>, bf1: array<int>)
    requires input.Length == 8 && bf1.Length == 8 && input != bf1
    modifies bf1
    ensures bf1[..] == Fdct8Stage1(old(input[..]))
  {
    ArrayElements8(input);
    var v0 := input[0] + input[7];
    var v1 := input[1] + input[6];
    var v2 := input[2] + input[5];
    var v3 := input[3] + input[4];
    var v4 := -input[4] + input[3];
    var v5 := -input[5] + input[2];
    var v6 := -input[6] + input[1];
    var v7 := -input[7] + input[0];
    assert [v0, v1, v2, v3, v4, v5, v6, v7] == Fdct8Stage1(input[..]);
    bf1[0] := v0;
    bf1[1] := v1;
    bf1[2] := v2;
    bf1[3] := v3;
    bf1[4] := v4;
    bf1[5] := v5;
    bf1[6] := v6;
    bf1[7] := v7;
    ArrayElements8(bf1);
  }

  /**
   * The element writes of stage 2 of `vp10_fdct8_new`. Every element is
   * read before any is written; the arrays are distinct, so this is the
   * order of the source's statements in effect.
   */
  method WriteFdct8Stage2(env: Env, bit: int, bf0: array<int>, bf1: array<int>)
    requires env.Valid() && env.CosBitOk(bit)
    requires bf0.Length == 8 && bf1.Length == 8 && bf0 != bf1
    modifies bf1
    ensures bf1[..] == Fdct8Stage2(env, bit, old(bf0[..]))
  {
    var cospi := env.Cospi(bit);
    ArrayElements8(bf0);
    var v0 := bf0[0] + bf0[3];
    var v1 := bf0[1] + bf0[2];
    var v2 := -bf0[2] + bf0[1];
    var v3 := -bf0[3] + bf0[0];
    var v4 := bf0[4];
    var v5 := env.halfBtf(-cospi[32], bf0[5], cospi[32], bf0[6], bit);
    var v6 := env.halfBtf(cospi[32], bf0[6], cospi[32], bf0[5], bit);
    var v7 := bf0[7];
    assert [v0, v1, v2, v3, v4, v5, v6, v7] == Fdct8Stage2(env, bit, bf0[..]);
    bf1[0] := v0;
    bf1[1] := v1;
    bf1[2] := v2;
    bf1[3] := v3;
    bf1[4] := v4;
    bf1[5] := v5;
    bf1[6] := v6;
    bf1[7] := v7;
    ArrayElements8(bf1);
  }

  /**
   * The element writes of stage 3 of `vp10_fdct8_new`. Every element is
   * read before any is written; the arrays are distinct, so this is the
   * order of the source's statements in effect.
   */
  method WriteFdct8Stage3(env: Env, bit: int, bf0: array<int>, bf1: array<int>)
    requires env.Valid() && env.CosBitOk(bit)
    requires bf0.Length == 8 && bf1.Length == 8 && bf0 != bf1
    modifies bf1
    ensures bf1[..] == Fdct8Stage3(env, bit, old(bf0[..]))
  {
    var cospi := env.Cospi(bit);
    ArrayElements8(bf0);
    var v0 := env.halfBtf(cospi[32], bf0[0], cospi[32], bf0[1], bit);
    var v1 := env.halfBtf(-cospi[32], bf0[1], cospi[32], bf0[0], bit);
    var v2 := env.halfBtf(cospi[48], bf0[2], cospi[16], bf0[3], bit);
    var v3 := env.halfBtf(cospi[48], bf0[3], -cospi[16], bf0[2], bit);
    var v4 := bf0[4] + bf0[5];
    var v5 := -bf0[5] + bf0[4];
    var v6 := -bf0[6] + bf0[7];
    var v7 := bf0[7] + bf0[6];
    assert [v0, v1, v2, v3, v4, v5, v6, v7] == Fdct8Stage3(env, bit, bf0[..]);
    bf1[0] := v0;
    bf1[1] := v1;
    bf1[2] := v2;
    bf1[3] := v3;
    bf1[4] := v4;
    bf1[5] := v5;
    bf1[6] := v6;
    bf1[7] := v7;
    ArrayElements8(bf1);
  }

  /**
   * The element writes of stage 4 of `vp10_fdct8_new`. Every element is
   * read before any is written; the arrays are distinct, so this is the
   * order of the source's statements in effect.
   */
  method WriteFdct8Stage4(env: Env, bit: int, bf0: array<int>, bf1: array<int>)
    requires env.Valid() && env.CosBitOk(bit)
    requires bf0.Length == 8 && bf1.Length == 8 && bf0 != bf1
    modifies bf1
    ensures bf1[..] == Fdct8Stage4(env, bit, old(bf0[..]))
  {
    var cospi := env.Cospi(bit);
    ArrayElements8(bf0);
    var v0 := bf0[0];
    var v1 := bf0[1];
    var v2 := bf0[2];
    var v3 := bf0[3];
    var v4 := env.halfBtf(cospi[56], bf0[4], cospi[8], bf0[7], bit);
    var v5 := env.halfBtf(cospi[24], bf0[5], cospi[40], bf0[6], bit);
    var v6 := env.halfBtf(cospi[24], bf0[6], -cospi[40], bf0[5], bit);
    var v7 := env.halfBtf(cospi[56], bf0[7], -cospi[8], bf0[4], bit);
    assert [v0, v1, v2, v3, v4, v5, v6, v7] == Fdct8Stage4(env, bit, bf0[..]);
    bf1[0] := v0;
    bf1[1] := v1;
    bf1[2] := v2;
    bf1[3] := v3;
    bf1[4] := v4;
    bf1[5] := v5;
    bf1[6] := v6;
    bf1[7] := v7;
    ArrayElements8(bf1);
  }

  /**
   * The element writes of stage 5 of `vp10_fdct8_new`. Every element is
   * read before any is written; the arrays are distinct, so this is the
   * order of the source's statements in effect.
   */
  method WriteFdct8Stage5(bf0: array<int>, bf1: array<int>)
    requires bf0.Length == 8 && bf1.Length == 8 && bf0 != bf1
    modifies bf1
    ensures bf1[..] == Fdct8Stage5(old(bf0[..]))
  {
    ArrayElements8(bf0);
    var v0 := bf0[0];
    var v1 := bf0[4];
    var v2 := bf0[2];
    var v3 := bf0[6];
    var v4 := bf0[1];
    var v5 := bf0[5];
    var v6 := bf0[3];
    var v7 := bf0[7];
    assert [v0, v1, v2, v3, v4, v5, v6, v7] == Fdct8Stage5(bf0[..]);
    bf1[0] := v0;
    bf1[1] := v1;
    bf1[2] := v2;
    bf1[3] := v3;
    bf1[4] := v4;
    bf1[5] := v5;
    bf1[6] := v6;
    bf1[7] := v7;
    ArrayElements8(bf1);
  }

  /**
   * Stage 1 of `vp10_fdct8_new`: its element writes, then `range_check`
   * of the buffer written. `t` is the run's sequence of buffers.
   */
  method RunFdct8Stage1(env: Env, checking: bool, stage: nat, input: array<int>, bf1: array<int>, size: nat,
                         cosBit: seq<int>, stageRange: seq<int>, ghost t: seq<seq<int>>)
    returns (status: Outcome)
    requires env.Valid() && CosBitsOk(env, cosBit, 2, 4) && |stageRange| >= 6
    requires stage == 1 && size == 8
    requires input.Length == 8 && bf1.Length == 8 && input != bf1
    requires |t| == 6 && |t[0]| == 8 && t == Fdct8Buffers(env, t[0], cosBit) && input[..] == t[0]
    requires checking ==> FirstOverflow(env, t[..stage], stageRange, 0) == Pass
    modifies bf1
    ensures bf1[..] == t[1]
    ensures status == if checking then FirstOverflow(env, t[..stage + 1], stageRange, 0) else Pass
  {
    WriteFdct8Stage1(input, bf1);
    assert bf1[..size] == t[stage];
    status := RangeCheck(env, checking, stage, bf1, size, stageRange[stage]);
    if checking {
      assert t[..stage + 1] == t[..stage] + [t[stage]];
      FirstOverflowAppend(env, t[..stage], t[stage], stageRange, 0);
    }
  }

  /**
   * Stage 2 of `vp10_fdct8_new`: its element writes, then `range_check`
   * of the buffer written. `t` is the run's sequence of buffers.
   */
  method RunFdct8Stage2(env: Env, checking: bool, stage: nat, bf0: array<int>, bf1: array<int>, size: nat,
                         cosBit: seq<int>, stageRange: seq<int>, ghost t: seq<seq<int>>)
    returns (status: Outcome)
    requires env.Valid() && CosBitsOk(env, cosBit, 2, 4) && |stageRange| >= 6
    requires stage == 2 && size == 8
    requires bf0.Length == 8 && bf1.Length == 8 && bf0 != bf1
    requires |t| == 6 && |t[0]| == 8 && t == Fdct8Buffers(env, t[0], cosBit) && bf0[..] == t[1]
    requires checking ==> FirstOverflow(env, t[..stage], stageRange, 0) == Pass
    modifies bf1
    ensures bf1[..] == t[2]
    ensures status == if checking then FirstOverflow(env, t[..stage + 1], stageRange, 0) else Pass
  {
    WriteFdct8Stage2(env, cosBit[stage], bf0, bf1);
    assert bf1[..size] == t[stage];
    status := RangeCheck(env, checking, stage, bf1, size, stageRange[stage]);
    if checking {
      assert t[..stage + 1] == t[..stage] + [t[stage]];
      FirstOverflowAppend(env, t[..stage], t[stage], stageRange, 0);
    }
  }

  /**
   * Stage 3 of `vp10_fdct8_new`: its element writes, then `range_check`
   * of the buffer written. `t` is the run's sequence of buffers.
   */
  method RunFdct8Stage3(env: Env, checking: bool, stage: nat, bf0: array<int>, bf1: array<int>, size: nat,
                         cosBit: seq<int>, stageRange: seq<int>, ghost t: seq<seq<int>>)
    returns (status: Outcome)
    requires env.Valid() && CosBitsOk(env, cosBit, 2, 4) && |stageRange| >= 6
    requires stage == 3 && size == 8
    requires bf0.Length == 8 && bf1.Length == 8 && bf0 != bf1
    requires |t| == 6 && |t[0]| == 8 && t == Fdct8Buffers(env, t[0], cosBit) && bf0[..] == t[2]
    requires checking ==> FirstOverflow(env, t[..stage], stageRange, 0) == Pass
    modifies bf1
    ensures bf1[..] == t[3]
    ensures status == if checking then FirstOverflow(env, t[..stage + 1], stageRange, 0) else Pass
  {
    WriteFdct8Stage3(env, cosBit[stage], bf0, bf1);
    assert bf1[..size] == t[stage];
    status := RangeCheck(env, checking, stage, bf1, size, stageRange[stage]);
    if checking {
      assert t[..stage + 1] == t[..stage] + [t[stage]];
      FirstOverflowAppend(env, t[..stage], t[stage], stageRange, 0);
    }
  }

  /**
   * Stage 4 of `vp10_fdct8_new`: its element writes, then `range_check`
   * of the buffer written. `t` is the run's sequence of buffers.
   */
  method RunFdct8Stage4(env: Env, checking: bool, stage: nat, bf0: array<int>, bf1: array<int>, size: nat,
                         cosBit: seq<int>, stageRange: seq<int>, ghost t: seq<seq<int>>)
    returns (status: Outcome)
    requires env.Valid() && CosBitsOk(env, cosBit, 2, 4) && |stageRange| >= 6
    requires stage == 4 && size == 8
    requires bf0.Length == 8 && bf1.Length == 8 && bf0 != bf1
    requires |t| == 6 && |t[0]| == 8 && t == Fdct8Buffers(env, t[0], cosBit) && bf0[..] == t[3]
    requires checking ==> FirstOverflow(env, t[..stage], stageRange, 0) == Pass
    modifies bf1
    ensures bf1[..] == t[4]
    ensures status == if checking then FirstOverflow(env, t[..stage + 1], stageRange, 0) else Pass
  {
    WriteFdct8Stage4(env, cosBit[stage], bf0, bf1);
    assert bf1[..size] == t[stage];
    status := RangeCheck(env, checking, stage, bf1, size, stageRange[stage]);
    if checking {
      assert t[..stage + 1] == t[..stage] + [t[stage]];
      FirstOverflowAppend(env, t[..stage], t[stage], stageRange, 0);
    }
  }

  /**
   * Stage 5 of `vp10_fdct8_new`: its element writes, then `range_check`
   * of the buffer written. `t` is the run's sequence of buffers.
   */
  method RunFdct8Stage5(env: Env, checking: bool, stage: nat, bf0: array<int>, bf1: array<int>, size: nat,
                         cosBit: seq<int>, stageRange: seq<int>, ghost t: seq<seq<int>>)
    returns (status: Outcome)
    requires env.Valid() && CosBitsOk(env, cosBit, 2, 4) && |stageRange| >= 6
    requires stage == 5 && size == 8
    requires bf0.Length == 8 && bf1.Length == 8 && bf0 != bf1
    requires |t| == 6 && |t[0]| == 8 && t == Fdct8Buffers(env, t[0], cosBit) && bf0[..] == t[4]
    requires checking ==> FirstOverflow(env, t[..stage], stageRange, 0) == Pass
    modifies bf1
    ensures bf1[..] == t[5]
    ensures status == if checking then FirstOverflow(env, t[..stage + 1], stageRange, 0) else Pass
  {
    WriteFdct8Stage5(bf0, bf1);
    assert bf1[..size] == t[stage];
    status := RangeCheck(env, checking, stage, bf1, size, stageRange[stage]);
    if checking {
      assert t[..stage + 1] == t[..stage] + [t[stage]];
      FirstOverflowAppend(env, t[..stage], t[stage], stageRange, 0);
    }
  }

  /**
   * `vp10_fdct8_new` (lines 85-168). In the checking build the call
   * stops at the first failed check and reports it; otherwise `output`
   * holds the coefficients. `input` is never written.
   */
  method Fdct8New(env: Env, input: array<int>, output: array<int>, cosBit: seq<int>, stageRange: seq<int>,
                   checking: bool)
    returns (status: Outcome)
    requires env.Valid() && CosBitsOk(env, cosBit, 2, 4) && |stageRange| >= 6
    requires input.Length == 8 && output.Length == 8 && input != output
    modifies output
    ensures unchanged(input)
    ensures status == if checking then FirstOverflow(env, Fdct8Buffers(env, old(input[..]), cosBit), stageRange, 0) else Pass
    ensures status == Pass ==> output[..] == Fdct8(env, old(input[..]), cosBit)
  {
    var size := 8;
    var stage := 0;
    var bf0: array<int>, bf1: array<int>;
    var step := new int[8];
    ghost var t := Fdct8Buffers(env, input[..], cosBit);

    // stage 0
    status := RangeCheck(env, checking, stage, input, size, stageRange[stage]);
    if checking {
      assert input[..size] == t[stage];
      assert t[..stage + 1] == t[..stage] + [t[stage]];
      FirstOverflowAppend(env, t[..stage], t[stage], stageRange, 0);
    }
    if status.Overflow? {
      FirstOverflowOfPrefix(env, t, stageRange, stage + 1);
      return;
    }

    // stage 1
    stage := stage + 1;
    bf1 := output;
    status := RunFdct8Stage1(env, checking, stage, input, bf1, size, cosBit, stageRange, t);
    if status.Overflow? {
      FirstOverflowOfPrefix(env, t, stageRange, stage + 1);
      return;
    }

    // stage 2
    stage := stage + 1;
    bf0 := output;
    bf1 := step;
    status := RunFdct8Stage2(env, checking, stage, bf0, bf1, size, cosBit, stageRange, t);
    if status.Overflow? {
      FirstOverflowOfPrefix(env, t, stageRange, stage + 1);
      return;
    }

    // stage 3
    stage := stage + 1;
    bf0 := step;
    bf1 := output;
    status := RunFdct8Stage3(env, checking, stage, bf0, bf1, size, cosBit, stageRange, t);
    if status.Overflow? {
      FirstOverflowOfPrefix(env, t, stageRange, stage + 1);
      return;
    }

    // stage 4
    stage := stage + 1;
    bf0 := output;
    bf1 := step;
    status := RunFdct8Stage4(env, checking, stage, bf0, bf1, size, cosBit, stageRange, t);
    if status.Overflow? {
      FirstOverflowOfPrefix(env, t, stageRange, stage + 1);
      return;
    }

    // stage 5
    stage := stage + 1;
    bf0 := step;
    bf1 := output;
    status := RunFdct8Stage5(env, checking, stage, bf0, bf1, size, cosBit, stageRange, t);
    if status.Overflow? {
      FirstOverflowOfPrefix(env, t, stageRange, stage + 1);
      return;
    }

    assert t[..stage + 1] == t;
  }

  // ------------------------------------------------------------ 16 points

  /**
   * The element writes of stage 1 of `vp10_fdct16_new`. Every element is
   * read before any is written; the arrays are distinct, so this is the
   * order of the source's statements in effect.
   */
  method WriteFdct16Stage1(input: array<int>, bf1: array<int>)
    requires input.Length == 16 && bf1.Length == 16 && input != bf1
    modifies bf1
    ensures bf1[..] == Fdct16Stage1(old(input[..]))
  {
    ArrayElements16(input);
    var v0 := input[0] + input[15];
    var v1 := input[1] + input[14];
    var v2 := input[2] + input[13];
    var v3 := input[3] + input[12];
    var v4 := input[4] + input[11];
    var v5 := input[5] + input[10];
    var v6 := input[6] + input[9];
    var v7 := input[7] + input[8];
    var v8 := -input[8] + input[7];
    var v9 := -input[9] + input[6];
    var v10 := -input[10] + input[5];
    var v11 := -input[11] + input[4];
    var v12 := -input[12] + input[3];
    var v13 := -input[13] + input[2];
    var v14 := -input[14] + input[1];
    var v15 := -input[15] + input[0];
    assert [v0, v1, v2, v3, v4, v5, v6, v7, v8, v9, v10, v11, v12, v13, v14, v15] ==
      Fdct16Stage1(input[..]);
    bf1[0] := v0;
    bf1[1] := v1;
    bf1[2] := v2;
    bf1[3] := v3;
    bf1[4] := v4;
    bf1[5] := v5;
    bf1[6] := v6;
    bf1[7] := v7;
    bf1[8] := v8;
    bf1[9] := v9;
    bf1[10] := v10;
    bf1[11] := v11;
    bf1[12] := v12;
    bf1[13] := v13;
    bf1[14] := v14;
    bf1[15] := v15;
    ArrayElements16(bf1);
  }

  /**
   * The element writes of stage 2 of `vp10_fdct16_new`. Every element is
   * read before any is written; the arrays are distinct, so this is the
   * order of the source's statements in effect.
   */
  method WriteFdct16Stage2(env: Env, bit: int, bf0: array<int>, bf1: array<int>)
    requires env.Valid() && env.CosBitOk(bit)
    requires bf0.Length == 16 && bf1.Length == 16 && bf0 != bf1
    modifies bf1
    ensures bf1[..] == Fdct16Stage2(env, bit, old(bf0[..]))
  {
    var cospi := env.Cospi(bit);
    ArrayElements16(bf0);
    var v0 := bf0[0] + bf0[7];
    var v1 := bf0[1] + bf0[6];
    var v2 := bf0[2] + bf0[5];
    var v3 := bf0[3] + bf0[4];
    var v4 := -bf0[4] + bf0[3];
    var v5 := -bf0[5] + bf0[2];
    var v6 := -bf0[6] + bf0[1];
    var v7 := -bf0[7] + bf0[0];
    var v8 := bf0[8];
    var v9 := bf0[9];
    var v10 := env.halfBtf(-cospi[32], bf0[10], cospi[32], bf0[13], bit);
    var v11 := env.halfBtf(-cospi[32], bf0[11], cospi[32], bf0[12], bit);
    var v12 := env.halfBtf(cospi[32], bf0[12], cospi[32], bf0[11], bit);
    var v13 := env.halfBtf(cospi[32], bf0[13], cospi[32], bf0[10], bit);
    var v14 := bf0[14];
    var v15 := bf0[15];
    assert [v0, v1, v2, v3, v4, v5, v6, v7, v8, v9, v10, v11, v12, v13, v14, v15] ==
      Fdct16Stage2(env, bit, bf0[..]);
    bf1[0] := v0;
    bf1[1] := v1;
    bf1[2] := v2;
    bf1[3] := v3;
    bf1[4] := v4;
    bf1[5] := v5;
    bf1[6] := v6;
    bf1[7] := v7;
    bf1[8] := v8;
    bf1[9] := v9;
    bf1[10] := v10;
    bf1[11] := v11;
    bf1[12] := v12;
    bf1[13] := v13;
    bf1[14] := v14;
    bf1[15] := v15;
    ArrayElements16(bf1);
  }

  /**
   * The element writes of stage 3 of `vp10_fdct16_new`. Every element is
   * read before any is written; the arrays are distinct, so this is the
   * order of the source's statements in effect.
   */
  method WriteFdct16Stage3(env: Env, bit: int, bf0: array<int>, bf1: array<int>)
    requires env.Valid() && env.CosBitOk(bit)
    requires bf0.Length == 16 && bf1.Length == 16 && bf0 != bf1
    modifies bf1
    ensures bf1[..] == Fdct16Stage3(env, bit, old(bf0[..]))
  {
    var cospi := env.Cospi(bit);
    ArrayElements16(bf0);
    var v0 := bf0[0] + bf0[3];
    var v1 := bf0[1] + bf0[2];
    var v2 := -bf0[2] + bf0[1];
    var v3 := -bf0[3] + bf0[0];
    var v4 := bf0[4];
    var v5 := env.halfBtf(-cospi[32], bf0[5], cospi[32], bf0[6], bit);
    var v6 := env.halfBtf(cospi[32], bf0[6], cospi[32], bf0[5], bit);
    var v7 := bf0[7];
    var v8 := bf0[8] + bf0[11];
    var v9 := bf0[9] + bf0[10];
    var v10 := -bf0[10] + bf0[9];
    var v11 := -bf0[11] + bf0[8];
    var v12 := -bf0[12] + bf0[15];
    var v13 := -bf0[13] + bf0[14];
    var v14 := bf0[14] + bf0[13];
    var v15 := bf0[15] + bf0[12];
    assert [v0, v1, v2, v3, v4, v5, v6, v7, v8, v9, v10, v11, v12, v13, v14, v15] ==
      Fdct16Stage3(env, bit, bf0[..]);
    bf1[0] := v0;
    bf1[1] := v1;
    bf1[2] := v2;
    bf1[3] := v3;
    bf1[4] := v4;
    bf1[5] := v5;
    bf1[6] := v6;
    bf1[7] := v7;
    bf1[8] := v8;
    bf1[9] := v9;
    bf1[10] := v10;
    bf1[11] := v11;
    bf1[12] := v12;
    bf1[13] := v13;
    bf1[14] := v14;
    bf1[15] := v15;
    ArrayElements16(bf1);
  }

  /**
   * The element writes of stage 4 of `vp10_fdct16_new`. Every element is
   * read before any is written; the arrays are distinct, so this is the
   * order of the source's statements in effect.
   */
  method WriteFdct16Stage4(env: Env, bit: int, bf0: array<int>, bf1: array<int>)
    requires env.Valid() && env.CosBitOk(bit)
    requires bf0.Length == 16 && bf1.Length == 16 && bf0 != bf1
    modifies bf1
    ensures bf1[..] == Fdct16Stage4(env, bit, old(bf0[..]))
  {
    var cospi := env.Cospi(bit);
    ArrayElements16(bf0);
    var v0 := env.halfBtf(cospi[32], bf0[0], cospi[32], bf0[1], bit);
    var v1 := env.halfBtf(-cospi[32], bf0[1], cospi[32], bf0[0], bit);
    var v2 := env.halfBtf(cospi[48], bf0[2], cospi[16], bf0[3], bit);
    var v3 := env.halfBtf(cospi[48], bf0[3], -cospi[16], bf0[2], bit);
    var v4 := bf0[4] + bf0[5];
    var v5 := -bf0[5] + bf0[4];
    var v6 := -bf0[6] + bf0[7];
    var v7 := bf0[7] + bf0[6];
    var v8 := bf0[8];
    var v9 := env.halfBtf(-cospi[16], bf0[9], cospi[48], bf0[14], bit);
    var v10 := env.halfBtf(-cospi[48], bf0[10], -cospi[16], bf0[13], bit);
    var v11 := bf0[11];
    var v12 := bf0[12];
    var v13 := env.halfBtf(cospi[48], bf0[13], -cospi[16], bf0[10], bit);
    var v14 := env.halfBtf(cospi[16], bf0[14], cospi[48], bf0[9], bit);
    var v15 := bf0[15];
    assert [v0, v1, v2, v3, v4, v5, v6, v7, v8, v9, v10, v11, v12, v13, v14, v15] ==
      Fdct16Stage4(env, bit, bf0[..]);
    bf1[0] := v0;
    bf1[1] := v1;
    bf1[2] := v2;
    bf1[3] := v3;
    bf1[4] := v4;
    bf1[5] := v5;
    bf1[6] := v6;
    bf1[7] := v7;
    bf1[8] := v8;
    bf1[9] := v9;
    bf1[10] := v10;
    bf1[11] := v11;
    bf1[12] := v12;
    bf1[13] := v13;
    bf1[14] := v14;
    bf1[15] := v15;
    ArrayElements16(bf1);
  }

  /**
   * The element writes of stage 5 of `vp10_fdct16_new`. Every element is
   * read before any is written; the arrays are distinct, so this is the
   * order of the source's statements in effect.
   */
  method WriteFdct16Stage5(env: Env, bit: int, bf0: array<int>, bf1: array<int>)
    requires env.Valid() && env.CosBitOk(bit)
    requires bf0.Length == 16 && bf1.Length == 16 && bf0 != bf1
    modifies bf1
    ensures bf1[..] == Fdct16Stage5(env, bit, old(bf0[..]))
  {
    var cospi := env.Cospi(bit);
    ArrayElements16(bf0);
    var v0 := bf0[0];
    var v1 := bf0[1];
    var v2 := bf0[2];
    var v3 := bf0[3];
    var v4 := env.halfBtf(cospi[56], bf0[4], cospi[8], bf0[7], bit);
    var v5 := env.halfBtf(cospi[24], bf0[5], cospi[40], bf0[6], bit);
    var v6 := env.halfBtf(cospi[24], bf0[6], -cospi[40], bf0[5], bit);
    var v7 := env.halfBtf(cospi[56], bf0[7], -cospi[8], bf0[4], bit);
    var v8 := bf0[8] + bf0[9];
    var v9 := -bf0[9] + bf0[8];
    var v10 := -bf0[10] + bf0[11];
    var v11 := bf0[11] + bf0[10];
    var v12 := bf0[12] + bf0[13];
    var v13 := -bf0[13] + bf0[12];
    var v14 := -bf0[14] + bf0[15];
    var v15 := bf0[15] + bf0[14];
    assert [v0, v1, v2, v3, v4, v5, v6, v7, v8, v9, v10, v11, v12, v13, v14, v15] ==
      Fdct16Stage5(env, bit, bf0[..]);
    bf1[0] := v0;
    bf1[1] := v1;
    bf1[2] := v2;
    bf1[3] := v3;
    bf1[4] := v4;
    bf1[5] := v5;
    bf1[6] := v6;
    bf1[7] := v7;
    bf1[8] := v8;
    bf1[9] := v9;
    bf1[10] := v10;
    bf1[11] := v11;
    bf1[12] := v12;
    bf1[13] := v13;
    bf1[14] := v14;
    bf1[15] := v15;
    ArrayElements16(bf1);
  }

  /**
   * The element writes of stage 6 of `vp10_fdct16_new`. Every element is
   * read before any is written; the arrays are distinct, so this is the
   * order of the source's statements in effect.
   */
  method WriteFdct16Stage6(env: Env, bit: int, bf0: array<int>, bf1: array<int>)
    requires env.Valid() && env.CosBitOk(bit)
    requires bf0.Length == 16 && bf1.Length == 16 && bf0 != bf1
    modifies bf1
    ensures bf1[..] == Fdct16Stage6(env, bit, old(bf0[..]))
  {
    var cospi := env.Cospi(bit);
    ArrayElements16(bf0);
    var v0 := bf0[0];
    var v1 := bf0[1];
    var v2 := bf0[2];
    var v3 := bf0[3];
    var v4 := bf0[4];
    var v5 := bf0[5];
    var v6 := bf0[6];
    var v7 := bf0[7];
    var v8 := env.halfBtf(cospi[60], bf0[8], cospi[4], bf0[15], bit);
    var v9 := env.halfBtf(cospi[28], bf0[9], cospi[36], bf0[14], bit);
    var v10 := env.halfBtf(cospi[44], bf0[10], cospi[20], bf0[13], bit);
    var v11 := env.halfBtf(cospi[12], bf0[11], cospi[52], bf0[12], bit);
    var v12 := env.halfBtf(cospi[12], bf0[12], -cospi[52], bf0[11], bit);
    var v13 := env.halfBtf(cospi[44], bf0[13], -cospi[20], bf0[10], bit);
    var v14 := env.halfBtf(cospi[28], bf0[14], -cospi[36], bf0[9], bit);
    var v15 := env.halfBtf(cospi[60], bf0[15], -cospi[4], bf0[8], bit);
    assert [v0, v1, v2, v3, v4, v5, v6, v7, v8, v9, v10, v11, v12, v13, v14, v15] ==
      Fdct16Stage6(env, bit, bf0[..]);
    bf1[0] := v0;
    bf1[1] := v1;
    bf1[2] := v2;
    bf1[3] := v3;
    bf1[4] := v4;
    bf1[5] := v5;
    bf1[6] := v6;
    bf1[7] := v7;
    bf1[8] := v8;
    bf1[9] := v9;
    bf1[10] := v10;
    bf1[11] := v11;
    bf1[12] := v12;
    bf1[13] := v13;
    bf1[14] := v14;
    bf1[15] := v15;
    ArrayElements16(bf1);
  }

  /**
   * The element writes of stage 7 of `vp10_fdct16_new`. Every element is
   * read before any is written; the arrays are distinct, so this is the
   * order of the source's statements in effect.
   */
  method WriteFdct16Stage7(bf0: array<int>, bf1: array<int>)
    requires bf0.Length == 16 && bf1.Length == 16 && bf0 != bf1
    modifies bf1
    ensures bf1[..] == Fdct16Stage7(old(bf0[..]))
  {
    ArrayElements16(bf0);
    var v0 := bf0[0];
    var v1 := bf0[8];
    var v2 := bf0[4];
    var v3 := bf0[12];
    var v4 := bf0[2];
    var v5 := bf0[10];
    var v6 := bf0[6];
    var v7 := bf0[14];
    var v8 := bf0[1];
    var v9 := bf0[9];
    var v10 := bf0[5];
    var v11 := bf0[13];
    var v12 := bf0[3];
    var v13 := bf0[11];
    var v14 := bf0[7];
    var v15 := bf0[15];
    assert [v0, v1, v2, v3, v4, v5, v6, v7, v8, v9, v10, v11, v12, v13, v14, v15] ==
      Fdct16Stage7(bf0[..]);
    bf1[0] := v0;
    bf1[1] := v1;
    bf1[2] := v2;
    bf1[3] := v3;
    bf1[4] := v4;
    bf1[5] := v5;
    bf1[6] := v6;
    bf1[7] := v7;
    bf1[8] := v8;
    bf1[9] := v9;
    bf1[10] := v10;
    bf1[11] := v11;
    bf1[12] := v12;
    bf1[13] := v13;
    bf1[14] := v14;
    bf1[15] := v15;
    ArrayElements16(bf1);
  }

  /**
   * Stage 1 of `vp10_fdct16_new`: its element writes, then `range_check`
   * of the buffer written. `t` is the run's sequence of buffers.
   */
  method RunFdct16Stage1(env: Env, checking: bool, stage: nat, input: array<int>, bf1: array<int>, size: nat,
                         cosBit: seq<int>, stageRange: seq<int>, ghost t: seq<seq<int>>)
    returns (status: Outcome)
    requires env.Valid() && CosBitsOk(env, cosBit, 2, 6) && |stageRange| >= 8
    requires stage == 1 && size == 16
    requires input.Length == 16 && bf1.Length == 16 && input != bf1
    requires |t| == 8 && |t[0]| == 16 && t == Fdct16Buffers(env, t[0], cosBit) && input[..] == t[0]
    requires checking ==> FirstOverflow(env, t[..stage], stageRange, 0) == Pass
    modifies bf1
    ensures bf1[..] == t[1]
    ensures status == if checking then FirstOverflow(env, t[..stage + 1], stageRange, 0) else Pass
  {
    WriteFdct16Stage1(input, bf1);
    assert bf1[..size] == t[stage];
    status := RangeCheck(env, checking, stage, bf1, size, stageRange[stage]);
    if checking {
      assert t[..stage + 1] == t[..stage] + [t[stage]];
      FirstOverflowAppend(env, t[..stage], t[stage], stageRange, 0);
    }
  }

  /**
   * Stage 2 of `vp10_fdct16_new`: its element writes, then `range_check`
   * of the buffer written. `t` is the run's sequence of buffers.
   */
  method RunFdct16Stage2(env: Env, checking: bool, stage: nat, bf0: array<int>, bf1: array<int>, size: nat,
                         cosBit: seq<int>, stageRange: seq<int>, ghost t: seq<seq<int>>)
    returns (status: Outcome)
    requires env.Valid() && CosBitsOk(env, cosBit, 2, 6) && |stageRange| >= 8
    requires stage == 2 && size == 16
    requires bf0.Length == 16 && bf1.Length == 16 && bf0 != bf1
    requires |t| == 8 && |t[0]| == 16 && t == Fdct16Buffers(env, t[0], cosBit) && bf0[..] == t[1]
    requires checking ==> FirstOverflow(env, t[..stage], stageRange, 0) == Pass
    modifies bf1
    ensures bf1[..] == t[2]
    ensures status == if checking then FirstOverflow(env, t[..stage + 1], stageRange, 0) else Pass
  {
    WriteFdct16Stage2(env, cosBit[stage], bf0, bf1);
    assert bf1[..size] == t[stage];
    status := RangeCheck(env, checking, stage, bf1, size, stageRange[stage]);
    if checking {
      assert t[..stage + 1] == t[..stage] + [t[stage]];
      FirstOverflowAppend(env, t[..stage], t[stage], stageRange, 0);
    }
  }

  /**
   * Stage 3 of `vp10_fdct16_new`: its element writes, then `range_check`
   * of the buffer written. `t` is the run's sequence of buffers.
   */
  method RunFdct16Stage3(env: Env, checking: bool, stage: nat, bf0: array<int>, bf1: array<int>, size: nat,
                         cosBit: seq<int>, stageRange: seq<int>, ghost t: seq<seq<int>>)
    returns (status: Outcome)
    requires env.Valid() && CosBitsOk(env, cosBit, 2, 6) && |stageRange| >= 8
    requires stage == 3 && size == 16
    requires bf0.Length == 16 && bf1.Length == 16 && bf0 != bf1
    requires |t| == 8 && |t[0]| == 16 && t == Fdct16Buffers(env, t[0], cosBit) && bf0[..] == t[2]
    requires checking ==> FirstOverflow(env, t[..stage], stageRange, 0) == Pass
    modifies bf1
    ensures bf1[..] == t[3]
    ensures status == if checking then FirstOverflow(env, t[..stage + 1], stageRange, 0) else Pass
  {
    WriteFdct16Stage3(env, cosBit[stage], bf0, bf1);
    assert bf1[..size] == t[stage];
    status := RangeCheck(env, checking, stage, bf1, size, stageRange[stage]);
    if checking {
      assert t[..stage + 1] == t[..stage] + [t[stage]];
      FirstOverflowAppend(env, t[..stage], t[stage], stageRange, 0);
    }
  }

  /**
   * Stage 4 of `vp10_fdct16_new`: its element writes, then `range_check`
   * of the buffer written. `t` is the run's sequence of buffers.
   */
  method RunFdct16Stage4(env: Env, checking: bool, stage: nat, bf0: array<int>, bf1: array<int>, size: nat,
                         cosBit: seq<int>, stageRange: seq<int>, ghost t: seq<seq<int>>)
    returns (status: Outcome)
    requires env.Valid() && CosBitsOk(env, cosBit, 2, 6) && |stageRange| >= 8
    requires stage == 4 && size == 16
    requires bf0.Length == 16 && bf1.Length == 16 && bf0 != bf1
    requires |t| == 8 && |t[0]| == 16 && t == Fdct16Buffers(env, t[0], cosBit) && bf0[..] == t[3]
    requires checking ==> FirstOverflow(env, t[..stage], stageRange, 0) == Pass
    modifies bf1
    ensures bf1[..] == t[4]
    ensures status == if checking then FirstOverflow(env, t[..stage + 1], stageRange, 0) else Pass
  {
    WriteFdct16Stage4(env, cosBit[stage], bf0, bf1);
    assert bf1[..size] == t[stage];
    status := RangeCheck(env, checking, stage, bf1, size, stageRange[stage]);
    if checking {
      assert t[..stage + 1] == t[..stage] + [t[stage]];
      FirstOverflowAppend(env, t[..stage], t[stage], stageRange, 0);
    }
  }

  /**
   * Stage 5 of `vp10_fdct16_new`: its element writes, then `range_check`
   * of the buffer written. `t` is the run's sequence of buffers.
   */
  method RunFdct16Stage5(env: Env, checking: bool, stage: nat, bf0: array<int>, bf1: array<int>, size: nat,
                         cosBit: seq<int>, stageRange: seq<int>, ghost t: seq<seq<int>>)
    returns (status: Outcome)
    requires env.Valid() && CosBitsOk(env, cosBit, 2, 6) && |stageRange| >= 8
    requires stage == 5 && size == 16
    requires bf0.Length == 16 && bf1.Length == 16 && bf0 != bf1
    requires |t| == 8 && |t[0]| == 16 && t == Fdct16Buffers(env, t[0], cosBit) && bf0[..] == t[4]
    requires checking ==> FirstOverflow(env, t[..stage], stageRange, 0) == Pass
    modifies bf1
    ensures bf1[..] == t[5]
    ensures status == if checking then FirstOverflow(env, t[..stage + 1], stageRange, 0) else Pass
  {
    WriteFdct16Stage5(env, cosBit[stage], bf0, bf1);
    assert bf1[..size] == t[stage];
    status := RangeCheck(env, checking, stage, bf1, size, stageRange[stage]);
    if checking {
      assert t[..stage + 1] == t[..stage] + [t[stage]];
      FirstOverflowAppend(env, t[..stage], t[stage], stageRange, 0);
    }
  }

  /**
   * Stage 6 of `vp10_fdct16_new`: its element writes, then `range_check`
   * of the buffer written. `t` is the run's sequence of buffers.
   */
  method RunFdct16Stage6(env: Env, checking: bool, stage: nat, bf0: array<int>, bf1: array<int>, size: nat,
                         cosBit: seq<int>, stageRange: seq<int>, ghost t: seq<seq<int>>)
    returns (status: Outcome)
    requires env.Valid() && CosBitsOk(env, cosBit, 2, 6) && |stageRange| >= 8
    requires stage == 6 && size == 16
    requires bf0.Length == 16 && bf1.Length == 16 && bf0 != bf1
    requires |t| == 8 && |t[0]| == 16 && t == Fdct16Buffers(env, t[0], cosBit) && bf0[..] == t[5]
    requires checking ==> FirstOverflow(env, t[..stage], stageRange, 0) == Pass
    modifies bf1
    ensures bf1[..] == t[6]
    ensures status == if checking then FirstOverflow(env, t[..stage + 1], stageRange, 0) else Pass
  {
    WriteFdct16Stage6(env, cosBit[stage], bf0, bf1);
    assert bf1[..size] == t[stage];
    status := RangeCheck(env, checking, stage, bf1, size, stageRange[stage]);
    if checking {
      assert t[..stage + 1] == t[..stage] + [t[stage]];
      FirstOverflowAppend(env, t[..stage], t[stage], stageRange, 0);
    }
  }

  /**
   * Stage 7 of `vp10_fdct16_new`: its element writes, then `range_check`
   * of the buffer written. `t` is the run's sequence of buffers.
   */
  method RunFdct16Stage7(env: Env, checking: bool, stage: nat, bf0: array<int>, bf1: array<int>, size: nat,
                         cosBit: seq<int>, stageRange: seq<int>, ghost t: seq<seq<int>>)
    returns (status: Outcome)
    requires env.Valid() && CosBitsOk(env, cosBit, 2, 6) && |stageRange| >= 8
    requires stage == 7 && size == 16
    requires bf0.Length == 16 && bf1.Length == 16 && bf0 != bf1
    requires |t| == 8 && |t[0]| == 16 && t == Fdct16Buffers(env, t[0], cosBit) && bf0[..] == t[6]
    requires checking ==> FirstOverflow(env, t[..stage], stageRange, 0) == Pass
    modifies bf1
    ensures bf1[..] == t[7]
    ensures status == if checking then FirstOverflow(env, t[..stage + 1], stageRange, 0) else Pass
  {
    WriteFdct16Stage7(bf0, bf1);
    assert bf1[..size] == t[stage];
    status := RangeCheck(env, checking, stage, bf1, size, stageRange[stage]);
    if checking {
      assert t[..stage + 1] == t[..stage] + [t[stage]];
      FirstOverflowAppend(env, t[..stage], t[stage], stageRange, 0);
    }
  }

  /**
   * `vp10_fdct16_new` (lines 170-339). In the checking build the call
   * stops at the first failed check and reports it; otherwise `output`
   * holds the coefficients. `input` is never written.
   */
  method Fdct16New(env: Env, input: array<int>, output: array<int>, cosBit: seq<int>, stageRange: seq<int>,
                   checking: bool)
    returns (status: Outcome)
    requires env.Valid() && CosBitsOk(env, cosBit, 2, 6) && |stageRange| >= 8
    requires input.Length == 16 && output.Length == 16 && input != output
    modifies output
    ensures unchanged(input)
    ensures status == if checking then FirstOverflow(env, Fdct16Buffers(env, old(input[..]), cosBit), stageRange, 0) else Pass
    ensures status == Pass ==> output[..] == Fdct16(env, old(input[..]), cosBit)
  {
    var size := 16;
    var stage := 0;
    var bf0: array<int>, bf1: array<int>;
    var step := new int[16];
    ghost var t := Fdct16Buffers(env, input[..], cosBit);

    // stage 0
    status := RangeCheck(env, checking, stage, input, size, stageRange[stage]);
    if checking {
      assert input[..size] == t[stage];
      assert t[..stage + 1] == t[..stage] + [t[stage]];
      FirstOverflowAppend(env, t[..stage], t[stage], stageRange, 0);
    }
    if status.Overflow? {
      FirstOverflowOfPrefix(env, t, stageRange, stage + 1);
      return;
    }

    // stage 1
    stage := stage + 1;
    bf1 := output;
    status := RunFdct16Stage1(env, checking, stage, input, bf1, size, cosBit, stageRange, t);
    if status.Overflow? {
      FirstOverflowOfPrefix(env, t, stageRange, stage + 1);
      return;
    }

    // stage 2
    stage := stage + 1;
    bf0 := output;
    bf1 := step;
    status := RunFdct16Stage2(env, checking, stage, bf0, bf1, size, cosBit, stageRange, t);
    if status.Overflow? {
      FirstOverflowOfPrefix(env, t, stageRange, stage + 1);
      return;
    }

    // stage 3
    stage := stage + 1;
    bf0 := step;
    bf1 := output;
    status := RunFdct16Stage3(env, checking, stage, bf0, bf1, size, cosBit, stageRange, t);
    if status.Overflow? {
      FirstOverflowOfPrefix(env, t, stageRange, stage + 1);
      return;
    }

    // stage 4
    stage := stage + 1;
    bf0 := output;
    bf1 := step;
    status := RunFdct16Stage4(env, checking, stage, bf0, bf1, size, cosBit, stageRange, t);
    if status.Overflow? {
      FirstOverflowOfPrefix(env, t, stageRange, stage + 1);
      return;
    }

    // stage 5
    stage := stage + 1;
    bf0 := step;
    bf1 := output;
    status := RunFdct16Stage5(env, checking, stage, bf0, bf1, size, cosBit, stageRange, t);
    if status.Overflow? {
      FirstOverflowOfPrefix(env, t, stageRange, stage + 1);
      return;
    }

    // stage 6
    stage := stage + 1;
    bf0 := output;
    bf1 := step;
    status := RunFdct16Stage6(env, checking, stage, bf0, bf1, size, cosBit, stageRange, t);
    if status.Overflow? {
      FirstOverflowOfPrefix(env, t, stageRange, stage + 1);
      return;
    }

    // stage 7
    stage := stage + 1;
    bf0 := step;
    bf1 := output;
    status := RunFdct16Stage7(env, checking, stage, bf0, bf1, size, cosBit, stageRange, t);
    if status.Overflow? {
      FirstOverflowOfPrefix(env, t, stageRange, stage + 1);
      return;
    }

    assert t[..stage + 1] == t;
  }
}
