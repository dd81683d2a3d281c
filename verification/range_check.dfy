/**
 * The `range_check` instrumentation run after every stage of the forward
 * transforms. In the checking build it scans a buffer and stops the
 * transform at the first element whose magnitude needs more bits than the
 * stage's budget; in the production build it does nothing. The stop is
 * modelled as an `Overflow(stage, node)` outcome instead of a diagnostic
 * and an abort.
 */
module RangeChecking {
  import opened Txfm

  /** How a transform call ends: all checks passed, or the first failed check. */
  datatype Outcome = Pass | Overflow(stage: nat, node: nat)

  function Abs(x: int): (a: nat)
    ensures a == x || a == -x
  {
    if x < 0 then -x else x
  }

  /** The element test of the checking build: `get_max_bit(|e|) + 1` does not exceed `bit`. */
  predicate Fits(env: Env, e: int, bit: int)
  {
    env.getMaxBit(Abs(e)) + 1 <= bit
  }

  /** The first position at or after `from` whose element does not fit `bit`. */
  function FirstUnfit(env: Env, buf: seq<int>, bit: int, from: nat): (r: Option<nat>)
    requires from <= |buf|
    ensures r.Some? ==> from <= r.value < |buf| && !Fits(env, buf[r.value], bit)
    decreases |buf| - from
  {
    if from == |buf| then None
    else if !Fits(env, buf[from], bit) then Some(from)
    else FirstUnfit(env, buf, bit, from + 1)
  }

  /** The verdict of one checking-build `range_check` of `buf` after `stage`. */
  function StageCheck(env: Env, stage: nat, buf: seq<int>, bit: int): (o: Outcome)
    ensures o.Overflow? ==> o.stage == stage && o.node < |buf| && !Fits(env, buf[o.node], bit)
  {
    match FirstUnfit(env, buf, bit, 0)
    case None => Pass
    case Some(n) => Overflow(stage, n)
  }

  /**
   * The outcome of checking the buffers `trace[from..]` in execution order,
   * buffer `t` against `stageRange[t]`: the first (stage, node) that fails.
   */
  function FirstOverflow(env: Env, trace: seq<seq<int>>, stageRange: seq<int>, from: nat): (o: Outcome)
    requires from <= |trace| <= |stageRange|
    ensures o.Overflow? ==> from <= o.stage < |trace| && o.node < |trace[o.stage]|
    decreases |trace| - from
  {
    if from == |trace| then Pass
    else
      var here := StageCheck(env, from, trace[from], stageRange[from]);
      if here.Overflow? then here else FirstOverflow(env, trace, stageRange, from + 1)
  }

  /** `FirstUnfit` finds nothing exactly when all fit, and otherwise the first that does not. */
  lemma {:induction false} FirstUnfitIsFirst(env: Env, buf: seq<int>, bit: int, from: nat)
    requires from <= |buf|
    ensures FirstUnfit(env, buf, bit, from).None? <==>
      forall j :: from <= j < |buf| ==> Fits(env, buf[j], bit)
    ensures FirstUnfit(env, buf, bit, from).Some? ==>
      var n := FirstUnfit(env, buf, bit, from).value;
      from <= n < |buf| && !Fits(env, buf[n], bit) &&
      forall j :: from <= j < n ==> Fits(env, buf[j], bit)
    decreases |buf| - from
  {
    if from < |buf| && Fits(env, buf[from], bit) {
      FirstUnfitIsFirst(env, buf, bit, from + 1);
    }
  }

  /**
   * One checking-build `range_check` passes exactly when every element
   * fits, and otherwise reports `stage` and the first element that does not.
   */
  lemma StageCheckIsFirstOverflow(env: Env, stage: nat, buf: seq<int>, bit: int)
    ensures StageCheck(env, stage, buf, bit).Pass? <==> forall j :: 0 <= j < |buf| ==> Fits(env, buf[j], bit)
    ensures StageCheck(env, stage, buf, bit).Overflow? ==>
      var o := StageCheck(env, stage, buf, bit);
      o.stage == stage && o.node < |buf| && !Fits(env, buf[o.node], bit) &&
      forall j :: 0 <= j < o.node ==> Fits(env, buf[j], bit)
  {
    FirstUnfitIsFirst(env, buf, bit, 0);
  }

  /**
   * The checks of `trace[from..]` all pass exactly when every element of
   * every buffer fits its stage's budget; otherwise the reported (stage,
   * node) fails, every earlier stage passed, and every earlier node of that
   * stage fits.
   */
  lemma {:induction false} FirstOverflowIsFirst(env: Env, trace: seq<seq<int>>, stageRange: seq<int>, from: nat)
    requires from <= |trace| <= |stageRange|
    ensures FirstOverflow(env, trace, stageRange, from).Pass? <==>
      forall t, j :: from <= t < |trace| && 0 <= j < |trace[t]| ==> Fits(env, trace[t][j], stageRange[t])
    ensures FirstOverflow(env, trace, stageRange, from).Overflow? ==>
      var o := FirstOverflow(env, trace, stageRange, from);
      from <= o.stage < |trace| && o.node < |trace[o.stage]| &&
      !Fits(env, trace[o.stage][o.node], stageRange[o.stage]) &&
      (forall t, j :: from <= t < o.stage && 0 <= j < |trace[t]| ==> Fits(env, trace[t][j], stageRange[t])) &&
      (forall j :: 0 <= j < o.node ==> Fits(env, trace[o.stage][j], stageRange[o.stage]))
    decreases |trace| - from
  {
    if from < |trace| {
      StageCheckIsFirstOverflow(env, from, trace[from], stageRange[from]);
      FirstOverflowIsFirst(env, trace, stageRange, from + 1);
    }
  }

  /** Checking one more buffer after `s`: its verdict decides only if `s` passed. */
  lemma {:induction false} FirstOverflowAppend(env: Env, s: seq<seq<int>>, b: seq<int>, stageRange: seq<int>, from: nat)
    requires from <= |s| < |stageRange|
    ensures FirstOverflow(env, s + [b], stageRange, from) ==
      var earlier := FirstOverflow(env, s, stageRange, from);
      if earlier.Overflow? then earlier else StageCheck(env, |s|, b, stageRange[|s|])
    decreases |s| - from
  {
    if from < |s| {
      assert (s + [b])[from] == s[from];
      FirstOverflowAppend(env, s, b, stageRange, from + 1);
    } else {
      assert (s + [b])[from] == b;
    }
  }

  /** A failure among the first `n` buffers is the failure of the whole run. */
  lemma {:induction false} FirstOverflowOfPrefix(env: Env, trace: seq<seq<int>>, stageRange: seq<int>, n: nat)
    requires n <= |trace| <= |stageRange|
    ensures FirstOverflow(env, trace[..n], stageRange, 0).Overflow? ==>
      FirstOverflow(env, trace, stageRange, 0) == FirstOverflow(env, trace[..n], stageRange, 0)
    decreases |trace| - n
  {
    if n < |trace| {
      assert trace[..n + 1] == trace[..n] + [trace[n]];
      FirstOverflowAppend(env, trace[..n], trace[n], stageRange, 0);
      FirstOverflowOfPrefix(env, trace, stageRange, n + 1);
    } else {
      assert trace[..n] == trace;
    }
  }

  /**
   * Run `u` sits one stage later inside run `t`. Each buffer of `u` except
   * the last is the front part of the next buffer of `t`. The last one
   * rearranges the front part of the buffer `t` has at that stage.
   */
  predicate Embedded(t: seq<seq<int>>, u: seq<seq<int>>)
  {
    1 <= |u| < |t| &&
    (forall s :: 0 <= s < |u| - 1 ==> |u[s]| <= |t[s + 1]| && u[s] == t[s + 1][..|u[s]|]) &&
    |u[|u| - 1]| <= |t[|u|]| && multiset(u[|u| - 1]) == multiset(t[|u|][..|u[|u| - 1]|])
  }

  /**
   * If a run passes all its checks, so does a run embedded in it, checked
   * against the budgets shifted by one stage: every element the embedded
   * run checks was already checked at the same budget.
   */
  lemma EmbeddedRunPasses(env: Env, t: seq<seq<int>>, u: seq<seq<int>>, stageRange: seq<int>)
    requires Embedded(t, u) && |t| <= |stageRange|
    ensures FirstOverflow(env, t, stageRange, 0) == Pass ==> FirstOverflow(env, u, stageRange[1..], 0) == Pass
  {
    if FirstOverflow(env, t, stageRange, 0) == Pass {
      FirstOverflowIsFirst(env, t, stageRange, 0);
      FirstOverflowIsFirst(env, u, stageRange[1..], 0);
      forall s, j | 0 <= s < |u| && 0 <= j < |u[s]|
        ensures Fits(env, u[s][j], stageRange[1..][s])
      {
        if s < |u| - 1 {
          assert u[s][j] == t[s + 1][j];
        } else {
          var front := t[s + 1][..|u[s]|];
          assert u[s][j] in multiset(u[s]);
          assert u[s][j] in front;
          var i :| 0 <= i < |front| && front[i] == u[s][j];
          assert u[s][j] == t[s + 1][i];
        }
      }
    }
  }

  /**
   * The `range_check` macro over `buf[0..size)`: the scanning loop of the
   * checking build, or the empty body of the production build.
   */
  method RangeCheck(env: Env, checking: bool, stage: nat, buf: array<int>, size: nat, bit: int)
    returns (o: Outcome)
    requires size <= buf.Length
    ensures o == if checking then StageCheck(env, stage, buf[..size], bit) else Pass
  {
    if !checking {
      return Pass;
    }
    StageCheckIsFirstOverflow(env, stage, buf[..size], bit);
    for i := 0 to size
      invariant forall j :: 0 <= j < i ==> Fits(env, buf[j], bit)
    {
      var bufBit := env.getMaxBit(Abs(buf[i])) + 1;
      if bufBit > bit {
        return Overflow(stage, i);
      }
    }
    return Pass;
  }

  /**
   * Within budgets of at most 31 bits, every buffer that passed its checks
   * holds only values a 32-bit signed integer can represent, provided
   * `getMaxBit(v)` bounds `v` from above as a highest-bit index does
   * (`v < 2^(getMaxBit(v) + 1)`).
   */
  lemma {:induction false} PassingChecksStayInInt32(env: Env, trace: seq<seq<int>>, stageRange: seq<int>)
    requires |trace| <= |stageRange|
    requires forall v: nat :: v < Pow2(env.getMaxBit(v) + 1)
    requires forall t :: 0 <= t < |trace| ==> stageRange[t] <= 31
    requires FirstOverflow(env, trace, stageRange, 0) == Pass
    ensures forall t, j :: 0 <= t < |trace| && 0 <= j < |trace[t]| ==>
      -0x8000_0000 < trace[t][j] < 0x8000_0000
  {
    FirstOverflowIsFirst(env, trace, stageRange, 0);
    forall t, j | 0 <= t < |trace| && 0 <= j < |trace[t]|
      ensures -0x8000_0000 < trace[t][j] < 0x8000_0000
    {
      var e := trace[t][j];
      assert Fits(env, e, stageRange[t]);
      Pow2Monotone(env.getMaxBit(Abs(e)) + 1, 31);
      Pow2Of31();
    }
  }
}
