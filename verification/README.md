# Forward 1-D DCT butterflies of the VP10 encoder

This project models the forward one-dimensional integer DCT-II transforms of
`vp10/common/vp10_fwd_txfm1d.c`: `vp10_fdct4_new`, `vp10_fdct8_new` and
`vp10_fdct16_new`, together with the `range_check` instrumentation that runs
after every stage. Each transform is a fixed sequence of stages. A stage is
one of:

- exact mirror add/subtract butterflies;
- rotations through `half_btf`, with weights from the row
  `cospi_arr[cos_bit[stage] - cos_bit_min]`;
- a final reordering.

The stages alternate between the caller's `output` and a local `step` array.

The model has six modules:

- `Txfm` (`txfm.dfy`). It holds the primitives the transform takes from its
  header, `cospi_arr`, `cos_bit_min`, `half_btf` and `get_max_bit`, as an
  uninterpreted `Env` value. Every result holds for every table whose rows
  have the 64 entries `cospi[0..63]` and for every `half_btf` and
  `get_max_bit`, except where a lemma names a further assumption.
- `FdctStages` (`fdct_stages.dfy`). Each stage is a pure function on
  sequences. `FdctNBuffers` lists the buffers after stages 0 (the input)
  to the last, and `FdctN` is the output.
- `RangeChecking` (`range_check.dfy`). It holds the `range_check` loop and
  the outcome of a whole run's checks: `FirstOverflow`, the first failing
  (stage, node) in execution order.
- `FwdTxfm1d` (`fwd_txfm1d.dfy`). This is the imperative model: arrays,
  the `bf0`/`bf1` alternation, the `stage` counter and early return on a
  failed check. The `checking` flag selects the build:
  `CONFIG_COEFFICIENT_RANGE_CHECKING`, or the no-op macro. Each stage is a
  method (`RunFdctNStageK`). It calls the element writes of that stage
  (`WriteFdctNStageK`), which are proved against the stage function, and
  then `RangeCheck`. Each stage method is proved to leave the run's buffer
  for that stage and the outcome of all checks so far. A ghost sequence of
  buffers carries the bookkeeping.
- `BitReversal` (`bit_reversal.dfy`). It defines the bit-reversal
  permutation in two ways: as a reordering (even positions, then odd
  positions, recursively) and as a map on indices. It proves that the
  reordering keeps every element.
- `FdctProperties` (`fdct_properties.dfy`). It holds the structure of the
  networks: mirror butterflies, pass-through positions, the last stage as
  bit reversal, and the recursive nesting of the even outputs. It also
  holds the matching nesting of the range checks.

## Model

| member | source | states |
|---|---|---|
| FwdTxfm1d.WriteFdct4Stage1 | vp10/common/vp10_fwd_txfm1d.c:57-60 | the 4 elements written in stage 1 are `Fdct4Stage1` of the buffer read (`input` for stage 1); only `bf1` changes |
| FwdTxfm1d.WriteFdct4Stage2 | vp10/common/vp10_fwd_txfm1d.c:68-71 | the 4 elements written in stage 2 are `Fdct4Stage2` of the buffer read; only `bf1` changes |
| FwdTxfm1d.WriteFdct4Stage3 | vp10/common/vp10_fwd_txfm1d.c:78-81 | the 4 elements written in stage 3 are `Fdct4Stage3` of the buffer read; only `bf1` changes |
| FwdTxfm1d.RunFdct4Stage1 | vp10/common/vp10_fwd_txfm1d.c:54-61 | after stage 1 the written buffer is the run's buffer 1, and the status is the first failure among the checks of stages 0..1 (Pass in the no-op build) |
| FwdTxfm1d.RunFdct4Stage2 | vp10/common/vp10_fwd_txfm1d.c:63-72 | after stage 2 the written buffer is the run's buffer 2, and the status is the first failure among the checks of stages 0..2 (Pass in the no-op build) |
| FwdTxfm1d.RunFdct4Stage3 | vp10/common/vp10_fwd_txfm1d.c:74-82 | after stage 3 the written buffer is the run's buffer 3, and the status is the first failure among the checks of stages 0..3 (Pass in the no-op build) |
| FwdTxfm1d.Fdct4New | vp10/common/vp10_fwd_txfm1d.c:42-83 | `input` is unchanged; the no-op build returns Pass; the checking build returns the first failing (stage, node) of the run, stage 0 being the input; on Pass `output` holds `Fdct4` of the input; needs `cos_bit[2..2]` to select table rows and `stage_range[0..3]` |
| FwdTxfm1d.WriteFdct8Stage1 | vp10/common/vp10_fwd_txfm1d.c:100-107 | the 8 elements written in stage 1 are `Fdct8Stage1` of the buffer read (`input` for stage 1); only `bf1` changes |
| FwdTxfm1d.WriteFdct8Stage2 | vp10/common/vp10_fwd_txfm1d.c:115-122 | the 8 elements written in stage 2 are `Fdct8Stage2` of the buffer read; only `bf1` changes |
| FwdTxfm1d.WriteFdct8Stage3 | vp10/common/vp10_fwd_txfm1d.c:130-137 | the 8 elements written in stage 3 are `Fdct8Stage3` of the buffer read; only `bf1` changes |
| FwdTxfm1d.WriteFdct8Stage4 | vp10/common/vp10_fwd_txfm1d.c:145-152 | the 8 elements written in stage 4 are `Fdct8Stage4` of the buffer read; only `bf1` changes |
| FwdTxfm1d.WriteFdct8Stage5 | vp10/common/vp10_fwd_txfm1d.c:159-166 | the 8 elements written in stage 5 are `Fdct8Stage5` of the buffer read; only `bf1` changes |
| FwdTxfm1d.RunFdct8Stage1 | vp10/common/vp10_fwd_txfm1d.c:97-108 | after stage 1 the written buffer is the run's buffer 1, and the status is the first failure among the checks of stages 0..1 (Pass in the no-op build) |
| FwdTxfm1d.RunFdct8Stage2 | vp10/common/vp10_fwd_txfm1d.c:110-123 | after stage 2 the written buffer is the run's buffer 2, and the status is the first failure among the checks of stages 0..2 (Pass in the no-op build) |
| FwdTxfm1d.RunFdct8Stage3 | vp10/common/vp10_fwd_txfm1d.c:125-138 | after stage 3 the written buffer is the run's buffer 3, and the status is the first failure among the checks of stages 0..3 (Pass in the no-op build) |
| FwdTxfm1d.RunFdct8Stage4 | vp10/common/vp10_fwd_txfm1d.c:140-153 | after stage 4 the written buffer is the run's buffer 4, and the status is the first failure among the checks of stages 0..4 (Pass in the no-op build) |
| FwdTxfm1d.RunFdct8Stage5 | vp10/common/vp10_fwd_txfm1d.c:155-167 | after stage 5 the written buffer is the run's buffer 5, and the status is the first failure among the checks of stages 0..5 (Pass in the no-op build) |
| FwdTxfm1d.Fdct8New | vp10/common/vp10_fwd_txfm1d.c:85-168 | `input` is unchanged; the no-op build returns Pass; the checking build returns the first failing (stage, node) of the run, stage 0 being the input; on Pass `output` holds `Fdct8` of the input; needs `cos_bit[2..4]` to select table rows and `stage_range[0..5]` |
| FwdTxfm1d.WriteFdct16Stage1 | vp10/common/vp10_fwd_txfm1d.c:185-200 | the 16 elements written in stage 1 are `Fdct16Stage1` of the buffer read (`input` for stage 1); only `bf1` changes |
| FwdTxfm1d.WriteFdct16Stage2 | vp10/common/vp10_fwd_txfm1d.c:208-223 | the 16 elements written in stage 2 are `Fdct16Stage2` of the buffer read; only `bf1` changes |
| FwdTxfm1d.WriteFdct16Stage3 | vp10/common/vp10_fwd_txfm1d.c:231-246 | the 16 elements written in stage 3 are `Fdct16Stage3` of the buffer read; only `bf1` changes |
| FwdTxfm1d.WriteFdct16Stage4 | vp10/common/vp10_fwd_txfm1d.c:254-269 | the 16 elements written in stage 4 are `Fdct16Stage4` of the buffer read; only `bf1` changes |
| FwdTxfm1d.WriteFdct16Stage5 | vp10/common/vp10_fwd_txfm1d.c:277-292 | the 16 elements written in stage 5 are `Fdct16Stage5` of the buffer read; only `bf1` changes |
| FwdTxfm1d.WriteFdct16Stage6 | vp10/common/vp10_fwd_txfm1d.c:300-315 | the 16 elements written in stage 6 are `Fdct16Stage6` of the buffer read; only `bf1` changes |
| FwdTxfm1d.WriteFdct16Stage7 | vp10/common/vp10_fwd_txfm1d.c:322-337 | the 16 elements written in stage 7 are `Fdct16Stage7` of the buffer read; only `bf1` changes |
| FwdTxfm1d.RunFdct16Stage1 | vp10/common/vp10_fwd_txfm1d.c:182-201 | after stage 1 the written buffer is the run's buffer 1, and the status is the first failure among the checks of stages 0..1 (Pass in the no-op build) |
| FwdTxfm1d.RunFdct16Stage2 | vp10/common/vp10_fwd_txfm1d.c:203-224 | after stage 2 the written buffer is the run's buffer 2, and the status is the first failure among the checks of stages 0..2 (Pass in the no-op build) |
| FwdTxfm1d.RunFdct16Stage3 | vp10/common/vp10_fwd_txfm1d.c:226-247 | after stage 3 the written buffer is the run's buffer 3, and the status is the first failure among the checks of stages 0..3 (Pass in the no-op build) |
| FwdTxfm1d.RunFdct16Stage4 | vp10/common/vp10_fwd_txfm1d.c:249-270 | after stage 4 the written buffer is the run's buffer 4, and the status is the first failure among the checks of stages 0..4 (Pass in the no-op build) |
| FwdTxfm1d.RunFdct16Stage5 | vp10/common/vp10_fwd_txfm1d.c:272-293 | after stage 5 the written buffer is the run's buffer 5, and the status is the first failure among the checks of stages 0..5 (Pass in the no-op build) |
| FwdTxfm1d.RunFdct16Stage6 | vp10/common/vp10_fwd_txfm1d.c:295-316 | after stage 6 the written buffer is the run's buffer 6, and the status is the first failure among the checks of stages 0..6 (Pass in the no-op build) |
| FwdTxfm1d.RunFdct16Stage7 | vp10/common/vp10_fwd_txfm1d.c:318-338 | after stage 7 the written buffer is the run's buffer 7, and the status is the first failure among the checks of stages 0..7 (Pass in the no-op build) |
| FwdTxfm1d.Fdct16New | vp10/common/vp10_fwd_txfm1d.c:170-339 | `input` is unchanged; the no-op build returns Pass; the checking build returns the first failing (stage, node) of the run, stage 0 being the input; on Pass `output` holds `Fdct16` of the input; needs `cos_bit[2..6]` to select table rows and `stage_range[0..7]` |
| FdctStages.Fdct4Stage1 | vp10/common/vp10_fwd_txfm1d.c:57-60 | the 4 values stage 1 writes, each as the source computes it from the buffer read (the mirror butterfly); a buffer of 4 elements |
| FdctStages.Fdct4Stage2 | vp10/common/vp10_fwd_txfm1d.c:68-71 | the 4 values stage 2 writes, each as the source computes it from the buffer read (four rotations; the rotations are `half_btf` with row `cospi_arr[cos_bit[2] - cos_bit_min]`); a buffer of 4 elements |
| FdctStages.Fdct4Stage3 | vp10/common/vp10_fwd_txfm1d.c:78-81 | the 4 values stage 3 writes, each as the source computes it from the buffer read (the final reordering); a buffer of 4 elements |
| FdctStages.Fdct4Buffers | vp10/common/vp10_fwd_txfm1d.c:42-83 | the buffers after stages 0 (the input) to 3, each stage applied to the buffer before it; 4 buffers of 4 elements, the first being the input |
| FdctStages.Fdct4 | vp10/common/vp10_fwd_txfm1d.c:42-83 | the coefficients left in `output`: the buffer after stage 3; as long as the input |
| FdctStages.Fdct8Stage1 | vp10/common/vp10_fwd_txfm1d.c:100-107 | the 8 values stage 1 writes, each as the source computes it from the buffer read (the mirror butterfly); a buffer of 8 elements |
| FdctStages.Fdct8Stage2 | vp10/common/vp10_fwd_txfm1d.c:115-122 | the 8 values stage 2 writes, each as the source computes it from the buffer read (butterflies on positions 0..3, copies of 4 and 7, rotations on 5 and 6; the rotations are `half_btf` with row `cospi_arr[cos_bit[2] - cos_bit_min]`); a buffer of 8 elements |
| FdctStages.Fdct8Stage3 | vp10/common/vp10_fwd_txfm1d.c:130-137 | the 8 values stage 3 writes, each as the source computes it from the buffer read (rotations on positions 0..3, butterflies on 4..7; the rotations are `half_btf` with row `cospi_arr[cos_bit[3] - cos_bit_min]`); a buffer of 8 elements |
| FdctStages.Fdct8Stage4 | vp10/common/vp10_fwd_txfm1d.c:145-152 | the 8 values stage 4 writes, each as the source computes it from the buffer read (copies of positions 0..3, rotations on 4..7; the rotations are `half_btf` with row `cospi_arr[cos_bit[4] - cos_bit_min]`); a buffer of 8 elements |
| FdctStages.Fdct8Stage5 | vp10/common/vp10_fwd_txfm1d.c:159-166 | the 8 values stage 5 writes, each as the source computes it from the buffer read (the final reordering); a buffer of 8 elements |
| FdctStages.Fdct8Buffers | vp10/common/vp10_fwd_txfm1d.c:85-168 | the buffers after stages 0 (the input) to 5, each stage applied to the buffer before it; 6 buffers of 8 elements, the first being the input |
| FdctStages.Fdct8 | vp10/common/vp10_fwd_txfm1d.c:85-168 | the coefficients left in `output`: the buffer after stage 5; as long as the input |
| FdctStages.Fdct16Stage1 | vp10/common/vp10_fwd_txfm1d.c:185-200 | the 16 values stage 1 writes, each as the source computes it from the buffer read (the mirror butterfly); a buffer of 16 elements |
| FdctStages.Fdct16Stage2 | vp10/common/vp10_fwd_txfm1d.c:208-223 | the 16 values stage 2 writes, each as the source computes it from the buffer read (butterflies on positions 0..7, copies of 8, 9, 14 and 15, rotations on 10..13; the rotations are `half_btf` with row `cospi_arr[cos_bit[2] - cos_bit_min]`); a buffer of 16 elements |
| FdctStages.Fdct16Stage3 | vp10/common/vp10_fwd_txfm1d.c:231-246 | the 16 values stage 3 writes, each as the source computes it from the buffer read (butterflies on positions 0..3, copies of 4 and 7, rotations on 5 and 6, butterflies on 8..15; the rotations are `half_btf` with row `cospi_arr[cos_bit[3] - cos_bit_min]`); a buffer of 16 elements |
| FdctStages.Fdct16Stage4 | vp10/common/vp10_fwd_txfm1d.c:254-269 | the 16 values stage 4 writes, each as the source computes it from the buffer read (rotations on positions 0..3, butterflies on 4..7, copies of 8, 11, 12 and 15, rotations on 9, 10, 13 and 14; the rotations are `half_btf` with row `cospi_arr[cos_bit[4] - cos_bit_min]`); a buffer of 16 elements |
| FdctStages.Fdct16Stage5 | vp10/common/vp10_fwd_txfm1d.c:277-292 | the 16 values stage 5 writes, each as the source computes it from the buffer read (copies of positions 0..3, rotations on 4..7, butterflies on 8..15; the rotations are `half_btf` with row `cospi_arr[cos_bit[5] - cos_bit_min]`); a buffer of 16 elements |
| FdctStages.Fdct16Stage6 | vp10/common/vp10_fwd_txfm1d.c:300-315 | the 16 values stage 6 writes, each as the source computes it from the buffer read (copies of positions 0..7, rotations on 8..15; the rotations are `half_btf` with row `cospi_arr[cos_bit[6] - cos_bit_min]`); a buffer of 16 elements |
| FdctStages.Fdct16Stage7 | vp10/common/vp10_fwd_txfm1d.c:322-337 | the 16 values stage 7 writes, each as the source computes it from the buffer read (the final reordering); a buffer of 16 elements |
| FdctStages.Fdct16Buffers | vp10/common/vp10_fwd_txfm1d.c:170-339 | the buffers after stages 0 (the input) to 7, each stage applied to the buffer before it; 8 buffers of 16 elements, the first being the input |
| FdctStages.Fdct16 | vp10/common/vp10_fwd_txfm1d.c:170-339 | the coefficients left in `output`: the buffer after stage 7; as long as the input |
| Txfm.Env.Cospi | vp10/common/vp10_fwd_txfm1d.c:65 | the table row selected by `cos_bit[stage] - cos_bit_min` exists and has the 64 entries `cospi[0..63]` the rotations index |
| RangeChecking.FirstUnfit | vp10/common/vp10_fwd_txfm1d.c:16-18 | the first node at or after `from` whose `get_max_bit(abs(e)) + 1` exceeds `bit` (the `Fits` test), if any; a node it reports is in the buffer and does not fit |
| RangeChecking.StageCheck | vp10/common/vp10_fwd_txfm1d.c:16-28 | the verdict of one checking-build `range_check`: an overflow it reports names the checked stage and a node of the buffer that does not fit |
| RangeChecking.FirstOverflow | vp10/common/vp10_fwd_txfm1d.c:13-30 | the outcome of the checks of a run, stage by stage in execution order, stopping at the first failure; a failure it reports names a checked stage and one of that stage's nodes |
| RangeChecking.RangeCheck | vp10/common/vp10_fwd_txfm1d.c:13-39 | checking build: returns the stage and the first node `i` with `get_max_bit(abs(buf[i])) + 1 > bit`, or Pass if every element of `buf[0..size)` fits; no-op build: always Pass; the buffer is not modified |
| RangeChecking.StageCheckIsFirstOverflow | vp10/common/vp10_fwd_txfm1d.c:16-28 | one check passes exactly when every element fits its budget; otherwise it names its own stage and a node that does not fit, all earlier nodes fitting |
| RangeChecking.FirstOverflowIsFirst | vp10/common/vp10_fwd_txfm1d.c:13-30 | the checks of a run all pass exactly when every element of every stage buffer fits that stage's `stage_range` entry; otherwise the reported (stage, node) fails, every earlier stage passed, and every earlier node of that stage fits |
| RangeChecking.FirstOverflowAppend | vp10/common/vp10_fwd_txfm1d.c:16-28 | checking one more stage buffer changes the outcome only if all earlier checks passed, and then to that stage's own verdict |
| RangeChecking.FirstOverflowOfPrefix | vp10/common/vp10_fwd_txfm1d.c:27 | a failure among the first stages is the failure of the whole run: the abort makes later stages irrelevant |
| RangeChecking.PassingChecksStayInInt32 | vp10/common/vp10_fwd_txfm1d.c:17-18 | if `v < 2^(get_max_bit(v) + 1)` for every `v >= 0` (the upper-bound half of "highest set bit") and every budget is at most 31, a run whose checks all pass holds only values strictly inside the `int32_t` range |
| RangeChecking.EmbeddedRunPasses | vp10/common/vp10_fwd_txfm1d.c:13-30 | a run embedded one stage later in a run that passes all its checks passes all of its own checks against the budgets shifted by one stage |
| FdctProperties.Fdct4Stage1IsMirrorButterfly | vp10/common/vp10_fwd_txfm1d.c:57-60 | stage 1 of the 4-point network is the mirror butterfly: sums `in[i] + in[3-i]` below, differences `in[3-j] - in[j]` above |
| FdctProperties.Fdct8Stage1IsMirrorButterfly | vp10/common/vp10_fwd_txfm1d.c:100-107 | the same for 8 points: `in[i] + in[7-i]` for `i < 4`, `in[7-j] - in[j]` for `j >= 4` |
| FdctProperties.Fdct16Stage1IsMirrorButterfly | vp10/common/vp10_fwd_txfm1d.c:185-200 | the same for 16 points: `in[i] + in[15-i]` for `i < 8`, `in[15-j] - in[j]` for `j >= 8` |
| FdctProperties.Fdct4ConstantInput | vp10/common/vp10_fwd_txfm1d.c:59-60 | a constant input gives exact zeros at stage-1 positions 2 and 3 |
| FdctProperties.Fdct8ConstantInput | vp10/common/vp10_fwd_txfm1d.c:104-107 | a constant input gives exact zeros at stage-1 positions 4..7 |
| FdctProperties.Fdct16ConstantInput | vp10/common/vp10_fwd_txfm1d.c:193-200 | a constant input gives exact zeros at stage-1 positions 8..15 |
| FdctProperties.Fdct4ConstantInputIsDcOnly | vp10/common/vp10_fwd_txfm1d.c:54-82 | if a rotation whose weighted sum is zero gives zero, a constant input gives exact zeros at outputs 1..3, and an all-zero input an all-zero output |
| FdctProperties.Fdct8ConstantInputIsDcOnly | vp10/common/vp10_fwd_txfm1d.c:97-167 | under the same assumption, a constant input gives exact zeros at outputs 1..7, and an all-zero input an all-zero output |
| FdctProperties.Fdct16ConstantInputIsDcOnly | vp10/common/vp10_fwd_txfm1d.c:182-338 | under the same assumption, a constant input gives exact zeros at outputs 1..15, and an all-zero input an all-zero output |
| FdctProperties.Fdct4Stage2KeepsUpperHalfZero | vp10/common/vp10_fwd_txfm1d.c:68-71 | if the upper half of the buffer is zero, stage 2 leaves it zero (rotations of zeros are zero) |
| FdctProperties.Fdct8Stage2KeepsUpperHalfZero | vp10/common/vp10_fwd_txfm1d.c:115-122 | the same for 8-point stage 2 |
| FdctProperties.Fdct8Stage3KeepsUpperHalfZero | vp10/common/vp10_fwd_txfm1d.c:130-137 | the same for 8-point stage 3 |
| FdctProperties.Fdct8Stage4KeepsUpperHalfZero | vp10/common/vp10_fwd_txfm1d.c:145-152 | the same for 8-point stage 4 |
| FdctProperties.Fdct16Stage2KeepsUpperHalfZero | vp10/common/vp10_fwd_txfm1d.c:208-223 | the same for 16-point stage 2 |
| FdctProperties.Fdct16Stage3KeepsUpperHalfZero | vp10/common/vp10_fwd_txfm1d.c:231-246 | the same for 16-point stage 3 |
| FdctProperties.Fdct16Stage4KeepsUpperHalfZero | vp10/common/vp10_fwd_txfm1d.c:254-269 | the same for 16-point stage 4 |
| FdctProperties.Fdct16Stage5KeepsUpperHalfZero | vp10/common/vp10_fwd_txfm1d.c:277-292 | the same for 16-point stage 5 |
| FdctProperties.Fdct16Stage6KeepsUpperHalfZero | vp10/common/vp10_fwd_txfm1d.c:300-315 | the same for 16-point stage 6 |
| FdctProperties.Fdct4SymmetricInputHasNoOddOutputs | vp10/common/vp10_fwd_txfm1d.c:54-82 | if a rotation whose weighted sum is zero gives zero, a mirror-symmetric input `in[i] == in[3-i]` gives exact zeros at outputs 1 and 3 |
| FdctProperties.Fdct8SymmetricInputHasNoOddOutputs | vp10/common/vp10_fwd_txfm1d.c:97-167 | under the same assumption, a mirror-symmetric input gives exact zeros at every odd output |
| FdctProperties.Fdct16SymmetricInputHasNoOddOutputs | vp10/common/vp10_fwd_txfm1d.c:182-338 | under the same assumption, a mirror-symmetric input gives exact zeros at every odd output |
| FdctProperties.Fdct4LastStageIsBitReversalOrder | vp10/common/vp10_fwd_txfm1d.c:78-81 | the last 4-point stage equals the bit-reversal order (0,2,1,3), defined independently as evens-then-odds applied recursively |
| FdctProperties.Fdct8LastStageIsBitReversalOrder | vp10/common/vp10_fwd_txfm1d.c:159-166 | the last 8-point stage equals the bit-reversal order (0,4,2,6,1,5,3,7) |
| FdctProperties.Fdct16LastStageIsBitReversalOrder | vp10/common/vp10_fwd_txfm1d.c:322-337 | the last 16-point stage equals the bit-reversal order (0,8,4,12,...,7,15) |
| FdctProperties.Fdct4LastStageIsBitReversal | vp10/common/vp10_fwd_txfm1d.c:78-81 | `output[i] = step[bitrev_2(i)]` for every `i`, and the output is a rearrangement (same multiset) of the last rotation stage |
| FdctProperties.Fdct8LastStageIsBitReversal | vp10/common/vp10_fwd_txfm1d.c:159-166 | `output[i] = step[bitrev_3(i)]` for every `i`, and the output is a rearrangement of the last rotation stage |
| FdctProperties.Fdct16LastStageIsBitReversal | vp10/common/vp10_fwd_txfm1d.c:322-337 | `output[i] = step[bitrev_4(i)]` for every `i`, and the output is a rearrangement of the last rotation stage |
| FdctProperties.Fdct8Stage2PassesThrough | vp10/common/vp10_fwd_txfm1d.c:119-122 | stage 2 of the 8-point network copies positions 4 and 7 unchanged |
| FdctProperties.Fdct8Stage4PassesThrough | vp10/common/vp10_fwd_txfm1d.c:145-148 | stage 4 of the 8-point network copies positions 0..3 unchanged |
| FdctProperties.Fdct16Stage2PassesThrough | vp10/common/vp10_fwd_txfm1d.c:216-223 | stage 2 of the 16-point network copies positions 8, 9, 14 and 15 unchanged |
| FdctProperties.Fdct16Stage6PassesThrough | vp10/common/vp10_fwd_txfm1d.c:300-307 | stage 6 of the 16-point network copies positions 0..7 unchanged |
| FdctProperties.Fdct8Stage2LowerHalf | vp10/common/vp10_fwd_txfm1d.c:115-118 | positions 0..3 of 8-point stage 2 are 4-point stage 1 (lines 57-60) of positions 0..3 |
| FdctProperties.Fdct8Stage3LowerHalf | vp10/common/vp10_fwd_txfm1d.c:130-133 | positions 0..3 of 8-point stage 3 are 4-point stage 2 (lines 68-71) of positions 0..3, at the same precision |
| FdctProperties.Fdct16Stage2LowerHalf | vp10/common/vp10_fwd_txfm1d.c:208-215 | positions 0..7 of 16-point stage 2 are 8-point stage 1 (lines 100-107) of positions 0..7 |
| FdctProperties.Fdct16Stage3LowerHalf | vp10/common/vp10_fwd_txfm1d.c:231-238 | positions 0..7 of 16-point stage 3 are 8-point stage 2 (lines 115-122) of positions 0..7 |
| FdctProperties.Fdct16Stage4LowerHalf | vp10/common/vp10_fwd_txfm1d.c:254-261 | positions 0..7 of 16-point stage 4 are 8-point stage 3 (lines 130-137) of positions 0..7 |
| FdctProperties.Fdct16Stage5LowerHalf | vp10/common/vp10_fwd_txfm1d.c:277-284 | positions 0..7 of 16-point stage 5 are 8-point stage 4 (lines 145-152) of positions 0..7 |
| FdctProperties.Fdct8LastStageEvens | vp10/common/vp10_fwd_txfm1d.c:159-166 | the even positions of the last 8-point stage are the last 4-point stage (lines 78-81) of positions 0..3 |
| FdctProperties.Fdct16LastStageEvens | vp10/common/vp10_fwd_txfm1d.c:322-337 | the even positions of the last 16-point stage are the last 8-point stage (lines 159-166) of positions 0..7 |
| FdctProperties.Fdct8NestsFdct4 | vp10/common/vp10_fwd_txfm1d.c:97-153 | positions 0..3 of the 8-point buffers after stages 1, 2, 3 are the 4-point buffers after stages 0, 1, 2 on the mirror sums, and stage 4 leaves them unchanged |
| FdctProperties.Fdct8EvenOutputsAreFdct4 | vp10/common/vp10_fwd_txfm1d.c:97-167 | outputs 0,2,4,6 of `vp10_fdct8_new` are `vp10_fdct4_new` of the mirror sums `x[i] + x[7-i]`, with `cos_bit` shifted by one stage |
| FdctProperties.Fdct16NestsFdct8 | vp10/common/vp10_fwd_txfm1d.c:182-316 | positions 0..7 of the 16-point buffers after stages 1..5 are the 8-point buffers after stages 0..4 on the mirror sums, and stage 6 leaves them unchanged |
| FdctProperties.Fdct16EvenOutputsAreFdct8 | vp10/common/vp10_fwd_txfm1d.c:182-338 | the even outputs of `vp10_fdct16_new` are `vp10_fdct8_new` of the mirror sums `x[i] + x[15-i]`, with `cos_bit` shifted by one stage |
| FdctProperties.Fdct16QuarterOutputsAreFdct4 | vp10/common/vp10_fwd_txfm1d.c:182-338 | outputs 0,4,8,12 of `vp10_fdct16_new` are `vp10_fdct4_new` of the mirror sums of the mirror sums, with `cos_bit` shifted by two stages |
| FdctProperties.Fdct8ChecksCoverFdct4 | vp10/common/vp10_fwd_txfm1d.c:94-167 | if every `range_check` of `vp10_fdct8_new` passes, every check of `vp10_fdct4_new` on the mirror sums passes with `stage_range` shifted by one stage |
| FdctProperties.Fdct16ChecksCoverFdct8 | vp10/common/vp10_fwd_txfm1d.c:179-338 | if every `range_check` of `vp10_fdct16_new` passes, every check of `vp10_fdct8_new` on the mirror sums passes with `stage_range` shifted by one stage |

## Left out

- `half_btf`, the contents of `cospi_arr`, `cos_bit_min` and `get_max_bit`
  are declared in a header that is not part of this model. They are
  uninterpreted fields of `Txfm.Env`. Every transform member requires
  `env.Valid()`, that each row of the table has the 64 entries
  `cospi[0..63]`, and that each `cos_bit` used selects a row.
  `PassingChecksStayInInt32` also assumes `v < 2^(get_max_bit(v) + 1)`, the
  upper-bound half of "highest set bit". The constant-input and
  symmetric-input lemmas also assume that `half_btf` gives zero when
  `w0 * in0 + w1 * in1` is zero, as a rounding shift of that sum does.
- The `printf` diagnostics and the `assert(0, ...)` call of the checking
  build (lines 19-27), which is meant to stop the transform, are modelled
  as an early return of `Overflow(stage, node)`. Neither the printed input
  vector nor process termination is modelled.
- The two builds are a run-time `checking` parameter, not a compile-time
  macro.
- `int32_t` arithmetic: all values are unbounded integers, so wrap-around
  on overflow is not modelled. `PassingChecksStayInInt32` states when a run
  cannot overflow.
- Closeness to the real-valued DCT-II and linearity up to rounding are not
  modelled. Both need the rounding of `half_btf` and real cosines.
- FwdTxfm1d.Fdct4New, FwdTxfm1d.Fdct8New, FwdTxfm1d.Fdct16New: when a check
  fails, the contents of `output` are not specified. Line 27 is meant to
  abort there.
- FwdTxfm1d.WriteFdct4Stage1 and the other `WriteFdctNStageK` methods read
  every element of the source buffer before writing any. The C statements
  interleave reads and writes, but they read one array and write the other,
  and the methods require the two to be distinct, so the result is the
  same. Aliasing of `input` and `output` by the caller is excluded by
  `input != output`.

## Notes on the code

- Budget test. Lines 17-18 pass an element `e` when
  `get_max_bit(abs(e)) + 1 <= stage_range[stage]`. No sign bit is added,
  so `PassingChecksStayInInt32` needs budgets of at most 31: a magnitude
  of `2^31` passes a budget of 32.
- Stopping on a failed check. Line 27 calls `assert` with two arguments.
  The one-parameter `assert` of `<assert.h>` cannot be called that way, and
  under `NDEBUG` an `assert` would not stop the call at all. The model
  follows the evident intent, that the transform stops at the first failed
  check.
- 4-point order. Lines 78-81 write the order (0,2,1,3), which exchanges
  positions 1 and 2.
