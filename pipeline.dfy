/*
 * The driver `qdq_weight_round` (block groups taken with a stride, the
 * resume marker, checkpoints, the threading of the float and quantized
 * inputs from one group to the next, the `MAX_NUM_BLOCKS` exit) and the
 * metadata post-pass of `quantize` (`scale`, `zp`, `g_idx`, and the
 * marking of layers left in floating point).
 */
module Pipeline {
  import opened Common
  import opened Config
  import opened BlockLoop
  import opened LayerWrappers


  /**
   * The block names of the group starting at `i`: `block_names[i]` alone
   * when `n_blocks == 1`, otherwise the slice `block_names[i:i + n_blocks]`.
   */
  function Group(names: seq<string>, i: nat, nBlocks: nat): (g: seq<string>)
    requires i < |names| && nBlocks > 0
    ensures g == names[i..MinNat(i + nBlocks, |names|)]
    ensures 0 < |g| <= nBlocks
  {
    if nBlocks == 1 then [names[i]] else names[i..MinNat(i + nBlocks, |names|)]
  }

  /** One `quant_block` call: the group's first index, its names, whether it is skipped, and the inputs it receives. */
  datatype GroupCall = GroupCall(start: nat, names: seq<string>, skip: bool, input: Tensor, qInput: Option<Tensor>)

  /**
   * The driver's variables: the float input and the quantized input the
   * next group receives, the calls made so far, the checkpoint markers
   * written so far, and the error that ended the walk, if any.
   */
  datatype Drive = Drive(input: Tensor, qInput: Option<Tensor>, calls: seq<GroupCall>, checkpoints: seq<nat>, failure: Option<Error>)

  /** Where the walk has got to: one stride past the last call's start. */
  function WalkEnd(d: Drive, nBlocks: nat): nat
  {
    if d.calls == [] then 0 else d.calls[|d.calls| - 1].start + nBlocks
  }

  /** The call the walk makes next, from where it has got to. */
  function NextCall(d: Drive, names: seq<string>, nBlocks: nat, pre: int): GroupCall
    requires nBlocks > 0 && WalkEnd(d, nBlocks) < |names|
  {
    var i := WalkEnd(d, nBlocks);
    GroupCall(i, Group(names, i, nBlocks), i + 1 <= pre, d.input, d.qInput)
  }

  /** The driver after the next call has returned `res`. */
  function After(d: Drive, call: GroupCall, res: BlockResult, save: bool): Drive
  {
    var marks := if !call.skip && save then d.checkpoints + [call.start + 1] else d.checkpoints;
    Drive(res.output, res.qOutput, d.calls + [call], marks, None)
  }

  /**
   * The walk from index `i` on: `exit(0)` once `i >= MAX_NUM_BLOCKS`;
   * a group is skipped iff `i + 1 <= pre`; the call's `(q_outputs, output)`
   * become the next group's `(q_input, input_ids)`; a checkpoint marker
   * `i + 1` is written after each group that was not skipped when
   * checkpointing is on.
   */
  function DriveFrom(d: Drive, names: seq<string>, nBlocks: nat, maxBlocks: int, pre: int, save: bool,
                     run: GroupCall -> Result<BlockResult>): (r: Drive)
    requires nBlocks > 0 && d.failure.None?
    decreases |names| - WalkEnd(d, nBlocks)
  {
    var i := WalkEnd(d, nBlocks);
    if i >= |names| then d
    else if i >= maxBlocks then d.(failure := Some(Exit))
    else
      var call := NextCall(d, names, nBlocks, pre);
      match run(call)
      case Err(e) => d.(failure := Some(e))
      case Ok(res) => DriveFrom(After(d, call, res, save), names, nBlocks, maxBlocks, pre, save, run)
  }

  /** `qdq_weight_round`: `range(0, len(block_names), n_blocks)` fails for a zero step and is empty for a negative one. */
  function DriveAll(input: Tensor, names: seq<string>, nBlocks: int, maxBlocks: int, pre: int, save: bool,
                    run: GroupCall -> Result<BlockResult>): (r: Drive)
  {
    var d := Drive(input, None, [], [], None);
    if nBlocks == 0 then d.(failure := Some(ValueError))
    else if nBlocks < 0 then d
    else DriveFrom(d, names, nBlocks, maxBlocks, pre, save, run)
  }

  /** Helper: after a call, the walk has got one stride past that call's start. */
  lemma WalkEndAfter(d: Drive, call: GroupCall, res: BlockResult, save: bool, nBlocks: nat)
    ensures WalkEnd(After(d, call, res, save), nBlocks) == call.start + nBlocks
  {
    var cs := d.calls + [call];
    assert cs[|cs| - 1] == call;
  }

  /** Helper: the walk ends once it has passed the last name. */
  lemma DriveFromDone(d: Drive, names: seq<string>, nBlocks: nat, maxBlocks: int, pre: int, save: bool,
                      run: GroupCall -> Result<BlockResult>)
    requires nBlocks > 0 && d.failure.None? && WalkEnd(d, nBlocks) >= |names|
    ensures DriveFrom(d, names, nBlocks, maxBlocks, pre, save, run) == d
  {
  }

  /** Helper: the walk exits when it reaches `maxBlocks`. */
  lemma DriveFromExit(d: Drive, names: seq<string>, nBlocks: nat, maxBlocks: int, pre: int, save: bool,
                      run: GroupCall -> Result<BlockResult>)
    requires nBlocks > 0 && d.failure.None? && maxBlocks <= WalkEnd(d, nBlocks) < |names|
    ensures DriveFrom(d, names, nBlocks, maxBlocks, pre, save, run) == d.(failure := Some(Exit))
  {
  }

  /** Helper: the walk ends with the error of a group call that fails. */
  lemma DriveFromFail(d: Drive, names: seq<string>, nBlocks: nat, maxBlocks: int, pre: int, save: bool,
                      run: GroupCall -> Result<BlockResult>, e: Error)
    requires nBlocks > 0 && d.failure.None? && WalkEnd(d, nBlocks) < |names| && WalkEnd(d, nBlocks) < maxBlocks
    requires run(NextCall(d, names, nBlocks, pre)) == Err(e)
    ensures DriveFrom(d, names, nBlocks, maxBlocks, pre, save, run) == d.(failure := Some(e))
  {
  }

  /** Helper: the walk goes on after a group call that succeeds. */
  lemma DriveFromNext(d: Drive, names: seq<string>, nBlocks: nat, maxBlocks: int, pre: int, save: bool,
                      run: GroupCall -> Result<BlockResult>, res: BlockResult)
    requires nBlocks > 0 && d.failure.None? && WalkEnd(d, nBlocks) < |names| && WalkEnd(d, nBlocks) < maxBlocks
    requires run(NextCall(d, names, nBlocks, pre)) == Ok(res)
    ensures DriveFrom(d, names, nBlocks, maxBlocks, pre, save, run)
            == DriveFrom(After(d, NextCall(d, names, nBlocks, pre), res, save), names, nBlocks, maxBlocks, pre, save, run)
  {
  }

  /** The names of the groups called, in call order. */
  function GroupNames(calls: seq<GroupCall>): (r: seq<string>)
    decreases |calls|
  {
    if calls == [] then [] else GroupNames(calls[..|calls| - 1]) + calls[|calls| - 1].names
  }

  /** The markers a run with checkpointing `save` writes for `calls`. */
  function CheckpointsOf(calls: seq<GroupCall>, save: bool): (r: seq<nat>)
    decreases |calls|
  {
    if calls == [] || !save then []
    else
      var c := calls[|calls| - 1];
      CheckpointsOf(calls[..|calls| - 1], save) + (if c.skip then [] else [c.start + 1])
  }

  /** Call `b` follows call `a`: it starts `n_blocks` later and receives `a`'s `(q_outputs, output)`. */
  ghost predicate Passes(a: GroupCall, b: GroupCall, nBlocks: nat, run: GroupCall -> Result<BlockResult>)
  {
    && b.start == a.start + nBlocks
    && run(a).Ok? && b.input == run(a).value.output && b.qInput == run(a).value.qOutput
  }

  /** The groups called are consecutive slices of `names` covering it up to where the walk has got to. */
  ghost predicate Covered(d: Drive, names: seq<string>, nBlocks: nat)
  {
    GroupNames(d.calls) == names[..MinNat(WalkEnd(d, nBlocks), |names|)]
  }

  /**
   * The first call starts at 0 on the initial input, each later one
   * receives the previous call's outputs, and the driver holds the last
   * call's outputs.
   */
  ghost predicate Threaded(d: Drive, nBlocks: nat, input0: Tensor, run: GroupCall -> Result<BlockResult>)
  {
    && (|d.calls| == 0 ==> d.input == input0 && d.qInput.None?)
    && (|d.calls| > 0 ==> d.calls[0].start == 0 && d.calls[0].input == input0 && d.calls[0].qInput.None?)
    && (forall k :: 0 <= k < |d.calls| - 1 ==> Passes(d.calls[k], d.calls[k + 1], nBlocks, run))
    && (|d.calls| > 0 ==> run(d.calls[|d.calls| - 1]) == Ok(BlockResult(d.qInput, d.input)))
  }

  /** Each call is on the group at its start, below `MAX_NUM_BLOCKS`, and skipped iff its start is below the marker. */
  ghost predicate Marked(calls: seq<GroupCall>, names: seq<string>, nBlocks: nat, maxBlocks: int, pre: int)
    requires nBlocks > 0
  {
    forall k :: 0 <= k < |calls| ==>
      && calls[k].start < |names| && calls[k].start < maxBlocks
      && calls[k].names == Group(names, calls[k].start, nBlocks)
      && (calls[k].skip <==> calls[k].start + 1 <= pre)
  }

  /** The invariant of the walk. */
  ghost predicate Walked(d: Drive, names: seq<string>, nBlocks: nat, maxBlocks: int, pre: int, save: bool,
                         input0: Tensor, run: GroupCall -> Result<BlockResult>)
    requires nBlocks > 0
  {
    && Covered(d, names, nBlocks)
    && Threaded(d, nBlocks, input0, run)
    && Marked(d.calls, names, nBlocks, maxBlocks, pre)
    && d.checkpoints == CheckpointsOf(d.calls, save)
  }

  lemma StepCovered(d: Drive, names: seq<string>, nBlocks: nat, pre: int, res: BlockResult, save: bool)
    requires nBlocks > 0 && WalkEnd(d, nBlocks) < |names|
    requires Covered(d, names, nBlocks)
    ensures var next := After(d, NextCall(d, names, nBlocks, pre), res, save);
      WalkEnd(next, nBlocks) == WalkEnd(d, nBlocks) + nBlocks && Covered(next, names, nBlocks)
  {
    var i := WalkEnd(d, nBlocks);
    var call := NextCall(d, names, nBlocks, pre);
    var cs := After(d, call, res, save).calls;
    assert cs[..|cs| - 1] == d.calls;
    assert GroupNames(cs) == GroupNames(d.calls) + call.names;
    assert names[..i] + names[i..MinNat(i + nBlocks, |names|)] == names[..MinNat(i + nBlocks, |names|)];
  }

  lemma StepThreaded(d: Drive, names: seq<string>, nBlocks: nat, pre: int, save: bool,
                     input0: Tensor, run: GroupCall -> Result<BlockResult>)
    requires nBlocks > 0 && WalkEnd(d, nBlocks) < |names|
    requires Threaded(d, nBlocks, input0, run)
    requires run(NextCall(d, names, nBlocks, pre)).Ok?
    ensures var call := NextCall(d, names, nBlocks, pre);
      Threaded(After(d, call, run(call).value, save), nBlocks, input0, run)
  {
    var call := NextCall(d, names, nBlocks, pre);
    var cs := After(d, call, run(call).value, save).calls;
    forall k | 0 <= k < |cs| - 1
      ensures Passes(cs[k], cs[k + 1], nBlocks, run)
    {
      if k < |cs| - 2 {
        assert cs[k] == d.calls[k] && cs[k + 1] == d.calls[k + 1];
      } else {
        assert cs[k] == d.calls[|d.calls| - 1] && cs[k + 1] == call;
      }
    }
  }

  lemma StepMarked(d: Drive, names: seq<string>, nBlocks: nat, maxBlocks: int, pre: int, res: BlockResult, save: bool)
    requires nBlocks > 0 && WalkEnd(d, nBlocks) < |names| && WalkEnd(d, nBlocks) < maxBlocks
    requires Marked(d.calls, names, nBlocks, maxBlocks, pre)
    requires d.checkpoints == CheckpointsOf(d.calls, save)
    ensures var next := After(d, NextCall(d, names, nBlocks, pre), res, save);
      Marked(next.calls, names, nBlocks, maxBlocks, pre) && next.checkpoints == CheckpointsOf(next.calls, save)
  {
    var call := NextCall(d, names, nBlocks, pre);
    var cs := After(d, call, res, save).calls;
    assert cs[..|cs| - 1] == d.calls;
    forall k | 0 <= k < |cs|
      ensures cs[k].start < |names| && cs[k].start < maxBlocks && cs[k].names == Group(names, cs[k].start, nBlocks)
      ensures cs[k].skip <==> cs[k].start + 1 <= pre
    {
      if k < |d.calls| {
        assert cs[k] == d.calls[k];
      }
    }
  }

  /** The walk keeps its invariant; a walk that ends without error has got past the last block name. */
  lemma {:induction false} DriveFromWalked(d: Drive, names: seq<string>, nBlocks: nat, maxBlocks: int, pre: int,
                                           save: bool, input0: Tensor, run: GroupCall -> Result<BlockResult>)
    requires nBlocks > 0 && d.failure.None?
    requires Walked(d, names, nBlocks, maxBlocks, pre, save, input0, run)
    ensures var r := DriveFrom(d, names, nBlocks, maxBlocks, pre, save, run);
      && Walked(r.(failure := None), names, nBlocks, maxBlocks, pre, save, input0, run)
      && (r.failure.None? ==> WalkEnd(r, nBlocks) >= |names|)
    decreases |names| - WalkEnd(d, nBlocks)
  {
    var i := WalkEnd(d, nBlocks);
    if i < |names| && i < maxBlocks {
      var call := NextCall(d, names, nBlocks, pre);
      if run(call).Ok? {
        var next := After(d, call, run(call).value, save);
        StepCovered(d, names, nBlocks, pre, run(call).value, save);
        StepThreaded(d, names, nBlocks, pre, save, input0, run);
        StepMarked(d, names, nBlocks, maxBlocks, pre, run(call).value, save);
        DriveFromWalked(next, names, nBlocks, maxBlocks, pre, save, input0, run);
      } else {
        assert d.(failure := Some(run(call).error)).(failure := None) == d;
      }
    } else if i < |names| {
      assert d.(failure := Some(Exit)).(failure := None) == d;
    }
  }

  /**
   * A walk that fails stops at the next group: with `exit(0)` when that
   * group starts at or past `MAX_NUM_BLOCKS`, otherwise with the error of
   * that group's call.
   */
  lemma {:induction false} DriveFromStops(d: Drive, names: seq<string>, nBlocks: nat, maxBlocks: int, pre: int,
                                          save: bool, run: GroupCall -> Result<BlockResult>)
    requires nBlocks > 0 && d.failure.None?
    ensures var r := DriveFrom(d, names, nBlocks, maxBlocks, pre, save, run);
      r.failure.Some? ==>
        && WalkEnd(r, nBlocks) < |names|
        && (WalkEnd(r, nBlocks) >= maxBlocks ==> r.failure == Some(Exit))
        && (WalkEnd(r, nBlocks) < maxBlocks ==>
              run(NextCall(r, names, nBlocks, pre)).Err? && r.failure == Some(run(NextCall(r, names, nBlocks, pre)).error))
    decreases |names| - WalkEnd(d, nBlocks)
  {
    var i := WalkEnd(d, nBlocks);
    if i < |names| && i < maxBlocks {
      var call := NextCall(d, names, nBlocks, pre);
      if run(call).Ok? {
        assert WalkEnd(After(d, call, run(call).value, save), nBlocks) == i + nBlocks;
        DriveFromStops(After(d, call, run(call).value, save), names, nBlocks, maxBlocks, pre, save, run);
      } else {
        var r := d.(failure := Some(run(call).error));
        assert WalkEnd(r, nBlocks) == i && NextCall(r, names, nBlocks, pre) == call;
      }
    }
  }

  /**
   * What `qdq_weight_round` does for a positive stride: every call's group
   * is `block_names[i:i + n_blocks]` for `i = 0, n_blocks, 2 n_blocks, ...`
   * and, without an error, the groups together are exactly the block
   * names in order; block `i` is skipped iff `i + 1 <= pre`; markers
   * `i + 1` are written for the blocks not skipped when checkpointing is
   * on; each call receives the previous call's `(q_outputs, output)`;
   * and `exit(0)` happens only when there are more than `MAX_NUM_BLOCKS`
   * block names.
   */
  lemma DriveAllSpec(input: Tensor, names: seq<string>, nBlocks: int, maxBlocks: int, pre: int, save: bool,
                     run: GroupCall -> Result<BlockResult>)
    requires nBlocks > 0
    ensures var r := DriveAll(input, names, nBlocks, maxBlocks, pre, save, run);
      && (r.failure.None? ==> GroupNames(r.calls) == names)
      && Marked(r.calls, names, nBlocks, maxBlocks, pre)
      && Threaded(r.(failure := None), nBlocks, input, run)
      && r.checkpoints == CheckpointsOf(r.calls, save)
      && (r.failure == Some(Exit) && (forall c :: run(c) != Err(Exit)) ==> maxBlocks < |names|)
  {
    var d := Drive(input, None, [], [], None);
    assert names[..MinNat(0, |names|)] == [];
    assert Walked(d, names, nBlocks, maxBlocks, pre, save, input, run);
    DriveFromWalked(d, names, nBlocks, maxBlocks, pre, save, input, run);
    DriveFromStops(d, names, nBlocks, maxBlocks, pre, save, run);
    var r := DriveFrom(d, names, nBlocks, maxBlocks, pre, save, run);
    assert Covered(r.(failure := None), names, nBlocks);
    if r.failure.None? {
      assert r.(failure := None) == r;
      assert names[..MinNat(WalkEnd(r, nBlocks), |names|)] == names;
    }
  }

  /** With the marker at `pre`, exactly the calls on blocks before `pre` are skipped, and markers follow the others. */
  lemma {:induction false} CheckpointsSkipResumed(calls: seq<GroupCall>, pre: int)
    requires forall k :: 0 <= k < |calls| ==> (calls[k].skip <==> calls[k].start + 1 <= pre)
    ensures forall m :: m in CheckpointsOf(calls, true) ==> m > pre
    ensures |CheckpointsOf(calls, true)| <= |calls|
    ensures CheckpointsOf(calls, false) == []
    decreases |calls|
  {
    if calls != [] {
      var init := calls[..|calls| - 1];
      assert forall k :: 0 <= k < |init| ==> init[k] == calls[k];
      CheckpointsSkipResumed(init, pre);
    }
  }

  // ---------------------------------------------------------------------
  // The post-pass of `quantize`
  // ---------------------------------------------------------------------

  const ScaleKey := "scale"
  const ZpKey := "zp"
  const GIdxKey := "g_idx"

  /**
   * The column-to-group index of a weight `width` columns wide grouped by
   * `gs`: column `k` lies in group `k // gs`; a non-positive group size is
   * one group covering every column.
   */
  function GIdx(width: nat, gs: int): (g: seq<int>)
    ensures |g| == width
    ensures gs <= 0 ==> forall k :: 0 <= k < width ==> g[k] == 0
    ensures gs > 0 ==> forall k :: 0 <= k < width ==> 0 <= g[k] && g[k] * gs <= k < g[k] * gs + gs
  {
    if gs <= 0 then seq(width, k => 0) else seq(width, k requires 0 <= k => k / gs)
  }

  /** The number of columns of a weight, `weight.shape[1]`. */
  function Width(w: Tensor): nat {
    if |w| == 0 then 0 else |w[0]|
  }

  /** The group size a merged entry gives its layer (the global one when the entry has none). */
  function LayerGroupSize(e: Entry, globalGs: int): int {
    if GroupSizeKey in e && e[GroupSizeKey].Int? then e[GroupSizeKey].number else globalGs
  }

  /** As written, `g_idx` is computed from the run-wide `self.group_size`, whatever the layer's own group size. */
  function GIdxAsWritten(e: Entry, l: Layer, globalGs: int): (g: seq<int>)
    ensures g == GIdx(Width(l.weight), globalGs)
  {
    GIdx(Width(l.weight), globalGs)
  }

  /** Corrected: `g_idx` follows the group size the layer was quantized with. */
  function LayerGIdx(e: Entry, l: Layer, globalGs: int): (g: seq<int>)
    ensures |g| == Width(l.weight)
    ensures LayerGroupSize(e, globalGs) > 0 ==> forall k :: 0 <= k < |g| ==>
      g[k] * LayerGroupSize(e, globalGs) <= k < g[k] * LayerGroupSize(e, globalGs) + LayerGroupSize(e, globalGs)
    ensures LayerGroupSize(e, globalGs) <= 0 ==> forall k :: 0 <= k < |g| ==> g[k] == 0
  {
    GIdx(Width(l.weight), LayerGroupSize(e, globalGs))
  }

  /**
   * A layer configured with `group_size` 32 in a run whose global group
   * size is 128: as written, column 32 is put in group 0 although it
   * starts the layer's second group of 32 columns.
   */
  lemma GIdxAsWrittenMisgroups()
    ensures var e: Entry := map[GroupSizeKey := Int(32)];
      var l := Layer(Linear, LayerAttrs(Text("int"), Int(4), Int(32), Flag(false), Null), seq(2, i => seq(64, j => 0.0)), None, None);
      && GIdxAsWritten(e, l, 128)[32] == 0
      && LayerGIdx(e, l, 128)[32] == 1
  {
    var e: Entry := map[GroupSizeKey := Int(32)];
    var l := Layer(Linear, LayerAttrs(Text("int"), Int(4), Int(32), Flag(false), Null), seq(2, i => seq(64, j => 0.0)), None, None);
    assert Width(l.weight) == 64;
    assert LayerGroupSize(e, 128) == 32;
  }

  /** The `g_idx` recorded for a layer: from the global group size as written, or from the layer's own when corrected. */
  function EntryGIdx(e: Entry, l: Layer, globalGs: int, asWritten: bool): (g: seq<int>)
    ensures |g| == Width(l.weight)
    ensures asWritten ==> g == GIdx(Width(l.weight), globalGs)
    ensures !asWritten ==> g == GIdx(Width(l.weight), LayerGroupSize(e, globalGs))
  {
    if asWritten then GIdxAsWritten(e, l, globalGs) else LayerGIdx(e, l, globalGs)
  }

  /**
   * The entry of a layer that kept `scale` and `zp` after unwrapping:
   * those two and `g_idx` are recorded.
   */
  function ScaledEntry(e: Entry, l: Layer, globalGs: int, asWritten: bool): (r: Entry)
    requires l.scale.Some?
    ensures r.Keys == e.Keys + {ScaleKey, ZpKey, GIdxKey}
    ensures r[ScaleKey] == Array(l.scale.value)
    ensures r[ZpKey] == (if l.zp.Some? then Array(l.zp.value) else Null)
    ensures r[GIdxKey] == Ints(EntryGIdx(e, l, globalGs, asWritten))
    ensures forall k :: k in e && k != ScaleKey && k != ZpKey && k != GIdxKey ==> r[k] == e[k]
  {
    e[ScaleKey := Array(l.scale.value)][ZpKey := if l.zp.Some? then Array(l.zp.value) else Null]
     [GIdxKey := Ints(EntryGIdx(e, l, globalGs, asWritten))]
  }

  /**
   * The entry of a configured module left in floating point: 16 bits, no
   * group size, no symmetry, and `"bfloat"` or `"float"` after the
   * precision the run used.
   */
  function FloatEntry(e: Entry, bf16: bool): (r: Entry)
    ensures r.Keys == e.Keys + {DataTypeKey, BitsKey, GroupSizeKey, SymKey}
    ensures r[DataTypeKey] == Text(if bf16 then "bfloat" else "float")
    ensures r[BitsKey] == Int(16) && r[GroupSizeKey] == Null && r[SymKey] == Null
    ensures forall k :: k in e && !IsDefaultedKey(k) ==> r[k] == e[k]
  {
    e[DataTypeKey := Text(if bf16 then "bfloat" else "float")][BitsKey := Int(16)][GroupSizeKey := Null][SymKey := Null]
  }

  /** The post-pass state: `weight_config` and the layers (with their `scale`/`zp` attributes). */
  datatype Post = Post(wc: map<string, Entry>, layers: map<string, Layer>)

  function LayerAt(layers: map<string, Layer>, n: string): Option<Layer> {
    if n in layers then Some(layers[n]) else None
  }

  /** The entry of configured module `n` after the post-pass, from its entry and layer before. */
  function NewEntry(e: Entry, l: Option<Layer>, globalGs: int, asWritten: bool, bf16: bool): Entry {
    if l.Some? && l.value.scale.Some? then ScaledEntry(e, l.value, globalGs, asWritten) else FloatEntry(e, bf16)
  }

  /** `delattr(m, "scale")` and `delattr(m, "zp")` on a layer that has them. */
  function NewLayer(l: Layer): (r: Layer)
    ensures r.scale.None? && r.zp == (if l.scale.Some? then None else l.zp)
    ensures r.kind == l.kind && r.attrs == l.attrs && r.weight == l.weight
  {
    if l.scale.Some? then l.(scale := None, zp := None) else l
  }

  /**
   * One module `n` of `named_modules()`: nothing when it has no entry; a
   * layer with a `scale` gets a scaled entry and loses both attributes;
   * anything else is marked as left in floating point.
   */
  function PostStep(p: Post, n: string, globalGs: int, asWritten: bool, bf16: bool): (r: Post)
    ensures r.wc.Keys == p.wc.Keys && r.layers.Keys == p.layers.Keys
    ensures n in p.wc ==> r.wc[n] == NewEntry(p.wc[n], LayerAt(p.layers, n), globalGs, asWritten, bf16)
    ensures n in p.wc && n in p.layers ==> r.layers[n] == NewLayer(p.layers[n])
    ensures n !in p.wc ==> r == p
    ensures forall m :: m != n && m in p.wc ==> r.wc[m] == p.wc[m]
    ensures forall m :: m != n && m in p.layers ==> r.layers[m] == p.layers[m]
  {
    if n !in p.wc then p
    else if n in p.layers && p.layers[n].scale.Some? then
      Post(p.wc[n := ScaledEntry(p.wc[n], p.layers[n], globalGs, asWritten)], p.layers[n := NewLayer(p.layers[n])])
    else Post(p.wc[n := FloatEntry(p.wc[n], bf16)], p.layers)
  }

  /** The post-pass loop over `named_modules()` from position `i` on. */
  function PostPassFrom(p: Post, mods: seq<string>, i: nat, globalGs: int, asWritten: bool, bf16: bool): (r: Post)
    requires i <= |mods|
    ensures r.wc.Keys == p.wc.Keys && r.layers.Keys == p.layers.Keys
    decreases |mods| - i
  {
    if i == |mods| then p else PostPassFrom(PostStep(p, mods[i], globalGs, asWritten, bf16), mods, i + 1, globalGs, asWritten, bf16)
  }

  /**
   * The post-pass loop of `quantize` over `named_modules()`, updating
   * `weight_config` and the layers in place, module by module.
   */
  method PostPassLoop(wc0: map<string, Entry>, ls0: map<string, Layer>, names: seq<string>, gs: int, asWritten: bool, bf16: bool)
    returns (wc: map<string, Entry>, ls: map<string, Layer>)
    ensures Post(wc, ls) == PostPassFrom(Post(wc0, ls0), names, 0, gs, asWritten, bf16)
  {
    wc, ls := wc0, ls0;
    ghost var cur := Post(wc, ls);
    var i := 0;
    while i < |names|
      invariant 0 <= i <= |names|
      invariant cur == Post(wc, ls)
      invariant PostPassFrom(cur, names, i, gs, asWritten, bf16) == PostPassFrom(Post(wc0, ls0), names, 0, gs, asWritten, bf16)
    {
      var n := names[i];
      ghost var next := PostStep(cur, n, gs, asWritten, bf16);
      assert PostPassFrom(cur, names, i, gs, asWritten, bf16) == PostPassFrom(next, names, i + 1, gs, asWritten, bf16);
      if n in wc {
        if n in ls && ls[n].scale.Some? {
          wc := wc[n := ScaledEntry(wc[n], ls[n], gs, asWritten)];
          ls := ls[n := NewLayer(ls[n])];
        } else {
          wc := wc[n := FloatEntry(wc[n], bf16)];
        }
      }
      cur := next;
      i := i + 1;
    }
  }

  predicate DistinctNames(mods: seq<string>) {
    forall a, b :: 0 <= a < b < |mods| ==> mods[a] != mods[b]
  }

  /**
   * With the distinct names `named_modules()` yields, every configured
   * module from position `i` on is handled once, on its own original
   * entry and layer, and every other entry and layer is left alone.
   */
  lemma {:induction false} PostPassFromSpec(p: Post, mods: seq<string>, i: nat, globalGs: int, asWritten: bool, bf16: bool, n: string)
    requires i <= |mods| && DistinctNames(mods)
    ensures var r := PostPassFrom(p, mods, i, globalGs, asWritten, bf16);
      && (n in p.wc ==> r.wc[n] == if n in mods[i..] then NewEntry(p.wc[n], LayerAt(p.layers, n), globalGs, asWritten, bf16) else p.wc[n])
      && (n in p.layers ==> r.layers[n] == if n in mods[i..] && n in p.wc then NewLayer(p.layers[n]) else p.layers[n])
    decreases |mods| - i
  {
    if i < |mods| {
      var m := mods[i];
      var q := PostStep(p, m, globalGs, asWritten, bf16);
      PostPassFromSpec(q, mods, i + 1, globalGs, asWritten, bf16, n);
      assert mods[i..] == [m] + mods[i + 1..];
      if n == m {
        assert forall j :: i + 1 <= j < |mods| ==> mods[j] != m;
        assert n !in mods[i + 1..];
      } else {
        assert LayerAt(q.layers, n) == LayerAt(p.layers, n);
      }
    }
  }

  /**
   * What the post-pass leaves: every configured layer that carried a
   * `scale` has its scale, zero point and `g_idx` recorded and loses both
   * attributes; every other configured module is marked 16-bit floating
   * point; unconfigured names and layers are untouched.
   */
  lemma PostPassOutcome(p: Post, mods: seq<string>, globalGs: int, asWritten: bool, bf16: bool, n: string)
    requires DistinctNames(mods) && n in mods && n in p.wc
    ensures var r := PostPassFrom(p, mods, 0, globalGs, asWritten, bf16);
      && (n in p.layers && p.layers[n].scale.Some? ==>
            r.wc[n] == ScaledEntry(p.wc[n], p.layers[n], globalGs, asWritten)
            && r.layers[n].scale.None? && r.layers[n].zp.None? && r.layers[n].weight == p.layers[n].weight)
      && (n in p.layers && p.layers[n].scale.None? ==> r.layers[n] == p.layers[n])
      && (!(n in p.layers && p.layers[n].scale.Some?) ==> r.wc[n] == FloatEntry(p.wc[n], bf16) && r.wc[n][BitsKey] == Int(16))
  {
    PostPassFromSpec(p, mods, 0, globalGs, asWritten, bf16, n);
    assert mods[0..] == mods;
  }
}
