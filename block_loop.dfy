/*
 * The per-block work of `quant_block`: evaluating a block over the
 * samples in fixed-size windows (`get_block_outputs`), the optimisation
 * loop that tracks the best loss and stops early, and the block's result.
 * Tensors are sequences of samples; the block's forward is a function
 * parameter, and the per-iteration losses are inputs.
 */
module BlockLoop {
  import opened Common


  /** The windows `[i, min(n, i + bs))` for `i` in `range(start, n, bs)`. */
  function WindowsFrom(start: nat, n: nat, bs: nat): (w: seq<(nat, nat)>)
    requires bs > 0
    ensures forall j :: 0 <= j < |w| ==> start <= w[j].0 < w[j].1 <= n && w[j].1 <= w[j].0 + bs
    ensures |w| > 0 ==> w[0].0 == start && w[|w| - 1].1 == n
    ensures |w| == 0 <==> start >= n
    decreases n - start
  {
    if start >= n then [] else [(start, MinNat(n, start + bs))] + WindowsFrom(start + bs, n, bs)
  }

  /** Python's `range(0, n, bs)` turned into windows: a zero step is a ValueError, a negative one yields nothing. */
  function Windows(n: int, bs: int): (r: Result<seq<(nat, nat)>>)
    ensures r.Err? <==> bs == 0
    ensures r.Err? ==> r.error == ValueError
    ensures r.Ok? && (bs < 0 || n <= 0) ==> r.value == []
  {
    if bs == 0 then Err(ValueError)
    else if bs < 0 || n <= 0 then Ok([])
    else Ok(WindowsFrom(0, n, bs))
  }

  /** Consecutive windows meet: each one starts where the previous one ended. */
  ghost predicate Chained(w: seq<(nat, nat)>)
  {
    forall j :: 0 <= j < |w| - 1 ==> w[j].1 == w[j + 1].0
  }

  /**
   * The windows tile `[start, n)`: they are chained, and all but the last
   * hold exactly `bs` samples.
   */
  lemma {:induction false} WindowsTile(start: nat, n: nat, bs: nat)
    requires bs > 0
    ensures var w := WindowsFrom(start, n, bs);
      && Chained(w)
      && (forall j :: 0 <= j < |w| - 1 ==> w[j].1 == w[j].0 + bs)
    decreases n - start
  {
    if start < n {
      var w := WindowsFrom(start, n, bs);
      var rest := WindowsFrom(start + bs, n, bs);
      WindowsTile(start + bs, n, bs);
      assert w[0] == (start, MinNat(n, start + bs));
      assert w[1..] == rest;
      if |rest| > 0 {
        assert rest[0].0 == start + bs < n;
        assert w[0].1 == start + bs == w[1].0;
      }
      forall j | 1 <= j < |w| - 1
        ensures w[j].1 == w[j + 1].0 && w[j].1 == w[j].0 + bs
      {
        assert w[j] == rest[j - 1] && w[j + 1] == rest[j];
      }
    }
  }

  /** Helper: along chained windows, an earlier window ends before a later one starts. */
  lemma {:induction false} WindowsChain(w: seq<(nat, nat)>, j1: nat, j2: nat)
    requires forall j :: 0 <= j < |w| ==> w[j].0 < w[j].1
    requires Chained(w)
    requires j1 < j2 < |w|
    ensures w[j1].1 <= w[j2].0
    decreases j2 - j1
  {
    if j1 + 1 < j2 {
      WindowsChain(w, j1 + 1, j2);
    }
  }

  /** The windows are in increasing order and pairwise disjoint. */
  lemma WindowsOrdered(start: nat, n: nat, bs: nat)
    requires bs > 0
    ensures var w := WindowsFrom(start, n, bs);
      forall j1, j2 :: 0 <= j1 < j2 < |w| ==> w[j1].1 <= w[j2].0
  {
    var w := WindowsFrom(start, n, bs);
    WindowsTile(start, n, bs);
    forall j1, j2 | 0 <= j1 < j2 < |w|
      ensures w[j1].1 <= w[j2].0
    {
      WindowsChain(w, j1, j2);
    }
  }

  /** Helper: chained windows from `w[0].0` to `w[last].1` have one containing any point of that range. */
  lemma {:induction false} WindowContaining(w: seq<(nat, nat)>, k: nat) returns (j: nat)
    requires |w| > 0 && w[0].0 <= k < w[|w| - 1].1
    requires Chained(w)
    ensures j < |w| && w[j].0 <= k < w[j].1
    decreases |w|
  {
    if k < w[0].1 {
      j := 0;
    } else {
      var tail := w[1..];
      assert |w| > 1;
      assert tail[0] == w[1] && tail[|tail| - 1] == w[|w| - 1];
      assert Chained(tail) by {
        forall i | 0 <= i < |tail| - 1
          ensures tail[i].1 == tail[i + 1].0
        {
          assert tail[i] == w[i + 1] && tail[i + 1] == w[i + 2];
        }
      }
      var t := WindowContaining(tail, k);
      j := t + 1;
      assert w[j] == tail[t];
    }
  }

  /** Every sample `k < n` lies in exactly one window. */
  lemma WindowsCover(n: nat, bs: nat, k: nat)
    requires bs > 0 && k < n
    ensures var w := WindowsFrom(0, n, bs);
      && (exists j :: 0 <= j < |w| && w[j].0 <= k < w[j].1)
      && (forall j1, j2 :: 0 <= j1 < |w| && 0 <= j2 < |w| && w[j1].0 <= k < w[j1].1 && w[j2].0 <= k < w[j2].1 ==> j1 == j2)
  {
    var w := WindowsFrom(0, n, bs);
    WindowsTile(0, n, bs);
    WindowsOrdered(0, n, bs);
    var j := WindowContaining(w, k);
  }

  /** `input_ids[indices]` for the window `[a, b)`; an index past the end is an IndexError. */
  function Sample(input: Tensor, a: nat, b: nat): (r: Result<Tensor>)
    requires a <= b
    ensures r.Ok? <==> b <= |input|
    ensures r.Ok? ==> r.value == input[a..b]
    ensures r.Err? ==> r.error == IndexError
  {
    if b <= |input| then Ok(input[a..b]) else Err(IndexError)
  }

  /** `prefix` in front of a result, errors passed through. */
  function Prepend(prefix: Tensor, r: Result<Tensor>): Result<Tensor>
  {
    match r
    case Err(e) => Err(e)
    case Ok(rest) => Ok(prefix + rest)
  }

  /**
   * The block applied to the windows `WindowsFrom(start, n, bs)` one after
   * the other, outputs concatenated in window order.
   */
  function OutputsFrom(input: Tensor, start: nat, n: nat, bs: nat, fwd: Tensor -> Tensor): (r: Result<Tensor>)
    requires bs > 0
    ensures r.Err? ==> r.error == IndexError
    decreases n - start
  {
    if start >= n then Ok([])
    else
      match Sample(input, start, MinNat(n, start + bs))
      case Err(e) => Err(e)
      case Ok(x) => Prepend(fwd(x), OutputsFrom(input, start + bs, n, bs, fwd))
  }

  /**
   * `get_block_outputs`: the concatenation of the block's outputs on the
   * windows of `bs` samples; a zero step is a ValueError and no window at
   * all makes `torch.cat` fail.
   */
  function BlockOutputs(input: Tensor, n: int, bs: int, fwd: Tensor -> Tensor): (r: Result<Tensor>)
  {
    if bs == 0 then Err(ValueError)
    else if bs < 0 || n <= 0 then Err(EmptyTensor)
    else OutputsFrom(input, 0, n, bs, fwd)
  }

  /** The windowed evaluation fails exactly when the windows reach past the samples held. */
  lemma {:induction false} OutputsFromOk(input: Tensor, start: nat, n: nat, bs: nat, fwd: Tensor -> Tensor)
    requires bs > 0
    ensures OutputsFrom(input, start, n, bs, fwd).Ok? <==> start >= n || n <= |input|
    decreases n - start
  {
    if start < n && MinNat(n, start + bs) <= |input| {
      OutputsFromOk(input, start + bs, n, bs, fwd);
    }
  }

  /** Helper: two prefixes in front of a result are their concatenation. */
  lemma PrependPrepend(a: Tensor, b: Tensor, r: Result<Tensor>)
    ensures Prepend(a, Prepend(b, r)) == Prepend(a + b, r)
  {
    if r.Ok? {
      assert a + (b + r.value) == (a + b) + r.value;
    }
  }

  method GetBlockOutputs(input: Tensor, n: int, bs: int, fwd: Tensor -> Tensor) returns (r: Result<Tensor>)
    ensures r == BlockOutputs(input, n, bs, fwd)
  {
    if bs == 0 {
      return Err(ValueError);
    }
    if bs < 0 || n <= 0 {
      return Err(EmptyTensor);
    }
    var output: Tensor := [];
    var i: nat := 0;
    assert Prepend([], OutputsFrom(input, 0, n, bs, fwd)) == OutputsFrom(input, 0, n, bs, fwd) by {
      var c := OutputsFrom(input, 0, n, bs, fwd);
      if c.Ok? {
        assert [] + c.value == c.value;
      }
    }
    while i < n
      invariant BlockOutputs(input, n, bs, fwd) == Prepend(output, OutputsFrom(input, i, n, bs, fwd))
      decreases n - i
    {
      var end := MinNat(n, i + bs);
      if end > |input| {
        return Err(IndexError);
      }
      var y := fwd(input[i..end]);
      PrependPrepend(output, y, OutputsFrom(input, i + bs, n, bs, fwd));
      output := output + y;
      i := i + bs;
    }
    assert output + [] == output;
    return Ok(output);
  }

  /** The block applied to each sample on its own. */
  function MapRows(f: Row -> Row, x: Tensor): (r: Tensor)
    ensures |r| == |x| && forall k :: 0 <= k < |x| ==> r[k] == f(x[k])
  {
    seq(|x|, k requires 0 <= k < |x| => f(x[k]))
  }

  /** Helper: applying the block row by row distributes over concatenation. */
  lemma MapRowsAppend(f: Row -> Row, a: Tensor, b: Tensor)
    ensures MapRows(f, a + b) == MapRows(f, a) + MapRows(f, b)
  {
    var l := MapRows(f, a + b);
    var rr := MapRows(f, a) + MapRows(f, b);
    assert |l| == |rr|;
    forall k | 0 <= k < |l|
      ensures l[k] == rr[k]
    {
      if k < |a| {
        assert (a + b)[k] == a[k];
      } else {
        assert (a + b)[k] == b[k - |a|];
      }
    }
  }

  /**
   * Windowing is invisible for a block that treats samples independently:
   * the windowed outputs are the block applied to the samples `[start, n)`.
   */
  lemma {:induction false} WindowedEqualsWhole(input: Tensor, start: nat, n: nat, bs: nat, f: Row -> Row, fwd: Tensor -> Tensor)
    requires bs > 0 && start <= n <= |input|
    requires forall x :: fwd(x) == MapRows(f, x)
    ensures OutputsFrom(input, start, n, bs, fwd) == Ok(MapRows(f, input[start..n]))
    decreases n - start
  {
    if start < n {
      var end := MinNat(n, start + bs);
      var w := input[start..end];
      if start + bs < n {
        WindowedEqualsWhole(input, start + bs, n, bs, f, fwd);
      } else {
        assert input[end..n] == [];
      }
      assert fwd(w) == MapRows(f, w);
      WindowThenRest(input, start, n, bs, f, fwd);
    } else {
      assert MapRows(f, input[start..n]) == [];
    }
  }

  /**
   * Helper: once the block maps the first window row by row and the later
   * windows give the rows after it, the outputs from `start` are the block
   * applied to the samples `[start, n)`.
   */
  lemma WindowThenRest(input: Tensor, start: nat, n: nat, bs: nat, f: Row -> Row, fwd: Tensor -> Tensor)
    requires bs > 0 && start < n <= |input|
    requires fwd(input[start..MinNat(n, start + bs)]) == MapRows(f, input[start..MinNat(n, start + bs)])
    requires OutputsFrom(input, start + bs, n, bs, fwd) == Ok(MapRows(f, input[MinNat(n, start + bs)..n]))
    ensures OutputsFrom(input, start, n, bs, fwd) == Ok(MapRows(f, input[start..n]))
  {
    var end := MinNat(n, start + bs);
    var w := input[start..end];
    calc {
      OutputsFrom(input, start, n, bs, fwd);
      { WindowStep(input, start, n, bs, fwd); }
      Prepend(fwd(w), OutputsFrom(input, start + bs, n, bs, fwd));
      Prepend(MapRows(f, w), Ok(MapRows(f, input[end..n])));
      { MapRowsAppend(f, w, input[end..n]); }
      Ok(MapRows(f, w + input[end..n]));
      { assert w + input[end..n] == input[start..n]; }
      Ok(MapRows(f, input[start..n]));
    }
  }

  /** Helper: a window inside the input is sampled and its outputs go in front of the rest. */
  lemma WindowStep(input: Tensor, start: nat, n: nat, bs: nat, fwd: Tensor -> Tensor)
    requires bs > 0 && start < n <= |input|
    ensures OutputsFrom(input, start, n, bs, fwd)
      == Prepend(fwd(input[start..MinNat(n, start + bs)]), OutputsFrom(input, start + bs, n, bs, fwd))
  {
    assert Sample(input, start, MinNat(n, start + bs)) == Ok(input[start..MinNat(n, start + bs)]);
  }

  /** Over `n` samples in windows of `bs`, a row-wise block gives its outputs on the first `n` samples. */
  lemma BlockOutputsRowwise(input: Tensor, n: nat, bs: nat, f: Row -> Row, fwd: Tensor -> Tensor)
    requires bs > 0 && 0 < n <= |input|
    requires forall x :: fwd(x) == MapRows(f, x)
    ensures BlockOutputs(input, n, bs, fwd) == Ok(MapRows(f, input[..n]))
  {
    WindowedEqualsWhole(input, 0, n, bs, f, fwd);
    assert input[0..n] == input[..n];
  }

  /** `torch.finfo(torch.float).max`, the initial best loss. */
  const FloatMax: real := 340282346638528859811704183484516925440.0

  /**
   * The loop's variables after some iterations: the best loss, the
   * iteration it was last improved at, the iteration whose parameters
   * are held as the snapshot (`None` while the snapshot is still the
   * initial `tensor(0)`), iterations entered, optimiser steps taken, and
   * whether the loop broke out.
   */
  datatype TrainState = TrainState(bestLoss: real, lastBestIter: nat, snapshot: Option<nat>, iterations: nat, steps: nat, stopped: bool)

  const TrainStart := TrainState(FloatMax, 0, None, 0, 0, false)

  /**
   * Iteration `i` with loss `loss` (`None` for NaN): strict improvement
   * updates the best loss and, in best-tracking mode, the snapshot and
   * `last_best_iter`; the "last iterate" mode snapshots only at
   * `iters - 1`; in best-tracking mode with a positive gap the loop
   * breaks before the step once `i - last_best_iter >= gap`.
   */
  function TrainIteration(st: TrainState, i: nat, loss: Option<real>, iters: int, lastIterate: bool, gap: int): (r: TrainState)
  {
    var improved := loss.Some? && loss.value < st.bestLoss;
    var best := if improved then loss.value else st.bestLoss;
    var lastBest := if improved && !lastIterate then i else st.lastBestIter;
    var snap :=
      if improved && !lastIterate then Some(i)
      else if lastIterate && i == iters - 1 then Some(i)
      else st.snapshot;
    var stop := !lastIterate && gap > 0 && i - lastBest >= gap;
    TrainState(best, lastBest, snap, i + 1, if stop then st.steps else st.steps + 1, stop)
  }

  /** The loop from iteration `i` on. */
  function TrainFrom(st: TrainState, i: nat, losses: seq<Option<real>>, iters: int, lastIterate: bool, gap: int): (r: TrainState)
    requires iters <= |losses|
    decreases |losses| - i
  {
    if i >= iters || st.stopped then st
    else TrainFrom(TrainIteration(st, i, losses[i], iters, lastIterate, gap), i + 1, losses, iters, lastIterate, gap)
  }

  function Train(losses: seq<Option<real>>, iters: int, lastIterate: bool, gap: int): (r: TrainState)
    requires iters <= |losses|
  {
    TrainFrom(TrainStart, 0, losses, iters, lastIterate, gap)
  }

  /** The loop of `quant_block`, over given per-iteration losses. */
  method TrainLoop(losses: seq<Option<real>>, iters: int, lastIterate: bool, gap: int) returns (o: TrainState)
    requires iters <= |losses|
    ensures o == Train(losses, iters, lastIterate, gap)
  {
    var bestLoss := FloatMax;
    var lastBestIter: nat := 0;
    var snapshot: Option<nat> := None;
    var steps: nat := 0;
    var i: nat := 0;
    while i < iters
      invariant i <= |losses|
      invariant TrainFrom(TrainState(bestLoss, lastBestIter, snapshot, i, steps, false), i, losses, iters, lastIterate, gap)
             == Train(losses, iters, lastIterate, gap)
      decreases iters - i
    {
      var loss := losses[i];
      if loss.Some? && loss.value < bestLoss {
        bestLoss := loss.value;
        if !lastIterate {
          snapshot := Some(i);
          lastBestIter := i;
        }
      }
      if lastIterate && i == iters - 1 {
        snapshot := Some(i);
      }
      if !lastIterate && gap > 0 && i - lastBestIter >= gap {
        return TrainState(bestLoss, lastBestIter, snapshot, i + 1, steps, true);
      }
      steps := steps + 1;
      i := i + 1;
    }
    return TrainState(bestLoss, lastBestIter, snapshot, i, steps, false);
  }

  /** The losses of the first `k` iterations as the running-best selection sees them. */
  function BestOf(losses: seq<Option<real>>, k: nat): (real, Option<nat>)
    requires k <= |losses|
  {
    RunningBest(losses[..k], FloatMax)
  }

  /** At iteration `j` of best-tracking mode, the iterations since the last improvement. */
  function GapAt(losses: seq<Option<real>>, j: nat): int
    requires j < |losses|
  {
    j - BestOf(losses, j + 1).1.GetOr(0)
  }

  /** No iteration before `k` reached the gap. */
  ghost predicate NoBreakBefore(losses: seq<Option<real>>, k: int, gap: int)
    requires k <= |losses|
  {
    forall j :: 0 <= j < k ==> GapAt(losses, j) < gap
  }

  /** In best-tracking mode, the loop's invariant after `i` iterations without a break. */
  ghost predicate Tracking(st: TrainState, i: nat, losses: seq<Option<real>>, gap: int)
    requires i <= |losses|
  {
    && st.iterations == i && st.steps == i && !st.stopped
    && (st.bestLoss, st.snapshot) == BestOf(losses, i)
    && st.lastBestIter == st.snapshot.GetOr(0)
    && (gap > 0 ==> NoBreakBefore(losses, i, gap))
  }

  /**
   * Best-tracking mode: the best loss and snapshot are the running best of
   * the losses seen (so the snapshot is the first iteration of the
   * minimum), there are at most `iters` iterations, and the loop breaks
   * exactly at the first iteration whose gap since the last improvement
   * reaches `gap`, without stepping on it.
   */
  lemma {:induction false} TrackingLoop(st: TrainState, i: nat, losses: seq<Option<real>>, iters: int, gap: int)
    requires iters <= |losses| && i <= |losses| && (i == 0 || i <= iters)
    requires Tracking(st, i, losses, gap)
    ensures var r := TrainFrom(st, i, losses, iters, false, gap);
      && r.iterations <= (if iters < 0 then 0 else iters)
      && (r.bestLoss, r.snapshot) == BestOf(losses, r.iterations)
      && r.lastBestIter == r.snapshot.GetOr(0)
      && (r.stopped ==>
            && gap > 0 && r.iterations > 0
            && GapAt(losses, r.iterations - 1) >= gap
            && r.iterations - 1 - r.lastBestIter >= gap
            && r.steps == r.iterations - 1
            && NoBreakBefore(losses, r.iterations - 1, gap))
      && (!r.stopped ==>
            && r.iterations == (if iters < 0 then 0 else iters) && r.steps == r.iterations
            && (gap > 0 ==> NoBreakBefore(losses, r.iterations, gap)))
    decreases |losses| - i
  {
    if i < iters {
      var next := TrainIteration(st, i, losses[i], iters, false, gap);
      assert losses[..i + 1][..i] == losses[..i];
      assert losses[..i + 1][i] == losses[i];
      assert (next.bestLoss, next.snapshot) == BestOf(losses, i + 1);
      if !next.stopped {
        TrackingLoop(next, i + 1, losses, iters, gap);
      }
    }
  }

  /** Best-tracking mode from the start of the loop. */
  lemma BestTracking(losses: seq<Option<real>>, iters: int, gap: int)
    requires iters <= |losses|
    ensures var r := Train(losses, iters, false, gap);
      && r.iterations <= (if iters < 0 then 0 else iters)
      && (r.bestLoss, r.snapshot) == BestOf(losses, r.iterations)
      && r.lastBestIter == r.snapshot.GetOr(0)
      && (r.stopped ==> gap > 0 && r.iterations - 1 - r.lastBestIter >= gap && r.steps == r.iterations - 1)
      && (!r.stopped ==> r.iterations == (if iters < 0 then 0 else iters) && r.steps == r.iterations)
  {
    assert losses[..0] == [];
    TrackingLoop(TrainStart, 0, losses, iters, gap);
  }

  /** Iteration 0 always improves on the initial float max unless its loss is NaN or not below it. */
  lemma FirstIterationImproves(losses: seq<Option<real>>, iters: int, gap: int)
    requires 0 < iters <= |losses| && losses[0].Some? && losses[0].value < FloatMax
    ensures Train(losses, iters, false, gap).snapshot.Some?
  {
    var r := Train(losses, iters, false, gap);
    BestTracking(losses, iters, gap);
    assert r.iterations >= 1 by {
      if r.stopped {
      } else {
      }
    }
    RunningBestIsFirstMinimum(losses[..r.iterations], FloatMax);
    assert losses[..r.iterations][0] == losses[0];
  }

  /**
   * "Last iterate" mode: no early break, every iteration steps, the best
   * loss is still tracked, and the snapshot is taken at `iters - 1` only.
   */
  lemma {:induction false} LastIterateLoop(st: TrainState, i: nat, losses: seq<Option<real>>, iters: int, gap: int)
    requires iters <= |losses| && (i < iters || (i == 0 && iters <= 0))
    requires st.iterations == i && st.steps == i && !st.stopped && st.lastBestIter == 0
    requires st.bestLoss == BestOf(losses, i).0
    requires st.snapshot == None
    ensures var r := TrainFrom(st, i, losses, iters, true, gap);
      && !r.stopped && r.iterations == (if iters < 0 then 0 else iters) && r.steps == r.iterations
      && r.lastBestIter == 0 && r.bestLoss == BestOf(losses, r.iterations).0
      && r.snapshot == (if iters >= 1 then Some(iters - 1) else None)
    decreases |losses| - i
  {
    if i < iters {
      var next := TrainIteration(st, i, losses[i], iters, true, gap);
      assert losses[..i + 1][..i] == losses[..i];
      assert losses[..i + 1][i] == losses[i];
      if i + 1 < iters {
        LastIterateLoop(next, i + 1, losses, iters, gap);
      } else {
        assert TrainFrom(next, i + 1, losses, iters, true, gap) == next;
      }
    }
  }

  /** What `quant_block` returns: the propagated quantized output (if any) and the float output. */
  datatype BlockResult = BlockResult(qOutput: Option<Tensor>, output: Tensor)

  /** The settings `quant_block` reads. */
  datatype LoopSettings = LoopSettings(nSamples: int, trainBs: int, iters: int, lastIterate: bool, gap: int, useQuantInput: bool)

  /**
   * `quant_block`: the float outputs first; a skipped block returns them
   * twice; otherwise the block's layers are wrapped, and `wrapFailure` is
   * the exception wrapping or the wrappers raise (`wrapper_block` outside
   * AutoRound mode, a wrapper without `scale_dtype`), which ends the call;
   * then training on `q_input` when given, and `unwrapper_block` with the
   * loop's snapshot `s`, whose exception `unwrapFailure(s)` (a snapshot
   * without the layer's entry, a wrapper that cannot be unwrapped) ends the
   * call whether or not quantized input propagation is on; with it on, the
   * outputs of the unwrapped block.  `qfwd(s)` is the block's forward once
   * unwrapped with snapshot `s`.
   */
  function QuantBlockSpec(s: LoopSettings, input: Tensor, qInput: Option<Tensor>, skip: bool, wrapFailure: Option<Error>,
                          unwrapFailure: Option<nat> -> Option<Error>,
                          losses: seq<Option<real>>, fwd: Tensor -> Tensor, qfwd: Option<nat> -> (Tensor -> Tensor))
    : (r: Result<BlockResult>)
    requires s.iters <= |losses|
  {
    match BlockOutputs(input, s.nSamples, s.trainBs, fwd)
    case Err(e) => Err(e)
    case Ok(output) =>
      if skip then Ok(BlockResult(Some(output), output))
      else if wrapFailure.Some? then Err(wrapFailure.value)
      else
        var x := if qInput.Some? then qInput.value else input;
        var snap := Train(losses, s.iters, s.lastIterate, s.gap).snapshot;
        if unwrapFailure(snap).Some? then Err(unwrapFailure(snap).value)
        else if !s.useQuantInput then Ok(BlockResult(None, output))
        else
          match BlockOutputs(x, s.nSamples, s.trainBs, qfwd(snap))
          case Err(e) => Err(e)
          case Ok(q) => Ok(BlockResult(Some(q), output))
  }

  /**
   * The block outcomes: skipped blocks pass their float output on twice
   * and are never wrapped; a block whose wrapping or unwrapping fails ends
   * in that failure; propagation off returns no quantized output.
   */
  lemma BlockOutcomes(s: LoopSettings, input: Tensor, qInput: Option<Tensor>, skip: bool, wrapFailure: Option<Error>,
                          unwrapFailure: Option<nat> -> Option<Error>,
                      losses: seq<Option<real>>, fwd: Tensor -> Tensor, qfwd: Option<nat> -> (Tensor -> Tensor))
    requires s.iters <= |losses|
    ensures var r := QuantBlockSpec(s, input, qInput, skip, wrapFailure, unwrapFailure, losses, fwd, qfwd);
      && (r.Ok? ==> BlockOutputs(input, s.nSamples, s.trainBs, fwd) == Ok(r.value.output))
      && (r.Ok? && skip ==> r.value.qOutput == Some(r.value.output))
      && (r.Ok? && !skip ==> wrapFailure.None? && unwrapFailure(Train(losses, s.iters, s.lastIterate, s.gap).snapshot).None?)
      && (BlockOutputs(input, s.nSamples, s.trainBs, fwd).Ok? && !skip && wrapFailure.Some? ==> r == Err(wrapFailure.value))
      && (var u := unwrapFailure(Train(losses, s.iters, s.lastIterate, s.gap).snapshot);
          BlockOutputs(input, s.nSamples, s.trainBs, fwd).Ok? && !skip && wrapFailure.None? && u.Some? ==> r == Err(u.value))
      && (r.Ok? && !skip && !s.useQuantInput ==> r.value.qOutput.None?)
      && (r.Ok? && !skip && s.useQuantInput ==>
            && r.value.qOutput.Some?
            && Ok(r.value.qOutput.value) ==
                 BlockOutputs(qInput.GetOr(input), s.nSamples, s.trainBs, qfwd(Train(losses, s.iters, s.lastIterate, s.gap).snapshot)))
  {
  }
}
