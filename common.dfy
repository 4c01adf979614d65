/*
 * Shared vocabulary of the model: optional values, the exceptions the
 * source raises, powers of two, clamps, Python's substring test and
 * slice bound, and the "running best" selection used both by the MSE
 * clip search and by the per-block optimisation loop.
 */
module Common {

  datatype Option<T> = None | Some(value: T) {
    function GetOr(default: T): T {
      match this
      case Some(v) => v
      case None => default
    }
  }

  /** The Python exceptions (and process exits) the modelled code can end in. */
  datatype Error =
    | AssertionFailed    // a failing `assert`
    | NotImplemented     // `raise NotImplementedError`
    | ValueError         // `raise ValueError` / `range()` with step 0
    | KeyError           // dictionary lookup of a missing key
    | AttributeError     // attribute read of a missing attribute (or of None)
    | IndexError         // indexing an empty list
    | EmptyTensor        // `min()` / `max()` / `torch.cat` over nothing
    | StopIteration      // `next()` on an exhausted iterator
    | TypeError          // `torch.cat` over values that are not all tensors
    | RuntimeError       // `torch.cat` over tensors whose slices differ in shape
    | Exit               // `exit()`: the process stops

  datatype Result<T> = Ok(value: T) | Err(error: Error)

  /** A tensor as the sequence of its slices along dimension 0; `torch.cat(dim=0)` is `+`. */
  type Row = seq<real>
  type Tensor = seq<Row>

  function Pow2(n: nat): (r: nat)
    ensures r >= 1
  {
    if n == 0 then 1 else 2 * Pow2(n - 1)
  }

  function MinInt(a: int, b: int): int { if a <= b then a else b }
  function MinNat(a: nat, b: nat): nat { if a <= b then a else b }
  function MaxReal(a: real, b: real): real { if a >= b then a else b }
  function AbsReal(x: real): real { if x < 0.0 then -x else x }

  /** `clamp(v, lo, hi)` on reals. */
  function ClampReal(v: real, lo: real, hi: real): (r: real)
    requires lo <= hi
    ensures lo <= r <= hi
    ensures lo <= v <= hi ==> r == v
    ensures v < lo ==> r == lo
    ensures v > hi ==> r == hi
  {
    if v < lo then lo else if v > hi then hi else v
  }

  /** The same clamp on integers: clamping never leaves the integers. */
  function ClampInt(v: int, lo: int, hi: int): (r: int)
    requires lo <= hi
    ensures r as real == ClampReal(v as real, lo as real, hi as real)
    ensures lo <= r <= hi
    ensures lo <= v <= hi ==> r == v
    ensures v < lo ==> r == lo
    ensures v > hi ==> r == hi
  {
    ClampReal(v as real, lo as real, hi as real).Floor
  }

  predicate HasPrefix(prefix: string, s: string) {
    |prefix| <= |s| && s[..|prefix|] == prefix
  }

  /** Python's `needle in haystack` for two strings. */
  predicate Contains(haystack: string, needle: string)
    decreases |haystack|
  {
    HasPrefix(needle, haystack) || (|haystack| > 0 && Contains(haystack[1..], needle))
  }

  /** Number of elements `s[:stop]` keeps from a sequence of length `len` (Python slice semantics). */
  function SliceStopLen(len: nat, stop: int): (r: nat)
    ensures r <= len
    ensures 0 <= stop ==> r == MinInt(stop, len)
    ensures stop < 0 ==> r as int == if len as int + stop < 0 then 0 else len as int + stop
  {
    if stop >= 0 then (if stop <= len then stop else len)
    else if len as int + stop < 0 then 0 else len as int + stop
  }

  function Sum(s: seq<real>): real
  {
    if s == [] then 0.0 else Sum(s[..|s| - 1]) + s[|s| - 1]
  }

  /**
   * The running best over a sequence of scores, exactly as the source
   * loops do it: start from `bound`, and replace the best whenever a score
   * is strictly below it.  A `None` score stands for NaN, which never
   * compares below anything.  Returns the best value and the index where
   * it was last replaced.
   */
  function RunningBest(s: seq<Option<real>>, bound: real): (r: (real, Option<nat>))
    ensures r.0 <= bound
    ensures r.1.Some? ==> r.1.value < |s|
  {
    if s == [] then (bound, None)
    else
      var prev := RunningBest(s[..|s| - 1], bound);
      var last := s[|s| - 1];
      if last.Some? && last.value < prev.0 then (last.value, Some(|s| - 1)) else prev
  }

  /** `k` is the first index of the strict minimum of `s`, and that minimum is below `bound`. */
  predicate IsFirstMinimumBelow(s: seq<Option<real>>, bound: real, k: nat)
  {
    && k < |s| && s[k].Some? && s[k].value < bound
    && (forall j :: 0 <= j < k ==> s[j].None? || s[j].value > s[k].value)
    && (forall j :: k < j < |s| ==> s[j].None? || s[j].value >= s[k].value)
  }

  /**
   * What the running best computes: if some score is below the bound, the
   * first index of the minimum score, otherwise nothing and the bound.
   */
  lemma {:induction false} RunningBestIsFirstMinimum(s: seq<Option<real>>, bound: real)
    ensures var r := RunningBest(s, bound);
      && (r.1.None? <==> forall j :: 0 <= j < |s| ==> s[j].None? || s[j].value >= bound)
      && (r.1.None? ==> r.0 == bound)
      && (r.1.Some? ==> IsFirstMinimumBelow(s, bound, r.1.value) && r.0 == s[r.1.value].value)
  {
    if s != [] {
      var init := s[..|s| - 1];
      RunningBestIsFirstMinimum(init, bound);
      var prev := RunningBest(init, bound);
      assert forall j :: 0 <= j < |init| ==> init[j] == s[j];
    }
  }

  /** The running best never increases as more scores are seen. */
  lemma {:induction false} RunningBestNonIncreasing(s: seq<Option<real>>, bound: real, j: nat, k: nat)
    requires j <= k <= |s|
    ensures RunningBest(s[..k], bound).0 <= RunningBest(s[..j], bound).0
    decreases k - j
  {
    if j < k {
      RunningBestNonIncreasing(s, bound, j, k - 1);
      assert s[..k][..k - 1] == s[..k - 1];
    }
  }

  /** The numbers lo, lo+1, ..., hi-1. */
  function Range(lo: nat, hi: nat): (r: seq<nat>)
    ensures |r| == if lo <= hi then hi - lo else 0
    ensures forall i :: 0 <= i < |r| ==> r[i] == lo + i
    decreases hi - lo
  {
    if lo >= hi then [] else [lo] + Range(lo + 1, hi)
  }
}
