/*
 * The integer-level rules of the FlexRound / AdaRound weight quantizers:
 * the straight-through rounding, the quantizer configuration record, the
 * uniform affine quantizer (bit-width guard, EMA range tracking, clip
 * range selection by min/max or by MSE search, step size with its 1e-8
 * floor, signed/unsigned level clamps) and the AdaRound rounding rule.
 *
 * Floating-point numbers are modelled as reals; `exp`, `log`, `sigmoid`,
 * the random draw and the loss are taken as parameters.
 */
module Quantizer {
  import opened Common

  /** AdaRound's stretch parameters gamma and zeta. */
  const Gamma: real := -0.1
  const Zeta: real := 1.1
  /** The score the MSE clip search has to beat. */
  const MseStartScore: real := 10000000000.0
  /** Number of shrunk candidates the MSE clip search tries. */
  const MseCandidates: nat := 80
  /** Smallest step size the range initialisation returns. */
  const DeltaFloor: real := 0.00000001

  // ---------------------------------------------------------------------
  // Rounding
  // ---------------------------------------------------------------------

  /** `torch.round`: to the nearest integer, ties to the even one. */
  function RoundHalfEven(x: real): (r: int)
    ensures -0.5 <= r as real - x <= 0.5
    ensures (r as real - x == 0.5 || x - r as real == 0.5) ==> r % 2 == 0
  {
    var f := x.Floor;
    var frac := x - f as real;
    if frac < 0.5 then f
    else if frac > 0.5 then f + 1
    else if f % 2 == 0 then f else f + 1
  }

  /** A value together with its derivative, enough to state what the straight-through estimator does. */
  datatype Dual = Dual(value: real, tangent: real)

  function DualAdd(a: Dual, b: Dual): Dual { Dual(a.value + b.value, a.tangent + b.tangent) }
  function DualSub(a: Dual, b: Dual): Dual { Dual(a.value - b.value, a.tangent - b.tangent) }
  /** `.detach()`: same value, no gradient flows through. */
  function Detach(a: Dual): Dual { Dual(a.value, 0.0) }
  /** `.round()`: piecewise constant, so its derivative is zero. */
  function DualRound(a: Dual): Dual { Dual(RoundHalfEven(a.value) as real, 0.0) }

  /** round_ste: rounds in the forward pass and passes the gradient straight through. */
  function RoundSte(x: Dual): (r: Dual)
    ensures r.value == RoundHalfEven(x.value) as real
    ensures r.tangent == x.tangent
  {
    DualAdd(Detach(DualSub(DualRound(x), x)), x)
  }

  // ---------------------------------------------------------------------
  // Levels and step sizes
  // ---------------------------------------------------------------------

  predicate ValidBits(n: int) { 2 <= n <= 8 }

  /** The signed level range [-2^(n-1), 2^(n-1) - 1]. */
  function SignedMin(n: nat): int requires n >= 1 { -(Pow2(n - 1) as int) }
  function SignedMax(n: nat): int requires n >= 1 { Pow2(n - 1) as int - 1 }

  /**
   * The level range `quantize` clamps into: signed, except for a leaf
   * parameter whose minimum is non-negative, which uses [0, 2^n - 1].
   */
  function LevelRange(n: nat, leafParam: bool, xMin: real): (r: (int, int))
    requires n >= 1
    ensures r.0 <= r.1
    ensures r.1 - r.0 + 1 == Pow2(n)
    ensures leafParam && xMin >= 0.0 ==> r == (0, Pow2(n) - 1)
    ensures !(leafParam && xMin >= 0.0) ==> r == (SignedMin(n), SignedMax(n))
  {
    if leafParam && xMin >= 0.0 then (0, Pow2(n) - 1) else (SignedMin(n), SignedMax(n))
  }

  /**
   * The step size for a clip range [xMin, xMax]: the symmetric range
   * 2*max(xMax, |xMin|) spread over 2^n - 1 intervals, or, for a leaf
   * parameter with non-negative minimum, [0, xMax] over 2^n - 1 intervals.
   */
  function StepSize(n: nat, leafParam: bool, xMax: real, xMin: real): real
    requires n >= 1
  {
    if leafParam && xMin >= 0.0 then xMax / (Pow2(n) - 1) as real
    else 2.0 * MaxReal(xMax, AbsReal(xMin)) / (Pow2(n) - 1) as real
  }

  /** The step size times the number of intervals gives back the range it was computed from. */
  lemma StepSizeSpreadsRange(n: nat, leafParam: bool, xMax: real, xMin: real)
    requires n >= 1
    ensures var d := StepSize(n, leafParam, xMax, xMin);
      && (!(leafParam && xMin >= 0.0) ==> d * (Pow2(n) - 1) as real == 2.0 * MaxReal(xMax, AbsReal(xMin)) && d >= 0.0)
      && (leafParam && xMin >= 0.0 ==> d * (Pow2(n) - 1) as real == xMax)
  {
    var k := (Pow2(n) - 1) as real;
    assert k >= 1.0;
    assert (xMax / k) * k == xMax;
    assert (2.0 * MaxReal(xMax, AbsReal(xMin)) / k) * k == 2.0 * MaxReal(xMax, AbsReal(xMin));
  }

  /** The nearest integer to `t`, clamped into [lo, hi]. */
  function NearestLevel(t: real, lo: int, hi: int): (l: int)
    requires lo <= hi
    ensures lo <= l <= hi
    ensures lo as real - 0.5 <= t <= hi as real + 0.5 ==> -0.5 <= l as real - t <= 0.5
    ensures t <= lo as real ==> l == lo
    ensures t >= hi as real ==> l == hi
  {
    ClampInt(RoundHalfEven(t), lo, hi)
  }

  /**
   * The integer level of `v` for step `delta`: the nearest level of
   * v / delta, clamped into [lo, hi].  With a zero step, `v / 0` is an
   * infinity of the sign of `v`, which the clamp sends to the matching
   * bound (`v == 0` would be NaN and is excluded).
   */
  function Level(v: real, delta: real, lo: int, hi: int): (l: int)
    requires lo <= hi
    requires delta != 0.0 || v != 0.0
    ensures lo <= l <= hi
    ensures delta != 0.0 ==> l == NearestLevel(v / delta, lo, hi)
    ensures delta == 0.0 ==> l == if v > 0.0 then hi else lo
  {
    if delta == 0.0 then (if v > 0.0 then hi else lo)
    else NearestLevel(v / delta, lo, hi)
  }

  /**
   * The symmetric version of a range: the larger magnitude becomes the
   * new maximum, and the minimum becomes its negation, or 0 when the range
   * had no negative part.
   */
  function Symmetrize(xMin: real, xMax: real): (r: (real, real))
    ensures r.1 >= AbsReal(xMin) && r.1 >= xMax
    ensures r.1 == AbsReal(xMin) || r.1 == xMax
    ensures xMin < 0.0 ==> r.0 == -r.1
    ensures xMin >= 0.0 ==> r.0 == 0.0
    ensures r.0 <= xMin
  {
    var absmax := MaxReal(AbsReal(xMin), xMax);
    (if xMin < 0.0 then -absmax else 0.0, absmax)
  }

  /**
   * update_quantize_range as a function of the running range: the first
   * call starts the running range at its inputs; every call then moves it
   * a tenth of the way towards the new range.
   */
  function Ema(running: Option<(real, real)>, xMin: real, xMax: real): (r: (real, real))
    ensures running.None? ==> r == (xMin, xMax)
    ensures running.Some? ==> r.0 - running.value.0 == 0.1 * (xMin - running.value.0)
    ensures running.Some? ==> r.1 - running.value.1 == 0.1 * (xMax - running.value.1)
    ensures running.Some? ==> (MinR(xMin, running.value.0) <= r.0 <= MaxReal(xMin, running.value.0))
    ensures running.Some? ==> (MinR(xMax, running.value.1) <= r.1 <= MaxReal(xMax, running.value.1))
    ensures running == Some((xMin, xMax)) ==> r == (xMin, xMax)
  {
    var base := running.GetOr((xMin, xMax));
    (0.1 * xMin + 0.9 * base.0, 0.1 * xMax + 0.9 * base.1)
  }

  function MinR(a: real, b: real): real { if a <= b then a else b }

  /** The `'scale'` variant widens the observed range by (n + 2) / 8. */
  function ScaleForBits(n: int, scaleMethod: string, v: real): real
  {
    if Contains(scaleMethod, "scale") then Widen(n, v) else v
  }

  /** v * (n + 2) / 8. */
  function Widen(n: int, v: real): real { v * (n + 2) as real / 8.0 }

  /** A range bound scaled by the multiplier 1 - 0.01 i of MSE candidate i. */
  function Shrunk(v: real, i: nat): real { v * (1.0 - i as real * 0.01) }

  /** The smallest and largest entries of a non-empty tensor (`x.min()`, `x.max()`). */
  function SeqMin(x: seq<real>): (m: real)
    requires |x| > 0
    ensures forall i :: 0 <= i < |x| ==> m <= x[i]
    ensures exists i :: 0 <= i < |x| && m == x[i]
  {
    if |x| == 1 then x[0] else MinR(SeqMin(x[..|x| - 1]), x[|x| - 1])
  }

  function SeqMax(x: seq<real>): (m: real)
    requires |x| > 0
    ensures forall i :: 0 <= i < |x| ==> x[i] <= m
    ensures exists i :: 0 <= i < |x| && m == x[i]
  {
    if |x| == 1 then x[0] else MaxReal(SeqMax(x[..|x| - 1]), x[|x| - 1])
  }

  function Flatten(x: seq<seq<real>>): (r: seq<real>)
    ensures |x| > 0 && |x[0]| > 0 ==> |r| > 0
  {
    if x == [] then [] else x[0] + Flatten(x[1..])
  }

  // ---------------------------------------------------------------------
  // Configuration record
  // ---------------------------------------------------------------------

  datatype QuantizerConfig = QuantizerConfig(
    nBits: int, symmetric: bool, channelWise: bool, scaleMethod: string,
    leafParam: bool, prob: real, useAda: bool)

  /** The dataclass defaults. */
  const DefaultConfig: QuantizerConfig := QuantizerConfig(8, false, false, "minmax", false, 1.0, false)

  /** A value of the keyword dictionary `to_dict` builds. */
  datatype Field = IntField(i: int) | BoolField(b: bool) | StrField(s: string) | RealField(r: real)

  const ConstructorKeys: set<string> :=
    {"n_bits", "symmetric", "channel_wise", "scale_method", "leaf_param", "prob"}

  /** to_dict: the six constructor arguments of the quantizer; `use_ada` is not among them. */
  function ToDict(c: QuantizerConfig): (d: map<string, Field>)
    ensures d.Keys == ConstructorKeys
    ensures "use_ada" !in d
    ensures d["n_bits"] == IntField(c.nBits) && d["scale_method"] == StrField(c.scaleMethod)
    ensures d["prob"] == RealField(c.prob)
  {
    map["n_bits" := IntField(c.nBits), "symmetric" := BoolField(c.symmetric),
        "channel_wise" := BoolField(c.channelWise), "scale_method" := StrField(c.scaleMethod),
        "leaf_param" := BoolField(c.leafParam), "prob" := RealField(c.prob)]
  }

  function IntArg(d: map<string, Field>, k: string, default: int): Option<int>
  {
    if k !in d then Some(default) else if d[k].IntField? then Some(d[k].i) else None
  }
  function BoolArg(d: map<string, Field>, k: string, default: bool): Option<bool>
  {
    if k !in d then Some(default) else if d[k].BoolField? then Some(d[k].b) else None
  }
  function StrArg(d: map<string, Field>, k: string, default: string): Option<string>
  {
    if k !in d then Some(default) else if d[k].StrField? then Some(d[k].s) else None
  }
  function RealArg(d: map<string, Field>, k: string, default: real): Option<real>
  {
    if k !in d then Some(default) else if d[k].RealField? then Some(d[k].r) else None
  }

  /**
   * `QuantizerConfig(**d)`: the dataclass constructor called with keyword
   * arguments; absent keys take the defaults.  An unknown key is a
   * TypeError in Python; a value of the wrong kind cannot be stored in the
   * typed record.  Both give None.
   */
  function FromDict(d: map<string, Field>): (r: Option<QuantizerConfig>)
    ensures d == map[] ==> r == Some(DefaultConfig)
  {
    if !(d.Keys <= ConstructorKeys + {"use_ada"}) then None
    else
      var n := IntArg(d, "n_bits", 8);
      var s := BoolArg(d, "symmetric", false);
      var cw := BoolArg(d, "channel_wise", false);
      var sm := StrArg(d, "scale_method", "minmax");
      var lp := BoolArg(d, "leaf_param", false);
      var p := RealArg(d, "prob", 1.0);
      var ua := BoolArg(d, "use_ada", false);
      if n.None? || s.None? || cw.None? || sm.None? || lp.None? || p.None? || ua.None? then None
      else Some(QuantizerConfig(n.value, s.value, cw.value, sm.value, lp.value, p.value, ua.value))
  }

  /** A round trip through to_dict keeps every field except `use_ada`, which falls back to its default. */
  lemma ToDictRoundTrip(c: QuantizerConfig)
    ensures FromDict(ToDict(c)) == Some(c.(useAda := false))
    ensures c.useAda ==> FromDict(ToDict(c)) != Some(c)
  {
  }

  // ---------------------------------------------------------------------
  // The uniform affine quantizer
  // ---------------------------------------------------------------------

  /** The per-tensor or per-channel result of init_quantization_scale. */
  datatype ScaleInit =
    | PerTensor(delta: real, zeroPoint: int)
    | PerChannel(deltas: seq<real>, zeroPoints: seq<int>)

  class WUniformAffineQuantizer {
    var sym: bool
    var nBits: int
    var nLevels: int
    var delta: real
    var zeroPoint: real
    const leafParam: bool
    const channelWise: bool
    const scaleMethod: string
    /** (running_min, running_max); None until the first EMA update. */
    var running: Option<(real, real)>
    const prob: real
    var isTraining: bool

    ghost predicate Valid()
      reads this
    {
      ValidBits(nBits) && nLevels == Pow2(nBits) && delta > 0.0
    }

    /** The constructor, past its bit-width assertion (see Create for the failing case). */
    constructor (nBits: int, symmetric: bool, channelWise: bool, scaleMethod: string, leafParam: bool, prob: real)
      requires ValidBits(nBits)
      ensures Valid()
      ensures this.nBits == nBits && nLevels == Pow2(nBits) && sym == symmetric
      ensures this.channelWise == channelWise && this.scaleMethod == scaleMethod
      ensures this.leafParam == leafParam && this.prob == prob
      ensures delta == 1.0 && zeroPoint == 0.0 && running.None? && !isTraining
    {
      sym := symmetric;
      this.nBits := nBits;
      nLevels := Pow2(nBits);
      delta := 1.0;
      zeroPoint := 0.0;
      this.leafParam := leafParam;
      this.channelWise := channelWise;
      this.scaleMethod := scaleMethod;
      running := None;
      this.prob := prob;
      isTraining := false;
    }

    /** Construction with the bit-width assertion: fails unless 2 <= n_bits <= 8. */
    static method Create(nBits: int, symmetric: bool, channelWise: bool, scaleMethod: string, leafParam: bool, prob: real)
      returns (r: Result<WUniformAffineQuantizer>)
      ensures r.Ok? <==> ValidBits(nBits)
      ensures r.Err? ==> r.error == AssertionFailed
      ensures r.Ok? ==> fresh(r.value) && r.value.Valid() && r.value.nBits == nBits
      ensures r.Ok? ==> r.value.nLevels == Pow2(nBits) && r.value.sym == symmetric
      ensures r.Ok? ==> r.value.scaleMethod == scaleMethod && r.value.leafParam == leafParam
      ensures r.Ok? ==> r.value.channelWise == channelWise && r.value.prob == prob
    {
      if !ValidBits(nBits) {
        return Err(AssertionFailed);
      }
      var q := new WUniformAffineQuantizer(nBits, symmetric, channelWise, scaleMethod, leafParam, prob);
      return Ok(q);
    }

    /** create_quantizer_from_config: the constructor applied to the six fields of to_dict. */
    static method CreateFromConfig(c: QuantizerConfig) returns (r: Result<WUniformAffineQuantizer>)
      ensures r.Ok? <==> ValidBits(c.nBits)
      ensures r.Ok? ==> fresh(r.value) && r.value.Valid() && r.value.nBits == c.nBits
      ensures r.Ok? ==> r.value.sym == c.symmetric && r.value.channelWise == c.channelWise
      ensures r.Ok? ==> r.value.scaleMethod == c.scaleMethod && r.value.leafParam == c.leafParam
      ensures r.Ok? ==> r.value.prob == c.prob
    {
      var d := ToDict(c);
      r := Create(d["n_bits"].i, d["symmetric"].b, d["channel_wise"].b, d["scale_method"].s,
                  d["leaf_param"].b, d["prob"].r);
    }

    /** bitwidth_refactor: the same guard as the constructor; on failure nothing changes. */
    method BitwidthRefactor(refactoredBit: int) returns (ok: bool)
      requires Valid()
      modifies this`nBits, this`nLevels
      ensures Valid()
      ensures ok <==> ValidBits(refactoredBit)
      ensures ok ==> nBits == refactoredBit && nLevels == Pow2(refactoredBit)
      ensures !ok ==> nBits == old(nBits) && nLevels == old(nLevels)
    {
      if !ValidBits(refactoredBit) {
        return false;
      }
      nBits := refactoredBit;
      nLevels := Pow2(nBits);
      return true;
    }

    /** update_quantize_range: returns the new running range and stores it. */
    method UpdateQuantizeRange(xMin: real, xMax: real) returns (lo: real, hi: real)
      modifies this`running
      ensures (lo, hi) == Ema(old(running), xMin, xMax)
      ensures running == Some((lo, hi))
      ensures old(running).None? ==> lo == xMin && hi == xMax
    {
      if running.None? {
        running := Some((xMin, xMax));
      }
      lo := 0.1 * xMin + 0.9 * running.value.0;
      hi := 0.1 * xMax + 0.9 * running.value.1;
      running := Some((lo, hi));
    }

    /** The `'mse'` clip search loop (get_x_min_x_max, second branch, before the EMA). */
    method MseSearch(x: seq<real>, xMin: real, xMax: real, loss: (seq<real>, seq<real>) -> real)
      returns (bestMin: real, bestMax: real)
      requires Valid()
      ensures (bestMin, bestMax) == MseChoice(nBits, leafParam, x, xMin, xMax, loss)
    {
      ghost var s := MseScores(nBits, leafParam, x, xMin, xMax, loss);
      var bestScore := MseStartScore;
      bestMin, bestMax := xMin, xMax;
      var i: nat := 0;
      while i < MseCandidates
        invariant i <= MseCandidates
        invariant bestScore == RunningBest(s[..i], MseStartScore).0
        invariant var k := RunningBest(s[..i], MseStartScore).1;
          (bestMin, bestMax) == if k.None? then (xMin, xMax) else (Shrunk(xMin, k.value), Shrunk(xMax, k.value))
      {
        var newMax := Shrunk(xMax, i);
        var newMin := Shrunk(xMin, i);
        var xq := Quantize(nBits, leafParam, x, newMax, newMin);
        assert s[i] == if xq.Some? then Some(loss(x, xq.value)) else None;
        assert s[..i + 1][..i] == s[..i];
        if xq.Some? {
          var score := loss(x, xq.value);
          if score < bestScore {
            bestScore := score;
            bestMin, bestMax := newMin, newMax;
          }
        }
        i := i + 1;
      }
      assert s[..MseCandidates] == s;
    }

    /**
     * get_x_min_x_max: a `scale_method` containing "max" takes the observed
     * range (widened for "scale"), "mse" searches the shrunk candidates;
     * leaf parameters pass the range through the EMA; symmetric quantizers
     * symmetrise the "max" range.  Anything else is not implemented.
     */
    method GetXMinXMax(x: seq<real>, xMin: real, xMax: real, loss: (seq<real>, seq<real>) -> real)
      returns (r: Result<(real, real)>)
      requires Valid()
      modifies this`running
      ensures Valid()
      ensures r == ChosenRange(nBits, leafParam, sym, scaleMethod, old(running), x, xMin, xMax, loss)
      ensures running == if r.Ok? && leafParam then Some(TrackedRange(nBits, leafParam, scaleMethod, old(running), x, xMin, xMax, loss)) else old(running)
    {
      if Contains(scaleMethod, "max") {
        var lo, hi := xMin, xMax;
        if Contains(scaleMethod, "scale") {
          lo := Widen(nBits, lo);
          hi := Widen(nBits, hi);
        }
        if leafParam {
          lo, hi := UpdateQuantizeRange(lo, hi);
        }
        if sym {
          var absmax := MaxReal(AbsReal(lo), hi);
          lo, hi := if lo < 0.0 then -absmax else 0.0, absmax;
        }
        return Ok((lo, hi));
      } else if scaleMethod == "mse" {
        var lo, hi := MseSearch(x, xMin, xMax, loss);
        if leafParam {
          lo, hi := UpdateQuantizeRange(lo, hi);
        }
        return Ok((lo, hi));
      } else {
        return Err(NotImplemented);
      }
    }

    /**
     * init_quantization_scale_channel: the step size for the range chosen
     * from the tensor's own min and max, floored at 1e-8, with zero point 0.
     */
    method InitQuantizationScaleChannel(x: seq<real>, loss: (seq<real>, seq<real>) -> real)
      returns (r: Result<(real, int)>)
      requires Valid()
      modifies this`running
      ensures Valid()
      ensures (r, running) == ChannelScale(nBits, leafParam, sym, scaleMethod, old(running), x, loss)
    {
      if |x| == 0 {
        return Err(EmptyTensor);
      }
      var range := GetXMinXMax(x, SeqMin(x), SeqMax(x), loss);
      if range.Err? {
        return Err(range.error);
      }
      var xMin, xMax := range.value.0, range.value.1;
      var delta := StepSize(nBits, leafParam, xMax, xMin);
      delta := MaxReal(delta, DeltaFloor);
      return Ok((delta, 0));
    }

    /**
     * init_quantization_scale: per channel, one (delta, zero point) pair
     * per row; otherwise one pair for the whole tensor.
     */
    method InitQuantizationScale(x: seq<seq<real>>, channelWise: bool, loss: (seq<real>, seq<real>) -> real)
      returns (r: Result<ScaleInit>)
      requires Valid()
      modifies this`running
      ensures Valid()
      ensures (r, running) == InitScale(nBits, leafParam, sym, scaleMethod, old(running), x, channelWise, loss)
    {
      if channelWise {
        if exists c :: 0 <= c < |x| && |x[c]| == 0 {
          return Err(EmptyTensor);
        }
        ghost var nb: nat, lp, sy, sm := nBits, leafParam, sym, scaleMethod;
        ghost var goal := ChannelScalesFrom(nb, lp, sy, sm, running, x, [], [], loss);
        var deltas: seq<real> := [];
        var zps: seq<int> := [];
        var c := 0;
        while c < |x|
          invariant Valid() && nb == nBits && lp == leafParam && sy == sym && sm == scaleMethod
          invariant 0 <= c <= |x|
          invariant ChannelScalesFrom(nb, lp, sy, sm, running, x[c..], deltas, zps, loss) == goal
        {
          assert x[c..][0] == x[c] && x[c..][1..] == x[c + 1..];
          ScalesFromStep(nb, lp, sy, sm, running, x[c..], deltas, zps, loss);
          var one := InitQuantizationScaleChannel(x[c], loss);
          if one.Err? {
            return Err(one.error);
          }
          deltas := deltas + [one.value.0];
          zps := zps + [one.value.1];
          c := c + 1;
        }
        assert x[c..] == [];
        return Ok(PerChannel(deltas, zps));
      } else {
        var one := InitQuantizationScaleChannel(Flatten(x), loss);
        if one.Err? {
          return Err(one.error);
        }
        return Ok(PerTensor(one.value.0, one.value.1));
      }
    }

  }

  /**
   * The range get_x_min_x_max works with before symmetrising: the observed
   * range (widened for "scale") or the MSE choice, passed through the EMA
   * when the quantizer tracks a running range.
   */
  function TrackedRange(nBits: nat, leafParam: bool, scaleMethod: string, running: Option<(real, real)>,
                        x: seq<real>, xMin: real, xMax: real, loss: (seq<real>, seq<real>) -> real): (real, real)
    requires ValidBits(nBits)
  {
    var raw := if Contains(scaleMethod, "max") then (ScaleForBits(nBits, scaleMethod, xMin), ScaleForBits(nBits, scaleMethod, xMax))
               else MseChoice(nBits, leafParam, x, xMin, xMax, loss);
    if leafParam then Ema(running, raw.0, raw.1) else raw
  }

  /**
   * The result of get_x_min_x_max: "max" methods symmetrise the tracked
   * range for symmetric quantizers, "mse" returns it as is, anything else
   * is not implemented.
   */
  function ChosenRange(nBits: nat, leafParam: bool, sym: bool, scaleMethod: string, running: Option<(real, real)>,
                       x: seq<real>, xMin: real, xMax: real, loss: (seq<real>, seq<real>) -> real): (r: Result<(real, real)>)
    requires ValidBits(nBits)
    ensures r.Ok? <==> Contains(scaleMethod, "max") || scaleMethod == "mse"
    ensures r.Err? ==> r.error == NotImplemented
    ensures Contains(scaleMethod, "max") && sym && r.Ok? ==> r.value.1 >= 0.0 && (r.value.0 == 0.0 || r.value.0 == -r.value.1)
  {
    if !(Contains(scaleMethod, "max") || scaleMethod == "mse") then Err(NotImplemented)
    else
      var tracked := TrackedRange(nBits, leafParam, scaleMethod, running, x, xMin, xMax, loss);
      Ok(if Contains(scaleMethod, "max") && sym then Symmetrize(tracked.0, tracked.1) else tracked)
  }

  /**
   * init_quantization_scale_channel as a function of the running range:
   * the floored step size of the range chosen from the tensor's own min and
   * max, with zero point 0, and the running range that choice leaves.
   */
  function ChannelScale(nBits: nat, leafParam: bool, sym: bool, scaleMethod: string, running: Option<(real, real)>,
                        x: seq<real>, loss: (seq<real>, seq<real>) -> real): (r: (Result<(real, int)>, Option<(real, real)>))
    requires ValidBits(nBits)
    ensures |x| == 0 ==> r == (Err(EmptyTensor), running)
    ensures |x| > 0 ==> (r.0.Ok? <==> Contains(scaleMethod, "max") || scaleMethod == "mse")
    ensures r.0.Err? && |x| > 0 ==> r == (Err(NotImplemented), running)
    ensures r.0.Ok? ==> r.0.value.0 >= DeltaFloor && r.0.value.1 == 0
    ensures !leafParam ==> r.1 == running
  {
    if |x| == 0 then (Err(EmptyTensor), running)
    else match ChosenRange(nBits, leafParam, sym, scaleMethod, running, x, SeqMin(x), SeqMax(x), loss)
      case Err(e) => (Err(e), running)
      case Ok(range) =>
        (Ok((MaxReal(StepSize(nBits, leafParam, range.1, range.0), DeltaFloor), 0)),
         if leafParam then Some(TrackedRange(nBits, leafParam, scaleMethod, running, x, SeqMin(x), SeqMax(x), loss))
         else running)
  }

  /**
   * The delta is the step size of the range get_x_min_x_max chooses,
   * raised to the 1e-8 floor when smaller, and a leaf parameter's running
   * range becomes the tracked range of that choice.
   */
  lemma ChannelScaleOfRange(nBits: nat, leafParam: bool, sym: bool, scaleMethod: string, running: Option<(real, real)>,
                            x: seq<real>, loss: (seq<real>, seq<real>) -> real)
    requires ValidBits(nBits) && |x| > 0
    ensures var r := ChannelScale(nBits, leafParam, sym, scaleMethod, running, x, loss);
      var range := ChosenRange(nBits, leafParam, sym, scaleMethod, running, x, SeqMin(x), SeqMax(x), loss);
      && (r.0.Ok? <==> range.Ok?)
      && (r.0.Ok? ==> r.0.value.0 >= StepSize(nBits, leafParam, range.value.1, range.value.0))
      && (r.0.Ok? ==> r.0.value.0 == StepSize(nBits, leafParam, range.value.1, range.value.0) || r.0.value.0 == DeltaFloor)
      && (r.0.Ok? && leafParam ==> r.1 == Some(TrackedRange(nBits, leafParam, scaleMethod, running, x, SeqMin(x), SeqMax(x), loss)))
  {
  }

  /** The running range after init_quantization_scale_channel has been called on each of `rows` in turn. */
  function RunningThrough(nBits: nat, leafParam: bool, sym: bool, scaleMethod: string, running: Option<(real, real)>,
                          rows: seq<seq<real>>, loss: (seq<real>, seq<real>) -> real): (r: Option<(real, real)>)
    requires ValidBits(nBits)
    ensures !leafParam ==> r == running
    decreases |rows|
  {
    if rows == [] then running
    else RunningThrough(nBits, leafParam, sym, scaleMethod,
                        ChannelScale(nBits, leafParam, sym, scaleMethod, running, rows[0], loss).1, rows[1..], loss)
  }

  /**
   * The per-channel loop of init_quantization_scale, from a point where
   * `deltas` and `zps` hold the channels done so far: each remaining row
   * gets its (delta, zero point), and the first failing row ends the loop.
   */
  function ChannelScalesFrom(nBits: nat, leafParam: bool, sym: bool, scaleMethod: string, running: Option<(real, real)>,
                             rows: seq<seq<real>>, deltas: seq<real>, zps: seq<int>, loss: (seq<real>, seq<real>) -> real)
    : (r: (Result<ScaleInit>, Option<(real, real)>))
    requires ValidBits(nBits)
    ensures r.0.Ok? ==> r.0.value.PerChannel?
    ensures r.0.Ok? ==> |r.0.value.deltas| == |deltas| + |rows| && |r.0.value.zeroPoints| == |zps| + |rows|
    ensures r.0.Ok? ==> r.0.value.deltas[..|deltas|] == deltas && r.0.value.zeroPoints[..|zps|] == zps
    ensures r.0.Ok? ==> forall j :: |deltas| <= j < |r.0.value.deltas| ==> r.0.value.deltas[j] >= DeltaFloor
    ensures r.0.Ok? ==> forall j :: |zps| <= j < |r.0.value.zeroPoints| ==> r.0.value.zeroPoints[j] == 0
    ensures r.0.Ok? ==> r.1 == RunningThrough(nBits, leafParam, sym, scaleMethod, running, rows, loss)
    ensures r.0.Err? ==> r.0.error in {EmptyTensor, NotImplemented}
    ensures !leafParam ==> r.1 == running
    decreases |rows|
  {
    if rows == [] then (Ok(PerChannel(deltas, zps)), running)
    else
      var one := ChannelScale(nBits, leafParam, sym, scaleMethod, running, rows[0], loss);
      if one.0.Err? then (Err(one.0.error), one.1)
      else
        var d1, z1 := deltas + [one.0.value.0], zps + [one.0.value.1];
        var rest := ChannelScalesFrom(nBits, leafParam, sym, scaleMethod, one.1, rows[1..], d1, z1, loss);
        assert rest.0.Ok? ==> rest.0.value.deltas[..|deltas|] == rest.0.value.deltas[..|d1|][..|deltas|];
        assert rest.0.Ok? ==> rest.0.value.zeroPoints[..|zps|] == rest.0.value.zeroPoints[..|z1|][..|zps|];
        rest
  }

  /**
   * Channel `j` is scaled with the running range the channels before it
   * left behind: a leaf parameter's EMA threads through the rows in order.
   */
  lemma {:induction false} ChannelScaleThreaded(nBits: nat, leafParam: bool, sym: bool, scaleMethod: string,
                                                running: Option<(real, real)>, rows: seq<seq<real>>, deltas: seq<real>,
                                                zps: seq<int>, loss: (seq<real>, seq<real>) -> real, j: nat)
    requires ValidBits(nBits) && j < |rows|
    ensures var r := ChannelScalesFrom(nBits, leafParam, sym, scaleMethod, running, rows, deltas, zps, loss);
      var one := ChannelScale(nBits, leafParam, sym, scaleMethod,
                              RunningThrough(nBits, leafParam, sym, scaleMethod, running, rows[..j], loss), rows[j], loss);
      r.0.Ok? ==> one.0.Ok? && r.0.value.deltas[|deltas| + j] == one.0.value.0
    decreases j
  {
    if j == 0 {
      ScaledHead(nBits, leafParam, sym, scaleMethod, running, rows, deltas, zps, loss);
      assert rows[..0] == [];
    } else {
      var one := ChannelScale(nBits, leafParam, sym, scaleMethod, running, rows[0], loss);
      ScalesFromStep(nBits, leafParam, sym, scaleMethod, running, rows, deltas, zps, loss);
      if one.0.Ok? {
        var d1, z1 := deltas + [one.0.value.0], zps + [one.0.value.1];
        ChannelScaleThreaded(nBits, leafParam, sym, scaleMethod, one.1, rows[1..], d1, z1, loss, j - 1);
        RunningThroughStep(nBits, leafParam, sym, scaleMethod, running, rows, loss, j);
        assert rows[1..][j - 1] == rows[j];
        assert |d1| + (j - 1) == |deltas| + j;
      }
    }
  }

  /** Helper: the first remaining row's delta is the first one the loop appends. */
  lemma ScaledHead(nBits: nat, leafParam: bool, sym: bool, scaleMethod: string, running: Option<(real, real)>,
                   rows: seq<seq<real>>, deltas: seq<real>, zps: seq<int>, loss: (seq<real>, seq<real>) -> real)
    requires ValidBits(nBits) && rows != []
    ensures var r := ChannelScalesFrom(nBits, leafParam, sym, scaleMethod, running, rows, deltas, zps, loss);
      var one := ChannelScale(nBits, leafParam, sym, scaleMethod, running, rows[0], loss);
      r.0.Ok? ==> one.0.Ok? && r.0.value.deltas[|deltas|] == one.0.value.0
  {
    var one := ChannelScale(nBits, leafParam, sym, scaleMethod, running, rows[0], loss);
    ScalesFromStep(nBits, leafParam, sym, scaleMethod, running, rows, deltas, zps, loss);
    if one.0.Ok? {
      var d1 := deltas + [one.0.value.0];
      var r1 := ChannelScalesFrom(nBits, leafParam, sym, scaleMethod, one.1, rows[1..], d1, zps + [one.0.value.1], loss);
      if r1.0.Ok? {
        assert r1.0.value.deltas[..|d1|][|deltas|] == one.0.value.0;
      }
    }
  }

  /** Helper: one row of the per-channel loop, unfolded. */
  lemma ScalesFromStep(nBits: nat, leafParam: bool, sym: bool, scaleMethod: string, running: Option<(real, real)>,
                       rows: seq<seq<real>>, deltas: seq<real>, zps: seq<int>, loss: (seq<real>, seq<real>) -> real)
    requires ValidBits(nBits) && rows != []
    ensures var one := ChannelScale(nBits, leafParam, sym, scaleMethod, running, rows[0], loss);
      var r := ChannelScalesFrom(nBits, leafParam, sym, scaleMethod, running, rows, deltas, zps, loss);
      && (one.0.Err? ==> r == (Err(one.0.error), one.1))
      && (one.0.Ok? ==> r == ChannelScalesFrom(nBits, leafParam, sym, scaleMethod, one.1, rows[1..],
                                               deltas + [one.0.value.0], zps + [one.0.value.1], loss))
  {
  }

  /** Helper: the running range through the first `j` rows starts with the first row. */
  lemma RunningThroughStep(nBits: nat, leafParam: bool, sym: bool, scaleMethod: string, running: Option<(real, real)>,
                           rows: seq<seq<real>>, loss: (seq<real>, seq<real>) -> real, j: nat)
    requires ValidBits(nBits) && 0 < j <= |rows|
    ensures RunningThrough(nBits, leafParam, sym, scaleMethod, running, rows[..j], loss)
      == RunningThrough(nBits, leafParam, sym, scaleMethod,
                        ChannelScale(nBits, leafParam, sym, scaleMethod, running, rows[0], loss).1, rows[1..][..j - 1], loss)
  {
    assert rows[..j][0] == rows[0] && rows[..j][1..] == rows[1..][..j - 1];
  }

  /**
   * Without a running range to thread, the channels are independent:
   * each row's delta is what that row alone gives.
   */
  lemma ChannelsIndependentWithoutLeaf(nBits: nat, sym: bool, scaleMethod: string, running: Option<(real, real)>,
                                       rows: seq<seq<real>>, loss: (seq<real>, seq<real>) -> real, j: nat)
    requires ValidBits(nBits) && j < |rows|
    ensures var r := ChannelScalesFrom(nBits, false, sym, scaleMethod, running, rows, [], [], loss);
      var one := ChannelScale(nBits, false, sym, scaleMethod, running, rows[j], loss);
      r.0.Ok? ==> one.0.Ok? && r.0.value.deltas[j] == one.0.value.0
  {
    ChannelScaleThreaded(nBits, false, sym, scaleMethod, running, rows, [], [], loss, j);
  }

  /**
   * init_quantization_scale: a tensor with an empty channel fails before
   * the loop (the per-row max over nothing); per channel, one (delta,
   * zero point) pair per row; otherwise one pair for the flattened tensor.
   */
  function InitScale(nBits: nat, leafParam: bool, sym: bool, scaleMethod: string, running: Option<(real, real)>,
                     x: seq<seq<real>>, channelWise: bool, loss: (seq<real>, seq<real>) -> real)
    : (r: (Result<ScaleInit>, Option<(real, real)>))
    requires ValidBits(nBits)
    ensures r.0.Ok? ==> r.0.value.PerChannel? == channelWise
    ensures r.0.Ok? && channelWise ==>
      && |r.0.value.deltas| == |x| && |r.0.value.zeroPoints| == |x|
      && (forall c :: 0 <= c < |x| ==> r.0.value.deltas[c] >= DeltaFloor && r.0.value.zeroPoints[c] == 0)
    ensures channelWise && (exists c :: 0 <= c < |x| && |x[c]| == 0) ==> r == (Err(EmptyTensor), running)
    ensures channelWise && |x| > 0 && (forall c :: 0 <= c < |x| ==> |x[c]| > 0) ==>
      (r.0.Ok? <==> Contains(scaleMethod, "max") || scaleMethod == "mse")
    ensures !channelWise ==> var one := ChannelScale(nBits, leafParam, sym, scaleMethod, running, Flatten(x), loss);
      r.1 == one.1 && (r.0.Ok? <==> one.0.Ok?) && (r.0.Ok? ==> r.0.value == PerTensor(one.0.value.0, one.0.value.1))
  {
    if channelWise then
      if exists c :: 0 <= c < |x| && |x[c]| == 0 then (Err(EmptyTensor), running)
      else
        var r := ChannelScalesFrom(nBits, leafParam, sym, scaleMethod, running, x, [], [], loss);
        if |x| > 0 then
          var first := ChannelScale(nBits, leafParam, sym, scaleMethod, running, x[0], loss);
          assert r.0.Ok? ==> first.0.Ok?;
          assert r.0.Ok? || !(Contains(scaleMethod, "max") || scaleMethod == "mse") by {
            if Contains(scaleMethod, "max") || scaleMethod == "mse" { AllChannelsScale(nBits, leafParam, sym, scaleMethod, running, x, [], [], loss); }
          }
          r
        else r
    else
      var one := ChannelScale(nBits, leafParam, sym, scaleMethod, running, Flatten(x), loss);
      (if one.0.Ok? then Ok(PerTensor(one.0.value.0, one.0.value.1)) else Err(one.0.error), one.1)
  }

  /** With an implemented scale method and no empty row, every channel is scaled. */
  lemma {:induction false} AllChannelsScale(nBits: nat, leafParam: bool, sym: bool, scaleMethod: string,
                                            running: Option<(real, real)>, rows: seq<seq<real>>, deltas: seq<real>,
                                            zps: seq<int>, loss: (seq<real>, seq<real>) -> real)
    requires ValidBits(nBits) && (Contains(scaleMethod, "max") || scaleMethod == "mse")
    requires forall c :: 0 <= c < |rows| ==> |rows[c]| > 0
    ensures ChannelScalesFrom(nBits, leafParam, sym, scaleMethod, running, rows, deltas, zps, loss).0.Ok?
    decreases |rows|
  {
    if rows != [] {
      var one := ChannelScale(nBits, leafParam, sym, scaleMethod, running, rows[0], loss);
      AllChannelsScale(nBits, leafParam, sym, scaleMethod, one.1, rows[1..], deltas + [one.0.value.0], zps + [one.0.value.1], loss);
    }
  }

  // ---------------------------------------------------------------------
  // The quantizer's value-level operations, on its fields
  // ---------------------------------------------------------------------

  /**
   * quantize(x, x_max, x_min): every element becomes its clamped level
   * times the step size.  None stands for an output holding NaN, which
   * happens when the step is zero and some element is zero (0 / 0).
   */
  function Quantize(nBits: nat, leafParam: bool, x: seq<real>, xMax: real, xMin: real): (r: Option<seq<real>>)
    requires ValidBits(nBits)
    ensures var d := StepSize(nBits, leafParam, xMax, xMin);
      r.None? <==> d == 0.0 && 0.0 in x
    ensures r.Some? ==> |r.value| == |x|
    ensures r.Some? ==> forall i :: 0 <= i < |x| ==>
      var d := StepSize(nBits, leafParam, xMax, xMin);
      var range := LevelRange(nBits, leafParam, xMin);
      r.value[i] == Dequant(Level(x[i], d, range.0, range.1) as real, d)
  {
    var d := StepSize(nBits, leafParam, xMax, xMin);
    var range := LevelRange(nBits, leafParam, xMin);
    if d == 0.0 && 0.0 in x then None
    else Some(Dequantize(x, d, range.0, range.1))
  }

  /** A level times the step size. */
  function Dequant(level: real, d: real): real { level * d }

  /** Every element replaced by its level times the step. */
  function Dequantize(x: seq<real>, d: real, lo: int, hi: int): (q: seq<real>)
    requires lo <= hi
    requires d != 0.0 || 0.0 !in x
    ensures |q| == |x|
    ensures forall i :: 0 <= i < |x| ==> q[i] == Dequant(Level(x[i], d, lo, hi) as real, d)
  {
    seq(|x|, i requires 0 <= i < |x| => Dequant(Level(x[i], d, lo, hi) as real, d))
  }

  /** The score of MSE candidate i: the loss between x and its quantization over the shrunk range. */
  function MseScore(nBits: nat, leafParam: bool, x: seq<real>, xMin: real, xMax: real,
                    loss: (seq<real>, seq<real>) -> real, i: nat): Option<real>
    requires ValidBits(nBits)
  {
    match Quantize(nBits, leafParam, x, Shrunk(xMax, i), Shrunk(xMin, i))
    case None => None
    case Some(q) => Some(loss(x, q))
  }

  function MseScores(nBits: nat, leafParam: bool, x: seq<real>, xMin: real, xMax: real,
                     loss: (seq<real>, seq<real>) -> real): (s: seq<Option<real>>)
    requires ValidBits(nBits)
    ensures |s| == MseCandidates
    ensures forall i :: 0 <= i < MseCandidates ==> s[i] == MseScore(nBits, leafParam, x, xMin, xMax, loss, i)
  {
    seq(MseCandidates, i requires 0 <= i < MseCandidates => MseScore(nBits, leafParam, x, xMin, xMax, loss, i))
  }

  /**
   * The range the MSE search settles on: the candidate whose score is
   * the first strict minimum below 1e10, or the original range when no
   * candidate scores below 1e10.
   */
  function MseChoice(nBits: nat, leafParam: bool, x: seq<real>, xMin: real, xMax: real,
                     loss: (seq<real>, seq<real>) -> real): (r: (real, real))
    requires ValidBits(nBits)
    ensures var s := MseScores(nBits, leafParam, x, xMin, xMax, loss);
      (forall i :: 0 <= i < MseCandidates ==> s[i].None? || s[i].value >= MseStartScore) ==> r == (xMin, xMax)
    ensures var s := MseScores(nBits, leafParam, x, xMin, xMax, loss);
      forall k :: IsFirstMinimumBelow(s, MseStartScore, k) ==> r == (Shrunk(xMin, k), Shrunk(xMax, k))
  {
    var s := MseScores(nBits, leafParam, x, xMin, xMax, loss);
    RunningBestIsFirstMinimum(s, MseStartScore);
    var k := RunningBest(s, MseStartScore).1;
    if k.None? then (xMin, xMax) else (Shrunk(xMin, k.value), Shrunk(xMax, k.value))
  }

  /**
   * forward: `x / exp(delta1 + delta2 + delta3)` rounded with the
   * straight-through estimator, clamped into the signed range, times
   * `exp(delta1)`; in training with prob < 1 each element keeps the
   * quantized value only where the uniform draw is below prob.
   * `expSum`, `expD1` and `draw` are those three tensors, element by element.
   */
  function Forward(nBits: nat, isTraining: bool, prob: real,
                   x: seq<real>, expSum: seq<real>, expD1: seq<real>, draw: seq<real>): (y: seq<real>)
    requires ValidBits(nBits)
    requires |expSum| == |x| && |expD1| == |x| && |draw| == |x|
    requires forall i :: 0 <= i < |x| ==> expSum[i] > 0.0
    ensures |y| == |x|
    ensures forall i :: 0 <= i < |x| ==>
      var dequant := Dequant(NearestLevel(x[i] / expSum[i], SignedMin(nBits), SignedMax(nBits)) as real, expD1[i]);
      && (y[i] == x[i] || y[i] == dequant)
      && (!(isTraining && prob < 1.0) || draw[i] < prob ==> y[i] == dequant)
      && (isTraining && prob < 1.0 && !(draw[i] < prob) ==> y[i] == x[i])
  {
    seq(|x|, i requires 0 <= i < |x| =>
      var xInt := RoundSte(Dual(x[i] / expSum[i], 0.0)).value;
      var xQuant := ClampReal(xInt, SignedMin(nBits) as real, SignedMax(nBits) as real);
      var xDequant := Dequant(xQuant, expD1[i]);
      if isTraining && prob < 1.0 && !(draw[i] < prob) then x[i] else xDequant)
  }

  // ---------------------------------------------------------------------
  // AdaRound
  // ---------------------------------------------------------------------

  datatype AdaRoundQuantizer = AdaRoundQuantizer(
    nBits: int, sym: bool, delta: real, zeroPoint: real, nLevels: int,
    roundMode: string, alpha: seq<real>, softTargets: bool)

  /** The fractional part of x / delta, in [0, 1). */
  function Rest(x: real, delta: real): (r: real)
    requires delta != 0.0
    ensures 0.0 <= r < 1.0
    ensures (x / delta).Floor as real + r == x / delta
  {
    x / delta - (x / delta).Floor as real
  }

  /** The argument of `-log` in init_alpha: (zeta - gamma) / (rest - gamma) - 1. */
  function AlphaLogArgument(rest: real): (z: real)
    requires 0.0 <= rest < 1.0
    ensures z > 0.0
  {
    QuotientAboveOne(Zeta - Gamma, rest - Gamma);
    (Zeta - Gamma) / (rest - Gamma) - 1.0
  }

  lemma QuotientAboveOne(a: real, b: real)
    requires 0.0 < b < a
    ensures a / b > 1.0
  {
    assert (a / b) * b == a;
  }

  /**
   * AdaRoundQuantizer(uaq, weight, round_mode): only the learned hard
   * sigmoid mode is accepted; the quantizer settings are copied from `uaq`
   * and alpha is initialised from the rounding remainders of the weight.
   */
  function NewAdaRound(uaq: WUniformAffineQuantizer, weight: seq<real>, roundMode: string, log: real -> real)
    : (r: Result<AdaRoundQuantizer>)
    reads uaq
    requires uaq.Valid()
    ensures r.Ok? <==> roundMode == "learned_hard_sigmoid"
    ensures r.Err? ==> r.error == AssertionFailed
    ensures r.Ok? ==> r.value.nBits == uaq.nBits && r.value.sym == uaq.sym && r.value.delta == uaq.delta
    ensures r.Ok? ==> r.value.zeroPoint == uaq.zeroPoint && r.value.nLevels == uaq.nLevels
    ensures r.Ok? ==> r.value.roundMode == roundMode && !r.value.softTargets
    ensures r.Ok? ==> |r.value.alpha| == |weight|
    ensures r.Ok? ==> forall i :: 0 <= i < |weight| ==>
      r.value.alpha[i] == -log(AlphaLogArgument(Rest(weight[i], uaq.delta)))
  {
    if roundMode != "learned_hard_sigmoid" then Err(AssertionFailed)
    else
      var delta := uaq.delta;
      var alpha := seq(|weight|, i requires 0 <= i < |weight| => -log(AlphaLogArgument(Rest(weight[i], delta))));
      Ok(AdaRoundQuantizer(uaq.nBits, uaq.sym, uaq.delta, uaq.zeroPoint, uaq.nLevels, roundMode, alpha, false))
  }

  /** get_soft_targets: the stretched sigmoid, clamped into [0, 1]. */
  function SoftTargets(a: AdaRoundQuantizer, sigmoid: real -> real): (t: seq<real>)
    ensures |t| == |a.alpha|
    ensures forall i :: 0 <= i < |t| ==> 0.0 <= t[i] <= 1.0
    ensures forall i :: 0 <= i < |t| ==>
      var stretched := sigmoid(a.alpha[i]) * (Zeta - Gamma) + Gamma;
      0.0 <= stretched <= 1.0 ==> t[i] == stretched
  {
    seq(|a.alpha|, i requires 0 <= i < |a.alpha| =>
      ClampReal(sigmoid(a.alpha[i]) * (Zeta - Gamma) + Gamma, 0.0, 1.0))
  }

  /**
   * At initialisation the soft target of every element equals its
   * rounding remainder, given that sigmoid(-log z) = 1 / (1 + z).
   */
  lemma {:induction false} SoftTargetAtInitIsRest(rest: real, alpha: real, sigmoid: real -> real)
    requires 0.0 <= rest < 1.0
    requires sigmoid(alpha) == 1.0 / (1.0 + AlphaLogArgument(rest))
    ensures ClampReal(sigmoid(alpha) * (Zeta - Gamma) + Gamma, 0.0, 1.0) == rest
  {
    var z := AlphaLogArgument(rest);
    assert 1.0 + z == 1.2 / (rest + 0.1);
    assert 1.0 / (1.0 + z) == (rest + 0.1) / 1.2;
    assert sigmoid(alpha) * (Zeta - Gamma) + Gamma == rest;
  }

  /**
   * The hard rounding decision of one element: floor(v) plus one exactly
   * where alpha >= 0, clamped into [lo, hi].
   */
  function HardLevel(v: real, alpha: real, lo: int, hi: int): (l: int)
    requires lo <= hi
    ensures lo <= l <= hi
    ensures lo <= v.Floor && v.Floor + 1 <= hi ==> (l == v.Floor || l == v.Floor + 1)
    ensures lo <= v.Floor && v.Floor + 1 <= hi ==> (l == v.Floor + 1 <==> alpha >= 0.0)
    ensures v.Floor >= hi ==> l == hi
    ensures v.Floor + 1 <= lo ==> l == lo || (v.Floor + 1 == lo && alpha >= 0.0)
  {
    ClampInt(v.Floor + (if alpha >= 0.0 then 1 else 0), lo, hi)
  }

  /**
   * The soft rounding of one element: floor(v) plus its soft target t,
   * clamped into [lo, hi].  When t is v's own remainder, v comes back.
   */
  function SoftLevel(v: real, t: real, lo: int, hi: int): (l: real)
    requires lo <= hi && 0.0 <= t <= 1.0
    ensures lo as real <= l <= hi as real
    ensures lo <= v.Floor && v.Floor + 1 <= hi ==> v.Floor as real <= l <= v.Floor as real + 1.0
    ensures lo as real <= v <= hi as real && t == v - v.Floor as real ==> l == v
  {
    ClampReal(v.Floor as real + t, lo as real, hi as real)
  }

  /**
   * forward: floor(x / delta) plus the rounding decision (the soft target,
   * or 1 exactly where alpha >= 0), clamped into the signed range, times
   * delta.  Any other rounding mode is a ValueError.
   */
  function AdaForward(a: AdaRoundQuantizer, x: seq<real>, sigmoid: real -> real): (r: Result<seq<real>>)
    requires ValidBits(a.nBits) && a.delta > 0.0
    requires |x| == |a.alpha|
    ensures r.Ok? <==> a.roundMode == "learned_hard_sigmoid"
    ensures r.Err? ==> r.error == ValueError
    ensures r.Ok? ==> |r.value| == |x|
    ensures r.Ok? && !a.softTargets ==> forall i :: 0 <= i < |x| ==>
      r.value[i] == Dequant(HardLevel(x[i] / a.delta, a.alpha[i], SignedMin(a.nBits), SignedMax(a.nBits)) as real, a.delta)
    ensures r.Ok? && a.softTargets ==> forall i :: 0 <= i < |x| ==>
      r.value[i] == Dequant(SoftLevel(x[i] / a.delta, SoftTargets(a, sigmoid)[i], SignedMin(a.nBits), SignedMax(a.nBits)), a.delta)
  {
    if a.roundMode != "learned_hard_sigmoid" then Err(ValueError)
    else
      var lo, hi := SignedMin(a.nBits), SignedMax(a.nBits);
      if a.softTargets then
        var t := SoftTargets(a, sigmoid);
        Ok(seq(|x|, i requires 0 <= i < |x| => Dequant(SoftLevel(x[i] / a.delta, t[i], lo, hi), a.delta)))
      else
        Ok(seq(|x|, i requires 0 <= i < |x| => Dequant(HardLevel(x[i] / a.delta, a.alpha[i], lo, hi) as real, a.delta)))
  }

  /**
   * With soft targets on, AdaRound gives back every element inside the
   * signed range whose soft target is its own rounding remainder.
   */
  lemma {:induction false} SoftForwardOnRest(a: AdaRoundQuantizer, x: seq<real>, sigmoid: real -> real, i: nat)
    requires ValidBits(a.nBits) && a.delta > 0.0 && |x| == |a.alpha|
    requires a.roundMode == "learned_hard_sigmoid" && a.softTargets
    requires i < |x|
    requires sigmoid(a.alpha[i]) == 1.0 / (1.0 + AlphaLogArgument(Rest(x[i], a.delta)))
    requires SignedMin(a.nBits) as real <= x[i] / a.delta <= SignedMax(a.nBits) as real
    ensures AdaForward(a, x, sigmoid).Ok? && AdaForward(a, x, sigmoid).value[i] == x[i]
  {
    SoftTargetOfRest(a, sigmoid, i, Rest(x[i], a.delta));
    SoftForwardAt(a, x, sigmoid, i);
    SoftLevelOfOwnRest(x[i], a.delta, SignedMin(a.nBits), SignedMax(a.nBits));
  }

  /** Floor plus its own remainder, dequantised, is the element again. */
  lemma SoftLevelOfOwnRest(x: real, d: real, lo: int, hi: int)
    requires d > 0.0 && lo <= hi && lo as real <= x / d <= hi as real
    ensures Dequant(SoftLevel(x / d, Rest(x, d), lo, hi), d) == x
  {
    assert (x / d) * d == x;
  }

  /** Element i's soft target is `rest` when sigmoid(alpha[i]) is the value init_alpha aimed at. */
  lemma SoftTargetOfRest(a: AdaRoundQuantizer, sigmoid: real -> real, i: nat, rest: real)
    requires i < |a.alpha| && 0.0 <= rest < 1.0
    requires sigmoid(a.alpha[i]) == 1.0 / (1.0 + AlphaLogArgument(rest))
    ensures SoftTargets(a, sigmoid)[i] == rest
  {
    SoftTargetAtInitIsRest(rest, a.alpha[i], sigmoid);
  }

  /** Element i of the soft forward pass. */
  lemma SoftForwardAt(a: AdaRoundQuantizer, x: seq<real>, sigmoid: real -> real, i: nat)
    requires ValidBits(a.nBits) && a.delta > 0.0 && |x| == |a.alpha|
    requires a.roundMode == "learned_hard_sigmoid" && a.softTargets
    requires i < |x|
    ensures AdaForward(a, x, sigmoid).Ok?
    ensures AdaForward(a, x, sigmoid).value[i]
      == Dequant(SoftLevel(x[i] / a.delta, SoftTargets(a, sigmoid)[i], SignedMin(a.nBits), SignedMax(a.nBits)), a.delta)
  {
  }

  /**
   * Right after initialisation, with soft targets on, AdaRound reproduces
   * every weight whose x / delta lies inside the signed range: floor plus
   * remainder is x / delta again.
   */
  lemma {:induction false} SoftForwardAtInitReproducesWeight(
    uaq: WUniformAffineQuantizer, weight: seq<real>, log: real -> real, sigmoid: real -> real, i: nat)
    requires uaq.Valid()
    requires forall z: real :: z > 0.0 ==> sigmoid(-log(z)) == 1.0 / (1.0 + z)
    requires i < |weight|
    requires SignedMin(uaq.nBits) as real <= weight[i] / uaq.delta <= SignedMax(uaq.nBits) as real
    ensures var a := NewAdaRound(uaq, weight, "learned_hard_sigmoid", log);
      a.Ok? && AdaForward(a.value.(softTargets := true), weight, sigmoid).Ok?
      && AdaForward(a.value.(softTargets := true), weight, sigmoid).value[i] == weight[i]
  {
    var a := NewAdaRound(uaq, weight, "learned_hard_sigmoid", log).value.(softTargets := true);
    var z := AlphaLogArgument(Rest(weight[i], uaq.delta));
    assert a.alpha[i] == -log(z);
    SoftForwardOnRest(a, weight, sigmoid, i);
  }
}
