/*
 * The layer wrappers of the tuning loop: `WrapperLinear` and
 * `WrapperTransformerConv1d` (one class, told apart by the wrapped layer's
 * kind), the in-place clamping of their min/max scales, unwrapping back
 * to a layer with the snapshot taken by the loop, the block-level
 * `wrapper_block` / `unwrapper_block`, and `WrapperMultiblock.forward`.
 * `quant_weight` and the linear map are function parameters.
 */
module LayerWrappers {
  import opened Common
  import opened Config

  /**
   * A quantizable layer: its kind, the attributes `set_layerwise_config`
   * put on it, its weight, and the `scale` / `zp` attributes unwrapping
   * leaves on it (`None` while absent).
   */
  datatype Layer = Layer(kind: Kind, attrs: LayerAttrs, weight: Tensor, scale: Option<Tensor>, zp: Option<Tensor>)

  /** What `quant_weight` returns: the quantize-dequantized weight, the scale and the zero point (possibly `None`). */
  datatype QResult = QResult(qdq: Tensor, scale: Tensor, zp: Option<Tensor>)

  /**
   * `quant_weight(weight, bits, group_size, sym, v, min_scale, max_scale, scale_dtype)`;
   * a `v` of `None` is the integer `0` the neutral fallback passes.
   */
  type QuantWeight = (Tensor, Value, Value, Value, Option<Tensor>, seq<real>, seq<real>, Value) -> QResult

  /** `clamp(s, -1, 0)` on every entry of a scale tensor. */
  function ClampScales(s: seq<real>): (r: seq<real>)
    ensures |r| == |s|
    ensures forall k :: 0 <= k < |s| ==> r[k] == ClampReal(s[k], -1.0, 0.0)
  {
    seq(|s|, k requires 0 <= k < |s| => ClampReal(s[k], -1.0, 0.0))
  }

  /** Clamped scales lie in [-1, 0], and scales already there are left alone. */
  lemma ClampScalesRange(s: seq<real>)
    ensures forall k :: 0 <= k < |s| ==> -1.0 <= ClampScales(s)[k] <= 0.0
    ensures (forall k :: 0 <= k < |s| ==> -1.0 <= s[k] <= 0.0) <==> ClampScales(s) == s
  {
    if forall k :: 0 <= k < |s| ==> -1.0 <= s[k] <= 0.0 {
      assert ClampScales(s) == s;
    }
  }

  /** Clamping twice is clamping once, so the wrapper's re-clamp of clamped scales changes nothing. */
  lemma ClampScalesIdempotent(s: seq<real>)
    ensures ClampScales(ClampScales(s)) == ClampScales(s)
  {
    ClampScalesRange(s);
    ClampScalesRange(ClampScales(s));
  }

  function Zeros(n: nat): (r: seq<real>)
    ensures |r| == n && forall k :: 0 <= k < n ==> r[k] == 0.0
  {
    seq(n, _ => 0.0)
  }

  /** `torch.zeros(t.shape)`. */
  function ZerosLike(t: Tensor): (r: Tensor)
    ensures |r| == |t| && forall i :: 0 <= i < |t| ==> r[i] == Zeros(|t[i]|)
  {
    seq(|t|, i requires 0 <= i < |t| => Zeros(|t[i]|))
  }

  /** The 0-dimensional `torch.tensor(0)`. */
  const ZeroScale: seq<real> := [0.0]

  predicate Rectangular(m: Tensor) {
    forall i :: 0 <= i < |m| ==> |m[i]| == |m[0]|
  }

  /** `m.t()` for a matrix given by its rows (the width is that of the first row). */
  function Transpose(m: Tensor): (t: Tensor)
    ensures |t| == (if m == [] then 0 else |m[0]|)
    ensures forall j :: 0 <= j < |t| ==> |t[j]| == |m|
    ensures forall i, j :: 0 <= j < |t| && 0 <= i < |m| && j < |m[i]| ==> t[j][i] == m[i][j]
  {
    if m == [] then []
    else seq(|m[0]|, j requires 0 <= j < |m[0]| => seq(|m|, i requires 0 <= i < |m| => if j < |m[i]| then m[i][j] else 0.0))
  }

  /** Transposing a matrix with at least one column twice gives it back. */
  lemma TransposeTwice(m: Tensor)
    requires Rectangular(m) && (m != [] ==> |m[0]| > 0)
    ensures Transpose(Transpose(m)) == m
  {
    if m != [] {
      var t := Transpose(m);
      var tt := Transpose(t);
      assert |tt| == |m|;
      forall i | 0 <= i < |m|
        ensures tt[i] == m[i]
      {
        assert |tt[i]| == |m[i]|;
        forall j | 0 <= j < |m[i]|
          ensures tt[i][j] == m[i][j]
        {
          assert tt[i][j] == t[j][i];
        }
      }
    }
  }

  /** The weight a wrapper quantizes: a linear layer's own, a `Conv1D`'s transposed (`weight.t()`). */
  function Oriented(l: Layer): (w: Tensor)
    ensures l.kind != Conv1D ==> w == l.weight
    ensures l.kind == Conv1D ==> w == Transpose(l.weight)
  {
    if l.kind == Conv1D then Transpose(l.weight) else l.weight
  }

  /**
   * Calling `quant_weight` with the wrapper's `scale_dtype` attribute,
   * which is an AttributeError when the wrapper never set it.
   */
  function QuantWeightCall(qw: QuantWeight, w: Tensor, bits: Value, groupSize: Value, sym: Value, v: Option<Tensor>,
                           minScale: seq<real>, maxScale: seq<real>, scaleDtype: Option<Value>): (r: Result<QResult>)
    ensures r.Err? <==> scaleDtype.None?
    ensures r.Err? ==> r.error == AttributeError
    ensures r.Ok? ==> r.value == qw(w, bits, groupSize, sym, v, minScale, maxScale, scaleDtype.value)
  {
    if scaleDtype.None? then Err(AttributeError)
    else Ok(qw(w, bits, groupSize, sym, v, minScale, maxScale, scaleDtype.value))
  }

  /**
   * The `scale_dtype` attribute a wrapper of a layer of kind `k` ends up
   * with: `WrapperLinear` copies it from the layer, and so does the
   * corrected `WrapperTransformerConv1d`; as written the latter never
   * sets it.
   */
  function ScaleDtypeAttr(k: Kind, layerDtype: Value, asWritten: bool): (d: Option<Value>)
    ensures d.None? <==> asWritten && k == Conv1D
    ensures d.Some? ==> d.value == layerDtype
  {
    if asWritten && k == Conv1D then None else Some(layerDtype)
  }

  /**
   * As written, every forward or unwrap of a `Conv1D` wrapper fails at the
   * `self.scale_dtype` read, whatever the weight and the scales.
   */
  lemma Conv1DWrapperFailsAsWritten(qw: QuantWeight, w: Tensor, bits: Value, groupSize: Value, sym: Value,
                                    v: Option<Tensor>, minScale: seq<real>, maxScale: seq<real>, layerDtype: Value)
    ensures QuantWeightCall(qw, w, bits, groupSize, sym, v, minScale, maxScale, ScaleDtypeAttr(Conv1D, layerDtype, true))
      == Err(AttributeError)
  {
  }

  /**
   * A wrapped layer during training: the layer, the settings copied from
   * it, the oriented weight, the rounding offsets `value` and the min/max
   * scales the optimiser tunes.
   */
  class Wrapper {
    const orig: Layer
    const numBits: Value
    const groupSize: Value
    const sym: Value
    const scaleDtype: Option<Value>
    const weightT: Tensor
    var value: Tensor
    var minScale: seq<real>
    var maxScale: seq<real>

    /**
     * `WrapperLinear(m)` / `WrapperTransformerConv1d(m)` (the latter, as
     * written, without `scale_dtype`): zero offsets of the weight's shape,
     * and zero scales of the scale shape when min/max tuning is on, the
     * scalar `tensor(0)` otherwise.
     */
    constructor(orig: Layer, enableMinmaxTuning: bool, scaleLen: nat, asWritten: bool)
      ensures this.orig == orig
      ensures numBits == orig.attrs.bits && groupSize == orig.attrs.groupSize && sym == orig.attrs.sym
      ensures scaleDtype == ScaleDtypeAttr(orig.kind, orig.attrs.scaleDtype, asWritten)
      ensures weightT == Oriented(orig)
      ensures value == ZerosLike(Oriented(orig))
      ensures minScale == (if enableMinmaxTuning then Zeros(scaleLen) else ZeroScale)
      ensures maxScale == minScale
    {
      this.orig := orig;
      numBits := orig.attrs.bits;
      groupSize := orig.attrs.groupSize;
      sym := orig.attrs.sym;
      scaleDtype := ScaleDtypeAttr(orig.kind, orig.attrs.scaleDtype, asWritten);
      weightT := Oriented(orig);
      value := ZerosLike(Oriented(orig));
      var s := if enableMinmaxTuning then Zeros(scaleLen) else ZeroScale;
      minScale := s;
      maxScale := s;
    }

    /**
     * `forward(x)`: clamp both scales into [-1, 0] in place, then apply
     * the linear map with the weight quantized under the current offsets
     * and scales.
     */
    method Forward(x: Tensor, qw: QuantWeight, linear: (Tensor, Tensor) -> Tensor) returns (r: Result<Tensor>)
      modifies this
      ensures minScale == ClampScales(old(minScale)) && maxScale == ClampScales(old(maxScale))
      ensures value == old(value)
      ensures forall k :: 0 <= k < |minScale| ==> -1.0 <= minScale[k] <= 0.0
      ensures forall k :: 0 <= k < |maxScale| ==> -1.0 <= maxScale[k] <= 0.0
      ensures r.Err? <==> scaleDtype.None?
      ensures r.Ok? ==> r.value == linear(x, qw(weightT, numBits, groupSize, sym, Some(value), minScale, maxScale, scaleDtype.value).qdq)
    {
      minScale := ClampScales(minScale);
      maxScale := ClampScales(maxScale);
      var q := QuantWeightCall(qw, weightT, numBits, groupSize, sym, Some(value), minScale, maxScale, scaleDtype);
      if q.Err? {
        return Err(q.error);
      }
      return Ok(linear(x, q.value.qdq));
    }

    /**
     * `unwrapper(v, min_scale, max_scale)`: clamp the given scales, quantize
     * the weight with them, write the result back into the layer (transposed
     * back for `Conv1D`) and record the scale and zero point on it.  A
     * `Conv1D` wrapper calls `.to` on the zero point without a `None` check.
     */
    function Unwrapped(v: Option<Tensor>, minS: seq<real>, maxS: seq<real>, qw: QuantWeight): (r: Result<Layer>)
      ensures r.Ok? ==> r.value.kind == orig.kind && r.value.attrs == orig.attrs
      ensures r.Ok? ==> scaleDtype.Some?
      ensures r.Ok? ==>
        var q := qw(weightT, numBits, groupSize, sym, v, ClampScales(minS), ClampScales(maxS), scaleDtype.value);
        && r.value.scale == Some(q.scale) && r.value.zp == q.zp
        && (orig.kind == Conv1D ==> r.value.weight == Transpose(q.qdq) && q.zp.Some?)
        && (orig.kind != Conv1D ==> r.value.weight == q.qdq)
      ensures r.Err? ==> r.error == AttributeError
    {
      match QuantWeightCall(qw, weightT, numBits, groupSize, sym, v, ClampScales(minS), ClampScales(maxS), scaleDtype)
      case Err(e) => Err(e)
      case Ok(q) =>
        if orig.kind == Conv1D && q.zp.None? then Err(AttributeError)
        else Ok(orig.(weight := if orig.kind == Conv1D then Transpose(q.qdq) else q.qdq, scale := Some(q.scale), zp := q.zp))
    }
  }

  /**
   * Unwrapping clamps its scales itself, so scales clamped beforehand
   * (as `unwrapper_block` does) give the same layer.
   */
  lemma UnwrapClampsOnce(w: Wrapper, v: Option<Tensor>, minS: seq<real>, maxS: seq<real>, qw: QuantWeight)
    ensures w.Unwrapped(v, ClampScales(minS), ClampScales(maxS), qw) == w.Unwrapped(v, minS, maxS, qw)
  {
    ClampScalesIdempotent(minS);
    ClampScalesIdempotent(maxS);
  }

  /**
   * With a quantizer that hands the weight back unchanged, unwrapping a
   * freshly built wrapper restores the layer's weight, for `Conv1D`
   * layers through the two transpositions.
   */
  lemma UnwrapIdentityRestoresWeight(w: Wrapper, v: Option<Tensor>, minS: seq<real>, maxS: seq<real>, qw: QuantWeight)
    requires w.weightT == Oriented(w.orig) && w.scaleDtype.Some?
    requires Rectangular(w.orig.weight) && (w.orig.weight != [] ==> |w.orig.weight[0]| > 0)
    requires forall t, b, g, s, v', mn, mx, d :: qw(t, b, g, s, v', mn, mx, d).qdq == t && qw(t, b, g, s, v', mn, mx, d).zp.Some?
    ensures w.Unwrapped(v, minS, maxS, qw).Ok?
    ensures w.Unwrapped(v, minS, maxS, qw).value.weight == w.orig.weight
  {
    if w.orig.kind == Conv1D {
      TransposeTwice(w.orig.weight);
    }
  }

  /** A slot of a block: a plain layer, a wrapper installed in its place, or any other module. */
  datatype Slot = LayerSlot(layer: Layer) | WrapperSlot(wrapper: Wrapper) | OtherSlot

  predicate Distinct(ns: seq<string>) {
    forall i, j :: 0 <= i < j < |ns| ==> ns[i] != ns[j]
  }

  /** What `wrapper_block` reports: wrapped and skipped layer names in visiting order, and the error it stopped at. */
  datatype WrapOutcome = WrapOutcome(quantized: seq<string>, unquantized: seq<string>, failure: Option<Error>)

  /**
   * `wrapper_block` over the names `ns` still to visit: a supported layer
   * that `check_to_quantized` rejects is listed as unquantized; a linear
   * layer is wrapped only in AutoRound mode (the other mode is a
   * NotImplementedError here); a `Conv1D` layer is always wrapped.
   */
  function WrapPlan(ns: seq<string>, slots: map<string, Slot>, useAutoround: bool, toQuantize: LayerAttrs -> bool,
                    acc: WrapOutcome): (r: WrapOutcome)
    ensures acc.failure.Some? ==> r == acc
    ensures r.failure.Some? ==> r.failure == Some(NotImplemented) || r.failure == acc.failure
    decreases |ns|
  {
    if ns == [] || acc.failure.Some? then acc
    else
      var n := ns[0];
      var next :=
        if n in slots && slots[n].LayerSlot? && Supported(slots[n].layer.kind) then
          var l := slots[n].layer;
          if !toQuantize(l.attrs) then acc.(unquantized := acc.unquantized + [n])
          else if l.kind == Linear && !useAutoround then acc.(failure := Some(NotImplemented))
          else acc.(quantized := acc.quantized + [n])
        else acc;
      WrapPlan(ns[1..], slots, useAutoround, toQuantize, next)
  }

  /** The wrapper in slot `s` is a fresh wrapper of `l` as `wrapper_block` builds it. */
  ghost predicate Installed(s: Slot, l: Layer, enableMinmaxTuning: bool, asWritten: bool, scaleLen: Layer -> nat)
    reads if s.WrapperSlot? then {s.wrapper} else {}
  {
    && s.WrapperSlot?
    && s.wrapper.orig == l
    && s.wrapper.scaleDtype == ScaleDtypeAttr(l.kind, l.attrs.scaleDtype, asWritten)
    && s.wrapper.weightT == Oriented(l)
    && s.wrapper.value == ZerosLike(Oriented(l))
    && s.wrapper.minScale == (if enableMinmaxTuning then Zeros(scaleLen(l)) else ZeroScale)
    && s.wrapper.maxScale == s.wrapper.minScale
  }

  /**
   * Outside AutoRound mode, `wrapper_block` raises NotImplementedError at
   * the first linear layer it is to quantize; in AutoRound mode it never
   * raises.
   */
  lemma {:induction false} WrapPlanFailure(ns: seq<string>, slots: map<string, Slot>, useAutoround: bool,
                                           toQuantize: LayerAttrs -> bool, acc: WrapOutcome)
    requires acc.failure.None?
    ensures var r := WrapPlan(ns, slots, useAutoround, toQuantize, acc);
      && (useAutoround ==> r.failure.None?)
      && (r.failure.None? <==> useAutoround || forall n :: n in ns ==> !LinearToQuantize(slots, toQuantize, n))
    decreases |ns|
  {
    if ns != [] {
      var n := ns[0];
      var next :=
        if n in slots && slots[n].LayerSlot? && Supported(slots[n].layer.kind) then
          var l := slots[n].layer;
          if !toQuantize(l.attrs) then acc.(unquantized := acc.unquantized + [n])
          else if l.kind == Linear && !useAutoround then acc.(failure := Some(NotImplemented))
          else acc.(quantized := acc.quantized + [n])
        else acc;
      assert WrapPlan(ns, slots, useAutoround, toQuantize, acc) == WrapPlan(ns[1..], slots, useAutoround, toQuantize, next);
      assert forall m :: m in ns <==> m == n || m in ns[1..];
      if next.failure.None? {
        assert useAutoround || !LinearToQuantize(slots, toQuantize, n);
        WrapPlanFailure(ns[1..], slots, useAutoround, toQuantize, next);
      } else {
        assert WrapPlan(ns[1..], slots, useAutoround, toQuantize, next) == next;
        assert !useAutoround && LinearToQuantize(slots, toQuantize, n);
      }
    }
  }

  /** Slot `n` holds a linear layer that `check_to_quantized` accepts. */
  predicate LinearToQuantize(slots: map<string, Slot>, toQuantize: LayerAttrs -> bool, n: string) {
    n in slots && slots[n].LayerSlot? && slots[n].layer.kind == Linear && toQuantize(slots[n].layer.attrs)
  }

  /**
   * What wrapping a block leads `quant_block` into: the exception of
   * `wrapper_block` itself, else an AttributeError when some wrapper it
   * installed has no `scale_dtype` (every wrapper's forward and unwrap
   * read it), else nothing.
   */
  function WrapFailure(ns: seq<string>, slots: map<string, Slot>, useAutoround: bool, asWritten: bool,
                       toQuantize: LayerAttrs -> bool): (r: Option<Error>)
    ensures r.Some? ==> r.value in {NotImplemented, AttributeError}
  {
    var w := WrapPlan(ns, slots, useAutoround, toQuantize, WrapOutcome([], [], None));
    if w.failure.Some? then w.failure
    else if exists i :: 0 <= i < |w.quantized| && WrappedWithoutDtype(slots, w.quantized[i], asWritten) then Some(AttributeError)
    else None
  }

  /** The wrapper `wrapper_block` installs in slot `n` has no `scale_dtype`. */
  predicate WrappedWithoutDtype(slots: map<string, Slot>, n: string, asWritten: bool) {
    n in slots && slots[n].LayerSlot? && ScaleDtypeAttr(slots[n].layer.kind, slots[n].layer.attrs.scaleDtype, asWritten).None?
  }

  /**
   * Corrected, wrapping a block in AutoRound mode leaves `quant_block`
   * nothing to fail on; as written, a block with a `Conv1D` layer to
   * quantize fails with AttributeError.
   */
  lemma WrapFailureOutcomes(ns: seq<string>, slots: map<string, Slot>, toQuantize: LayerAttrs -> bool, n: string)
    ensures WrapFailure(ns, slots, true, false, toQuantize).None?
    ensures n in WrapPlan(ns, slots, true, toQuantize, WrapOutcome([], [], None)).quantized
            && n in slots && slots[n].LayerSlot? && slots[n].layer.kind == Conv1D
            ==> WrapFailure(ns, slots, true, true, toQuantize) == Some(AttributeError)
  {
    var w := WrapPlan(ns, slots, true, toQuantize, WrapOutcome([], [], None));
    WrapPlanFailure(ns, slots, true, toQuantize, WrapOutcome([], [], None));
    if n in w.quantized && n in slots && slots[n].LayerSlot? && slots[n].layer.kind == Conv1D {
      var i :| 0 <= i < |w.quantized| && w.quantized[i] == n;
      assert WrappedWithoutDtype(slots, w.quantized[i], true);
    }
  }

  /** What the named slots of a block hold; the names are those `named_modules()` visits, in order. */
  class Block {
    const names: seq<string>
    var slots: map<string, Slot>

    constructor(names: seq<string>, slots: map<string, Slot>)
      ensures this.names == names && this.slots == slots
    {
      this.names := names;
      this.slots := slots;
    }

    /** `wrapper_block`: replace each layer to be quantized by a fresh wrapper, in visiting order. */
    method WrapBlock(enableMinmaxTuning: bool, useAutoround: bool, asWritten: bool, toQuantize: LayerAttrs -> bool,
                     scaleLen: Layer -> nat)
      returns (r: WrapOutcome)
      requires Distinct(names)
      modifies this
      ensures r == WrapPlan(names, old(slots), useAutoround, toQuantize, WrapOutcome([], [], None))
      ensures slots.Keys == old(slots).Keys
      ensures forall n :: n in slots && n !in r.quantized ==> slots[n] == old(slots)[n]
      ensures forall n :: n in r.quantized ==>
        (&& n in old(slots) && old(slots)[n].LayerSlot? && slots[n].WrapperSlot?
         && fresh(slots[n].wrapper) && Installed(slots[n], old(slots)[n].layer, enableMinmaxTuning, asWritten, scaleLen))
    {
      ghost var slots0 := slots;
      r := WrapOutcome([], [], None);
      var i := 0;
      while i < |names| && r.failure.None?
        invariant 0 <= i <= |names|
        invariant WrapPlan(names[i..], slots0, useAutoround, toQuantize, r)
               == WrapPlan(names, slots0, useAutoround, toQuantize, WrapOutcome([], [], None))
        invariant forall q :: q in r.quantized ==> q in names[..i]
        invariant slots.Keys == slots0.Keys
        invariant forall k :: i <= k < |names| && names[k] in slots ==> slots[names[k]] == slots0[names[k]]
        invariant forall n :: n in slots && n !in r.quantized ==> slots[n] == slots0[n]
        invariant forall n :: n in r.quantized ==>
          (&& n in slots0 && slots0[n].LayerSlot? && n in slots && slots[n].WrapperSlot?
           && fresh(slots[n].wrapper) && Installed(slots[n], slots0[n].layer, enableMinmaxTuning, asWritten, scaleLen))
        decreases |names| - i
      {
        var n := names[i];
        assert names[i..][0] == n && names[i..][1..] == names[i + 1..];
        if n in slots && slots[n].LayerSlot? && Supported(slots[n].layer.kind) {
          var l := slots[n].layer;
          if !toQuantize(l.attrs) {
            r := r.(unquantized := r.unquantized + [n]);
          } else if l.kind == Linear && !useAutoround {
            r := r.(failure := Some(NotImplemented));
          } else {
            assert n !in names[..i];
            var w := new Wrapper(l, enableMinmaxTuning, scaleLen(l), asWritten);
            slots := slots[n := WrapperSlot(w)];
            r := r.(quantized := r.quantized + [n]);
          }
        }
        i := i + 1;
      }
      if i < |names| {
        assert WrapPlan(names[i..], slots0, useAutoround, toQuantize, r) == r;
      }
    }
  }

  /** Whether each of `vs`, `min_scales`, `max_scales` is a dictionary (the loop's snapshot) or still `tensor(0)`. */
  datatype Snapshot = Snapshot(vs: Option<map<string, Tensor>>, mins: Option<map<string, seq<real>>>, maxs: Option<map<string, seq<real>>>)

  /** The neutral snapshot: the loop never improved, so all three are still `tensor(0)`. */
  const NoSnapshot := Snapshot(None, None, None)

  /**
   * The arguments `unwrapper_block` passes for layer `n`: `0` and zero
   * scales for whatever is not a dictionary, otherwise the entry (a
   * KeyError when missing), scales clamped into [-1, 0].
   */
  function UnwrapArgs(s: Snapshot, n: string): (r: Result<(Option<Tensor>, seq<real>, seq<real>)>)
    ensures r.Err? <==> (s.vs.Some? && n !in s.vs.value) || (s.mins.Some? && n !in s.mins.value)
                        || (s.maxs.Some? && n !in s.maxs.value)
    ensures r.Err? ==> r.error == KeyError
    ensures s == NoSnapshot ==> r == Ok((None, ZeroScale, ZeroScale))
    ensures r.Ok? && s.vs.Some? ==> n in s.vs.value && r.value.0 == Some(s.vs.value[n])
    ensures r.Ok? && s.vs.None? ==> r.value.0 == None
    ensures r.Ok? && s.mins.Some? ==> n in s.mins.value && r.value.1 == ClampScales(s.mins.value[n])
    ensures r.Ok? && s.mins.None? ==> r.value.1 == ZeroScale
    ensures r.Ok? && s.maxs.Some? ==> n in s.maxs.value && r.value.2 == ClampScales(s.maxs.value[n])
    ensures r.Ok? && s.maxs.None? ==> r.value.2 == ZeroScale
  {
    if s.vs.Some? && n !in s.vs.value then Err(KeyError)
    else if s.mins.Some? && n !in s.mins.value then Err(KeyError)
    else if s.maxs.Some? && n !in s.maxs.value then Err(KeyError)
    else
      Ok((if s.vs.Some? then Some(s.vs.value[n]) else None,
          if s.mins.Some? then ClampScales(s.mins.value[n]) else ZeroScale,
          if s.maxs.Some? then ClampScales(s.maxs.value[n]) else ZeroScale))
  }

  /** `unwrapper_block` over the names `ns` still to visit: every wrapper is replaced by its unwrapped layer. */
  function UnwrapPlan(ns: seq<string>, slots: map<string, Slot>, s: Snapshot, qw: QuantWeight): (r: (map<string, Slot>, Option<Error>))
    ensures r.0.Keys == slots.Keys
    ensures r.1.Some? ==> r.1.value in {KeyError, AttributeError}
    decreases |ns|
  {
    if ns == [] then (slots, None)
    else
      var n := ns[0];
      if n in slots && slots[n].WrapperSlot? then
        match UnwrapArgs(s, n)
        case Err(e) => (slots, Some(e))
        case Ok(a) =>
          match slots[n].wrapper.Unwrapped(a.0, a.1, a.2, qw)
          case Err(e) => (slots, Some(e))
          case Ok(l) => UnwrapPlan(ns[1..], slots[n := LayerSlot(l)], s, qw)
      else UnwrapPlan(ns[1..], slots, s, qw)
  }

  /**
   * After a complete unwrap with a snapshot of the loop, no wrapper is left
   * among the visited names, and each former wrapper holds the layer
   * unwrapped with that layer's snapshot entries.
   */
  lemma {:induction false} UnwrapPlanResult(ns: seq<string>, slots: map<string, Slot>, s: Snapshot, qw: QuantWeight, n: string)
    requires Distinct(ns)
    requires UnwrapPlan(ns, slots, s, qw).1.None?
    requires n in ns && n in slots
    ensures var after := UnwrapPlan(ns, slots, s, qw).0;
      && !after[n].WrapperSlot?
      && (slots[n].WrapperSlot? ==>
            && UnwrapArgs(s, n).Ok?
            && var a := UnwrapArgs(s, n).value;
            && slots[n].wrapper.Unwrapped(a.0, a.1, a.2, qw).Ok?
            && after[n] == LayerSlot(slots[n].wrapper.Unwrapped(a.0, a.1, a.2, qw).value))
      && (!slots[n].WrapperSlot? ==> after[n] == slots[n])
    decreases |ns|
  {
    var m := ns[0];
    assert forall i :: 0 <= i < |ns[1..]| ==> ns[1..][i] == ns[i + 1];
    if m in slots && slots[m].WrapperSlot? {
      var a := UnwrapArgs(s, m).value;
      var l := slots[m].wrapper.Unwrapped(a.0, a.1, a.2, qw).value;
      var next := slots[m := LayerSlot(l)];
      if n == m {
        UnwrapPlanKeeps(ns[1..], next, s, qw, n);
      } else {
        UnwrapPlanResult(ns[1..], next, s, qw, n);
      }
    } else if n == m {
      UnwrapPlanKeeps(ns[1..], slots, s, qw, n);
    } else {
      UnwrapPlanResult(ns[1..], slots, s, qw, n);
    }
  }

  /** Helper: a slot that is not a wrapper, or whose name is not visited, is left as it is. */
  lemma {:induction false} UnwrapPlanKeeps(ns: seq<string>, slots: map<string, Slot>, s: Snapshot, qw: QuantWeight, n: string)
    requires n in slots && (n !in ns || !slots[n].WrapperSlot?)
    ensures UnwrapPlan(ns, slots, s, qw).0[n] == slots[n]
    decreases |ns|
  {
    if ns != [] {
      var m := ns[0];
      assert n !in ns ==> n !in ns[1..];
      if m in slots && slots[m].WrapperSlot? {
        match UnwrapArgs(s, m)
        case Err(_) =>
        case Ok(a) =>
          match slots[m].wrapper.Unwrapped(a.0, a.1, a.2, qw)
          case Err(_) =>
          case Ok(l) => UnwrapPlanKeeps(ns[1..], slots[m := LayerSlot(l)], s, qw, n);
      } else {
        UnwrapPlanKeeps(ns[1..], slots, s, qw, n);
      }
    }
  }

  /**
   * The neutral fallback: with no snapshot, every wrapper is unwrapped
   * with `v = 0` and zero scales, and no dictionary lookup can fail.
   */
  lemma NeutralUnwrap(w: Wrapper, n: string, qw: QuantWeight)
    ensures UnwrapArgs(NoSnapshot, n) == Ok((None, ZeroScale, ZeroScale))
    ensures ClampScales(ZeroScale) == ZeroScale
  {
    assert ClampScales(ZeroScale)[0] == 0.0;
  }

  /** `unwrapper_block` on a block, in visiting order. */
  method UnwrapBlock(b: Block, s: Snapshot, qw: QuantWeight) returns (failure: Option<Error>)
    modifies b
    ensures (b.slots, failure) == UnwrapPlan(b.names, old(b.slots), s, qw)
  {
    var i := 0;
    failure := None;
    while i < |b.names|
      invariant 0 <= i <= |b.names|
      invariant UnwrapPlan(b.names[i..], b.slots, s, qw) == UnwrapPlan(b.names, old(b.slots), s, qw)
      decreases |b.names| - i
    {
      var n := b.names[i];
      assert b.names[i..][0] == n && b.names[i..][1..] == b.names[i + 1..];
      if n in b.slots && b.slots[n].WrapperSlot? {
        var w := b.slots[n].wrapper;
        var a := UnwrapArgs(s, n);
        if a.Err? {
          failure := Some(a.error);
          return;
        }
        var l := w.Unwrapped(a.value.0, a.value.1, a.value.2, qw);
        if l.Err? {
          failure := Some(l.error);
          return;
        }
        b.slots := b.slots[n := LayerSlot(l.value)];
      }
      i := i + 1;
    }
  }

  /** What a layer of a multi-block returns: a tensor, or a tuple whose first element is the hidden state. */
  datatype LayerOutput = TensorOut(tensor: Tensor) | TupleOut(items: seq<Tensor>)

  /** The hidden state passed on: the tensor itself or the first element of the tuple. */
  function Hidden(o: LayerOutput): (r: Result<Tensor>)
    ensures r.Err? <==> o.TupleOut? && o.items == []
  {
    match o
    case TensorOut(t) => Ok(t)
    case TupleOut(items) => if items == [] then Err(IndexError) else Ok(items[0])
  }

  /** The blocks of a group run one after another, each on the previous one's hidden state. */
  function Chain(layers: seq<Tensor -> LayerOutput>, x: Tensor): (r: Result<Tensor>)
    ensures r.Err? ==> r.error == IndexError
    decreases |layers|
  {
    if layers == [] then Ok(x)
    else
      match Hidden(layers[0](x))
      case Err(e) => Err(e)
      case Ok(h) => Chain(layers[1..], h)
  }

  /** `WrapperMultiblock.forward`. */
  method MultiblockForward(layers: seq<Tensor -> LayerOutput>, x: Tensor) returns (r: Result<Tensor>)
    ensures r == Chain(layers, x)
  {
    var h := x;
    var i := 0;
    while i < |layers|
      invariant 0 <= i <= |layers|
      invariant Chain(layers[i..], h) == Chain(layers, x)
      decreases |layers| - i
    {
      assert layers[i..][0] == layers[i] && layers[i..][1..] == layers[i + 1..];
      var o := Hidden(layers[i](h));
      if o.Err? {
        return Err(o.error);
      }
      h := o.value;
      i := i + 1;
    }
    assert layers[i..] == [];
    return Ok(h);
  }

  /**
   * A multi-block of `a + b` is the multi-block of `a` followed by that
   * of `b`: grouping consecutive blocks does not change what they compute.
   */
  lemma {:induction false} ChainAppend(a: seq<Tensor -> LayerOutput>, b: seq<Tensor -> LayerOutput>, x: Tensor)
    ensures Chain(a + b, x) == match Chain(a, x) case Err(e) => Err(e) case Ok(h) => Chain(b, h)
    decreases |a|
  {
    if a != [] {
      assert (a + b)[0] == a[0] && (a + b)[1..] == a[1..] + b;
      match Hidden(a[0](x)) {
        case Err(e) =>
        case Ok(h) => ChainAppend(a[1..], b, h);
      }
    } else {
      assert a + b == b;
    }
  }
}
