/*
 * The `AutoRound` object: its settings and `weight_config`, the input
 * buffer and forward swap used to capture the first block's inputs, the
 * calibration loop, `quant_block`, the driver `qdq_weight_round` and
 * `quantize`.  Each method is proved against the function that specifies
 * it in `Config`, `Capture`, `Calib`, `BlockLoop` or `Pipeline`.
 */
module AutoRound {
  import opened Common
  import opened Config
  import opened Capture
  import opened Calib
  import opened BlockLoop
  import opened LayerWrappers
  import opened Pipeline

  /** The names of `named_modules()`, in order. */
  function Names(ms: seq<NamedModule>): (r: seq<string>)
    ensures |r| == |ms| && forall i :: 0 <= i < |ms| ==> r[i] == ms[i].name
  {
    seq(|ms|, i requires 0 <= i < |ms| => ms[i].name)
  }

  /** Adding one module to the walk adds its name to the supported names exactly when its kind is supported. */
  lemma SupportedNamesSnoc(ms: seq<NamedModule>, m: NamedModule)
    ensures SupportedNames(ms + [m]) == SupportedNames(ms) + (if Supported(m.kind) then {m.name} else {})
  {
    var all := ms + [m];
    forall n | n in SupportedNames(all)
      ensures n in SupportedNames(ms) + (if Supported(m.kind) then {m.name} else {})
    {
      var i :| 0 <= i < |all| && Supported(all[i].kind) && all[i].name == n;
      if i < |ms| {
        assert ms[i] == all[i];
      }
    }
    forall n | n in SupportedNames(ms)
      ensures n in SupportedNames(all)
    {
      var i :| 0 <= i < |ms| && Supported(ms[i].kind) && ms[i].name == n;
      assert all[i] == ms[i];
    }
    if Supported(m.kind) {
      assert all[|ms|] == m;
    }
  }

  /** The model's loop settings `quant_block` reads. */
  function LoopSettingsOf(s: Settings): LoopSettings {
    LoopSettings(s.nSamples, s.trainBs, s.iters, s.notUseBestMse, s.dynamicMaxGap, s.useQuantInput)
  }

  /**
   * The calls the capture receives for the feeds the model was given, in
   * order: a feed whose forward raises before reaching the block
   * (`callOf` gives `None`) adds no call.
   */
  function FeedCalls(callOf: Feed -> Option<Call>, fed: seq<Feed>): (r: seq<Call>)
    ensures |r| <= |fed|
    ensures (forall i :: 0 <= i < |fed| ==> callOf(fed[i]).Some?) ==>
      |r| == |fed| && forall i :: 0 <= i < |fed| ==> r[i] == callOf(fed[i]).value
    ensures (forall i :: 0 <= i < |fed| ==> callOf(fed[i]).None?) ==> r == []
    decreases |fed|
  {
    if fed == [] then []
    else
      var last := callOf(fed[|fed| - 1]);
      FeedCalls(callOf, fed[..|fed| - 1]) + (if last.Some? then [last.value] else [])
  }

  /** Capturing one more call extends the sequence of captured calls. */
  lemma {:induction false} CaptureAllSnoc(inputs: map<string, Captured>, name: string, calls: seq<Call>, c: Call)
    ensures CaptureAll(inputs, name, calls + [c]) == CaptureCall(CaptureAll(inputs, name, calls), name, c).0
    decreases |calls|
  {
    if calls == [] {
      assert CaptureAll(inputs, name, [c]) == CaptureAll(CaptureCall(inputs, name, c).0, name, []);
    } else {
      var next := CaptureCall(inputs, name, calls[0]).0;
      assert (calls + [c])[1..] == calls[1..] + [c];
      CaptureAllSnoc(next, name, calls[1..], c);
    }
  }

  /**
   * What one group call of `qdq_weight_round` returns: `quant_block` on the
   * group, with `lossesOf(i)` the losses of the group starting at `i`,
   * `fwdOf(names)` its float forward and `qfwdOf(names)(s)` its forward
   * once unwrapped with snapshot `s`, `wrapOf(names)` the failure of
   * `wrapper_block` on it, if any, and `unwrapOf(names)(s)` that of
   * `unwrapper_block` with snapshot `s`.  Losses that run out before `iters` is
   * an IndexError.
   */
  function RunGroup(s: Settings, wrapOf: seq<string> -> Option<Error>,
                    unwrapOf: seq<string> -> (Option<nat> -> Option<Error>), lossesOf: nat -> seq<Option<real>>, fwdOf: seq<string> -> (Tensor -> Tensor),
                    qfwdOf: seq<string> -> (Option<nat> -> (Tensor -> Tensor))): GroupCall -> Result<BlockResult>
  {
    (c: GroupCall) => if s.iters <= |lossesOf(c.start)| then
           QuantBlockSpec(LoopSettingsOf(s), c.input, c.qInput, c.skip, wrapOf(c.names), unwrapOf(c.names), lossesOf(c.start), fwdOf(c.names),
                          qfwdOf(c.names))
         else Err(IndexError)
  }

  /** Helper: a group call with enough losses is `quant_block` on the group. */
  lemma RunGroupAt(s: Settings, wrapOf: seq<string> -> Option<Error>,
                   unwrapOf: seq<string> -> (Option<nat> -> Option<Error>), lossesOf: nat -> seq<Option<real>>, fwdOf: seq<string> -> (Tensor -> Tensor),
                   qfwdOf: seq<string> -> (Option<nat> -> (Tensor -> Tensor)), c: GroupCall)
    requires s.iters <= |lossesOf(c.start)|
    ensures RunGroup(s, wrapOf, unwrapOf, lossesOf, fwdOf, qfwdOf)(c)
            == QuantBlockSpec(LoopSettingsOf(s), c.input, c.qInput, c.skip, wrapOf(c.names), unwrapOf(c.names), lossesOf(c.start), fwdOf(c.names),
                          qfwdOf(c.names))
  {
  }

  /**
   * The layer attributes agree with the merged entries: every supported
   * layer named in `names` carries the fields of its merged entry, and
   * every other layer keeps the attributes it had (`attrs0`).
   */
  ghost predicate AttrsSynced(wc: map<string, Entry>, attrs: map<string, LayerAttrs>, attrs0: map<string, LayerAttrs>,
                              names: set<string>)
  {
    && attrs.Keys == attrs0.Keys + names
    && (forall n :: n in names ==> n in wc && n in attrs && attrs[n] == AttrsOf(wc[n]))
    && (forall n :: n in attrs0 && n !in names ==> attrs[n] == attrs0[n])
  }

  /** Storing the merged entry `e` of one more supported layer and copying its fields keeps the attributes in agreement. */
  lemma MergeStepSynced(wc: map<string, Entry>, attrs: map<string, LayerAttrs>, attrs0: map<string, LayerAttrs>,
                        names: set<string>, n: string, e: Entry)
    requires AttrsSynced(wc, attrs, attrs0, names)
    ensures AttrsSynced(wc[n := e], attrs[n := AttrsOf(e)], attrs0, names + {n})
  {
  }

  /** One module of the walk advances the merge of the rest. */
  lemma MergeStepRest(wc: map<string, Entry>, ms: seq<NamedModule>, i: nat, g: Globals)
    requires i < |ms|
    ensures var m := ms[i];
      MergeAll(wc, ms[i..], g)
      == MergeAll(if Supported(m.kind) then wc[m.name := MergeEntry(Lookup(wc, m.name), g)] else wc, ms[i + 1..], g)
  {
    assert ms[i..][0] == ms[i] && ms[i..][1..] == ms[i + 1..];
  }

  /** The buffer after the capture installed on `target` (if any) has received the calls of the feeds `fed`. */
  function Captures(inputs: map<string, Captured>, target: Option<string>, callOf: Feed -> Option<Call>, fed: seq<Feed>)
    : (r: map<string, Captured>)
  {
    if target.Some? then CaptureAll(inputs, target.value, FeedCalls(callOf, fed)) else inputs
  }

  /**
   * Installing the capture on a module of the model and then recovering
   * restores every forward and removes that module's `orig_forward`.
   */
  lemma ReplaceThenRecover(names: seq<string>, fw: map<string, Forward>, orig: map<string, Forward>, tmp: string)
    requires forall i :: 0 <= i < |names| ==> names[i] in fw
    requires tmp in names
    ensures var p := ReplaceForwardSpec(names, fw, orig, tmp);
      && tmp in p.0 && p.0[tmp] == CaptureForward(tmp)
      && RecoverForwardSpec(names, p.0, p.1, tmp) == Ok((fw, orig - {tmp}))
  {
    var p := ReplaceForwardSpec(names, fw, orig, tmp);
    assert p.0[tmp := p.1[tmp]] == fw;
    assert p.1 - {tmp} == orig - {tmp};
  }

  /**
   * `quantize`'s adjustment once the block input is cached: `n_samples`
   * becomes the number of captured samples, and `train_bs` is lowered to
   * it when larger.
   */
  function Resized(s: Settings, rows: nat): (r: Settings)
    ensures r.nSamples == rows && r.trainBs == MinInt(s.trainBs, rows)
    ensures r == s.(nSamples := r.nSamples, trainBs := r.trainBs)
  {
    var s1 := s.(nSamples := rows);
    if rows < s1.trainBs then s1.(trainBs := rows) else s1
  }

  /** The fields of the object that capturing the block input leaves alone. */
  datatype Bookkeeping = Bookkeeping(settings: Settings, weightConfig: map<string, Entry>, attrs: map<string, LayerAttrs>,
                                     layers: map<string, Layer>, preQuantizedBlockNum: int, savedMarkers: seq<nat>,
                                     quantized: bool)

  class AutoRound {
    var settings: Settings
    /** `model.named_modules()`, in order. */
    const modules: seq<NamedModule>
    var weightConfig: map<string, Entry>
    /** The `data_type`/`bits`/`group_size`/`sym`/`scale_dtype` attributes set on the supported layers. */
    var attrs: map<string, LayerAttrs>
    /** The quantizable layers, with the `scale`/`zp` attributes unwrapping leaves on them. */
    var layers: map<string, Layer>
    /** Every module's `forward`, and the `orig_forward` attributes present. */
    var forwards: map<string, Forward>
    var origForwards: map<string, Forward>
    var inputs: map<string, Captured>
    var tmpBlockName: Option<string>
    var preQuantizedBlockNum: int
    /** The `pre_quantized_block_num` values written by the checkpoints, in order. */
    var savedMarkers: seq<nat>
    var quantized: bool

    /** Every module of the model has a forward. */
    ghost predicate Valid()
      reads this
    {
      && (forall i :: 0 <= i < |modules| ==> modules[i].name in forwards)
      && (forall n :: n in forwards ==> n in Names(modules))
    }

    ghost function Kept(): Bookkeeping
      reads this
    {
      Bookkeeping(settings, weightConfig, attrs, layers, preQuantizedBlockNum, savedMarkers, quantized)
    }

    /** The block whose forward is currently the capture, if `tmp_block_name` names one. */
    function CaptureTarget(): (t: Option<string>)
      reads this
      ensures t.Some? ==> t == tmpBlockName && t.value in forwards && forwards[t.value] == CaptureForward(t.value)
      ensures t.None? ==> tmpBlockName.None? || tmpBlockName.value !in forwards
                          || forwards[tmpBlockName.value] != CaptureForward(tmpBlockName.value)
    {
      if tmpBlockName.Some? && tmpBlockName.value in forwards && forwards[tmpBlockName.value] == CaptureForward(tmpBlockName.value)
      then tmpBlockName else None
    }

    constructor Init(s: Settings, ms: seq<NamedModule>, wc: map<string, Entry>, ls: map<string, Layer>,
                     attrs0: map<string, LayerAttrs>)
      ensures settings == s && modules == ms && weightConfig == wc && layers == ls
      ensures attrs == attrs0 && inputs == map[] && tmpBlockName.None?
      ensures forwards == map i | 0 <= i < |ms| :: ms[i].name := ClassForward
      ensures origForwards == map[] && preQuantizedBlockNum == 0 && savedMarkers == [] && !quantized
    {
      settings := s;
      modules := ms;
      weightConfig := wc;
      layers := ls;
      attrs := attrs0;
      inputs := map[];
      tmpBlockName := None;
      forwards := map i | 0 <= i < |ms| :: ms[i].name := ClassForward;
      origForwards := map[];
      preQuantizedBlockNum := 0;
      savedMarkers := [];
      quantized := false;
    }

    /**
     * The constructor: the `enable_full_range` assertion, the defaults,
     * the per-layer merge, then `check_configs`; `_post_init` then takes
     * `pre_quantized_block_num` from the quantization-info file, whose
     * content (when one is configured) is `resumeFrom`.  The object keeps
     * the caller's `weight_config` dict and the model's layers, so the
     * merge is visible to the caller even when `check_configs` then fails:
     * `callerWc` and `callerAttrs` are the caller's dict and the layers'
     * attributes (`attrs0` before the call) once the constructor returns
     * or raises.
     */
    static method Create(a: Args, ms: seq<NamedModule>, wc: map<string, Entry>, ls: map<string, Layer>,
                         attrs0: map<string, LayerAttrs>, resumeFrom: Option<int>)
      returns (r: Result<AutoRound>, callerWc: map<string, Entry>, callerAttrs: map<string, LayerAttrs>)
      ensures r.Err? <==> Construct(a).Err?
      ensures r.Err? ==> r.error == AssertionFailed
      ensures a.enableFullRange ==> callerWc == wc && callerAttrs == attrs0
      ensures !a.enableFullRange ==>
        && callerWc == MergeAll(wc, ms, GlobalsOf(ApplyDefaults(a)))
        && AttrsSynced(callerWc, callerAttrs, attrs0, SupportedNames(ms))
      ensures r.Ok? ==> fresh(r.value) && r.value.Valid() && r.value.modules == ms
      ensures r.Ok? ==> r.value.settings == ApplyDefaults(a) && ConfigsValid(r.value.settings)
      ensures r.Ok? ==> r.value.weightConfig == callerWc && r.value.attrs == callerAttrs
      ensures r.Ok? ==> r.value.preQuantizedBlockNum == resumeFrom.GetOr(0) && r.value.inputs == map[] && !r.value.quantized
    {
      if a.enableFullRange {
        return Err(AssertionFailed), wc, attrs0;
      }
      var s := ApplyDefaults(a);
      var o := new AutoRound.Init(s, ms, wc, ls, attrs0);
      o.SetLayerwiseConfig();
      callerWc, callerAttrs := o.weightConfig, o.attrs;
      if FirstFailingCheck(s).Some? {
        r := Err(AssertionFailed);
        return;
      }
      if resumeFrom.Some? {
        o.preQuantizedBlockNum := resumeFrom.value;
      }
      r := Ok(o);
    }

    /**
     * `set_layerwise_config`: for every supported layer in module order,
     * merge its entry with the global defaults and copy the merged fields
     * onto the layer.
     */
    method SetLayerwiseConfig()
      modifies this
      ensures weightConfig == MergeAll(old(weightConfig), modules, GlobalsOf(settings))
      ensures AttrsSynced(weightConfig, attrs, old(attrs), SupportedNames(modules))
      ensures settings == old(settings) && layers == old(layers) && forwards == old(forwards)
      ensures origForwards == old(origForwards) && inputs == old(inputs) && tmpBlockName == old(tmpBlockName)
      ensures preQuantizedBlockNum == old(preQuantizedBlockNum) && savedMarkers == old(savedMarkers)
      ensures quantized == old(quantized)
    {
      var g := GlobalsOf(settings);
      var wc := weightConfig;
      var at := attrs;
      ghost var names: set<string> := {};
      var i := 0;
      assert modules[..0] == [];
      while i < |modules|
        modifies {}
        invariant 0 <= i <= |modules|
        invariant MergeAll(wc, modules[i..], g) == MergeAll(weightConfig, modules, g)
        invariant names == SupportedNames(modules[..i])
        invariant AttrsSynced(wc, at, attrs, names)
      {
        var m := modules[i];
        MergeStepRest(wc, modules, i, g);
        assert modules[..i + 1] == modules[..i] + [m];
        SupportedNamesSnoc(modules[..i], m);
        if Supported(m.kind) {
          var e := MergeEntry(Lookup(wc, m.name), g);
          MergeStepSynced(wc, at, attrs, names, m.name, e);
          wc := wc[m.name := e];
          at := at[m.name := AttrsOf(e)];
          names := names + {m.name};
        }
        i := i + 1;
      }
      assert modules[i..] == [];
      assert modules[..i] == modules;
      weightConfig := wc;
      attrs := at;
    }

    /**
     * The capture installed on block `name` (`get_forward_func`), called
     * with `c`: it records the call in `inputs` and always raises; the
     * exception raised is returned.
     */
    method CapturedForward(name: string, c: Call) returns (err: Error)
      modifies this
      ensures (inputs, err) == CaptureCall(old(inputs), name, c)
      ensures Kept() == old(Kept()) && forwards == old(forwards) && origForwards == old(origForwards)
      ensures tmpBlockName == old(tmpBlockName)
    {
      var e: Captured;
      if name !in inputs {
        e := map[InputIdsKey := TensorArg(c.hidden)];
      } else if InputIdsKey !in inputs[name] {
        return KeyError;
      } else {
        var cat := CatArg(inputs[name][InputIdsKey], TensorArg(c.hidden));
        if cat.Err? {
          return cat.error;
        }
        e := inputs[name][InputIdsKey := cat.value];
      }
      if PositionalKey !in e {
        e := e[PositionalKey := ArgTuple([])];
      }
      if |c.positional| > 0 {
        e := e[PositionalKey := ArgTuple(c.positional)];
      }
      ghost var target := StoreKwargs(e, c.kwargs, c.kwargs);
      var failure: Option<Error> := None;
      var j := 0;
      while j < |c.kwargs| && failure.None?
        invariant 0 <= j <= |c.kwargs|
        invariant failure.None? ==> StoreKwargs(e, c.kwargs[j..], c.kwargs) == target
        invariant failure.Some? ==> target == (e, failure)
        decreases |c.kwargs| - j
      {
        assert c.kwargs[j..][0] == c.kwargs[j] && c.kwargs[j..][1..] == c.kwargs[j + 1..];
        var s := StoreKwarg(e, c.kwargs[j].0, c.kwargs[j].1, c.kwargs);
        e := s.0;
        failure := s.1;
        j := j + 1;
      }
      inputs := inputs[name := e];
      err := if failure.Some? then failure.value else NotImplemented;
    }

    /** `_replace_forward`: the first module named `tmp_block_name` gets the capture, keeping its forward as `orig_forward`. */
    method ReplaceForward()
      requires Valid() && tmpBlockName.Some?
      modifies this
      ensures (forwards, origForwards) == ReplaceForwardSpec(Names(modules), old(forwards), old(origForwards), old(tmpBlockName).value)
      ensures Valid() && Kept() == old(Kept()) && inputs == old(inputs) && tmpBlockName == old(tmpBlockName)
    {
      var tmp := tmpBlockName.value;
      var i := 0;
      while i < |modules| && modules[i].name != tmp
        modifies {}
        invariant 0 <= i <= |modules|
        invariant forall j :: 0 <= j < i ==> modules[j].name != tmp
      {
        i := i + 1;
      }
      if i < |modules| {
        assert Names(modules)[i] == tmp;
        origForwards := origForwards[tmp := forwards[tmp]];
        forwards := forwards[tmp := CaptureForward(tmp)];
      } else {
        assert tmp !in Names(modules);
      }
    }

    /**
     * `_recover_forward`: the first module named `tmp_block_name` gets
     * `orig_forward` back and loses the attribute; a missing attribute is
     * an AttributeError, which leaves everything as it was.
     */
    method RecoverForward() returns (err: Option<Error>)
      requires Valid() && tmpBlockName.Some?
      modifies this
      ensures var r := RecoverForwardSpec(Names(modules), old(forwards), old(origForwards), old(tmpBlockName).value);
        && (r.Err? ==> err == Some(r.error) && forwards == old(forwards) && origForwards == old(origForwards))
        && (r.Ok? ==> err.None? && (forwards, origForwards) == r.value)
      ensures Valid() && Kept() == old(Kept()) && inputs == old(inputs) && tmpBlockName == old(tmpBlockName)
    {
      var tmp := tmpBlockName.value;
      var i := 0;
      while i < |modules| && modules[i].name != tmp
        modifies {}
        invariant 0 <= i <= |modules|
        invariant forall j :: 0 <= j < i ==> modules[j].name != tmp
      {
        i := i + 1;
      }
      if i < |modules| {
        assert Names(modules)[i] == tmp;
        if tmp !in origForwards {
          return Some(AttributeError);
        }
        forwards := forwards[tmp := origForwards[tmp]];
        origForwards := origForwards - {tmp};
      } else {
        assert tmp !in Names(modules);
      }
      err := None;
    }

    /**
     * The model called on `feed`: the call `callOf(feed)`, when the
     * forward gets that far, reaches the capture on `target` when one is
     * installed, and whatever it raises is swallowed.  `inputs0` and `fed`
     * describe the buffer so far.
     */
    method CallModel(target: Option<string>, feed: Feed, callOf: Feed -> Option<Call>, ghost inputs0: map<string, Captured>,
                     ghost fed: seq<Feed>)
      requires inputs == Captures(inputs0, target, callOf, fed)
      modifies this
      ensures inputs == Captures(inputs0, target, callOf, fed + [feed])
      ensures Kept() == old(Kept()) && forwards == old(forwards) && origForwards == old(origForwards)
      ensures tmpBlockName == old(tmpBlockName)
    {
      var call := callOf(feed);
      assert (fed + [feed])[..|fed|] == fed;
      if call.None? {
        assert FeedCalls(callOf, fed + [feed]) == FeedCalls(callOf, fed) + [];
        assert FeedCalls(callOf, fed) + [] == FeedCalls(callOf, fed);
      } else if target.Some? {
        assert FeedCalls(callOf, fed + [feed]) == FeedCalls(callOf, fed) + [call.value];
        var _ := CapturedForward(target.value, call.value);
        CaptureAllSnoc(inputs0, target.value, FeedCalls(callOf, fed), call.value);
      }
    }

    /**
     * One turn of `calib`'s loop on batch `b`: skip `None` items and short
     * batches, truncate the last one, feed the model what `data_new` holds,
     * count, and decide whether to break.  As written, a tensor batch
     * leaves `data_new` as it was, so the model gets the previous dict
     * batch again, or nothing (the unbound name is caught and logged).
     */
    method CalibBatch(st: CalibState, b: Batch, seqlen: int, n: int, hasTokenizer: bool, asWritten: bool,
                      target: Option<string>, callOf: Feed -> Option<Call>, ghost inputs0: map<string, Captured>)
      returns (r: Result<CalibState>)
      requires !st.stopped && inputs == Captures(inputs0, target, callOf, st.fed)
      modifies this
      ensures r == Step(st, b, seqlen, n, hasTokenizer, asWritten)
      ensures r.Ok? ==> inputs == Captures(inputs0, target, callOf, r.value.fed)
      ensures Kept() == old(Kept()) && forwards == old(forwards) && origForwards == old(origForwards)
      ensures tmpBlockName == old(tmpBlockName)
    {
      if b.NoBatch? {
        return Ok(st);
      }
      if b.TextBatch? && !hasTokenizer {
        return Err(Exit);
      }
      var fields := if b.TextBatch? then b.tokenized else if b.DictBatch? then b.fields else map[];
      if !b.TensorBatch? && InputIds !in fields {
        return Err(KeyError);
      }
      var ids := if b.TensorBatch? then b.ids else fields[InputIds];
      var dataNew := if b.TensorBatch? then (if asWritten then st.dataNew else Some(FeedTensor(b.ids)))
                     else Some(FeedDict(fields));
      if ids.width < seqlen {
        return Ok(st.(dataNew := dataNew));
      }
      var counted := if st.total + ids.rows > n then SliceStopLen(ids.rows, n - st.total) else ids.rows;
      var total := st.total + counted;
      var fed := if dataNew.Some? then st.fed + [dataNew.value] else st.fed;
      assert Step(st, b, seqlen, n, hasTokenizer, asWritten) == Ok(CalibState(total, dataNew, fed, total >= n));
      if dataNew.Some? {
        CallModel(target, dataNew.value, callOf, inputs0, st.fed);
      }
      r := Ok(CalibState(total, dataNew, fed, total >= n));
    }

    /**
     * `calib`: the loop over the dataloader `bs` until `n` samples are
     * counted, then the fatal exit when none were.  Every feed reaches the
     * capture, when one is installed.
     */
    method Calib(bs: seq<Batch>, seqlen: int, n: int, hasTokenizer: bool, asWritten: bool, callOf: Feed -> Option<Call>)
      returns (r: Result<CalibState>)
      modifies this
      ensures r == Calibrate(bs, seqlen, n, hasTokenizer, asWritten)
      ensures r.Ok? ==> inputs == Captures(old(inputs), old(CaptureTarget()), callOf, r.value.fed)
      ensures Kept() == old(Kept()) && forwards == old(forwards) && origForwards == old(origForwards)
      ensures tmpBlockName == old(tmpBlockName)
    {
      var target := CaptureTarget();
      var st := Start;
      var i := 0;
      ghost var goal := Run(Start, bs, seqlen, n, hasTokenizer, asWritten);
      while i < |bs| && !st.stopped
        invariant 0 <= i <= |bs|
        invariant Run(st, bs[i..], seqlen, n, hasTokenizer, asWritten) == goal
        invariant inputs == Captures(old(inputs), target, callOf, st.fed)
        invariant Kept() == old(Kept()) && forwards == old(forwards) && origForwards == old(origForwards)
        invariant tmpBlockName == old(tmpBlockName)
        decreases |bs| - i
      {
        RunAt(st, bs, i, seqlen, n, hasTokenizer, asWritten);
        var next := CalibBatch(st, bs[i], seqlen, n, hasTokenizer, asWritten, target, callOf, old(inputs));
        if next.Err? {
          return Err(next.error);
        }
        st := next.value;
        i := i + 1;
      }
      assert goal == Ok(st);
      if st.total == 0 {
        return Err(Exit);
      }
      r := Ok(st);
    }

    /**
     * `cache_block_input`: empty the buffer, install the capture on
     * `blockName`, calibrate, restore the forward, and return what was
     * captured for the block; when the block never received a call the
     * lookup is a KeyError and `tmp_block_name` stays set.
     */
    method CacheBlockInput(blockName: string, bs: seq<Batch>, seqlen: int, n: int, hasTokenizer: bool, asWritten: bool,
                           callOf: Feed -> Option<Call>) returns (r: Result<Captured>)
      requires Valid()
      modifies this
      ensures Valid() && Kept() == old(Kept())
      ensures var c := Calibrate(bs, seqlen, n, hasTokenizer, asWritten);
        && (c.Err? ==> r == Err(c.error) && tmpBlockName == Some(blockName))
        && (c.Err? && blockName in Names(modules) ==>
              && forwards == old(forwards)[blockName := CaptureForward(blockName)]
              && origForwards == old(origForwards)[blockName := old(forwards)[blockName]])
        && (c.Err? && blockName !in Names(modules) ==> forwards == old(forwards) && origForwards == old(origForwards))
        && (c.Ok? && blockName !in Names(modules) ==> r == Err(KeyError))
        && (c.Ok? && blockName in Names(modules) ==>
              var calls := FeedCalls(callOf, c.value.fed);
              && inputs == CaptureAll(map[], blockName, calls)
              && forwards == old(forwards) && origForwards == old(origForwards) - {blockName}
              && (calls == [] ==> r == Err(KeyError) && tmpBlockName == Some(blockName))
              && (calls != [] ==>
                    && blockName in inputs && r == Ok(inputs[blockName])
                    && InputIdsKey in r.value && r.value[InputIdsKey] == TensorArg(KeptHidden([], calls))
                    && tmpBlockName.None?))
    {
      ghost var inModel := blockName in Names(modules);
      if inModel {
        ReplaceThenRecover(Names(modules), forwards, origForwards, blockName);
      }
      inputs := map[];
      tmpBlockName := Some(blockName);
      ReplaceForward();
      assert !inModel ==> blockName !in forwards;
      var c := Calib(bs, seqlen, n, hasTokenizer, asWritten, callOf);
      if c.Err? {
        return Err(c.error);
      }
      var e := RecoverForward();
      assert e.None?;
      if inModel && FeedCalls(callOf, c.value.fed) != [] {
        CaptureAllInputIds(map[], blockName, FeedCalls(callOf, c.value.fed));
      }
      if blockName !in inputs {
        return Err(KeyError);
      }
      r := Ok(inputs[blockName]);
      tmpBlockName := None;
    }

    /**
     * `quant_block` on a block whose float forward is `fwd` and whose
     * forward once unwrapped with the training loop's snapshot `s` is
     * `qfwd(s)`; `losses` are the losses of the training iterations,
     * `wrapFailure` the failure of `wrapper_block` on the block, if any, and
     * `unwrapFailure(s)` that of `unwrapper_block` with snapshot `s`.
     */
    method QuantBlock(input: Tensor, qInput: Option<Tensor>, skip: bool, wrapFailure: Option<Error>,
                      unwrapFailure: Option<nat> -> Option<Error>, losses: seq<Option<real>>,
                      fwd: Tensor -> Tensor, qfwd: Option<nat> -> (Tensor -> Tensor)) returns (r: Result<BlockResult>)
      requires settings.iters <= |losses|
      ensures r == QuantBlockSpec(LoopSettingsOf(settings), input, qInput, skip, wrapFailure, unwrapFailure, losses, fwd, qfwd)
    {
      var output := GetBlockOutputs(input, settings.nSamples, settings.trainBs, fwd);
      if output.Err? {
        return Err(output.error);
      }
      if skip {
        return Ok(BlockResult(Some(output.value), output.value));
      }
      var x := if qInput.Some? then qInput.value else input;
      if wrapFailure.Some? {
        return Err(wrapFailure.value);
      }
      var o := TrainLoop(losses, settings.iters, settings.notUseBestMse, settings.dynamicMaxGap);
      if unwrapFailure(o.snapshot).Some? {
        return Err(unwrapFailure(o.snapshot).value);
      }
      if !settings.useQuantInput {
        return Ok(BlockResult(None, output.value));
      }
      var q := GetBlockOutputs(x, settings.nSamples, settings.trainBs, qfwd(o.snapshot));
      if q.Err? {
        return Err(q.error);
      }
      r := Ok(BlockResult(Some(q.value), output.value));
    }

    /**
     * The loop of `qdq_weight_round`: walk the block names `nb` at a time
     * from the float input `input0`, stopping with `exit(0)` at
     * `maxBlocks` (`MAX_NUM_BLOCKS`); each group is quantized by
     * `quant_block`, whose results feed the next group, and a checkpoint
     * marker is written after each group not skipped when `save`
     * (`SAVE_CHECKPOINT`) is on.  The group starting at `i` sees the
     * losses `lossesOf(i)`.  Returns the error that ended the walk, if
     * any, and the markers written.
     */
    method WalkGroups(input0: Tensor, blockNames: seq<string>, nb: nat, maxBlocks: int, save: bool,
                      wrapOf: seq<string> -> Option<Error>,
                      unwrapOf: seq<string> -> (Option<nat> -> Option<Error>), lossesOf: nat -> seq<Option<real>>, fwdOf: seq<string> -> (Tensor -> Tensor),
                      qfwdOf: seq<string> -> (Option<nat> -> (Tensor -> Tensor))) returns (failure: Option<Error>, marks: seq<nat>)
      requires nb > 0
      requires forall i: nat :: settings.iters <= |lossesOf(i)|
      ensures var d := DriveFrom(Drive(input0, None, [], [], None), blockNames, nb, maxBlocks, preQuantizedBlockNum, save,
                                 RunGroup(settings, wrapOf, unwrapOf, lossesOf, fwdOf, qfwdOf));
        failure == d.failure && marks == d.checkpoints
    {
      ghost var run := RunGroup(settings, wrapOf, unwrapOf, lossesOf, fwdOf, qfwdOf);
      ghost var target := DriveFrom(Drive(input0, None, [], [], None), blockNames, nb, maxBlocks, preQuantizedBlockNum, save, run);
      var input := input0;
      var qInput: Option<Tensor> := None;
      ghost var calls: seq<GroupCall> := [];
      marks := [];
      failure := None;
      var i: nat := 0;
      if |blockNames| == 0 {
        DriveFromDone(Drive(input, qInput, calls, marks, None), blockNames, nb, maxBlocks, preQuantizedBlockNum, save, run);
      }
      while i < |blockNames| && failure.None?
        invariant i == WalkEnd(Drive(input, qInput, calls, marks, None), nb)
        invariant failure.None? && i < |blockNames| ==>
          DriveFrom(Drive(input, qInput, calls, marks, None), blockNames, nb, maxBlocks, preQuantizedBlockNum, save, run) == target
        invariant failure.None? && i >= |blockNames| ==> target == Drive(input, qInput, calls, marks, None)
        invariant failure.Some? ==> target == Drive(input, qInput, calls, marks, failure)
        decreases |blockNames| - i, failure.None?
      {
        ghost var d := Drive(input, qInput, calls, marks, None);
        if i >= maxBlocks {
          DriveFromExit(d, blockNames, nb, maxBlocks, preQuantizedBlockNum, save, run);
          failure := Some(Exit);
        } else {
          var names := Group(blockNames, i, nb);
          var skip := i + 1 <= preQuantizedBlockNum;
          ghost var call := GroupCall(i, names, skip, input, qInput);
          assert call == NextCall(d, blockNames, nb, preQuantizedBlockNum);
          var res := QuantBlock(input, qInput, skip, wrapOf(names), unwrapOf(names), lossesOf(i), fwdOf(names), qfwdOf(names));
          RunGroupAt(settings, wrapOf, unwrapOf, lossesOf, fwdOf, qfwdOf, call);
          if res.Err? {
            DriveFromFail(d, blockNames, nb, maxBlocks, preQuantizedBlockNum, save, run, res.error);
            failure := Some(res.error);
          } else {
            DriveFromNext(d, blockNames, nb, maxBlocks, preQuantizedBlockNum, save, run, res.value);
            WalkEndAfter(d, call, res.value, save, nb);
            if !skip && save {
              marks := marks + [i + 1];
            }
            input := res.value.output;
            qInput := res.value.qOutput;
            calls := calls + [call];
            i := i + nb;
            assert After(d, call, res.value, save) == Drive(input, qInput, calls, marks, None);
            if i >= |blockNames| {
              DriveFromDone(Drive(input, qInput, calls, marks, None), blockNames, nb, maxBlocks, preQuantizedBlockNum, save, run);
            }
          }
        }
      }
    }

    /**
     * `qdq_weight_round`: take `input_ids` out of the cached inputs, then
     * `range(0, len(block_names), n_blocks)`, which fails for a zero step
     * and is empty for a negative one; the markers the walk writes are
     * appended to the ones already written.
     */
    method QdqWeightRound(cached: Captured, blockNames: seq<string>, maxBlocks: int, save: bool,
                          wrapOf: seq<string> -> Option<Error>,
                          unwrapOf: seq<string> -> (Option<nat> -> Option<Error>), lossesOf: nat -> seq<Option<real>>, fwdOf: seq<string> -> (Tensor -> Tensor),
                          qfwdOf: seq<string> -> (Option<nat> -> (Tensor -> Tensor))) returns (failure: Option<Error>)
      requires InputIdsKey in cached ==> cached[InputIdsKey].TensorArg?
      requires forall i: nat :: settings.iters <= |lossesOf(i)|
      modifies this
      ensures InputIdsKey !in cached ==> failure == Some(KeyError) && savedMarkers == old(savedMarkers)
      ensures InputIdsKey in cached ==>
        var d := DriveAll(cached[InputIdsKey].tensor, blockNames, settings.nBlocks, maxBlocks, preQuantizedBlockNum, save,
                          RunGroup(settings, wrapOf, unwrapOf, lossesOf, fwdOf, qfwdOf));
        failure == d.failure && savedMarkers == old(savedMarkers) + d.checkpoints
      ensures settings == old(settings) && weightConfig == old(weightConfig) && attrs == old(attrs) && layers == old(layers)
      ensures preQuantizedBlockNum == old(preQuantizedBlockNum) && quantized == old(quantized)
      ensures inputs == old(inputs) && forwards == old(forwards) && origForwards == old(origForwards)
      ensures tmpBlockName == old(tmpBlockName)
    {
      if InputIdsKey !in cached {
        return Some(KeyError);
      }
      if settings.nBlocks == 0 {
        return Some(ValueError);
      }
      if settings.nBlocks < 0 {
        return None;
      }
      var marks;
      failure, marks := WalkGroups(cached[InputIdsKey].tensor, blockNames, settings.nBlocks, maxBlocks, save,
                                   wrapOf, unwrapOf, lossesOf, fwdOf, qfwdOf);
      savedMarkers := savedMarkers + marks;
    }

    /**
     * The pass of `quantize` over `named_modules()` after the blocks are
     * tuned: every configured layer with a `scale` records its scale,
     * zero point and `g_idx` in its entry and loses both attributes, and
     * every other configured module is marked as left in floating point
     * (`bf16` when the AMP dtype is bfloat16).  As written, `g_idx`
     * groups the columns by the global `group_size`.
     */
    method PostPass(asWritten: bool, bf16: bool)
      modifies this
      ensures Post(weightConfig, layers)
              == PostPassFrom(Post(old(weightConfig), old(layers)), Names(modules), 0, settings.groupSize, asWritten, bf16)
      ensures settings == old(settings) && attrs == old(attrs) && preQuantizedBlockNum == old(preQuantizedBlockNum)
      ensures savedMarkers == old(savedMarkers) && quantized == old(quantized) && inputs == old(inputs)
      ensures forwards == old(forwards) && origForwards == old(origForwards) && tmpBlockName == old(tmpBlockName)
    {
      weightConfig, layers := PostPassLoop(weightConfig, layers, Names(modules), settings.groupSize, asWritten, bf16);
    }

    /**
     * The part of `quantize` after `del self.inputs`: resize `n_samples`
     * and `train_bs` to the captured rows when `input_ids` was captured,
     * tune the blocks from the cached inputs `c`, and on success record
     * the results in `weight_config`.  `tuned` is the layers as block
     * tuning leaves them (with the `scale`/`zp` attributes unwrapping sets).
     */
    method TuneFromCache(c: Captured, blockNames: seq<string>, maxBlocks: int, save: bool, asWritten: bool,
                         bf16: bool, wrapOf: seq<string> -> Option<Error>,
                         unwrapOf: seq<string> -> (Option<nat> -> Option<Error>), lossesOf: nat -> seq<Option<real>>, fwdOf: seq<string> -> (Tensor -> Tensor),
                         qfwdOf: seq<string> -> (Option<nat> -> (Tensor -> Tensor)), tuned: map<string, Layer>)
      returns (failure: Option<Error>)
      requires InputIdsKey in c ==> c[InputIdsKey].TensorArg?
      requires forall i: nat :: settings.iters <= |lossesOf(i)|
      modifies this
      ensures InputIdsKey !in c ==> failure == Some(KeyError) && Kept() == old(Kept())
      ensures InputIdsKey in c ==>
        var s := Resized(old(settings), |c[InputIdsKey].tensor|);
        var d := DriveAll(c[InputIdsKey].tensor, blockNames, s.nBlocks, maxBlocks, old(preQuantizedBlockNum), save,
                          RunGroup(s, wrapOf, unwrapOf, lossesOf, fwdOf, qfwdOf));
        && settings == s && savedMarkers == old(savedMarkers) + d.checkpoints && failure == d.failure
        && (d.failure.None? ==>
              && Post(weightConfig, layers)
                 == PostPassFrom(Post(old(weightConfig), tuned), Names(modules), 0, s.groupSize, asWritten, bf16)
              && quantized)
      ensures inputs == old(inputs) && forwards == old(forwards) && origForwards == old(origForwards)
      ensures tmpBlockName == old(tmpBlockName)
    {
      if InputIdsKey in c {
        settings := Resized(settings, |c[InputIdsKey].tensor|);
      }
      failure := QdqWeightRound(c, blockNames, maxBlocks, save, wrapOf, unwrapOf, lossesOf, fwdOf, qfwdOf);
      if failure.Some? {
        return;
      }
      ghost var kept := (settings, savedMarkers);
      assert weightConfig == old(weightConfig);
      layers := tuned;
      PostPass(asWritten, bf16);
      assert (settings, savedMarkers) == kept;
      quantized := true;
    }

    /**
     * `quantize`: nothing to do without blocks; otherwise cache the first
     * block's input from the dataloader `bs`, drop the capture buffer, and
     * tune from the cached input.
     */
    method Quantize(blockNames: seq<string>, bs: seq<Batch>, hasTokenizer: bool, callOf: Feed -> Option<Call>, maxBlocks: int,
                    save: bool, asWritten: bool, bf16: bool, wrapOf: seq<string> -> Option<Error>,
                    unwrapOf: seq<string> -> (Option<nat> -> Option<Error>), lossesOf: nat -> seq<Option<real>>, fwdOf: seq<string> -> (Tensor -> Tensor),
                    qfwdOf: seq<string> -> (Option<nat> -> (Tensor -> Tensor)), tuned: map<string, Layer>)
      returns (failure: Option<Error>)
      requires Valid()
      requires forall i: nat :: settings.iters <= |lossesOf(i)|
      modifies this
      ensures |blockNames| == 0 ==> failure.None? && Kept() == old(Kept())
      ensures |blockNames| > 0 ==>
        var c := Calibrate(bs, old(settings).seqlen, old(settings).nSamples, hasTokenizer, asWritten);
        && (c.Err? ==> failure == Some(c.error))
        && (c.Ok? && blockNames[0] !in Names(modules) ==> failure == Some(KeyError))
        && (c.Ok? && blockNames[0] in Names(modules) && FeedCalls(callOf, c.value.fed) == [] ==> failure == Some(KeyError))
        && (c.Ok? && blockNames[0] in Names(modules) && FeedCalls(callOf, c.value.fed) != [] ==>
              var input := KeptHidden([], FeedCalls(callOf, c.value.fed));
              var s := Resized(old(settings), |input|);
              var d := DriveAll(input, blockNames, s.nBlocks, maxBlocks, old(preQuantizedBlockNum), save,
                                RunGroup(s, wrapOf, unwrapOf, lossesOf, fwdOf, qfwdOf));
              && settings == s && savedMarkers == old(savedMarkers) + d.checkpoints && failure == d.failure
              && (d.failure.None? ==>
                    && Post(weightConfig, layers)
                       == PostPassFrom(Post(old(weightConfig), tuned), Names(modules), 0, s.groupSize, asWritten, bf16)
                    && quantized))
    {
      if |blockNames| == 0 {
        return None;
      }
      var cached := CacheBlockInput(blockNames[0], bs, settings.seqlen, settings.nSamples, hasTokenizer, asWritten, callOf);
      if cached.Err? {
        return Some(cached.error);
      }
      inputs := map[];
      failure := TuneFromCache(cached.value, blockNames, maxBlocks, save, asWritten, bf16, wrapOf, unwrapOf, lossesOf, fwdOf, qfwdOf,
                               tuned);
    }
  }
}
