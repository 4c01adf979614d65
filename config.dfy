/*
 * The settings of an AutoRound run: the constructor's defaults
 * (`iters`, `lr`, `minmax_lr`, `scale_dtype`), the assertions of
 * `check_configs`, and the per-layer merge `set_layerwise_config` performs
 * on the user's `weight_config` dictionary.
 */
module Config {
  import opened Common

  datatype ScaleDtype = Float16 | BFloat16 | Float32

  /** The constructor's reading of the `scale_dtype` argument; anything unrecognised is float32. */
  function ParseScaleDtype(s: string): (d: ScaleDtype)
    ensures d == Float16 <==> s == "fp16" || s == "float16"
    ensures d == BFloat16 <==> s == "bf16" || s == "bfloat16"
    ensures d == Float32 <==> s != "fp16" && s != "float16" && s != "bf16" && s != "bfloat16"
  {
    if s == "fp16" || s == "float16" then Float16
    else if s == "bf16" || s == "bfloat16" then BFloat16
    else Float32
  }

  /** A value stored in a `weight_config` entry. */
  datatype Value =
    | Text(text: string)
    | Int(number: int)
    | Flag(flag: bool)
    | Dtype(dtype: ScaleDtype)
    | Null
    | Array(tensor: Tensor)
    | Ints(ints: seq<int>)

  /** One layer's entry of `weight_config`, a dictionary from keys to values. */
  type Entry = map<string, Value>

  /** The four keys a missing entry is filled with. */
  const DataTypeKey := "data_type"
  const BitsKey := "bits"
  const GroupSizeKey := "group_size"
  const SymKey := "sym"
  const ScaleDtypeKey := "scale_dtype"

  predicate IsDefaultedKey(k: string) {
    k == DataTypeKey || k == BitsKey || k == GroupSizeKey || k == SymKey
  }

  /** The run-wide values `set_layerwise_config` fills entries from. */
  datatype Globals = Globals(dataType: string, bits: int, groupSize: int, sym: bool, scaleDtype: ScaleDtype)

  function Default(g: Globals, k: string): Value {
    if k == DataTypeKey then Text(g.dataType)
    else if k == BitsKey then Int(g.bits)
    else if k == GroupSizeKey then Int(g.groupSize)
    else Flag(g.sym)
  }

  function FillIfMissing(e: Entry, k: string, v: Value): (r: Entry)
    ensures r.Keys == e.Keys + {k}
    ensures k in e ==> r == e
    ensures k !in e ==> r[k] == v
    ensures forall k2 :: k2 in e ==> r[k2] == e[k2]
  {
    if k in e then e else e[k := v]
  }

  /**
   * The entry a supported layer ends with: its own value for each of the
   * four defaulted keys where it has one, the global default otherwise,
   * and always the run's scale dtype.  A layer without an entry is
   * treated like one with an empty entry.
   */
  function MergeEntry(e: Option<Entry>, g: Globals): (r: Entry)
    ensures r.Keys == (if e.Some? then e.value.Keys else {}) + {DataTypeKey, BitsKey, GroupSizeKey, SymKey, ScaleDtypeKey}
    ensures r[ScaleDtypeKey] == Dtype(g.scaleDtype)
    ensures forall k :: IsDefaultedKey(k) ==>
      r[k] == if e.Some? && k in e.value then e.value[k] else Default(g, k)
    ensures forall k :: e.Some? && k in e.value && !IsDefaultedKey(k) && k != ScaleDtypeKey ==> r[k] == e.value[k]
  {
    FillDefaults(if e.Some? then e.value else map[], g)[ScaleDtypeKey := Dtype(g.scaleDtype)]
  }

  /** The four defaulted keys, each filled from the globals where the entry lacks it. */
  function FillDefaults(base: Entry, g: Globals): (r: Entry)
    ensures r.Keys == base.Keys + {DataTypeKey, BitsKey, GroupSizeKey, SymKey}
    ensures forall k :: k in base ==> r[k] == base[k]
    ensures DataTypeKey !in base ==> r[DataTypeKey] == Text(g.dataType)
    ensures BitsKey !in base ==> r[BitsKey] == Int(g.bits)
    ensures GroupSizeKey !in base ==> r[GroupSizeKey] == Int(g.groupSize)
    ensures SymKey !in base ==> r[SymKey] == Flag(g.sym)
  {
    var f1 := FillIfMissing(base, DataTypeKey, Text(g.dataType));
    var f2 := FillIfMissing(f1, BitsKey, Int(g.bits));
    var f3 := FillIfMissing(f2, GroupSizeKey, Int(g.groupSize));
    FillIfMissing(f3, SymKey, Flag(g.sym))
  }

  /** Merging an already merged entry again changes nothing. */
  lemma MergeEntryIdempotent(e: Option<Entry>, g: Globals)
    ensures MergeEntry(Some(MergeEntry(e, g)), g) == MergeEntry(e, g)
  {
    var once := MergeEntry(e, g);
    FillDefaultsComplete(once, g);
    assert once[ScaleDtypeKey := Dtype(g.scaleDtype)] == once;
  }

  /** An entry that has all four defaulted keys is not filled. */
  lemma FillDefaultsComplete(base: Entry, g: Globals)
    requires DataTypeKey in base && BitsKey in base && GroupSizeKey in base && SymKey in base
    ensures FillDefaults(base, g) == base
  {
  }

  /** Merging one name's entry a second time, after it was merged, gives what merging it once gives. */
  lemma MergeAgain(wc: map<string, Entry>, n: string, x: string, g: Globals)
    ensures MergeEntry(Lookup(wc[n := MergeEntry(Lookup(wc, n), g)], x), g) == MergeEntry(Lookup(wc, x), g)
  {
    if x == n {
      MergeEntryIdempotent(Lookup(wc, n), g);
    } else {
      assert Lookup(wc[n := MergeEntry(Lookup(wc, n), g)], x) == Lookup(wc, x);
    }
  }

  /** The layer kinds of the model; only linear and `Conv1D` layers are configured and quantized. */
  datatype Kind = Linear | Conv1D | OtherKind

  /** One `(name, module)` pair of `named_modules()`, with the weight's input width. */
  datatype NamedModule = NamedModule(name: string, kind: Kind, inFeatures: nat)

  predicate Supported(k: Kind) { k == Linear || k == Conv1D }

  /** The names of the supported layers among `ms`. */
  function SupportedNames(ms: seq<NamedModule>): (r: set<string>)
    ensures forall i :: 0 <= i < |ms| && Supported(ms[i].kind) ==> ms[i].name in r
    ensures forall n :: n in r ==> exists i :: 0 <= i < |ms| && Supported(ms[i].kind) && ms[i].name == n
    decreases |ms|
  {
    if ms == [] then {}
    else
      var rest := SupportedNames(ms[1..]);
      assert forall i :: 1 <= i < |ms| ==> ms[i] == ms[1..][i - 1];
      if Supported(ms[0].kind) then rest + {ms[0].name} else rest
  }

  function Lookup(wc: map<string, Entry>, n: string): Option<Entry> {
    if n in wc then Some(wc[n]) else None
  }

  /** `weight_config` after `set_layerwise_config` has walked `ms` in order. */
  function MergeAll(wc: map<string, Entry>, ms: seq<NamedModule>, g: Globals): (r: map<string, Entry>)
    decreases |ms|
  {
    if ms == [] then wc
    else
      var n := ms[0].name;
      MergeAll(if Supported(ms[0].kind) then wc[n := MergeEntry(Lookup(wc, n), g)] else wc, ms[1..], g)
  }

  /**
   * What the merge leaves in `weight_config`: every supported layer's entry
   * is its merged original entry (whether or not the layer was listed),
   * and every other entry is untouched.
   */
  lemma {:induction false} MergeAllSpec(wc: map<string, Entry>, ms: seq<NamedModule>, g: Globals)
    ensures var r := MergeAll(wc, ms, g);
      && r.Keys == wc.Keys + SupportedNames(ms)
      && (forall n :: n in SupportedNames(ms) ==> r[n] == MergeEntry(Lookup(wc, n), g))
      && (forall n :: n in wc && n !in SupportedNames(ms) ==> r[n] == wc[n])
    decreases |ms|
  {
    MergeAllKeys(wc, ms, g);
    MergeAllEntries(wc, ms, g);
  }

  lemma {:induction false} MergeAllKeys(wc: map<string, Entry>, ms: seq<NamedModule>, g: Globals)
    ensures MergeAll(wc, ms, g).Keys == wc.Keys + SupportedNames(ms)
    decreases |ms|
  {
    if ms != [] {
      var n := ms[0].name;
      var wc1 := if Supported(ms[0].kind) then wc[n := MergeEntry(Lookup(wc, n), g)] else wc;
      MergeAllKeys(wc1, ms[1..], g);
    }
  }

  lemma {:induction false} MergeAllEntries(wc: map<string, Entry>, ms: seq<NamedModule>, g: Globals)
    ensures var r := MergeAll(wc, ms, g);
      && (forall n :: n in SupportedNames(ms) ==> n in r && r[n] == MergeEntry(Lookup(wc, n), g))
      && (forall n :: n in wc && n !in SupportedNames(ms) ==> n in r && r[n] == wc[n])
    decreases |ms|
  {
    MergeAllKeys(wc, ms, g);
    if ms != [] {
      var n := ms[0].name;
      var wc1 := if Supported(ms[0].kind) then wc[n := MergeEntry(Lookup(wc, n), g)] else wc;
      var rest := ms[1..];
      MergeAllEntries(wc1, rest, g);
      var r := MergeAll(wc, ms, g);
      assert r == MergeAll(wc1, rest, g);
      SupportedNamesCons(ms);
      forall x | x in SupportedNames(ms)
        ensures x in r && r[x] == MergeEntry(Lookup(wc, x), g)
      {
        if x !in SupportedNames(rest) {
          assert x == n && x in wc1;
        } else if Supported(ms[0].kind) {
          MergeAgain(wc, n, x, g);
        }
      }
    }
  }

  /** The supported names of a non-empty list: the first one's, if supported, and the rest's. */
  lemma SupportedNamesCons(ms: seq<NamedModule>)
    requires ms != []
    ensures SupportedNames(ms) == SupportedNames(ms[1..]) + (if Supported(ms[0].kind) then {ms[0].name} else {})
  {
  }

  /** The layer attributes `set_layerwise_config` copies from the merged entry onto the module. */
  datatype LayerAttrs = LayerAttrs(dataType: Value, bits: Value, groupSize: Value, sym: Value, scaleDtype: Value)

  /** The value under `k`, or `Null` where the entry has none. */
  function Get(e: Entry, k: string): Value {
    if k in e then e[k] else Null
  }

  function AttrsOf(e: Entry): (a: LayerAttrs)
    ensures a.dataType == Get(e, DataTypeKey) && a.bits == Get(e, BitsKey) && a.groupSize == Get(e, GroupSizeKey)
    ensures a.sym == Get(e, SymKey) && a.scaleDtype == Get(e, ScaleDtypeKey)
  {
    LayerAttrs(Get(e, DataTypeKey), Get(e, BitsKey), Get(e, GroupSizeKey), Get(e, SymKey), Get(e, ScaleDtypeKey))
  }

  /** The constructor's keyword arguments that the modelled code reads. */
  datatype Args = Args(
    bits: int, groupSize: int, sym: bool, enableFullRange: bool, batchSize: int,
    useQuantInput: bool, enableMinmaxTuning: bool, lr: Option<real>, minmaxLr: Option<real>,
    iters: int, seqlen: int, nSamples: int, sampler: string, nBlocks: int,
    gradientAccumulateSteps: int, notUseBestMse: bool, dynamicMaxGap: int,
    dataType: string, scaleDtype: string)

  /** The attributes the constructor derives from its arguments. */
  datatype Settings = Settings(
    bits: int, groupSize: int, sym: bool, trainBs: int,
    useQuantInput: bool, enableMinmaxTuning: bool, lr: real, minmaxLr: real,
    iters: int, seqlen: int, nSamples: int, sampler: string, nBlocks: int,
    gradientAccumulateSteps: int, notUseBestMse: bool, dynamicMaxGap: int,
    dataType: string, scaleDtype: ScaleDtype)

  const DefaultIters := 200

  /**
   * The constructor's defaults: a non-positive `iters` becomes 200, a
   * missing `lr` becomes `1/iters` (of the corrected `iters`), and a
   * missing `minmax_lr` becomes `lr`.
   */
  function ApplyDefaults(a: Args): (s: Settings)
    ensures s.iters > 0
    ensures a.iters > 0 ==> s.iters == a.iters
    ensures a.iters <= 0 ==> s.iters == DefaultIters
    ensures a.lr.None? ==> s.lr > 0.0 && s.lr * s.iters as real == 1.0
    ensures a.lr.Some? ==> s.lr == a.lr.value
    ensures a.minmaxLr.None? ==> s.minmaxLr == s.lr
    ensures a.minmaxLr.Some? ==> s.minmaxLr == a.minmaxLr.value
    ensures s.scaleDtype == ParseScaleDtype(a.scaleDtype)
    ensures s.bits == a.bits && s.groupSize == a.groupSize && s.trainBs == a.batchSize
    ensures s.seqlen == a.seqlen && s.nBlocks == a.nBlocks && s.nSamples == a.nSamples
    ensures s.gradientAccumulateSteps == a.gradientAccumulateSteps
    ensures s.sym == a.sym && s.useQuantInput == a.useQuantInput && s.enableMinmaxTuning == a.enableMinmaxTuning
    ensures s.sampler == a.sampler && s.notUseBestMse == a.notUseBestMse && s.dynamicMaxGap == a.dynamicMaxGap
    ensures s.dataType == a.dataType
  {
    var iters := if a.iters <= 0 then DefaultIters else a.iters;
    var lr := if a.lr.Some? then a.lr.value else 1.0 / iters as real;
    var minmaxLr := if a.minmaxLr.Some? then a.minmaxLr.value else lr;
    Settings(a.bits, a.groupSize, a.sym, a.batchSize, a.useQuantInput, a.enableMinmaxTuning,
      lr, minmaxLr, iters, a.seqlen, a.nSamples, a.sampler, a.nBlocks,
      a.gradientAccumulateSteps, a.notUseBestMse, a.dynamicMaxGap, a.dataType, ParseScaleDtype(a.scaleDtype))
  }

  /** The assertions of `check_configs`, in the order they are checked. */
  datatype ConfigCheck = BitsCheck | GroupSizeCheck | BatchSizeCheck | ItersCheck | SeqlenCheck | NBlocksCheck | AccumulateCheck

  predicate ConfigsValid(s: Settings) {
    && s.bits > 0 && (s.groupSize == -1 || s.groupSize >= 1) && s.trainBs > 0 && s.iters > 0
    && s.seqlen > 0 && s.nBlocks > 0 && s.gradientAccumulateSteps > 0
  }

  /** The first assertion of `check_configs` that fails, if any. */
  function FirstFailingCheck(s: Settings): (r: Option<ConfigCheck>)
    ensures r.None? <==> ConfigsValid(s)
    ensures r == Some(ItersCheck) ==> s.bits > 0 && (s.groupSize == -1 || s.groupSize >= 1) && s.trainBs > 0 && s.iters <= 0
  {
    if !(s.bits > 0) then Some(BitsCheck)
    else if !(s.groupSize == -1 || s.groupSize >= 1) then Some(GroupSizeCheck)
    else if !(s.trainBs > 0) then Some(BatchSizeCheck)
    else if !(s.iters > 0) then Some(ItersCheck)
    else if !(s.seqlen > 0) then Some(SeqlenCheck)
    else if !(s.nBlocks > 0) then Some(NBlocksCheck)
    else if !(s.gradientAccumulateSteps > 0) then Some(AccumulateCheck)
    else None
  }

  /**
   * After the constructor's reset the `iters` assertion can never fire:
   * construction succeeds exactly when the other six settings are valid
   * and full-range mode is off.
   */
  lemma ItersCheckNeverFails(a: Args)
    ensures FirstFailingCheck(ApplyDefaults(a)) != Some(ItersCheck)
    ensures FirstFailingCheck(ApplyDefaults(a)).None? <==>
      a.bits > 0 && (a.groupSize == -1 || a.groupSize >= 1) && a.batchSize > 0
      && a.seqlen > 0 && a.nBlocks > 0 && a.gradientAccumulateSteps > 0
  {
  }

  /** The construction outcome: `enable_full_range` must be off, then `check_configs` must pass. */
  function Construct(a: Args): (r: Result<Settings>)
    ensures r.Ok? <==> !a.enableFullRange && FirstFailingCheck(ApplyDefaults(a)).None?
    ensures r.Ok? ==> r.value == ApplyDefaults(a) && ConfigsValid(r.value)
    ensures r.Err? ==> r.error == AssertionFailed
  {
    if a.enableFullRange then Err(AssertionFailed)
    else
      var s := ApplyDefaults(a);
      if FirstFailingCheck(s).Some? then Err(AssertionFailed) else Ok(s)
  }

  function GlobalsOf(s: Settings): Globals {
    Globals(s.dataType, s.bits, s.groupSize, s.sym, s.scaleDtype)
  }
}
