/*
 * The module-tree rewrite of teq_util.py.  A decoder block is a map from
 * slot names to modules; replace_ wraps, for every (prev op, layers) pair,
 * each layer in a MulLinear and the prev op in a DivLinear that share one
 * fresh ScaleMod, and _revert_replace peels those wrappers off again,
 * walking the pairs backwards.
 */
module Teq {
  import opened Common

  /**
   * A slot's module.  A plain layer carries an identity, its `in_features`
   * (None for layers without one, such as a norm) and the requires_grad
   * flag of each of its parameters.  MulLinear / DivLinear wrap an inner
   * module and refer to their ScaleMod by its number `sid` in the block.
   */
  datatype Module =
    | Leaf(id: nat, inFeatures: Option<nat>, grads: seq<bool>)
    | Mul(inner: Module, sid: nat)
    | Div(inner: Module, sid: nat)

  /** The plain layer at the bottom of a stack of wrappers. */
  function Base(m: Module): (b: Module)
    ensures b.Leaf?
  {
    match m
    case Leaf(_, _, _) => m
    case Mul(i, _) => Base(i)
    case Div(i, _) => Base(i)
  }

  /** The ScaleMods a module refers to. */
  function Sids(m: Module): set<nat>
  {
    match m
    case Leaf(_, _, _) => {}
    case Mul(i, s) => Sids(i) + {s}
    case Div(i, s) => Sids(i) + {s}
  }

  /** freeze_mod_ on a plain layer: every parameter stops requiring grad. */
  function FreezeLeaf(m: Module): (r: Module)
    requires m.Leaf?
    ensures r.Leaf? && r.id == m.id && r.inFeatures == m.inFeatures && |r.grads| == |m.grads|
    ensures forall i :: 0 <= i < |r.grads| ==> !r.grads[i]
  {
    m.(grads := seq(|m.grads|, _ => false))
  }

  /**
   * freeze_mod_with_filter_: every submodule that is not a MulLinear,
   * DivLinear or ScaleMod is frozen, so the plain layer at the bottom loses
   * its trainable parameters while the wrappers and their ScaleMods stay.
   */
  function Freeze(m: Module): (r: Module)
    ensures Base(r) == FreezeLeaf(Base(m))
    ensures Sids(r) == Sids(m)
    ensures m.Mul? <==> r.Mul?
    ensures m.Div? <==> r.Div?
    ensures !m.Leaf? ==> r.sid == m.sid && r.inner == Freeze(m.inner)
  {
    match m
    case Leaf(_, _, _) => FreezeLeaf(m)
    case Mul(i, s) => Mul(Freeze(i), s)
    case Div(i, s) => Div(Freeze(i), s)
  }

  /** Freezing twice is freezing once. */
  lemma {:induction false} FreezeIdempotent(m: Module)
    ensures Freeze(Freeze(m)) == Freeze(m)
  {
    match m
    case Leaf(_, _, _) =>
    case Mul(i, _) => FreezeIdempotent(i);
    case Div(i, _) => FreezeIdempotent(i);
  }

  /** One entry of the pair list: `PairInfo(prev_op_name, layer_names)`. */
  datatype PairInfo = PairInfo(prevOpName: string, layerNames: seq<string>)

  /** The slots a pair rewrites. */
  function Touched(p: PairInfo): set<string>
  {
    (set n | n in p.layerNames) + {p.prevOpName}
  }

  function TouchedAll(ps: seq<PairInfo>): set<string>
  {
    if ps == [] then {} else Touched(ps[0]) + TouchedAll(ps[1..])
  }

  /** The given slots frozen, the others untouched. */
  function FreezeSlots(slots: map<string, Module>, t: set<string>): (r: map<string, Module>)
    ensures r.Keys == slots.Keys
  {
    map n | n in slots :: if n in t then Freeze(slots[n]) else slots[n]
  }

  /** Freezing two sets of slots one after the other freezes their union. */
  lemma FreezeSlotsTwice(slots: map<string, Module>, a: set<string>, b: set<string>)
    ensures FreezeSlots(FreezeSlots(slots, a), b) == FreezeSlots(slots, a + b)
  {
    forall n | n in slots {
      FreezeIdempotent(slots[n]);
    }
  }

  // ---------------------------------------------------------------------
  // replace_
  // ---------------------------------------------------------------------

  /** A block's slots and its ScaleMods, numbered in creation order. */
  datatype State = State(slots: map<string, Module>, scales: seq<seq<real>>)

  /** The state replace_ leaves behind, and the exception it ended in, if any. */
  datatype Run = Run(state: State, failure: Option<Error>)

  /** `torch.ones(n)`, the initial scales of a ScaleMod. */
  function Ones(n: nat): (r: seq<real>)
    ensures |r| == n && forall i :: 0 <= i < n ==> r[i] == 1.0
  {
    seq(n, _ => 1.0)
  }

  /** Every ScaleMod still holds its initial ones. */
  predicate AllOnes(scales: seq<seq<real>>)
  {
    forall k :: 0 <= k < |scales| ==> scales[k] == Ones(|scales[k]|)
  }

  /** Does the block have a parameter at all (`next(parameters())` succeeds)? */
  predicate HasParameters(slots: map<string, Module>)
  {
    exists n :: n in slots && (|Base(slots[n]).grads| > 0 || Sids(slots[n]) != {})
  }

  /**
   * The inner loop of replace_: each listed layer, left to right, becomes
   * MulLinear(layer, scale_mod); a name that is not in the block fails
   * (the lookup gives None, which MulLinear cannot freeze).
   */
  function WrapLayers(slots: map<string, Module>, names: seq<string>, sid: nat)
    : (r: (map<string, Module>, Option<Error>))
    ensures r.0.Keys == slots.Keys
    ensures r.1.None? <==> forall k :: 0 <= k < |names| ==> names[k] in slots
    ensures r.1.Some? ==> r.1.value == AttributeError
    decreases |names|
  {
    if names == [] then (slots, None)
    else if names[0] !in slots then (slots, Some(AttributeError))
    else WrapLayers(slots[names[0] := Mul(Freeze(slots[names[0]]), sid)], names[1..], sid)
  }

  /**
   * One pass of replace_'s outer loop: the first layer must exist and have
   * `in_features` (IndexError on an empty list, AttributeError otherwise);
   * a fresh ScaleMod of that size is created, the layers are wrapped in
   * MulLinear and the prev op in DivLinear.  On a failure the changes made
   * so far stay in place.
   */
  function ReplacePair(st: State, p: PairInfo): (r: Run)
    ensures r.state.slots.Keys == st.slots.Keys
    ensures r.failure.None? ==> |r.state.scales| == |st.scales| + 1 && r.state.scales[..|st.scales|] == st.scales
    ensures AllOnes(st.scales) ==> AllOnes(r.state.scales)
  {
    if |p.layerNames| == 0 then Run(st, Some(IndexError))
    else
      var first := p.layerNames[0];
      if first !in st.slots || !st.slots[first].Leaf? || st.slots[first].inFeatures.None? then
        Run(st, Some(AttributeError))
      else
        var sid := |st.scales|;
        var scales := st.scales + [Ones(st.slots[first].inFeatures.value)];
        var (slots, failure) := WrapLayers(st.slots, p.layerNames, sid);
        if failure.Some? then Run(State(slots, scales), failure)
        else if p.prevOpName !in slots then Run(State(slots, scales), Some(AttributeError))
        else Run(State(slots[p.prevOpName := Div(Freeze(slots[p.prevOpName]), sid)], scales), None)
  }

  /** The ScaleMod a successful pair adds holds ones, as many as its first layer's `in_features`. */
  lemma ReplacePairScale(st: State, p: PairInfo)
    requires ReplacePair(st, p).failure.None?
    ensures |p.layerNames| > 0 && p.layerNames[0] in st.slots
    ensures st.slots[p.layerNames[0]].Leaf? && st.slots[p.layerNames[0]].inFeatures.Some?
    ensures ReplacePair(st, p).state.scales[|st.scales|] == Ones(st.slots[p.layerNames[0]].inFeatures.value)
  {
  }

  /** replace_ over all pairs, in order, stopping at the first failure. */
  function ReplaceAll(st: State, ps: seq<PairInfo>): (r: Run)
    ensures r.state.slots.Keys == st.slots.Keys
    ensures r.failure.None? ==> |r.state.scales| == |st.scales| + |ps|
    ensures AllOnes(st.scales) ==> AllOnes(r.state.scales)
    decreases |ps|
  {
    if ps == [] then Run(st, None)
    else
      var r := ReplacePair(st, ps[0]);
      if r.failure.Some? then r else ReplaceAll(r.state, ps[1..])
  }

  /** replace_ as a whole: the device lookup first needs some parameter. */
  function ReplaceResult(st: State, ps: seq<PairInfo>): Run
  {
    if !HasParameters(st.slots) then Run(st, Some(StopIteration)) else ReplaceAll(st, ps)
  }

  // ---------------------------------------------------------------------
  // _revert_replace
  // ---------------------------------------------------------------------

  /** The state _revert_replace leaves behind and the ScaleMods it read, in visiting order. */
  datatype Undo = Undo(slots: map<string, Module>, sids: seq<nat>, failure: Option<Error>)

  /**
   * The inner loop of _revert_replace: each listed slot is replaced by its
   * `.linear`; a missing slot or a plain layer has none (AttributeError).
   */
  function UnwrapLayers(slots: map<string, Module>, names: seq<string>): (r: (map<string, Module>, Option<Error>))
    ensures r.0.Keys == slots.Keys
    ensures r.1.Some? ==> r.1.value == AttributeError
    decreases |names|
  {
    if names == [] then (slots, None)
    else if names[0] !in slots || slots[names[0]].Leaf? then (slots, Some(AttributeError))
    else UnwrapLayers(slots[names[0] := slots[names[0]].inner], names[1..])
  }

  /** One pass of the reverse loop: the prev op first, then the layers; the ScaleMod is read off the prev op. */
  function RevertPair(slots: map<string, Module>, p: PairInfo): (r: Undo)
    ensures r.slots.Keys == slots.Keys
    ensures r.failure.None? ==> |r.sids| == 1
  {
    if p.prevOpName !in slots || slots[p.prevOpName].Leaf? then Undo(slots, [], Some(AttributeError))
    else
      var d := slots[p.prevOpName];
      var (s, failure) := UnwrapLayers(slots[p.prevOpName := d.inner], p.layerNames);
      Undo(s, [d.sid], failure)
  }

  /** The reverse loop over `qs`, in the order given. */
  function RevertSeq(slots: map<string, Module>, qs: seq<PairInfo>): (r: Undo)
    ensures r.slots.Keys == slots.Keys
    ensures r.failure.None? ==> |r.sids| == |qs|
    decreases |qs|
  {
    if qs == [] then Undo(slots, [], None)
    else
      var u := RevertPair(slots, qs[0]);
      var rest := if u.failure.Some? then Undo(u.slots, [], u.failure) else RevertSeq(u.slots, qs[1..]);
      Undo(rest.slots, u.sids + rest.sids, rest.failure)
  }

  function Reverse<T>(s: seq<T>): (r: seq<T>)
    ensures |r| == |s|
    ensures forall k :: 0 <= k < |s| ==> r[k] == s[|s| - 1 - k]
  {
    if s == [] then [] else Reverse(s[1..]) + [s[0]]
  }

  /** _revert_replace: the pairs in reverse order. */
  function RevertAll(slots: map<string, Module>, ps: seq<PairInfo>): (r: Undo)
    ensures r.slots.Keys == slots.Keys
    ensures r.failure.None? ==> |r.sids| == |ps|
  {
    RevertSeq(slots, Reverse(ps))
  }

  // ---------------------------------------------------------------------
  // The round trip
  // ---------------------------------------------------------------------

  /** Peel k wrappers off a module, outermost first; None if a plain layer comes first. */
  function Peel(m: Module, k: nat): Option<Module>
  {
    if k == 0 then Some(m) else if m.Leaf? then None else Peel(m.inner, k - 1)
  }

  /** How many wrappers a pair puts around slot n: once per listing, plus once as prev op. */
  function Count(names: seq<string>, n: string): (c: nat)
    ensures c > 0 <==> n in names
  {
    if names == [] then 0 else (if names[0] == n then 1 else 0) + Count(names[1..], n)
  }

  function PairCount(p: PairInfo, n: string): (c: nat)
    ensures c > 0 <==> n in Touched(p)
  {
    Count(p.layerNames, n) + if n == p.prevOpName then 1 else 0
  }

  function FreezeOpt(o: Option<Module>): Option<Module>
  {
    match o
    case None => None
    case Some(m) => Some(Freeze(m))
  }

  lemma {:induction false} PeelFreeze(m: Module, k: nat)
    ensures Peel(Freeze(m), k) == FreezeOpt(Peel(m, k))
  {
    if k > 0 && !m.Leaf? {
      PeelFreeze(m.inner, k - 1);
    }
  }

  lemma {:induction false} PeelStep(m: Module, c: nat)
    ensures Peel(m, c + 1) ==
      match Peel(m, c)
      case None => None
      case Some(x) => if x.Leaf? then None else Some(x.inner)
  {
    if c > 0 && !m.Leaf? {
      PeelStep(m.inner, c - 1);
    }
  }

  /** After the layer loop, peeling each slot's new wrappers gives its frozen original back. */
  lemma {:induction false} WrapLayersPeel(slots: map<string, Module>, names: seq<string>, sid: nat)
    requires WrapLayers(slots, names, sid).1.None?
    ensures var w := WrapLayers(slots, names, sid).0;
      forall n :: n in slots ==>
        Peel(w[n], Count(names, n)) == Some(if n in names then Freeze(slots[n]) else slots[n])
    decreases |names|
  {
    if names != [] {
      var n0, rest := names[0], names[1..];
      var s1 := slots[n0 := Mul(Freeze(slots[n0]), sid)];
      WrapLayersPeel(s1, rest, sid);
      var w := WrapLayers(slots, names, sid).0;
      forall n | n in slots
        ensures Peel(w[n], Count(names, n)) == Some(if n in names then Freeze(slots[n]) else slots[n])
      {
        if n == n0 {
          var c := Count(rest, n);
          FreezeIdempotent(slots[n]);
          PeelStep(w[n], c);
        } else {
          assert n in names <==> n in rest;
        }
      }
    }
  }

  /** A successful pass of replace_ leaves every touched slot wrapped once per listing around its frozen original. */
  lemma ReplacePairPeel(st: State, p: PairInfo)
    requires ReplacePair(st, p).failure.None?
    ensures var w := ReplacePair(st, p).state.slots;
      && p.prevOpName in w && w[p.prevOpName].Div? && w[p.prevOpName].sid == |st.scales|
      && (forall n :: n in p.layerNames ==> n in w)
      && forall n :: n in w ==>
        Peel(w[n], PairCount(p, n)) == Some(if n in Touched(p) then Freeze(st.slots[n]) else st.slots[n])
  {
    var sid := |st.scales|;
    var (w1, _) := WrapLayers(st.slots, p.layerNames, sid);
    WrapLayersPeel(st.slots, p.layerNames, sid);
    var q := p.prevOpName;
    var w := ReplacePair(st, p).state.slots;
    assert w == w1[q := Div(Freeze(w1[q]), sid)];
    PeelFreeze(w1[q], Count(p.layerNames, q));
    FreezeIdempotent(st.slots[q]);
  }

  /** If peeling the listed counts off each slot succeeds, the layer loop of the revert does exactly that. */
  lemma {:induction false} UnwrapLayersPeel(slots: map<string, Module>, names: seq<string>, y: map<string, Module>)
    requires y.Keys == slots.Keys
    requires forall n :: n in names ==> n in slots
    requires forall n :: n in slots ==> Peel(slots[n], Count(names, n)) == Some(y[n])
    ensures UnwrapLayers(slots, names).1.None?
    ensures UnwrapLayers(slots, names).0 == map n | n in slots :: if n in names then y[n] else slots[n]
    decreases |names|
  {
    if names != [] {
      var n0, rest := names[0], names[1..];
      var s1 := slots[n0 := slots[n0].inner];
      UnwrapHeadPeel(slots, names, y);
      UnwrapLayersPeel(s1, rest, y);
      UnwrapHeadMap(slots, names, y);
    }
  }

  /** Unwrapping the first listed slot leaves one fewer wrapper to peel off it, and the same off every other slot. */
  lemma UnwrapHeadPeel(slots: map<string, Module>, names: seq<string>, y: map<string, Module>)
    requires names != [] && y.Keys == slots.Keys
    requires forall n :: n in names ==> n in slots
    requires forall n :: n in slots ==> Peel(slots[n], Count(names, n)) == Some(y[n])
    ensures !slots[names[0]].Leaf?
    ensures var s1 := slots[names[0] := slots[names[0]].inner];
      && UnwrapLayers(slots, names) == UnwrapLayers(s1, names[1..])
      && (forall n :: n in names[1..] ==> n in s1)
      && (forall n :: n in s1 ==> Peel(s1[n], Count(names[1..], n)) == Some(y[n]))
  {
    assert Count(names, names[0]) > 0;
  }

  /** The map the rest of the loop produces from the unwrapped slots is the one the whole loop promises. */
  lemma UnwrapHeadMap(slots: map<string, Module>, names: seq<string>, y: map<string, Module>)
    requires names != [] && y.Keys == slots.Keys && names[0] in slots
    requires Peel(slots[names[0]], Count(names, names[0])) == Some(y[names[0]])
    ensures var n0, rest := names[0], names[1..];
      var s1 := slots[n0 := slots[n0].inner];
      (map n | n in s1 :: if n in rest then y[n] else s1[n]) == map n | n in slots :: if n in names then y[n] else slots[n]
  {
    var n0, rest := names[0], names[1..];
    if n0 !in rest {
      assert Count(rest, n0) == 0;
    }
    assert forall n :: n != n0 ==> (n in names <==> n in rest);
  }

  /** If peeling a pair's counts off each slot succeeds, reverting the pair does exactly that. */
  lemma RevertPairPeel(slots: map<string, Module>, p: PairInfo, y: map<string, Module>)
    requires y.Keys == slots.Keys
    requires forall n :: n in slots ==> Peel(slots[n], PairCount(p, n)) == Some(y[n])
    requires p.prevOpName in slots && forall n :: n in p.layerNames ==> n in slots
    ensures RevertPair(slots, p).failure.None?
    ensures RevertPair(slots, p).slots == map n | n in slots :: if n in Touched(p) then y[n] else slots[n]
    ensures RevertPair(slots, p).sids == [slots[p.prevOpName].sid]
  {
    var q := p.prevOpName;
    var s1 := slots[q := slots[q].inner];
    var y1 := y[q := if q in p.layerNames then y[q] else s1[q]];
    RevertPrevOpPeel(slots, p, y);
    UnwrapLayersPeel(s1, p.layerNames, y1);
    RevertPrevOpMap(slots, p, y);
  }

  /** Unwrapping the prev op leaves exactly the layer counts to peel off. */
  lemma RevertPrevOpPeel(slots: map<string, Module>, p: PairInfo, y: map<string, Module>)
    requires y.Keys == slots.Keys && p.prevOpName in slots
    requires forall n :: n in slots ==> Peel(slots[n], PairCount(p, n)) == Some(y[n])
    ensures !slots[p.prevOpName].Leaf?
    ensures var q := p.prevOpName;
      var s1 := slots[q := slots[q].inner];
      var y1 := y[q := if q in p.layerNames then y[q] else s1[q]];
      forall n :: n in s1 ==> Peel(s1[n], Count(p.layerNames, n)) == Some(y1[n])
  {
    assert PairCount(p, p.prevOpName) > 0;
  }

  /** What the layer loop leaves after the prev op was unwrapped is what the whole pair promises. */
  lemma RevertPrevOpMap(slots: map<string, Module>, p: PairInfo, y: map<string, Module>)
    requires y.Keys == slots.Keys && p.prevOpName in slots && !slots[p.prevOpName].Leaf?
    requires Peel(slots[p.prevOpName], PairCount(p, p.prevOpName)) == Some(y[p.prevOpName])
    ensures var q := p.prevOpName;
      var s1 := slots[q := slots[q].inner];
      var y1 := y[q := if q in p.layerNames then y[q] else s1[q]];
      (map n | n in s1 :: if n in p.layerNames then y1[n] else s1[n])
        == map n | n in slots :: if n in Touched(p) then y[n] else slots[n]
  {
    var q := p.prevOpName;
    if q !in p.layerNames {
      assert Count(p.layerNames, q) == 0;
    }
  }

  /** Freezing slots after a replace keeps every wrapper count peelable, down to the frozen originals. */
  lemma FrozenReplacePeel(st: State, p: PairInfo, t: set<string>)
    requires ReplacePair(st, p).failure.None?
    ensures var w := FreezeSlots(ReplacePair(st, p).state.slots, t);
      && w.Keys == st.slots.Keys
      && p.prevOpName in w && (forall n :: n in p.layerNames ==> n in w)
      && w[p.prevOpName].Div? && w[p.prevOpName].sid == |st.scales|
      && forall n :: n in w ==>
        Peel(w[n], PairCount(p, n)) == Some(if n in Touched(p) then Freeze(st.slots[n]) else w[n])
  {
    ReplacePairPeel(st, p);
    var w0 := ReplacePair(st, p).state.slots;
    var w := FreezeSlots(w0, t);
    forall n | n in w
      ensures Peel(w[n], PairCount(p, n)) == Some(if n in Touched(p) then Freeze(st.slots[n]) else w[n])
    {
      if n in t {
        PeelFreeze(w0[n], PairCount(p, n));
        FreezeIdempotent(st.slots[n]);
      }
    }
  }

  /** Reverting a pair right after wrapping it gives back the slots with the touched ones frozen. */
  lemma RevertAfterReplacePair(st: State, p: PairInfo, t: set<string>)
    requires ReplacePair(st, p).failure.None?
    ensures var w := FreezeSlots(ReplacePair(st, p).state.slots, t);
      var u := RevertPair(w, p);
      && u.failure.None?
      && u.slots == FreezeSlots(st.slots, Touched(p) + t)
      && u.sids == [|st.scales|]
  {
    var w := FreezeSlots(ReplacePair(st, p).state.slots, t);
    var y := map n | n in w :: if n in Touched(p) then Freeze(st.slots[n]) else w[n];
    FrozenReplacePeel(st, p, t);
    RevertPairPeel(w, p, y);
    FrozenRevertMap(st, p, t);
  }

  /** The peeled slots are the originals with both the touched and the frozen ones frozen. */
  lemma FrozenRevertMap(st: State, p: PairInfo, t: set<string>)
    requires ReplacePair(st, p).failure.None?
    ensures var w := FreezeSlots(ReplacePair(st, p).state.slots, t);
      (map n | n in w :: if n in Touched(p) then Freeze(st.slots[n]) else w[n]) == FreezeSlots(st.slots, Touched(p) + t)
  {
    ReplacePairPeel(st, p);
    forall n | n !in Touched(p)
      ensures PairCount(p, n) == 0
    {
    }
  }

  /** Reverting a sequence followed by one more pair is reverting the sequence, then that pair. */
  lemma {:induction false} RevertSeqSnoc(slots: map<string, Module>, qs: seq<PairInfo>, p: PairInfo)
    requires RevertSeq(slots, qs).failure.None?
    ensures var u := RevertSeq(slots, qs);
      var v := RevertPair(u.slots, p);
      RevertSeq(slots, qs + [p]) == Undo(v.slots, u.sids + v.sids, v.failure)
    decreases |qs|
  {
    if qs == [] {
      assert [p][1..] == [];
    } else {
      var u0 := RevertPair(slots, qs[0]);
      assert (qs + [p])[0] == qs[0];
      assert (qs + [p])[1..] == qs[1..] + [p];
      RevertSeqSnoc(u0.slots, qs[1..], p);
    }
  }

  /**
   * The round trip: when replace_ succeeds on every pair, _revert_replace
   * succeeds too, every slot is back to its original module (frozen where
   * a pair touched it, as the wrappers' constructors left it), and the
   * ScaleMods are visited newest first.
   */
  lemma {:induction false} RevertUndoesReplace(st: State, ps: seq<PairInfo>)
    requires ReplaceAll(st, ps).failure.None?
    ensures var u := RevertAll(ReplaceAll(st, ps).state.slots, ps);
      && u.failure.None?
      && u.slots == FreezeSlots(st.slots, TouchedAll(ps))
      && |u.sids| == |ps|
      && forall j :: 0 <= j < |ps| ==> u.sids[j] == |st.scales| + |ps| - 1 - j
    decreases |ps|
  {
    if ps == [] {
      assert FreezeSlots(st.slots, {}) == st.slots;
    } else {
      var p, rest := ps[0], ps[1..];
      var st1 := ReplacePair(st, p).state;
      var r := ReplaceAll(st1, rest).state.slots;
      RevertUndoesReplace(st1, rest);
      assert Reverse(ps) == Reverse(rest) + [p];
      RevertSeqSnoc(r, Reverse(rest), p);
      RevertAfterReplacePair(st, p, TouchedAll(rest));
    }
  }

  // ---------------------------------------------------------------------
  // Trainable parameters
  // ---------------------------------------------------------------------

  /** A parameter of the block: one of a plain layer's, or a ScaleMod's `scales`. */
  datatype ParamRef = LeafParam(slot: string, index: nat) | ScaleParam(sid: nat)

  /**
   * get_tranable_params: the block's distinct parameters whose
   * requires_grad is set; a ScaleMod shared by several wrappers is one
   * parameter.
   */
  function TrainableParams(slots: map<string, Module>): set<ParamRef>
  {
    LeafTrainable(slots, {}) + ScaleTrainable(slots)
  }

  /** The trainable parameters of the plain layers in the slots outside `t`. */
  function LeafTrainable(slots: map<string, Module>, t: set<string>): set<ParamRef>
  {
    set n, i | n in slots && n !in t && 0 <= i < |Base(slots[n]).grads| && Base(slots[n]).grads[i] :: LeafParam(n, i)
  }

  /** The ScaleMods the slots refer to (they are never frozen). */
  function ScaleTrainable(slots: map<string, Module>): set<ParamRef>
  {
    set n, s | n in slots && s in Sids(slots[n]) :: ScaleParam(s)
  }

  /** The ScaleMods numbered from `base` on that the pairs wrap around slot n. */
  function NewSids(ps: seq<PairInfo>, base: nat, n: string): (r: set<nat>)
    ensures forall s :: s in r ==> base <= s < base + |ps|
    decreases |ps|
  {
    if ps == [] then {}
    else (if n in Touched(ps[0]) then {base} else {}) + NewSids(ps[1..], base + 1, n)
  }

  /** Every ScaleMod the pairs create is around the prev op of its own pair. */
  lemma {:induction false} NewSidsCover(ps: seq<PairInfo>, base: nat, k: nat)
    requires k < |ps|
    ensures base + k in NewSids(ps, base, ps[k].prevOpName)
    decreases |ps|
  {
    if k > 0 {
      NewSidsCover(ps[1..], base + 1, k - 1);
    }
  }

  /** No slot refers to a ScaleMod at or above `bound`. */
  predicate SidsBelow(slots: map<string, Module>, bound: nat)
  {
    forall n, s :: n in slots && s in Sids(slots[n]) ==> s < bound
  }

  /** Wrapping a slot around an existing ScaleMod keeps every ScaleMod reference in range. */
  lemma SidsBelowWrap(slots: map<string, Module>, n: string, sid: nat, bound: nat)
    requires SidsBelow(slots, bound) && n in slots && sid < bound
    ensures SidsBelow(slots[n := Mul(Freeze(slots[n]), sid)], bound)
    ensures SidsBelow(slots[n := Div(Freeze(slots[n]), sid)], bound)
  {
  }

  /** Unwrapping a slot keeps every ScaleMod reference in range, and the removed wrapper's was in range too. */
  lemma SidsBelowUnwrap(slots: map<string, Module>, n: string, bound: nat)
    requires SidsBelow(slots, bound) && n in slots && !slots[n].Leaf?
    ensures slots[n].sid < bound
    ensures SidsBelow(slots[n := slots[n].inner], bound)
  {
    assert slots[n].sid in Sids(slots[n]);
  }

  /** The layer loop of replace_ freezes the listed layers and adds the new ScaleMod around each. */
  lemma {:induction false} WrapLayersShape(slots: map<string, Module>, names: seq<string>, sid: nat, n: string)
    requires WrapLayers(slots, names, sid).1.None?
    requires n in slots
    ensures var w := WrapLayers(slots, names, sid).0;
      && Base(w[n]) == (if n in names then FreezeLeaf(Base(slots[n])) else Base(slots[n]))
      && Sids(w[n]) == Sids(slots[n]) + (if n in names then {sid} else {})
    decreases |names|
  {
    if names != [] {
      var s1 := slots[names[0] := Mul(Freeze(slots[names[0]]), sid)];
      WrapLayersShape(s1, names[1..], sid, n);
      assert n in names <==> n == names[0] || n in names[1..];
      var b := Base(slots[n]);
      assert FreezeLeaf(FreezeLeaf(b)) == FreezeLeaf(b);
    }
  }

  /** One pass of replace_ freezes the plain layer of every slot it touches and adds its ScaleMod there. */
  lemma ReplacePairShape(st: State, p: PairInfo, n: string)
    requires ReplacePair(st, p).failure.None?
    requires n in st.slots
    ensures var w := ReplacePair(st, p).state.slots;
      && Base(w[n]) == (if n in Touched(p) then FreezeLeaf(Base(st.slots[n])) else Base(st.slots[n]))
      && Sids(w[n]) == Sids(st.slots[n]) + (if n in Touched(p) then {|st.scales|} else {})
  {
    var sid := |st.scales|;
    var w1 := WrapLayers(st.slots, p.layerNames, sid).0;
    WrapLayersShape(st.slots, p.layerNames, sid, n);
    var b := Base(st.slots[n]);
    assert FreezeLeaf(FreezeLeaf(b)) == FreezeLeaf(b);
  }

  /**
   * After a successful replace_, every slot's plain layer is frozen exactly
   * when some pair touched it, and its wrappers refer to its old ScaleMods
   * plus the new one of every pair that touched it.
   */
  lemma {:induction false} ReplaceAllShape(st: State, ps: seq<PairInfo>, n: string)
    requires ReplaceAll(st, ps).failure.None?
    requires n in st.slots
    ensures var r := ReplaceAll(st, ps).state;
      && Base(r.slots[n]) == (if n in TouchedAll(ps) then FreezeLeaf(Base(st.slots[n])) else Base(st.slots[n]))
      && Sids(r.slots[n]) == Sids(st.slots[n]) + NewSids(ps, |st.scales|, n)
    decreases |ps|
  {
    if ps != [] {
      ReplacePairShape(st, ps[0], n);
      ReplaceAllShape(ReplacePair(st, ps[0]).state, ps[1..], n);
      var b := Base(st.slots[n]);
      assert FreezeLeaf(FreezeLeaf(b)) == FreezeLeaf(b);
    }
  }

  /** A successful replace_ found every pair's prev op in the block. */
  lemma {:induction false} ReplaceAllFoundPrevOps(st: State, ps: seq<PairInfo>)
    requires ReplaceAll(st, ps).failure.None?
    ensures forall k :: 0 <= k < |ps| ==> ps[k].prevOpName in st.slots
    decreases |ps|
  {
    if ps != [] {
      ReplaceAllFoundPrevOps(ReplacePair(st, ps[0]).state, ps[1..]);
      assert forall k :: 1 <= k < |ps| ==> ps[k] == ps[1..][k - 1];
    }
  }

  /** The ScaleMods named base, base + 1, ..., base + m - 1. */
  function ScaleRange(base: nat, m: nat): (r: set<ParamRef>)
    ensures |r| == m
    ensures forall x :: x in r <==> x.ScaleParam? && base <= x.sid < base + m
  {
    if m == 0 then {}
    else
      var prev := ScaleRange(base, m - 1);
      assert ScaleParam(base + m - 1) !in prev;
      prev + {ScaleParam(base + m - 1)}
  }

  /** After replace_, the plain layers keep trainable parameters only in the slots no pair touched. */
  lemma LeafTrainableAfterReplace(st: State, ps: seq<PairInfo>)
    requires ReplaceAll(st, ps).failure.None?
    ensures LeafTrainable(ReplaceAll(st, ps).state.slots, {}) == LeafTrainable(st.slots, TouchedAll(ps))
  {
    forall n | n in st.slots {
      ReplaceAllShape(st, ps, n);
    }
  }

  /** After replace_ on a block of plain layers, every ScaleMod in use is one the pairs created. */
  lemma ScaleTrainableWithinNew(st: State, ps: seq<PairInfo>)
    requires ReplaceAll(st, ps).failure.None?
    requires forall n :: n in st.slots ==> st.slots[n].Leaf?
    ensures ScaleTrainable(ReplaceAll(st, ps).state.slots) <= ScaleRange(|st.scales|, |ps|)
  {
    var r := ReplaceAll(st, ps).state.slots;
    forall x | x in ScaleTrainable(r)
      ensures x in ScaleRange(|st.scales|, |ps|)
    {
      var n :| n in r && x.sid in Sids(r[n]);
      ReplaceAllShape(st, ps, n);
    }
  }

  /** After replace_, every ScaleMod the pairs created is in use. */
  lemma ScaleTrainableCoversNew(st: State, ps: seq<PairInfo>)
    requires ReplaceAll(st, ps).failure.None?
    ensures ScaleRange(|st.scales|, |ps|) <= ScaleTrainable(ReplaceAll(st, ps).state.slots)
  {
    var r := ReplaceAll(st, ps).state.slots;
    var base := |st.scales|;
    ReplaceAllFoundPrevOps(st, ps);
    forall x | x in ScaleRange(base, |ps|)
      ensures x in ScaleTrainable(r)
    {
      var k := x.sid - base;
      var q := ps[k].prevOpName;
      ReplaceAllShape(st, ps, q);
      NewSidsCover(ps, base, k);
      assert q in r && x.sid in Sids(r[q]);
    }
  }

  /**
   * The trainable parameters right after replace_ on a block of plain
   * layers: the untouched layers' own trainable parameters, and exactly
   * one ScaleMod per pair.
   */
  lemma TrainableAfterReplace(st: State, ps: seq<PairInfo>)
    requires ReplaceAll(st, ps).failure.None?
    requires forall n :: n in st.slots ==> st.slots[n].Leaf?
    ensures TrainableParams(ReplaceAll(st, ps).state.slots) ==
      LeafTrainable(st.slots, TouchedAll(ps)) + ScaleRange(|st.scales|, |ps|)
  {
    LeafTrainableAfterReplace(st, ps);
    ScaleTrainableWithinNew(st, ps);
    ScaleTrainableCoversNew(st, ps);
  }

  /** When every layer of the block is rewritten, the trainable parameters are the pairs' ScaleMods, one per pair. */
  lemma TrainableCountAfterReplace(st: State, ps: seq<PairInfo>)
    requires ReplaceAll(st, ps).failure.None?
    requires forall n :: n in st.slots ==> st.slots[n].Leaf? && n in TouchedAll(ps)
    ensures |TrainableParams(ReplaceAll(st, ps).state.slots)| == |ps|
  {
    TrainableAfterReplace(st, ps);
    assert LeafTrainable(st.slots, TouchedAll(ps)) == {};
  }

  // ---------------------------------------------------------------------
  // Forward passes right after wrapping
  // ---------------------------------------------------------------------

  /** Every ScaleMod a module refers to is below `bound`, wrapper by wrapper. */
  predicate SidsFit(m: Module, bound: nat)
  {
    match m
    case Leaf(_, _, _) => true
    case Mul(i, s) => s < bound && SidsFit(i, bound)
    case Div(i, s) => s < bound && SidsFit(i, bound)
  }

  lemma {:induction false} SidsFitFromBound(m: Module, bound: nat)
    requires forall s :: s in Sids(m) ==> s < bound
    ensures SidsFit(m, bound)
  {
    match m
    case Leaf(_, _, _) =>
    case Mul(i, s) => assert s in Sids(m); SidsFitFromBound(i, bound);
    case Div(i, s) => assert s in Sids(m); SidsFitFromBound(i, bound);
  }

  /** `a * b`, kept apart so that products stay out of quantifiers. */
  function Times(a: real, b: real): real { a * b }

  /** `x * scales.view(1, -1)` on one row; a width mismatch is a broadcast error. */
  function ScaleMul(x: seq<real>, sc: seq<real>): Option<seq<real>>
  {
    if |x| != |sc| then None else Some(seq(|x|, i requires 0 <= i < |x| => Times(x[i], sc[i])))
  }

  /** `y / scales.view(1, -1)` on one row; a zero scale (inf or nan in torch) is not modelled and gives None. */
  function ScaleDiv(y: seq<real>, sc: seq<real>): Option<seq<real>>
  {
    if |y| != |sc| || exists i :: 0 <= i < |sc| && sc[i] == 0.0 then None
    else Some(seq(|y|, i requires 0 <= i < |y| => y[i] / sc[i]))
  }

  /**
   * The forward of a slot's module on one row: MulLinear scales the input
   * before its inner module, DivLinear divides the inner module's output.
   * `layer(id, x)` is the plain layer's own forward.
   */
  function ModuleForward(m: Module, scales: seq<seq<real>>, layer: (nat, seq<real>) -> seq<real>, x: seq<real>)
    : Option<seq<real>>
    requires SidsFit(m, |scales|)
  {
    match m
    case Leaf(id, _, _) => Some(layer(id, x))
    case Mul(i, s) =>
      (match ScaleMul(x, scales[s])
       case None => None
       case Some(x1) => ModuleForward(i, scales, layer, x1))
    case Div(i, s) =>
      (match ModuleForward(i, scales, layer, x)
       case None => None
       case Some(y) => ScaleDiv(y, scales[s]))
  }

  /** The wrappers' scales are as wide as what they scale: the layer's input for MulLinear, its output for DivLinear. */
  predicate WidthsFit(m: Module, scales: seq<seq<real>>, inWidth: nat, outWidth: nat)
    requires SidsFit(m, |scales|)
  {
    match m
    case Leaf(_, _, _) => true
    case Mul(i, s) => |scales[s]| == inWidth && WidthsFit(i, scales, inWidth, outWidth)
    case Div(i, s) => |scales[s]| == outWidth && WidthsFit(i, scales, inWidth, outWidth)
  }

  /** With all scales at one, the wrappers are transparent: the slot computes what its plain layer computes. */
  lemma {:induction false} OnesAreNeutral(m: Module, scales: seq<seq<real>>, layer: (nat, seq<real>) -> seq<real>, x: seq<real>)
    requires SidsFit(m, |scales|) && AllOnes(scales)
    ensures var y := layer(Base(m).id, x);
      ModuleForward(m, scales, layer, x) == if WidthsFit(m, scales, |x|, |y|) then Some(y) else None
  {
    match m
    case Leaf(_, _, _) =>
    case Mul(i, s) =>
      if |x| == |scales[s]| {
        assert ScaleMul(x, scales[s]).value == x;
      }
      OnesAreNeutral(i, scales, layer, x);
    case Div(i, s) =>
      OnesAreNeutral(i, scales, layer, x);
      var y := layer(Base(m).id, x);
      var sc := scales[s];
      assert sc == Ones(|sc|);
      if |y| == |sc| {
        assert !exists k :: 0 <= k < |sc| && sc[k] == 0.0;
        assert ScaleDiv(y, sc).value == y;
      }
  }

  /**
   * Right after replace_ on a block whose ScaleMods are all at one, every
   * slot computes what it computed before (where the scale widths fit).
   */
  lemma ForwardUnchangedAfterReplace(st: State, ps: seq<PairInfo>, n: string,
                                     layer: (nat, seq<real>) -> seq<real>, x: seq<real>)
    requires ReplaceAll(st, ps).failure.None?
    requires SidsBelow(st.slots, |st.scales|) && AllOnes(st.scales)
    requires n in st.slots
    ensures var r := ReplaceAll(st, ps).state;
      var y := layer(Base(st.slots[n]).id, x);
      && SidsFit(r.slots[n], |r.scales|)
      && ModuleForward(r.slots[n], r.scales, layer, x) == if WidthsFit(r.slots[n], r.scales, |x|, |y|) then Some(y) else None
  {
    var r := ReplaceAll(st, ps).state;
    ReplaceAllShape(st, ps, n);
    SidsFitFromBound(r.slots[n], |r.scales|);
    OnesAreNeutral(r.slots[n], r.scales, layer, x);
  }

  // ---------------------------------------------------------------------
  // _create_layer_info and the block object
  // ---------------------------------------------------------------------

  /** A value of one of the scaling-group dicts. */
  datatype DictValue = Text(text: string) | Names(names: seq<string>) | OtherValue

  /** The two keys _create_layer_info reads hold a name and a list of names, as PairInfo's fields declare. */
  predicate WellTyped(e: map<string, DictValue>)
  {
    && ("prev_op_name" in e ==> e["prev_op_name"].Text?)
    && ("layer_names" in e ==> e["layer_names"].Names?)
  }

  /**
   * _create_layer_info: one PairInfo per scaling group, in order, with the
   * prev op and layer names copied; a group without one of the two keys is
   * a KeyError.
   */
  method CreateLayerInfo(layersInfo: seq<map<string, DictValue>>) returns (r: Result<seq<PairInfo>>)
    requires forall k :: 0 <= k < |layersInfo| ==> WellTyped(layersInfo[k])
    ensures r.Ok? <==> forall k :: 0 <= k < |layersInfo| ==>
      "prev_op_name" in layersInfo[k] && "layer_names" in layersInfo[k]
    ensures r.Err? ==> r.error == KeyError
    ensures r.Ok? ==> |r.value| == |layersInfo|
    ensures r.Ok? ==> forall k :: 0 <= k < |layersInfo| ==>
      (WellTyped(layersInfo[k])
       && r.value[k] == PairInfo(layersInfo[k]["prev_op_name"].text, layersInfo[k]["layer_names"].names))
  {
    var info: seq<PairInfo> := [];
    for k := 0 to |layersInfo|
      invariant |info| == k
      invariant forall j :: 0 <= j < k ==> "prev_op_name" in layersInfo[j] && "layer_names" in layersInfo[j]
      invariant forall j :: 0 <= j < k ==>
        (WellTyped(layersInfo[j]) && info[j] == PairInfo(layersInfo[j]["prev_op_name"].text, layersInfo[j]["layer_names"].names))
    {
      var pair := layersInfo[k];
      if "prev_op_name" !in pair || "layer_names" !in pair {
        return Err(KeyError);
      }
      info := info + [PairInfo(pair["prev_op_name"].text, pair["layer_names"].names)];
    }
    return Ok(info);
  }

  /** What _revert_replace returns per pair: its names and its ScaleMod's scales. */
  datatype ScaleEntry = ScaleEntry(prevOpName: string, layerNames: seq<string>, scales: seq<real>)

  /**
   * `entries` lists, in pair order, each pair's names with the ScaleMod
   * whose id the revert visited for it; `sids` is in visiting order, which
   * is the reverse of the pair order.
   */
  predicate EntriesFor(ps: seq<PairInfo>, sids: seq<nat>, scales: seq<seq<real>>, entries: seq<ScaleEntry>)
  {
    && |entries| == |ps| && |sids| == |ps|
    && forall k :: 0 <= k < |ps| ==>
         sids[|ps| - 1 - k] < |scales|
         && entries[k] == ScaleEntry(ps[k].prevOpName, ps[k].layerNames, scales[sids[|ps| - 1 - k]])
  }

  /**
   * The reverse loop over `qs` is at pair `i` with slots `cur`, having
   * read the ScaleMods `visited`: finishing the loop from here gives the
   * whole loop's result.
   */
  ghost predicate RevertState(s0: map<string, Module>, qs: seq<PairInfo>, i: nat, visited: seq<nat>, cur: map<string, Module>)
  {
    i <= |qs| && var u := RevertSeq(cur, qs[i..]); RevertSeq(s0, qs) == Undo(u.slots, visited + u.sids, u.failure)
  }

  /** The reverse loop, stopped at pair i by a failing revert, ends in that revert's state. */
  lemma RevertSeqStop(s0: map<string, Module>, qs: seq<PairInfo>, i: nat, visited: seq<nat>, before: map<string, Module>)
    requires i < |qs|
    requires RevertState(s0, qs, i, visited, before)
    requires RevertPair(before, qs[i]).failure.Some?
    ensures RevertSeq(s0, qs).failure.Some? && RevertSeq(s0, qs).slots == RevertPair(before, qs[i]).slots
  {
  }

  /** The reverse loop, past a successful revert of pair i that read ScaleMod `sid`. */
  lemma RevertSeqAdvance(s0: map<string, Module>, qs: seq<PairInfo>, i: nat, visited: seq<nat>, before: map<string, Module>, sid: nat)
    requires i < |qs|
    requires RevertState(s0, qs, i, visited, before)
    requires RevertPair(before, qs[i]).failure.None? && RevertPair(before, qs[i]).sids == [sid]
    ensures RevertState(s0, qs, i + 1, visited + [sid], RevertPair(before, qs[i]).slots)
  {
    assert qs[i..][1..] == qs[i + 1..];
    var rest := RevertSeq(RevertPair(before, qs[i]).slots, qs[i + 1..]);
    assert visited + ([sid] + rest.sids) == (visited + [sid]) + rest.sids;
  }

  /** One successful pass of the reverse loop: the loop state and the collected entries both advance. */
  lemma RevertStep(s0: map<string, Module>, qs: seq<PairInfo>, i: nat, visited: seq<nat>, before: map<string, Module>,
                   sid: nat, scales: seq<seq<real>>, lst: seq<ScaleEntry>)
    requires i < |qs| && RevertState(s0, qs, i, visited, before)
    requires RevertPair(before, qs[i]).failure.None? && RevertPair(before, qs[i]).sids == [sid] && sid < |scales|
    requires VisitedEntries(qs, visited, scales, lst) && |lst| == i
    ensures RevertState(s0, qs, i + 1, visited + [sid], RevertPair(before, qs[i]).slots)
    ensures VisitedEntries(qs, visited + [sid], scales, lst + [ScaleEntry(qs[i].prevOpName, qs[i].layerNames, scales[sid])])
  {
    RevertSeqAdvance(s0, qs, i, visited, before, sid);
    VisitedEntriesSnoc(qs, visited, scales, lst, sid);
  }

  /** The reverse loop has ended once every pair was reverted. */
  lemma RevertSeqDone(s0: map<string, Module>, qs: seq<PairInfo>, visited: seq<nat>, after: map<string, Module>)
    requires RevertState(s0, qs, |qs|, visited, after)
    ensures RevertSeq(s0, qs) == Undo(after, visited, None)
  {
    assert qs[|qs|..] == [];
    assert visited + [] == visited;
  }

  /** Once every pair of the reversed list was reverted, the revert is complete and the list, reversed back, is in pair order. */
  lemma RevertAllDone(s0: map<string, Module>, ps: seq<PairInfo>, visited: seq<nat>, after: map<string, Module>,
                      scales: seq<seq<real>>, lst: seq<ScaleEntry>)
    requires RevertState(s0, Reverse(ps), |ps|, visited, after)
    requires |lst| == |ps| && VisitedEntries(Reverse(ps), visited, scales, lst)
    ensures RevertAll(s0, ps) == Undo(after, visited, None)
    ensures EntriesFor(ps, visited, scales, Reverse(lst))
  {
    RevertSeqDone(s0, Reverse(ps), visited, after);
    ReversedEntries(ps, visited, scales, lst);
  }

  /** `lst` holds, for the first |lst| pairs of `qs`, their names and the ScaleMod visited for them. */
  predicate VisitedEntries(qs: seq<PairInfo>, visited: seq<nat>, scales: seq<seq<real>>, lst: seq<ScaleEntry>)
  {
    && |visited| == |lst| <= |qs|
    && forall j :: 0 <= j < |lst| ==>
         visited[j] < |scales| && lst[j] == ScaleEntry(qs[j].prevOpName, qs[j].layerNames, scales[visited[j]])
  }

  lemma VisitedAt(qs: seq<PairInfo>, visited: seq<nat>, scales: seq<seq<real>>, lst: seq<ScaleEntry>, j: nat)
    requires VisitedEntries(qs, visited, scales, lst) && j < |lst|
    ensures visited[j] < |scales| && lst[j] == ScaleEntry(qs[j].prevOpName, qs[j].layerNames, scales[visited[j]])
  {
  }

  lemma VisitedEntriesSnoc(qs: seq<PairInfo>, visited: seq<nat>, scales: seq<seq<real>>, lst: seq<ScaleEntry>, sid: nat)
    requires VisitedEntries(qs, visited, scales, lst) && |lst| < |qs| && sid < |scales|
    ensures VisitedEntries(qs, visited + [sid], scales, lst + [ScaleEntry(qs[|lst|].prevOpName, qs[|lst|].layerNames, scales[sid])])
  {
  }

  /** Entries built while visiting the pairs backwards, reversed, are the entries in pair order. */
  lemma ReversedEntries(ps: seq<PairInfo>, visited: seq<nat>, scales: seq<seq<real>>, lst: seq<ScaleEntry>)
    requires |lst| == |ps| && VisitedEntries(Reverse(ps), visited, scales, lst)
    ensures EntriesFor(ps, visited, scales, Reverse(lst))
  {
    forall k | 0 <= k < |ps|
      ensures visited[|ps| - 1 - k] < |scales|
      ensures Reverse(lst)[k] == ScaleEntry(ps[k].prevOpName, ps[k].layerNames, scales[visited[|ps| - 1 - k]])
    {
      ReversedAt(ps, visited, scales, lst, k);
    }
  }

  /** Pair k's entry sits at position k of the reversed list, read off visit |ps| - 1 - k. */
  lemma ReversedAt(ps: seq<PairInfo>, visited: seq<nat>, scales: seq<seq<real>>, lst: seq<ScaleEntry>, k: nat)
    requires |lst| == |ps| && VisitedEntries(Reverse(ps), visited, scales, lst) && k < |ps|
    ensures visited[|ps| - 1 - k] < |scales|
    ensures Reverse(lst)[k] == ScaleEntry(ps[k].prevOpName, ps[k].layerNames, scales[visited[|ps| - 1 - k]])
  {
    var j := |ps| - 1 - k;
    var qs, out := Reverse(ps), Reverse(lst);
    assert out[k] == lst[j];
    assert qs[j] == ps[k];
    VisitedAt(qs, visited, scales, lst, j);
  }

  /** `entries` pairs each `ps[k]` with ScaleMod `base + k`. */
  predicate EntriesFrom(ps: seq<PairInfo>, base: nat, scales: seq<seq<real>>, entries: seq<ScaleEntry>)
  {
    && |entries| == |ps|
    && forall k :: 0 <= k < |ps| ==> EntryFrom(ps, base, scales, entries, k)
  }

  /** Entry k holds pair k's names and the scales of ScaleMod `base + k`. */
  predicate EntryFrom(ps: seq<PairInfo>, base: nat, scales: seq<seq<real>>, entries: seq<ScaleEntry>, k: nat)
    requires k < |ps| && |entries| == |ps|
  {
    base + k < |scales| && entries[k] == ScaleEntry(ps[k].prevOpName, ps[k].layerNames, scales[base + k])
  }

  /** The entry of pair k under EntriesFor, with the ScaleMod id it was visited with. */
  lemma EntryAt(ps: seq<PairInfo>, sids: seq<nat>, scales: seq<seq<real>>, entries: seq<ScaleEntry>, k: nat, id: nat)
    requires EntriesFor(ps, sids, scales, entries) && k < |ps| && sids[|ps| - 1 - k] == id
    ensures id < |scales| && entries[k] == ScaleEntry(ps[k].prevOpName, ps[k].layerNames, scales[id])
  {
  }

  /**
   * When the revert visits the ScaleMods created by a replace (ids
   * base + |ps| - 1 down to base), pair k gets ScaleMod base + k.
   */
  lemma EntriesForConsecutive(ps: seq<PairInfo>, sids: seq<nat>, base: nat, scales: seq<seq<real>>, entries: seq<ScaleEntry>)
    requires EntriesFor(ps, sids, scales, entries)
    requires forall j :: 0 <= j < |sids| ==> sids[j] == base + |ps| - 1 - j
    ensures EntriesFrom(ps, base, scales, entries)
  {
    assert |entries| == |ps|;
    forall k | 0 <= k < |ps|
      ensures EntryFrom(ps, base, scales, entries, k)
    {
      var j := |ps| - 1 - k;
      assert |sids| == |ps| && 0 <= j < |sids|;
      assert sids[j] == base + |ps| - 1 - j;
      EntryAt(ps, sids, scales, entries, k, base + k);
    }
  }

  /**
   * A decoder block: its module slots, the ScaleMods its wrappers share,
   * and the `_module_pairs_info` attribute api_replace_ sets.
   */
  class Block {
    var slots: map<string, Module>
    var scaleMods: seq<seq<real>>
    var modulePairsInfo: Option<seq<PairInfo>>

    /** Every wrapper refers to an existing ScaleMod. */
    ghost predicate Valid()
      reads this
    {
      SidsBelow(slots, |scaleMods|)
    }

    /** A block of plain layers. */
    constructor(layers: map<string, Module>)
      requires forall n :: n in layers ==> layers[n].Leaf?
      ensures slots == layers && scaleMods == [] && modulePairsInfo.None?
      ensures Valid()
    {
      slots := layers;
      scaleMods := [];
      modulePairsInfo := None;
    }

    /** The body of replace_'s outer loop, for one pair. */
    method ReplaceOnePair(p: PairInfo) returns (failure: Option<Error>)
      requires Valid()
      modifies this`slots, this`scaleMods
      ensures Valid()
      ensures Run(State(slots, scaleMods), failure) == ReplacePair(State(old(slots), old(scaleMods)), p)
    {
      if |p.layerNames| == 0 {
        return Some(IndexError);
      }
      var first := p.layerNames[0];
      if first !in slots || !slots[first].Leaf? || slots[first].inFeatures.None? {
        return Some(AttributeError);
      }
      var sid := |scaleMods|;
      scaleMods := scaleMods + [Ones(slots[first].inFeatures.value)];
      ghost var s0 := slots;
      ghost var sc := scaleMods;
      var j := 0;
      while j < |p.layerNames|
        invariant 0 <= j <= |p.layerNames|
        invariant scaleMods == sc && sid < |scaleMods|
        invariant SidsBelow(slots, |scaleMods|)
        invariant WrapLayers(slots, p.layerNames[j..], sid) == WrapLayers(s0, p.layerNames, sid)
      {
        var name := p.layerNames[j];
        assert p.layerNames[j..][1..] == p.layerNames[j + 1..];
        if name !in slots {
          assert WrapLayers(s0, p.layerNames, sid) == (slots, Some(AttributeError));
          return Some(AttributeError);
        }
        SidsBelowWrap(slots, name, sid, |scaleMods|);
        slots := slots[name := Mul(Freeze(slots[name]), sid)];
        j := j + 1;
      }
      assert WrapLayers(s0, p.layerNames, sid) == (slots, None);
      if p.prevOpName !in slots {
        return Some(AttributeError);
      }
      SidsBelowWrap(slots, p.prevOpName, sid, |scaleMods|);
      slots := slots[p.prevOpName := Div(Freeze(slots[p.prevOpName]), sid)];
      return None;
    }

    /** replace_: every pair in order; the first failure ends it, leaving the changes made so far. */
    method Replace(ps: seq<PairInfo>) returns (failure: Option<Error>)
      requires Valid()
      modifies this`slots, this`scaleMods
      ensures Valid()
      ensures Run(State(slots, scaleMods), failure) == ReplaceResult(State(old(slots), old(scaleMods)), ps)
    {
      if !HasParameters(slots) {
        return Some(StopIteration);
      }
      ghost var st0 := State(slots, scaleMods);
      var i := 0;
      while i < |ps|
        invariant 0 <= i <= |ps|
        invariant Valid()
        invariant ReplaceAll(State(slots, scaleMods), ps[i..]) == ReplaceAll(st0, ps)
      {
        assert ps[i..][1..] == ps[i + 1..];
        var f := ReplaceOnePair(ps[i]);
        if f.Some? {
          return f;
        }
        i := i + 1;
      }
      return None;
    }

    /** The body of _revert_replace's loop, for one pair: the ScaleMod it reads, or the failure. */
    method RevertOnePair(p: PairInfo) returns (failure: Option<Error>, sid: nat)
      requires Valid()
      modifies this`slots
      ensures Valid()
      ensures var u := RevertPair(old(slots), p);
        && slots == u.slots && failure == u.failure
        && (failure.None? ==> u.sids == [sid] && sid < |scaleMods|)
    {
      var q := p.prevOpName;
      if q !in slots || slots[q].Leaf? {
        return Some(AttributeError), 0;
      }
      var divLinear := slots[q];
      SidsBelowUnwrap(slots, q, |scaleMods|);
      slots := slots[q := divLinear.inner];
      sid := divLinear.sid;
      ghost var s1 := slots;
      var j := 0;
      while j < |p.layerNames|
        invariant 0 <= j <= |p.layerNames|
        invariant Valid()
        invariant UnwrapLayers(slots, p.layerNames[j..]) == UnwrapLayers(s1, p.layerNames)
      {
        var name := p.layerNames[j];
        assert p.layerNames[j..][1..] == p.layerNames[j + 1..];
        if name !in slots || slots[name].Leaf? {
          return Some(AttributeError), sid;
        }
        SidsBelowUnwrap(slots, name, |scaleMods|);
        slots := slots[name := slots[name].inner];
        j := j + 1;
      }
      return None, sid;
    }

    /**
     * _revert_replace: the pairs in reverse order, each prev op unwrapped
     * before its layers; the returned list is in the original pair order.
     */
    method RevertReplace(ps: seq<PairInfo>) returns (r: Result<seq<ScaleEntry>>)
      requires Valid()
      modifies this`slots
      ensures Valid()
      ensures var u := RevertAll(old(slots), ps);
        && slots == u.slots
        && (r.Ok? <==> u.failure.None?)
        && (r.Err? ==> r.error == AttributeError)
        && (r.Ok? ==> EntriesFor(ps, u.sids, scaleMods, r.value))
    {
      ghost var qs := Reverse(ps);
      ghost var s0 := slots;
      ghost var visited: seq<nat> := [];
      var scaleLst: seq<ScaleEntry> := [];
      var i := 0;
      while i < |ps|
        invariant 0 <= i <= |ps|
        invariant Valid()
        invariant |scaleLst| == i
        invariant VisitedEntries(qs, visited, scaleMods, scaleLst)
        invariant RevertState(s0, qs, i, visited, slots)
      {
        var pair := ps[|ps| - 1 - i];
        assert pair == qs[i];
        ghost var before := slots;
        var failure, sid := RevertOnePair(pair);
        if failure.Some? {
          RevertSeqStop(s0, qs, i, visited, before);
          return Err(AttributeError);
        }
        RevertStep(s0, qs, i, visited, before, sid, scaleMods, scaleLst);
        scaleLst := scaleLst + [ScaleEntry(pair.prevOpName, pair.layerNames, scaleMods[sid])];
        visited := visited + [sid];
        i := i + 1;
      }
      RevertAllDone(s0, ps, visited, slots, scaleMods, scaleLst);
      return Ok(Reverse(scaleLst));
    }

    /** api_replace_: the pair list (from the model's scaling groups) is stored on the block, then replace_ runs. */
    method ApiReplace(ps: seq<PairInfo>) returns (failure: Option<Error>)
      requires Valid()
      modifies this
      ensures Valid()
      ensures modulePairsInfo == Some(ps)
      ensures Run(State(slots, scaleMods), failure) == ReplaceResult(State(old(slots), old(scaleMods)), ps)
    {
      modulePairsInfo := Some(ps);
      failure := Replace(ps);
    }

    /**
     * api_absorb_mul_: reads the stored pair list (AttributeError when it
     * was never set), reverts the wrapping, hands the scale list to
     * apply_scale, and only then deletes the attribute.
     */
    method ApiAbsorbMul() returns (r: Result<seq<ScaleEntry>>)
      requires Valid()
      modifies this`slots, this`modulePairsInfo
      ensures Valid()
      ensures old(modulePairsInfo).None? ==> r == Err(AttributeError) && slots == old(slots) && modulePairsInfo.None?
      ensures old(modulePairsInfo).Some? ==>
        var ps := old(modulePairsInfo).value;
        var u := RevertAll(old(slots), ps);
        && slots == u.slots
        && (r.Ok? <==> u.failure.None?)
        && (r.Ok? ==> modulePairsInfo.None? && EntriesFor(ps, u.sids, scaleMods, r.value))
        && (r.Err? ==> modulePairsInfo == old(modulePairsInfo))
    {
      if modulePairsInfo.None? {
        return Err(AttributeError);
      }
      var ps := modulePairsInfo.value;
      r := RevertReplace(ps);
      if r.Ok? {
        modulePairsInfo := None;
      }
    }

    /**
     * The flow of the replace test: api_replace_ then api_absorb_mul_ on a
     * block of plain layers gives every layer back (frozen where it was
     * wrapped), drops the stored pair list, and hands over each pair's own
     * ScaleMod, in pair order.
     */
    method ReplaceThenAbsorb(ps: seq<PairInfo>) returns (failure: Option<Error>, r: Result<seq<ScaleEntry>>)
      requires Valid()
      requires forall n :: n in slots ==> slots[n].Leaf?
      modifies this
      ensures failure.None? ==>
        && r.Ok? && slots == FreezeSlots(old(slots), TouchedAll(ps)) && modulePairsInfo.None?
        && EntriesFrom(ps, |old(scaleMods)|, scaleMods, r.value)
    {
      ghost var st0 := State(slots, scaleMods);
      failure := ApiReplace(ps);
      if failure.Some? {
        return failure, Err(AttributeError);
      }
      assert ReplaceAll(st0, ps) == Run(State(slots, scaleMods), None);
      RevertUndoesReplace(st0, ps);
      ghost var u := RevertAll(slots, ps);
      r := ApiAbsorbMul();
      assert slots == u.slots && r.Ok?;
      assert slots == FreezeSlots(st0.slots, TouchedAll(ps));
      EntriesForConsecutive(ps, u.sids, |st0.scales|, scaleMods, r.value);
    }
  }
}
