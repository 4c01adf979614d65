/*
 * Capturing the inputs of the first block during calibration: the
 * patched forward that `get_forward_func` builds, and the swap of a
 * module's forward performed by `_replace_forward` / `_recover_forward`.
 * The imperative versions are methods of `AutoRound.AutoRound`; here are
 * the functions they are proved against and the properties of those.
 */
module Capture {
  import opened Common

  /** An argument the block's forward receives, as the capture stores it. */
  datatype Arg =
    | TensorArg(tensor: Tensor)
    | ListArg(items: seq<Tensor>)
    | NoneArg
    | OtherArg(tag: nat)          // any other Python object, kept by identity
    | ArgTuple(args: seq<Arg>)    // the stored tuple of positional arguments

  /** One call of the patched forward: hidden states, extra positional arguments, keyword arguments in order. */
  datatype Call = Call(hidden: Tensor, positional: seq<Arg>, kwargs: seq<(string, Arg)>)

  /** What the buffer holds for one block name: a dictionary from keys to stored arguments. */
  type Captured = map<string, Arg>

  const InputIdsKey := "input_ids"
  const PositionalKey := "positional_inputs"
  const AttentionMaskKey := "attention_mask"
  const AlibiKey := "alibi"

  /** Keyword arguments, like any Python dict, have distinct keys. */
  predicate DistinctKeys(kwargs: seq<(string, Arg)>) {
    forall i, j :: 0 <= i < j < |kwargs| ==> kwargs[i].0 != kwargs[j].0
  }

  /** `kwargs[k]`: the value of the first keyword argument named `k`, if any. */
  function KwargValue(kwargs: seq<(string, Arg)>, k: string): (r: Option<Arg>)
    ensures r.None? <==> forall i :: 0 <= i < |kwargs| ==> kwargs[i].0 != k
    ensures r.Some? ==> exists i :: 0 <= i < |kwargs| && kwargs[i] == (k, r.value)
    decreases |kwargs|
  {
    if kwargs == [] then None
    else if kwargs[0].0 == k then Some(kwargs[0].1)
    else
      var r := KwargValue(kwargs[1..], k);
      assert forall i :: 0 <= i < |kwargs[1..]| ==> kwargs[1..][i] == kwargs[i + 1];
      r
  }

  /**
   * `torch.cat` along dimension 0 needs slices of one shape; a tensor
   * without slices is taken to fit any other.
   */
  predicate SameWidth(a: Tensor, b: Tensor) {
    a == [] || b == [] || |a[0]| == |b[0]|
  }

  /** Every slice of `t` has `w` entries. */
  predicate OfWidth(t: Tensor, w: nat) {
    forall i :: 0 <= i < |t| ==> |t[i]| == w
  }

  /**
   * `torch.cat([a, b], dim=0)`: defined on two tensors whose slices have
   * one shape; a TypeError on anything else and a RuntimeError on a shape
   * mismatch.
   */
  function CatArg(a: Arg, b: Arg): (r: Result<Arg>)
    ensures r.Ok? <==> a.TensorArg? && b.TensorArg? && SameWidth(a.tensor, b.tensor)
    ensures r.Ok? ==> r.value == TensorArg(a.tensor + b.tensor)
    ensures r.Err? ==> r.error == (if a.TensorArg? && b.TensorArg? then RuntimeError else TypeError)
  {
    if !(a.TensorArg? && b.TensorArg?) then Err(TypeError)
    else if !SameWidth(a.tensor, b.tensor) then Err(RuntimeError)
    else Ok(TensorArg(a.tensor + b.tensor))
  }

  /** The keyword arguments the capture looks at: tensors, lists, and the `alibi` key whatever its value. */
  predicate Considered(key: string, v: Arg) {
    v.TensorArg? || v.ListArg? || key == AlibiKey
  }

  /** Append `v` to the concatenated value under `key` (absent or `None` counts as nothing yet). */
  function Accumulate(e: Captured, key: string, v: Arg): (r: (Captured, Option<Error>))
    ensures r.0.Keys == e.Keys + {key}
    ensures forall k :: k in e && k != key ==> r.0[k] == e[k]
    ensures r.1.None? && key in e && !e[key].NoneArg? ==>
      e[key].TensorArg? && v.TensorArg? && r.0[key] == TensorArg(e[key].tensor + v.tensor)
    ensures r.1.None? && (key !in e || e[key].NoneArg?) ==> r.0[key] == v
    ensures r.1.Some? ==> r.1.value in {TypeError, RuntimeError} && key in e && r.0 == e
    ensures r.1 == Some(RuntimeError) <==>
      key in e && e[key].TensorArg? && v.TensorArg? && !SameWidth(e[key].tensor, v.tensor)
  {
    var e1 := if key in e then e else e[key := NoneArg];
    if e1[key].NoneArg? then (e1[key := v], None)
    else match CatArg(e1[key], v)
      case Ok(c) => (e1[key := c], None)
      case Err(err) => (e1, Some(err))
  }

  /**
   * The patched forward's handling of one keyword argument `key = v`.
   * Keys containing "attention_mask" are concatenated along dimension 0,
   * and anything but a tensor or `None` fails at its `.to` call; keys
   * containing "alibi" are concatenated too, after reading the batch size
   * from the call's `attention_mask`, which is a KeyError when absent and
   * an AttributeError when it is not a tensor (the reshape itself is taken
   * as the identity); either concatenation is a RuntimeError when the new
   * tensor's slices do not match the stored ones.  Any other considered
   * key keeps its first-seen value.
   * A mask or alibi key is stored as `None` before anything can fail.
   */
  function StoreKwarg(e: Captured, key: string, v: Arg, kwargs: seq<(string, Arg)>): (r: (Captured, Option<Error>))
    ensures forall k :: k in e ==> k in r.0
    ensures forall k :: k in e && k != key ==> r.0[k] == e[k]
    ensures r.0.Keys <= e.Keys + {key}
    ensures r.1.Some? ==> r.1.value in {TypeError, KeyError, AttributeError, RuntimeError}
    ensures r.1 == Some(AttributeError) <==>
      Considered(key, v) &&
      if Contains(key, AttentionMaskKey) then !v.TensorArg? && !v.NoneArg?
      else Contains(key, AlibiKey) && v.TensorArg? && KwargValue(kwargs, AttentionMaskKey).Some?
           && !KwargValue(kwargs, AttentionMaskKey).value.TensorArg?
    ensures r.1 == Some(KeyError) <==>
      Considered(key, v) && !Contains(key, AttentionMaskKey) && Contains(key, AlibiKey) && v.TensorArg?
      && KwargValue(kwargs, AttentionMaskKey).None?
    ensures r.1 == Some(RuntimeError) <==>
      && Considered(key, v) && v.TensorArg? && key in e && e[key].TensorArg? && !SameWidth(e[key].tensor, v.tensor)
      && (Contains(key, AttentionMaskKey)
          || (Contains(key, AlibiKey) && KwargValue(kwargs, AttentionMaskKey).Some?
              && KwargValue(kwargs, AttentionMaskKey).value.TensorArg?))
    ensures r.1.Some? && (Contains(key, AttentionMaskKey) || Contains(key, AlibiKey)) ==> key in r.0
  {
    if !Considered(key, v) then (e, None)
    else if Contains(key, AttentionMaskKey) then
      var e1 := if key in e then e else e[key := NoneArg];
      if v.NoneArg? then (e1, None)
      else if !v.TensorArg? then (e1, Some(AttributeError))
      else Accumulate(e, key, v)
    else if Contains(key, AlibiKey) then
      var e1 := if key in e then e else e[key := NoneArg];
      if !v.TensorArg? then (e1, None)
      else match KwargValue(kwargs, AttentionMaskKey)
        case None => (e1, Some(KeyError))
        case Some(mask) => if !mask.TensorArg? then (e1, Some(AttributeError)) else Accumulate(e1, key, v)
    else if key !in e then (e[key := v], None)
    else (e, None)
  }

  /** The loop over the keyword arguments; an exception ends it with what was stored so far. */
  function StoreKwargs(e: Captured, ks: seq<(string, Arg)>, kwargs: seq<(string, Arg)>): (r: (Captured, Option<Error>))
    ensures forall k :: k in e ==> k in r.0
    ensures r.1.Some? ==> r.1.value in {TypeError, KeyError, AttributeError, RuntimeError}
    decreases |ks|
  {
    if ks == [] then (e, None)
    else
      var s := StoreKwarg(e, ks[0].0, ks[0].1, kwargs);
      if s.1.Some? then s else StoreKwargs(s.0, ks[1..], kwargs)
  }

  /**
   * One call of the patched forward on the buffer: append the hidden
   * states to `input_ids` (creating the entry on the first call), store
   * the positional arguments, store the keyword arguments, and raise.
   * The call never returns normally: its exception is NotImplementedError
   * unless an earlier step raised.  Hidden states whose slices do not
   * match the stored ones make the first `torch.cat` raise before
   * anything is stored.
   */
  function CaptureCall(inputs: map<string, Captured>, name: string, c: Call): (r: (map<string, Captured>, Error))
    ensures r.0.Keys == inputs.Keys + {name}
    ensures forall n :: n in inputs && n != name ==> r.0[n] == inputs[n]
    ensures r.1 in {NotImplemented, TypeError, KeyError, AttributeError, RuntimeError}
    ensures (name in inputs && InputIdsKey in inputs[name] && inputs[name][InputIdsKey].TensorArg?
             && !SameWidth(inputs[name][InputIdsKey].tensor, c.hidden)) ==> r == (inputs, RuntimeError)
  {
    var e0 :=
      if name !in inputs then Ok(map[InputIdsKey := TensorArg(c.hidden)])
      else if InputIdsKey !in inputs[name] then Err(KeyError)
      else match CatArg(inputs[name][InputIdsKey], TensorArg(c.hidden))
        case Ok(cat) => Ok(inputs[name][InputIdsKey := cat])
        case Err(err) => Err(err);
    if e0.Err? then (inputs, e0.error)
    else
      var e1 := if PositionalKey in e0.value then e0.value else e0.value[PositionalKey := ArgTuple([])];
      var e2 := if |c.positional| > 0 then e1[PositionalKey := ArgTuple(c.positional)] else e1;
      var s := StoreKwargs(e2, c.kwargs, c.kwargs);
      (inputs[name := s.0], if s.1.Some? then s.1.value else NotImplemented)
  }

  /** The buffer after the patched forward of `name` has been called with each of `calls` in turn. */
  function CaptureAll(inputs: map<string, Captured>, name: string, calls: seq<Call>): (r: map<string, Captured>)
    decreases |calls|
  {
    if calls == [] then inputs else CaptureAll(CaptureCall(inputs, name, calls[0]).0, name, calls[1..])
  }

  function HiddenConcat(calls: seq<Call>): (r: Tensor)
    decreases |calls|
  {
    if calls == [] then [] else calls[0].hidden + HiddenConcat(calls[1..])
  }

  /**
   * The `input_ids` a buffer holding `acc` ends with after `calls`: a
   * call's hidden states are appended when their slices match the stored
   * ones, and the call leaves the buffer as it was when they do not.
   */
  function KeptHidden(acc: Tensor, calls: seq<Call>): Tensor
    decreases |calls|
  {
    if calls == [] then acc
    else KeptHidden(if SameWidth(acc, calls[0].hidden) then acc + calls[0].hidden else acc, calls[1..])
  }

  /**
   * Every intercepted call whose hidden states fit appends them, in call
   * order: starting from a buffer without `name`, after one or more calls
   * the entry's `input_ids` is what `KeptHidden` keeps from all of them.
   */
  lemma {:induction false} CaptureAllInputIds(inputs: map<string, Captured>, name: string, calls: seq<Call>)
    requires name !in inputs && |calls| > 0
    ensures var r := CaptureAll(inputs, name, calls);
      name in r && InputIdsKey in r[name] && r[name][InputIdsKey] == TensorArg(KeptHidden([], calls))
  {
    var first := CaptureCall(inputs, name, calls[0]).0;
    FirstCallInputIds(inputs, name, calls[0]);
    CaptureKeepsInputIds(first, name, calls[1..], calls[0].hidden);
    assert [] + calls[0].hidden == calls[0].hidden;
  }

  /**
   * When every call's hidden states have the stored width, nothing is
   * dropped: the buffer ends with all of them concatenated in call order.
   */
  lemma {:induction false} KeptHiddenUniform(acc: Tensor, calls: seq<Call>, w: nat)
    requires OfWidth(acc, w)
    requires forall i :: 0 <= i < |calls| ==> OfWidth(calls[i].hidden, w)
    ensures KeptHidden(acc, calls) == acc + HiddenConcat(calls)
    decreases |calls|
  {
    if calls == [] {
      assert acc + [] == acc;
    } else {
      var h := calls[0].hidden;
      assert SameWidth(acc, h) by {
        if acc != [] && h != [] {
          assert |acc[0]| == w && |h[0]| == w;
        }
      }
      assert OfWidth(acc + h, w) by {
        forall i | 0 <= i < |acc + h|
          ensures |(acc + h)[i]| == w
        {
          if i >= |acc| {
            assert (acc + h)[i] == h[i - |acc|];
          }
        }
      }
      KeptHiddenUniform(acc + h, calls[1..], w);
      HiddenConcatCons(acc, calls);
    }
  }

  /**
   * A batch of width 2 followed by one of width 3: the second call raises
   * before storing, so the buffer keeps only the first batch's row.
   */
  lemma MismatchedWidthDropped(name: string)
    ensures var calls := [Call([[0.0, 0.0]], [], []), Call([[1.0, 1.0, 1.0]], [], [])];
      var r := CaptureAll(map[], name, calls);
      name in r && InputIdsKey in r[name] && r[name][InputIdsKey] == TensorArg([[0.0, 0.0]])
  {
    var calls := [Call([[0.0, 0.0]], [], []), Call([[1.0, 1.0, 1.0]], [], [])];
    CaptureAllInputIds(map[], name, calls);
    assert calls[1..][1..] == [];
    assert KeptHidden([], calls) == [[0.0, 0.0]];
  }

  /** Helper: the first call creates the entry with the call's hidden states as `input_ids`. */
  lemma FirstCallInputIds(inputs: map<string, Captured>, name: string, c: Call)
    requires name !in inputs
    ensures var r := CaptureCall(inputs, name, c).0;
      name in r && InputIdsKey in r[name] && r[name][InputIdsKey] == TensorArg(c.hidden)
  {
    var e0 := map[InputIdsKey := TensorArg(c.hidden)];
    var e1 := if PositionalKey in e0 then e0 else e0[PositionalKey := ArgTuple([])];
    var e2 := if |c.positional| > 0 then e1[PositionalKey := ArgTuple(c.positional)] else e1;
    assert e2[InputIdsKey] == TensorArg(c.hidden);
    InputIdsIsPlain();
    StoreKwargsKeepsPresent(e2, c.kwargs, c.kwargs, InputIdsKey);
  }

  /**
   * Helper: once `name` holds `input_ids = acc`, each further call extends
   * it by its hidden states when they fit and leaves it unchanged when not.
   */
  lemma {:induction false} CaptureKeepsInputIds(inputs: map<string, Captured>, name: string, calls: seq<Call>, acc: Tensor)
    requires name in inputs && InputIdsKey in inputs[name] && inputs[name][InputIdsKey] == TensorArg(acc)
    ensures var r := CaptureAll(inputs, name, calls);
      name in r && InputIdsKey in r[name] && r[name][InputIdsKey] == TensorArg(KeptHidden(acc, calls))
    decreases |calls|
  {
    if calls != [] {
      var next := CaptureCall(inputs, name, calls[0]).0;
      assert CaptureAll(inputs, name, calls) == CaptureAll(next, name, calls[1..]);
      if SameWidth(acc, calls[0].hidden) {
        StoreKwargsKeepsInputIds(inputs, name, calls[0], acc);
        CaptureKeepsInputIds(next, name, calls[1..], acc + calls[0].hidden);
      } else {
        CaptureKeepsInputIds(next, name, calls[1..], acc);
      }
    }
  }

  /** Appending the first call's hidden states, then the rest's, appends them all. */
  lemma HiddenConcatCons(acc: Tensor, calls: seq<Call>)
    requires calls != []
    ensures (acc + calls[0].hidden) + HiddenConcat(calls[1..]) == acc + HiddenConcat(calls)
  {
    assert HiddenConcat(calls) == calls[0].hidden + HiddenConcat(calls[1..]);
  }

  /** Helper: one call appends its hidden states to `input_ids`, and no keyword argument overwrites them. */
  lemma StoreKwargsKeepsInputIds(inputs: map<string, Captured>, name: string, c: Call, acc: Tensor)
    requires name in inputs && InputIdsKey in inputs[name] && inputs[name][InputIdsKey] == TensorArg(acc)
    requires SameWidth(acc, c.hidden)
    ensures var r := CaptureCall(inputs, name, c).0;
      name in r && InputIdsKey in r[name] && r[name][InputIdsKey] == TensorArg(acc + c.hidden)
  {
    var e0 := inputs[name][InputIdsKey := TensorArg(acc + c.hidden)];
    var e1 := if PositionalKey in e0 then e0 else e0[PositionalKey := ArgTuple([])];
    var e2 := if |c.positional| > 0 then e1[PositionalKey := ArgTuple(c.positional)] else e1;
    assert e2[InputIdsKey] == TensorArg(acc + c.hidden);
    InputIdsIsPlain();
    StoreKwargsKeepsPresent(e2, c.kwargs, c.kwargs, InputIdsKey);
  }

  /**
   * A key already in the buffer is never changed by the keyword loop
   * unless some keyword argument of the call uses it and is concatenated.
   */
  lemma {:induction false} StoreKwargsKeepsPresent(e: Captured, ks: seq<(string, Arg)>, kwargs: seq<(string, Arg)>, k: string)
    requires k in e && e[k].TensorArg?
    requires forall i :: 0 <= i < |ks| ==> ks[i].0 != k || !(Contains(k, AttentionMaskKey) || Contains(k, AlibiKey))
    ensures var r := StoreKwargs(e, ks, kwargs); k in r.0 && r.0[k] == e[k]
    decreases |ks|
  {
    if ks != [] {
      var s := StoreKwarg(e, ks[0].0, ks[0].1, kwargs);
      if s.1.None? {
        StoreKwargsKeepsPresent(s.0, ks[1..], kwargs, k);
      }
    }
  }

  /** Helper: storing `key` only looks at the buffer's value under `key`. */
  lemma StoreKwargLocal(e1: Captured, e2: Captured, key: string, v: Arg, kwargs: seq<(string, Arg)>)
    requires (key in e1 <==> key in e2) && (key in e1 ==> e1[key] == e2[key])
    ensures var r1, r2 := StoreKwarg(e1, key, v, kwargs), StoreKwarg(e2, key, v, kwargs);
      r1.1 == r2.1 && (key in r1.0 <==> key in r2.0) && (key in r1.0 ==> r1.0[key] == r2.0[key])
  {
    if Considered(key, v) && Contains(key, AttentionMaskKey) && v.TensorArg? {
      AccumulateLocal(e1, e2, key, v);
    } else if Considered(key, v) && !Contains(key, AttentionMaskKey) && Contains(key, AlibiKey) {
      var a1 := if key in e1 then e1 else e1[key := NoneArg];
      var a2 := if key in e2 then e2 else e2[key := NoneArg];
      AccumulateLocal(a1, a2, key, v);
    }
  }

  /** Accumulating under `key` depends only on what is stored under `key`. */
  lemma AccumulateLocal(e1: Captured, e2: Captured, key: string, v: Arg)
    requires (key in e1 <==> key in e2) && (key in e1 ==> e1[key] == e2[key])
    ensures var r1, r2 := Accumulate(e1, key, v), Accumulate(e2, key, v);
      r1.1 == r2.1 && (key in r1.0 <==> key in r2.0) && (key in r1.0 ==> r1.0[key] == r2.0[key])
  {
  }

  /** Helper: keyword arguments with other keys leave the value under `k` alone. */
  lemma {:induction false} StoreKwargsOthers(e: Captured, ks: seq<(string, Arg)>, kwargs: seq<(string, Arg)>, k: string)
    requires forall i :: 0 <= i < |ks| ==> ks[i].0 != k
    ensures var r := StoreKwargs(e, ks, kwargs).0; (k in r <==> k in e) && (k in e ==> r[k] == e[k])
    decreases |ks|
  {
    if ks != [] {
      var s := StoreKwarg(e, ks[0].0, ks[0].1, kwargs);
      if s.1.None? {
        StoreKwargsOthers(s.0, ks[1..], kwargs, k);
      }
    }
  }

  /**
   * Within one call, the value a key ends with is what storing that key's
   * own argument into the buffer as it was before the call gives: the
   * keyword arguments act on their keys independently.
   */
  lemma {:induction false} StoreKwargsAt(e: Captured, ks: seq<(string, Arg)>, kwargs: seq<(string, Arg)>, j: nat)
    requires DistinctKeys(ks) && j < |ks| && StoreKwargs(e, ks, kwargs).1.None?
    ensures var r := StoreKwargs(e, ks, kwargs).0;
      var one := StoreKwarg(e, ks[j].0, ks[j].1, kwargs);
      && one.1.None?
      && (ks[j].0 in r <==> ks[j].0 in one.0)
      && (ks[j].0 in r ==> r[ks[j].0] == one.0[ks[j].0])
    decreases |ks|
  {
    var s := StoreKwarg(e, ks[0].0, ks[0].1, kwargs);
    var rest := ks[1..];
    assert StoreKwargs(e, ks, kwargs) == StoreKwargs(s.0, rest, kwargs);
    if j == 0 {
      StoreKwargsOthers(s.0, rest, kwargs, ks[0].0);
    } else {
      assert DistinctKeys(rest) by {
        forall a, b | 0 <= a < b < |rest| ensures rest[a].0 != rest[b].0 {
          assert rest[a] == ks[a + 1] && rest[b] == ks[b + 1];
        }
      }
      assert rest[j - 1] == ks[j];
      StoreKwargsAt(s.0, rest, kwargs, j - 1);
      assert ks[0].0 != ks[j].0;
      StoreKwargLocal(s.0, e, ks[j].0, ks[j].1, kwargs);
    }
  }

  /**
   * The per-key promises of one call that raises nothing before its end:
   * an "attention_mask" tensor is concatenated after what was stored, and
   * any other considered key that was already stored keeps its first-seen
   * value, while a new one is stored as passed.
   */
  lemma KwargEffects(e: Captured, ks: seq<(string, Arg)>, j: nat)
    requires DistinctKeys(ks) && j < |ks| && StoreKwargs(e, ks, ks).1.None?
    ensures var r := StoreKwargs(e, ks, ks).0; var (k, v) := ks[j];
      && (Contains(k, AttentionMaskKey) && v.TensorArg? && k in e && !e[k].NoneArg? ==>
            e[k].TensorArg? && k in r && r[k] == TensorArg(e[k].tensor + v.tensor))
      && (Contains(k, AttentionMaskKey) && v.TensorArg? && (k !in e || e[k].NoneArg?) ==> k in r && r[k] == v)
      && (!Contains(k, AttentionMaskKey) && !Contains(k, AlibiKey) && Considered(k, v) ==>
            k in r && r[k] == if k in e then e[k] else v)
  {
    StoreKwargsAt(e, ks, ks, j);
  }

  /** A string containing a non-empty needle contains the needle's first character. */
  lemma {:induction false} ContainsFirstChar(h: string, n: string)
    requires |n| > 0 && Contains(h, n)
    ensures n[0] in h
    decreases |h|
  {
    if !HasPrefix(n, h) {
      ContainsFirstChar(h[1..], n);
    }
  }

  /** `input_ids` contains neither "attention_mask" nor "alibi", so no keyword argument ever concatenates onto it. */
  lemma InputIdsIsPlain()
    ensures !Contains(InputIdsKey, AttentionMaskKey) && !Contains(InputIdsKey, AlibiKey)
  {
    assert 'a' !in InputIdsKey;
    if Contains(InputIdsKey, AttentionMaskKey) {
      ContainsFirstChar(InputIdsKey, AttentionMaskKey);
    }
    if Contains(InputIdsKey, AlibiKey) {
      ContainsFirstChar(InputIdsKey, AlibiKey);
    }
  }

  /** A module's `forward`: the class's own, or the capture built by `get_forward_func` for a block name. */
  datatype Forward = ClassForward | CaptureForward(block: string)

  /**
   * `_replace_forward`: the module named `tmp` (if the model has one)
   * keeps its forward as `orig_forward` and gets the capture instead.
   */
  function ReplaceForwardSpec(names: seq<string>, fw: map<string, Forward>, orig: map<string, Forward>, tmp: string)
    : (r: (map<string, Forward>, map<string, Forward>))
    requires forall i :: 0 <= i < |names| ==> names[i] in fw
    ensures tmp in names ==> r.0 == fw[tmp := CaptureForward(tmp)] && r.1 == orig[tmp := fw[tmp]]
    ensures tmp !in names ==> r == (fw, orig)
  {
    if tmp in names then (fw[tmp := CaptureForward(tmp)], orig[tmp := fw[tmp]]) else (fw, orig)
  }

  /**
   * `_recover_forward`: the module named `tmp` gets `orig_forward` back
   * and loses the attribute; reading a missing `orig_forward` is an
   * AttributeError.
   */
  function RecoverForwardSpec(names: seq<string>, fw: map<string, Forward>, orig: map<string, Forward>, tmp: string)
    : (r: Result<(map<string, Forward>, map<string, Forward>)>)
    ensures r.Err? <==> tmp in names && tmp !in orig
    ensures r.Err? ==> r.error == AttributeError
    ensures r.Ok? && tmp in names ==> r.value == (fw[tmp := orig[tmp]], orig - {tmp})
    ensures r.Ok? && tmp !in names ==> r.value == (fw, orig)
  {
    if tmp !in names then Ok((fw, orig))
    else if tmp !in orig then Err(AttributeError)
    else Ok((fw[tmp := orig[tmp]], orig - {tmp}))
  }

  /**
   * Replacing and then recovering restores every module's forward and
   * leaves no `orig_forward` behind, provided the module had none before.
   */
  lemma RecoverUndoesReplace(names: seq<string>, fw: map<string, Forward>, orig: map<string, Forward>, tmp: string)
    requires forall i :: 0 <= i < |names| ==> names[i] in fw
    requires tmp !in orig
    ensures var p := ReplaceForwardSpec(names, fw, orig, tmp);
      RecoverForwardSpec(names, p.0, p.1, tmp) == Ok((fw, orig))
  {
    if tmp in names {
      var p := ReplaceForwardSpec(names, fw, orig, tmp);
      assert p.0[tmp := p.1[tmp]] == fw;
      assert p.1 - {tmp} == orig;
    }
  }
}
