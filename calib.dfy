/*
 * The counting loop of `calib`: which dataloader batches count towards
 * `n_samples`, how the last one is truncated, when the loop stops, what
 * is handed to the model, and the fatal "nothing cached" exit.
 */
module Calib {
  import opened Common

  /** A batch of token ids, by shape: `shape[0]` rows of `shape[-1]` tokens; `tag` tells batches apart. */
  datatype Ids = Ids(rows: nat, width: nat, tag: nat)

  /** What the model is called with: a tensor, or a dictionary of keyword tensors. */
  datatype Feed = FeedTensor(ids: Ids) | FeedDict(fields: map<string, Ids>)

  /** One item of the dataloader; a text item carries what the tokenizer returns for it. */
  datatype Batch = NoBatch | TensorBatch(ids: Ids) | TextBatch(tokenized: map<string, Ids>) | DictBatch(fields: map<string, Ids>)

  const InputIds := "input_ids"

  /**
   * The loop's variables: the count, the `data_new` variable (which
   * survives from one iteration to the next), the feeds the model
   * received, and whether the loop has broken out.
   */
  datatype CalibState = CalibState(total: int, dataNew: Option<Feed>, fed: seq<Feed>, stopped: bool)

  const Start := CalibState(0, None, [], false)

  /**
   * One iteration on batch `b`.  Skipped: `None` items and batches whose
   * last dimension is below `seqlen`.  A batch that would overshoot is
   * truncated to `n - total` rows (by Python slicing).  The model is then
   * called with `data_new`; any exception it raises is swallowed, and when
   * `data_new` was never assigned the call itself fails and is swallowed
   * too.  A tensor batch assigns `data_new` only in the corrected
   * version; as written it leaves the previous value in place.
   */
  function Step(st: CalibState, b: Batch, seqlen: int, n: int, hasTokenizer: bool, asWritten: bool): (r: Result<CalibState>)
    requires !st.stopped
    ensures r.Err? ==> r.error == Exit || r.error == KeyError
    ensures r.Ok? ==> st.total <= r.value.total
    ensures r.Ok? && 0 <= st.total <= n ==> r.value.total <= n
    ensures r.Ok? && r.value.stopped ==> r.value.total >= n
  {
    if b.NoBatch? then Ok(st)
    else if b.TextBatch? && !hasTokenizer then Err(Exit)
    else
      var fields := if b.TextBatch? then b.tokenized else if b.DictBatch? then b.fields else map[];
      if !b.TensorBatch? && InputIds !in fields then Err(KeyError)
      else
        var ids := if b.TensorBatch? then b.ids else fields[InputIds];
        var dataNew :=
          if b.TensorBatch? then (if asWritten then st.dataNew else Some(FeedTensor(b.ids)))
          else Some(FeedDict(fields));
        if ids.width < seqlen then Ok(st.(dataNew := dataNew))
        else
          var counted := if st.total + ids.rows > n then SliceStopLen(ids.rows, n - st.total) else ids.rows;
          var fed := if dataNew.Some? then st.fed + [dataNew.value] else st.fed;
          var total := st.total + counted;
          Ok(CalibState(total, dataNew, fed, total >= n))
  }

  /** The loop from state `st` over the remaining batches. */
  function Run(st: CalibState, bs: seq<Batch>, seqlen: int, n: int, hasTokenizer: bool, asWritten: bool): (r: Result<CalibState>)
    ensures r.Ok? ==> st.total <= r.value.total
    ensures r.Ok? && !st.stopped && 0 <= st.total <= n ==> r.value.total <= n
    decreases |bs|
  {
    if bs == [] || st.stopped then Ok(st)
    else
      match Step(st, bs[0], seqlen, n, hasTokenizer, asWritten)
      case Err(e) => Err(e)
      case Ok(next) => Run(next, bs[1..], seqlen, n, hasTokenizer, asWritten)
  }

  /** `calib`'s outcome: the loop, then the fatal exit when nothing was counted. */
  function Calibrate(bs: seq<Batch>, seqlen: int, n: int, hasTokenizer: bool, asWritten: bool): (r: Result<CalibState>)
    ensures r.Ok? ==> r.value.total > 0
    ensures r.Ok? && n >= 0 ==> r.value.total <= n
  {
    match Run(Start, bs, seqlen, n, hasTokenizer, asWritten)
    case Err(e) => Err(e)
    case Ok(st) => if st.total == 0 then Err(Exit) else Ok(st)
  }

  /** Skipped items do not count and change nothing the loop keeps (`None` items change nothing at all). */
  lemma SkippedBatches(st: CalibState, b: Batch, seqlen: int, n: int, hasTokenizer: bool, asWritten: bool)
    requires !st.stopped
    requires b.NoBatch? || (b.TensorBatch? && b.ids.width < seqlen)
      || (b.DictBatch? && InputIds in b.fields && b.fields[InputIds].width < seqlen)
    ensures var r := Step(st, b, seqlen, n, hasTokenizer, asWritten);
      r.Ok? && r.value.total == st.total && r.value.fed == st.fed && !r.value.stopped
      && (b.NoBatch? ==> r.value == st)
  {
  }

  /**
   * A counted batch of any kind adds the rows of its `input_ids`, or
   * exactly the rows still missing when it would overshoot.
   */
  lemma CountedBatch(st: CalibState, b: Batch, seqlen: int, n: int, hasTokenizer: bool, asWritten: bool)
    requires !st.stopped && 0 <= st.total < n
    requires Counted(b, seqlen) && Readable(b, hasTokenizer)
    ensures var ids := if b.TensorBatch? then b.ids else if b.DictBatch? then b.fields[InputIds] else b.tokenized[InputIds];
      var r := Step(st, b, seqlen, n, hasTokenizer, asWritten);
      && r.Ok?
      && r.value.total == MinInt(st.total + ids.rows, n)
      && (r.value.stopped <==> st.total + ids.rows >= n)
  {
  }

  /** Once the loop has broken out, later batches are never read. */
  lemma StoppedIgnoresRest(st: CalibState, bs: seq<Batch>, seqlen: int, n: int, hasTokenizer: bool, asWritten: bool)
    requires st.stopped
    ensures Run(st, bs, seqlen, n, hasTokenizer, asWritten) == Ok(st)
  {
  }

  /** A batch that reaches the counting step: not `None`, and with `input_ids` at least `seqlen` long. */
  predicate Counted(b: Batch, seqlen: int) {
    || (b.TensorBatch? && b.ids.width >= seqlen)
    || (b.DictBatch? && InputIds in b.fields && b.fields[InputIds].width >= seqlen)
    || (b.TextBatch? && InputIds in b.tokenized && b.tokenized[InputIds].width >= seqlen)
  }

  /** A batch the loop can read: a text item needs a tokenizer, and a dictionary needs `input_ids`. */
  predicate Readable(b: Batch, hasTokenizer: bool) {
    && !(b.TextBatch? && (!hasTokenizer || InputIds !in b.tokenized))
    && !(b.DictBatch? && InputIds !in b.fields)
  }

  /** What the corrected loop hands the model for a batch: the tensor itself, or the dictionary of keyword tensors. */
  function BatchFeed(b: Batch): Feed
    requires !b.NoBatch?
  {
    match b
    case TensorBatch(ids) => FeedTensor(ids)
    case TextBatch(tokenized) => FeedDict(tokenized)
    case DictBatch(fields) => FeedDict(fields)
  }

  /** The feeds of the batches that reach the counting step, in dataloader order. */
  function CountedFeeds(bs: seq<Batch>, seqlen: int): (r: seq<Feed>)
    ensures |r| <= |bs|
    decreases |bs|
  {
    if bs == [] then []
    else (if Counted(bs[0], seqlen) then [BatchFeed(bs[0])] else []) + CountedFeeds(bs[1..], seqlen)
  }

  /**
   * As written, a dataloader of tensors counts its samples but never
   * reaches the model: `data_new` is unassigned, the failing call is
   * swallowed, and calibration reports success with nothing fed.
   */
  lemma TensorBatchesNeverReachModelAsWritten()
    ensures var r := Calibrate([TensorBatch(Ids(2, 8, 0))], 8, 2, false, true);
      r.Ok? && r.value.total == 2 && r.value.fed == []
  {
  }

  /** Corrected: one step feeds the model exactly a batch that reaches the counting step, and breaks only after one. */
  lemma StepFeeds(st: CalibState, b: Batch, seqlen: int, n: int, hasTokenizer: bool)
    requires !st.stopped
    ensures var s := Step(st, b, seqlen, n, hasTokenizer, false);
      && (Readable(b, hasTokenizer) ==> s.Ok?)
      && (s.Ok? ==> s.value.fed == st.fed + if Counted(b, seqlen) then [BatchFeed(b)] else [])
      && (s.Ok? && s.value.stopped ==> Counted(b, seqlen))
  {
  }

  /** The feeds of the first `k + 1` batches: the first batch's, then those of the next `k`. */
  lemma CountedFeedsPrefix(bs: seq<Batch>, seqlen: int, k: nat)
    requires 0 < |bs| && k < |bs|
    ensures CountedFeeds(bs[..k + 1], seqlen)
            == (if Counted(bs[0], seqlen) then [BatchFeed(bs[0])] else []) + CountedFeeds(bs[1..][..k], seqlen)
  {
    assert bs[..k + 1][0] == bs[0] && bs[..k + 1][1..] == bs[1..][..k];
  }

  /** Corrected: the loop fails only on an unreadable batch. */
  lemma {:induction false} ReadableBatchesRun(st: CalibState, bs: seq<Batch>, seqlen: int, n: int, hasTokenizer: bool)
    requires forall i :: 0 <= i < |bs| ==> Readable(bs[i], hasTokenizer)
    ensures Run(st, bs, seqlen, n, hasTokenizer, false).Ok?
    decreases |bs|
  {
    if bs != [] && !st.stopped {
      StepFeeds(st, bs[0], seqlen, n, hasTokenizer);
      var s := Step(st, bs[0], seqlen, n, hasTokenizer, false);
      assert forall i :: 0 <= i < |bs[1..]| ==> bs[1..][i] == bs[i + 1];
      ReadableBatchesRun(s.value, bs[1..], seqlen, n, hasTokenizer);
    }
  }

  /**
   * Corrected (a tensor batch is itself what the model receives): the
   * loop feeds the model exactly the batches that reach the counting step,
   * in order, up to the one it breaks after; it fails only on an
   * unreadable batch.
   */
  lemma EveryCountedBatchIsFed(st: CalibState, bs: seq<Batch>, seqlen: int, n: int, hasTokenizer: bool)
    requires !st.stopped
    ensures var r := Run(st, bs, seqlen, n, hasTokenizer, false);
      && ((forall i :: 0 <= i < |bs| ==> Readable(bs[i], hasTokenizer)) ==> r.Ok?)
      && (r.Ok? && !r.value.stopped ==> r.value.fed == st.fed + CountedFeeds(bs, seqlen))
      && (r.Ok? && r.value.stopped ==>
            exists k :: 0 < k <= |bs| && r.value.fed == st.fed + CountedFeeds(bs[..k], seqlen))
  {
    if forall i :: 0 <= i < |bs| ==> Readable(bs[i], hasTokenizer) {
      ReadableBatchesRun(st, bs, seqlen, n, hasTokenizer);
    }
    FedUpToStop(st, bs, seqlen, n, hasTokenizer);
    FedUntilBreak(st, bs, seqlen, n, hasTokenizer);
  }

  /** Helper: a run that reads every batch feeds the model the feeds of all the counted ones. */
  lemma {:induction false} FedUpToStop(st: CalibState, bs: seq<Batch>, seqlen: int, n: int, hasTokenizer: bool)
    requires !st.stopped
    ensures var r := Run(st, bs, seqlen, n, hasTokenizer, false);
      r.Ok? && !r.value.stopped ==> r.value.fed == st.fed + CountedFeeds(bs, seqlen)
    decreases |bs|
  {
    if bs != [] {
      var s := Step(st, bs[0], seqlen, n, hasTokenizer, false);
      StepFeeds(st, bs[0], seqlen, n, hasTokenizer);
      RunAt(st, bs, 0, seqlen, n, hasTokenizer, false);
      assert bs[0..] == bs && bs[1..] == bs[0 + 1..];
      if s.Ok? && !s.value.stopped {
        FedUpToStop(s.value, bs[1..], seqlen, n, hasTokenizer);
      }
    }
  }

  /** Helper: a run that breaks out has fed the model the feeds of the counted batches among the first `k` it read. */
  lemma {:induction false} FedUntilBreak(st: CalibState, bs: seq<Batch>, seqlen: int, n: int, hasTokenizer: bool)
    requires !st.stopped
    ensures var r := Run(st, bs, seqlen, n, hasTokenizer, false);
      r.Ok? && r.value.stopped ==> exists k :: 0 < k <= |bs| && r.value.fed == st.fed + CountedFeeds(bs[..k], seqlen)
    decreases |bs|
  {
    if bs != [] {
      var s := Step(st, bs[0], seqlen, n, hasTokenizer, false);
      StepFeeds(st, bs[0], seqlen, n, hasTokenizer);
      RunAt(st, bs, 0, seqlen, n, hasTokenizer, false);
      assert bs[0..] == bs && bs[1..] == bs[0 + 1..];
      if s.Ok? {
        var head := if Counted(bs[0], seqlen) then [BatchFeed(bs[0])] else [];
        var r := Run(s.value, bs[1..], seqlen, n, hasTokenizer, false);
        if s.value.stopped {
          CountedFeedsPrefix(bs, seqlen, 0);
          assert bs[1..][..0] == [];
          assert r.value.fed == st.fed + CountedFeeds(bs[..1], seqlen);
        } else {
          FedUntilBreak(s.value, bs[1..], seqlen, n, hasTokenizer);
          if r.Ok? && r.value.stopped {
            var k :| 0 < k <= |bs[1..]| && r.value.fed == s.value.fed + CountedFeeds(bs[1..][..k], seqlen);
            CountedFeedsPrefix(bs, seqlen, k);
            AppendAssoc(st.fed, head, CountedFeeds(bs[1..][..k], seqlen));
            assert r.value.fed == st.fed + CountedFeeds(bs[..k + 1], seqlen);
          }
        }
      }
    }
  }

  lemma AppendAssoc(a: seq<Feed>, b: seq<Feed>, c: seq<Feed>)
    ensures (a + b) + c == a + (b + c)
  {
  }

  /** One turn of the loop from position `i`. */
  lemma RunAt(st: CalibState, bs: seq<Batch>, i: nat, seqlen: int, n: int, hasTokenizer: bool, asWritten: bool)
    requires i < |bs| && !st.stopped
    ensures Run(st, bs[i..], seqlen, n, hasTokenizer, asWritten)
      == match Step(st, bs[i], seqlen, n, hasTokenizer, asWritten)
         case Err(e) => Err(e)
         case Ok(next) => Run(next, bs[i + 1..], seqlen, n, hasTokenizer, asWritten)
  {
    assert bs[i..][0] == bs[i] && bs[i..][1..] == bs[i + 1..];
  }

  /** Corrected: while the loop runs, a step that counts rows also feeds the model. */
  lemma {:induction false} FedWhenCounted(st: CalibState, bs: seq<Batch>, seqlen: int, n: int, hasTokenizer: bool)
    ensures var r := Run(st, bs, seqlen, n, hasTokenizer, false);
      r.Ok? ==> |r.value.fed| >= |st.fed| && (r.value.total != st.total ==> |r.value.fed| > |st.fed|)
    decreases |bs|
  {
    if bs != [] && !st.stopped {
      var s := Step(st, bs[0], seqlen, n, hasTokenizer, false);
      if s.Ok? {
        assert Run(st, bs, seqlen, n, hasTokenizer, false) == Run(s.value, bs[1..], seqlen, n, hasTokenizer, false);
        FedWhenCounted(s.value, bs[1..], seqlen, n, hasTokenizer);
      }
    }
  }

  /** Corrected: a calibration that succeeds has fed the model at least once. */
  lemma CorrectedCalibrationFeeds(bs: seq<Batch>, seqlen: int, n: int, hasTokenizer: bool)
    ensures var c := Calibrate(bs, seqlen, n, hasTokenizer, false); c.Ok? ==> |c.value.fed| > 0
  {
    FedWhenCounted(Start, bs, seqlen, n, hasTokenizer);
  }
}
