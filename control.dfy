/** The decisions of the training loop in `main` (train.py:471-534): when to
    stop, whether a batch only accumulates gradients or closes a window, and
    what the after-epoch callback logs and passes to the learning-rate
    scheduler. */
module Control {
  import opened Outcomes

  /** `args.max_epoch or math.inf` (train.py:473-474): a missing limit and a
      limit of 0 both mean no limit. */
  function Bound(limit: Option<int>): (b: Option<int>)
    ensures b.None? <==> limit.None? || limit.value == 0
    ensures b.Some? ==> b == limit
  {
    if limit.None? || limit.value == 0 then None else limit
  }

  /** `x < bound`, where no bound is infinity. */
  predicate Below(x: nat, bound: Option<int>)
  {
    bound.None? || x < bound.value
  }

  /** The predicate `main` hands to `iterator.while_true` (train.py:505-507). */
  function ShouldContinue(minLr: Option<real>, lr: real, epoch: nat, maxEpoch: Option<int>,
                          step: nat, maxStep: Option<int>): (r: bool)
    ensures r <==>
      && (minLr.None? || lr > minLr.value)
      && (maxEpoch.None? || maxEpoch.value == 0 || epoch < maxEpoch.value)
      && (maxStep.None? || maxStep.value == 0 || step < maxStep.value)
  {
    (minLr.None? || lr > minLr.value) && Below(epoch, Bound(maxEpoch)) && Below(step, Bound(maxStep))
  }

  /** Once the epoch or the step count reaches its non-zero limit, training
      stays stopped however far the counters advance and whatever the
      learning rate. */
  lemma StopIsPermanent(minLr: Option<real>, lr: real, lr': real, epoch: nat, epoch': nat,
                        maxEpoch: Option<int>, step: nat, step': nat, maxStep: Option<int>)
    requires epoch <= epoch' && step <= step'
    requires !Below(epoch, Bound(maxEpoch)) || !Below(step, Bound(maxStep))
    ensures !ShouldContinue(minLr, lr', epoch', maxEpoch, step', maxStep)
  {
  }

  /** Python's `%`: the remainder takes the sign of the divisor. */
  function PyMod(a: int, b: int): (r: int)
    requires b != 0
    ensures b > 0 ==> 0 <= r < b
    ensures b < 0 ==> b < r <= 0
    ensures b > 0 ==> r == a % b
  {
    if b > 0 || a % b == 0 then a % b else a % b + b
  }

  /** The branch test of train.py:526: true when the batch closes a window
      (`update_params=True`), false when it only accumulates. */
  function IsUpdateCall(step: nat, accumulate: int): (r: Result<bool>)
    ensures r.Raise? <==> accumulate == 0
    ensures r.Raise? ==> r.exception == ZeroDivisionError
    ensures accumulate > 0 ==> r == Ok((step + 1) % accumulate == 0)
    ensures accumulate < 0 ==> r == Ok(true)
  {
    if accumulate == 0 then Raise(ZeroDivisionError)
    else Ok(!(PyMod(step + 1, accumulate) > 0))
  }

  /** What the loop body changes: the global step `state.step`, the number
      of micro-batches in the trainer's buffer, and the number of calls
      that asked for an update. */
  datatype LoopState = LoopState(step: nat, buffered: nat, updateCalls: nat)

  /** One pass of the loop body as written (train.py:526-534). `succeeds`
      says whether the update the trainer makes, if any, returns a truthy
      logging output (`if not log_output` at train.py:532 counts a dropped
      window and an empty dictionary alike as a failure). The window test
      reads `state.step`, which only a successful update advances. */
  function AfterBatch(s: LoopState, accumulate: int, succeeds: bool): (r: Result<LoopState>)
    ensures r.Raise? <==> accumulate == 0
    ensures r.Ok? && IsUpdateCall(s.step, accumulate) == Ok(false) ==>
      r.value == LoopState(s.step, s.buffered + 1, s.updateCalls)
    ensures r.Ok? && IsUpdateCall(s.step, accumulate) == Ok(true) ==>
      && r.value.buffered == 0 && r.value.updateCalls == s.updateCalls + 1
      && r.value.step == if succeeds then s.step + 1 else s.step
  {
    match IsUpdateCall(s.step, accumulate)
    case Raise(e) => Raise(e)
    case Ok(update) =>
      if !update then Ok(LoopState(s.step, s.buffered + 1, s.updateCalls))
      else Ok(LoopState(if succeeds then s.step + 1 else s.step, 0, s.updateCalls + 1))
  }

  /** The loop body run over a sequence of batches. */
  function Run(s: LoopState, accumulate: int, outcomes: seq<bool>): Result<LoopState>
    decreases |outcomes|
  {
    if outcomes == [] then Ok(s)
    else match AfterBatch(s, accumulate, outcomes[0])
      case Raise(e) => Raise(e)
      case Ok(t) => Run(t, accumulate, outcomes[1..])
  }

  /** As written, with `accumulate` of 2 or more and a step that does not
      open on a window boundary, no batch ever asks for an update: the step
      stays where it is and the trainer's buffer grows by one entry per
      batch, without bound. A fresh run (step 0) is such a case. */
  lemma {:induction false} AsWrittenNeverUpdates(s: LoopState, accumulate: int, outcomes: seq<bool>)
    requires accumulate >= 2 && (s.step + 1) % accumulate != 0
    ensures Run(s, accumulate, outcomes) == Ok(LoopState(s.step, s.buffered + |outcomes|, s.updateCalls))
    decreases |outcomes|
  {
    if outcomes != [] {
      AsWrittenNeverUpdates(LoopState(s.step, s.buffered + 1, s.updateCalls), accumulate, outcomes[1..]);
    }
  }

  /** The concrete case: a fresh run with `--accumulate 2` buffers every
      batch of its first three and updates on none. */
  lemma FreshRunAccumulateTwo()
    ensures Run(LoopState(0, 0, 0), 2, [true, true, true]) == Ok(LoopState(0, 3, 0))
  {
    AsWrittenNeverUpdates(LoopState(0, 0, 0), 2, [true, true, true]);
  }

  /** The window test as evidently intended: close the window on every
      `accumulate`-th micro-batch, counting the micro-batches buffered
      since the last update call. */
  function IsUpdateCallFixed(buffered: nat, accumulate: int): (r: Result<bool>)
    ensures r.Raise? <==> accumulate == 0
    ensures accumulate > 0 ==> r == Ok((buffered + 1) % accumulate == 0)
  {
    if accumulate == 0 then Raise(ZeroDivisionError)
    else Ok(!(PyMod(buffered + 1, accumulate) > 0))
  }

  /** One pass of the corrected loop body. */
  function AfterBatchFixed(s: LoopState, accumulate: int, succeeds: bool): Result<LoopState>
  {
    match IsUpdateCallFixed(s.buffered, accumulate)
    case Raise(e) => Raise(e)
    case Ok(update) =>
      if !update then Ok(LoopState(s.step, s.buffered + 1, s.updateCalls))
      else Ok(LoopState(if succeeds then s.step + 1 else s.step, 0, s.updateCalls + 1))
  }

  /** The corrected loop body run over a sequence of batches. */
  function RunFixed(s: LoopState, accumulate: int, outcomes: seq<bool>): Result<LoopState>
    decreases |outcomes|
  {
    if outcomes == [] then Ok(s)
    else match AfterBatchFixed(s, accumulate, outcomes[0])
      case Raise(e) => Raise(e)
      case Ok(t) => RunFixed(t, accumulate, outcomes[1..])
  }

  /** Corrected, the buffer never holds a full window, and after any number
      of batches one update call has been made per `accumulate`
      micro-batches, whatever the updates' outcomes: the update calls times
      `accumulate` plus what is still buffered accounts for every batch. */
  lemma {:induction false} FixedUpdatesEveryWindow(s: LoopState, accumulate: int, outcomes: seq<bool>)
    requires accumulate >= 1 && s.buffered < accumulate
    ensures RunFixed(s, accumulate, outcomes).Ok?
    ensures var t := RunFixed(s, accumulate, outcomes).value;
      && t.buffered < accumulate
      && t.updateCalls * accumulate + t.buffered == s.updateCalls * accumulate + s.buffered + |outcomes|
    decreases |outcomes|
  {
    if outcomes != [] {
      var t := AfterBatchFixed(s, accumulate, outcomes[0]).value;
      FixedUpdatesEveryWindow(t, accumulate, outcomes[1..]);
      if s.buffered + 1 == accumulate {
        assert t.buffered == 0 && t.updateCalls == s.updateCalls + 1;
        assert t.updateCalls * accumulate == s.updateCalls * accumulate + accumulate;
      } else {
        assert t.buffered == s.buffered + 1 && t.updateCalls == s.updateCalls;
      }
    }
  }

  /** The failed-step counts the after-epoch callback logs (train.py:490-494):
      batches the iterator produced minus successful updates, in the last
      epoch and in total. */
  datatype EpochReport = EpochReport(failedInEpoch: int, batchesInEpoch: nat, failedTotal: int, batchesTotal: nat)

  function Report(stateStepInEpoch: nat, iterStepInEpoch: nat, stateStep: nat, iterStep: nat): (r: EpochReport)
    ensures r.batchesInEpoch == iterStepInEpoch && r.batchesTotal == iterStep
  {
    EpochReport(iterStepInEpoch - stateStepInEpoch, iterStepInEpoch, iterStep - stateStep, iterStep)
  }

  /** A run of the loop body advances the step by at most one per batch, so
      the failed-step counts the callback reports (batches minus successful
      updates) are never negative. */
  lemma {:induction false} StepsAtMostBatches(s: LoopState, accumulate: int, outcomes: seq<bool>)
    requires Run(s, accumulate, outcomes).Ok?
    ensures var t := Run(s, accumulate, outcomes).value;
      s.step <= t.step <= s.step + |outcomes|
    decreases |outcomes|
  {
    if outcomes != [] {
      var t := AfterBatch(s, accumulate, outcomes[0]).value;
      StepsAtMostBatches(t, accumulate, outcomes[1..]);
    }
  }

  /** The failed-step counts reported after an epoch of batches are never
      negative, provided that the iterator counts every batch the loop
      consumes, that the epoch's counters both start at 0, and that the
      iterator's total was at least the step count when the epoch began. */
  lemma {:induction false} FailedStepsNonNegative(s: LoopState, accumulate: int, outcomes: seq<bool>, iterStart: nat)
    requires Run(s, accumulate, outcomes).Ok?
    requires s.step <= iterStart
    ensures s.step <= Run(s, accumulate, outcomes).value.step
    ensures var t := Run(s, accumulate, outcomes).value;
      var report := Report(t.step - s.step, |outcomes|, t.step, iterStart + |outcomes|);
      report.failedInEpoch >= 0 && report.failedTotal >= 0
  {
    StepsAtMostBatches(s, accumulate, outcomes);
  }

  /** The after-epoch callback (train.py:496-499): the epoch advances, and
      when a validation score exists the scheduler is stepped with the new
      epoch and, through the double negation, the last score itself. */
  function AfterEpoch(epoch: nat, evalScores: seq<real>): (r: (nat, Option<(nat, real)>))
    ensures r.0 == epoch + 1
    ensures r.1.Some? <==> evalScores != []
    ensures r.1.Some? ==> r.1.value == (epoch + 1, evalScores[|evalScores| - 1])
  {
    var newEpoch := epoch + 1;
    if evalScores == [] then (newEpoch, None)
    else
      var evalScore := -evalScores[|evalScores| - 1];
      (newEpoch, Some((newEpoch, -evalScore)))
  }
}
