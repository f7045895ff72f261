/** The training-step executor `Trainer` (train.py:65-253): forward and
    backward passes that survive running out of memory, the buffer that
    accumulates micro-batch statistics, the parameter update and the meters.
    The model, the criterion and the optimizer are not modelled: what they
    return is passed in, and what the trainer asks of them is recorded in a
    trace of calls. */
module Training {
  import opened Outcomes

  /** A logging output: the named statistics of one or more micro-batches. */
  type LogOutput = map<string, real>

  /** What the trainer reads of a batch: its target token count and its
      number of target sentences (`sample['target'].size(0)`). */
  datatype Sample = Sample(ntokens: int, nsentences: nat)

  /** What calling the criterion on the model and a sample does: it returns
      a loss (possibly None), a sample size and statistics, or raises a
      RuntimeError with a message. */
  datatype CriterionOutcome =
    | Computed(loss: Option<real>, sampleSize: int, log: LogOutput)
    | CriterionRaises(message: string)

  /** What `loss.backward()` does. */
  datatype BackwardOutcome = BackwardDone | BackwardRaises(message: string)

  /** What the update block does: the optimizer steps (rescaling and
      clipping return the gradient norm, or None), an OverflowError
      interrupts it before the step takes effect, or another exception
      escapes it before it has any effect. */
  datatype UpdateOutcome = Stepped(gradNorm: Option<real>) | Overflow | UpdateRaises(exception: Exception)

  /** The requests the trainer makes of the model and the optimizer. */
  datatype Call =
    | LossBackward       // loss.backward()
    | ZeroModelGrad      // model.zero_grad() after running out of memory in backward
    | Rescale(denom: real)  // scale_clip_grad_(grad_denom)
    | OptimizerStep      // optimizer.step()
    | ZeroOptimizerGrad  // optimizer.zero_grad()

  /** One buffered micro-batch: sample size, logging output and the two OOM flags. */
  datatype Entry = Entry(sampleSize: int, log: LogOutput, oomFwd: nat, oomBwd: nat)

  /** The result of `_forward`: loss, sample size, logging output and OOM flag. */
  datatype Forwarded = Forwarded(loss: Option<real>, sampleSize: int, log: LogOutput, oom: nat)

  /** `s` contains `sub` as a contiguous piece. */
  predicate Contains(s: string, sub: string)
    decreases |s|
  {
    if |s| < |sub| then false
    else if s[..|sub|] == sub then true
    else |s| > 0 && Contains(s[1..], sub)
  }

  /** The test `'out of memory' in str(e)` of train.py:106 and train.py:121. */
  predicate IsOom(message: string)
  {
    Contains(message, "out of memory")
  }

  /** The logging output `_forward` starts from (train.py:94-97). */
  function InitialLog(sample: Option<Sample>): (log: LogOutput)
    ensures log.Keys == {"ntokens", "nsentences"}
  {
    match sample
    case None => map["ntokens" := 0.0, "nsentences" := 0.0]
    case Some(s) => map["ntokens" := s.ntokens as real, "nsentences" := s.nsentences as real]
  }

  /** `_forward(sample, eval)` (train.py:85-112): an out-of-memory error is
      swallowed only in training mode and leaves no loss; any other error,
      and any error in evaluation mode, propagates. */
  function ForwardResult(sample: Option<Sample>, eval: bool, outcome: CriterionOutcome): (r: Result<Forwarded>)
    ensures r.Raise? <==> sample.Some? && outcome.CriterionRaises? && (eval || !IsOom(outcome.message))
    ensures r.Raise? ==> r.exception == RuntimeError(outcome.message)
    ensures r.Ok? ==> r.value.oom <= 1 && InitialLog(sample).Keys <= r.value.log.Keys
    ensures r.Ok? ==> (r.value.oom == 1 <==> sample.Some? && outcome.CriterionRaises?)
    ensures r.Ok? && r.value.oom == 1 ==>
      !eval && r.value.loss.None? && r.value.sampleSize == 0 && r.value.log == InitialLog(sample)
    ensures sample.None? ==> r == Ok(Forwarded(None, 0, InitialLog(None), 0))
  {
    if sample.None? then Ok(Forwarded(None, 0, InitialLog(sample), 0))
    else match outcome
      case Computed(loss, size, log) => Ok(Forwarded(loss, size, InitialLog(sample) + log, 0))
      case CriterionRaises(message) =>
        if !eval && IsOom(message) then Ok(Forwarded(None, 0, InitialLog(sample), 1))
        else Raise(RuntimeError(message))
  }

  /** `_backward(loss)` (train.py:114-127): nothing happens without a loss;
      an out-of-memory error is swallowed (in either mode), any other
      error propagates. */
  function BackwardResult(loss: Option<real>, outcome: BackwardOutcome): (r: Result<nat>)
    ensures loss.None? ==> r == Ok(0)
    ensures r.Ok? ==> r.value <= 1
    ensures r.Raise? <==> loss.Some? && outcome.BackwardRaises? && !IsOom(outcome.message)
    ensures r == Ok(1) <==> loss.Some? && outcome.BackwardRaises? && IsOom(outcome.message)
  {
    if loss.None? then Ok(0)
    else match outcome
      case BackwardDone => Ok(0)
      case BackwardRaises(message) =>
        if IsOom(message) then Ok(1) else Raise(RuntimeError(message))
  }

  /** The calls `_backward` makes on the model. */
  function BackwardCalls(loss: Option<real>, outcome: BackwardOutcome): seq<Call>
  {
    if loss.None? then []
    else if outcome.BackwardRaises? && IsOom(outcome.message) then [LossBackward, ZeroModelGrad]
    else [LossBackward]
  }

  /** Forward then backward in training mode, as `train_step` runs them:
      the entry it buffers, or the error it lets through. */
  function MicroStep(sample: Option<Sample>, criterion: CriterionOutcome, backward: BackwardOutcome): (r: Result<Entry>)
    ensures r.Ok? ==> r.value.oomFwd + r.value.oomBwd <= 1
    ensures r.Ok? && r.value.oomFwd == 1 ==> r.value.sampleSize == 0 && r.value.oomBwd == 0
    ensures r.Raise? <==>
      (sample.Some? && criterion.CriterionRaises? && !IsOom(criterion.message)) ||
      (sample.Some? && criterion.Computed? && criterion.loss.Some? &&
       backward.BackwardRaises? && !IsOom(backward.message))
  {
    var fw := ForwardResult(sample, false, criterion);
    if fw.Raise? then Raise(fw.exception)
    else
      var bw := BackwardResult(fw.value.loss, backward);
      if bw.Raise? then Raise(bw.exception)
      else Ok(Entry(fw.value.sampleSize, fw.value.log, fw.value.oom, bw.value))
  }

  /** The calls one forward and backward make on the model. */
  function MicroCalls(sample: Option<Sample>, criterion: CriterionOutcome, backward: BackwardOutcome): seq<Call>
  {
    var fw := ForwardResult(sample, false, criterion);
    if fw.Raise? then [] else BackwardCalls(fw.value.loss, backward)
  }

  /** The calls an update makes on the optimizer (train.py:220-237). */
  function UpdateCalls(update: UpdateOutcome, denom: real): seq<Call>
  {
    match update
    case Stepped(_) => [Rescale(denom), OptimizerStep, ZeroOptimizerGrad]
    case Overflow => [Rescale(denom), ZeroOptimizerGrad]
    case UpdateRaises(_) => []
  }

  /** Sum of a list of counts. */
  function Sum(xs: seq<nat>): nat
  {
    if xs == [] then 0 else xs[0] + Sum(xs[1..])
  }

  /** The per-micro-batch OOM counts `oom_fwd + oom_bwd` (train.py:208). */
  function Ooms(fwd: seq<nat>, bwd: seq<nat>): (r: seq<nat>)
    requires |fwd| == |bwd|
    ensures |r| == |fwd| && forall i :: 0 <= i < |r| ==> r[i] == fwd[i] + bwd[i]
  {
    seq(|fwd|, i requires 0 <= i < |fwd| => fwd[i] + bwd[i])
  }

  /** The number of positive counts, `sum([1 for oom in ooms if oom > 0])`. */
  function CountPositive(xs: seq<nat>): (r: nat)
    ensures r <= |xs|
  {
    if xs == [] then 0 else (if xs[0] > 0 then 1 else 0) + CountPositive(xs[1..])
  }

  /** The all-failed test of train.py:209. */
  predicate AllFailed(fwd: seq<nat>, bwd: seq<nat>, logs: seq<LogOutput>)
    requires |fwd| == |bwd|
  {
    CountPositive(Ooms(fwd, bwd)) == |logs|
  }

  /** The four meters of train.py:77-81. */
  const MeterNames: set<string> := {"wps", "gnorm", "clip", "oom"}

  /** Every meter just after creation or reset: a meter is modelled by the
      values it has been updated with since. */
  function EmptyMeters(): (m: map<string, seq<real>>)
    ensures m.Keys == MeterNames && forall n :: n in m ==> m[n] == []
  {
    map n | n in MeterNames :: []
  }

  /** The meter updates after an optimizer step (train.py:229-233). */
  function MetersAfterUpdate(m: map<string, seq<real>>, ntokens: real, gradNorm: Option<real>,
                             clipNorm: real, ooms: nat): (r: map<string, seq<real>>)
    requires m.Keys == MeterNames
    ensures r.Keys == MeterNames
    ensures r["wps"] == m["wps"] + [ntokens] && r["oom"] == m["oom"] + [ooms as real]
    ensures gradNorm.None? ==> r["gnorm"] == m["gnorm"] && r["clip"] == m["clip"]
    ensures gradNorm.Some? ==> r["gnorm"] == m["gnorm"] + [gradNorm.value]
    ensures gradNorm.Some? ==> r["clip"] == m["clip"] + [if gradNorm.value > clipNorm then 1.0 else 0.0]
  {
    var m1 := m["wps" := m["wps"] + [ntokens]];
    var m2 := if gradNorm.None? then m1
              else m1["gnorm" := m1["gnorm"] + [gradNorm.value]]
                     ["clip" := m1["clip"] + [if gradNorm.value > clipNorm then 1.0 else 0.0]];
    m2["oom" := m2["oom"] + [ooms as real]]
  }

  /** The aggregated token count, or 0 when the aggregate has none. */
  function TokensOf(agg: LogOutput): real
  {
    if "ntokens" in agg then agg["ntokens"] else 0.0
  }

  class Trainer {
    // `_buffered_stats`: the four lists it holds
    var sampleSizes: seq<int>
    var loggingOutputs: seq<LogOutput>
    var oomsFwd: seq<nat>
    var oomsBwd: seq<nat>
    // `meters`
    var meters: map<string, seq<real>>
    // the mode of the model: train() or eval()
    var training: bool
    // the requests made so far of the model and the optimizer
    var calls: seq<Call>
    // `args.clip_norm` and the two class functions of the criterion
    const clipNorm: real
    const aggregate: seq<LogOutput> -> LogOutput
    const gradDenom: seq<int> -> real

    /** The four buffered lists stay parallel, each micro-batch has at most
        one OOM, and the meters are the four of the constructor. */
    ghost predicate Valid()
      reads this
    {
      && |loggingOutputs| == |sampleSizes| == |oomsFwd| == |oomsBwd|
      && (forall i :: 0 <= i < |oomsFwd| ==> oomsFwd[i] + oomsBwd[i] <= 1)
      && meters.Keys == MeterNames
    }

    /** The buffer as a list of micro-batch entries. */
    ghost function Buffered(): (b: seq<Entry>)
      reads this
      requires Valid()
      ensures |b| == |sampleSizes|
    {
      seq(|sampleSizes|, i reads this requires 0 <= i < |sampleSizes| && Valid() =>
        Entry(sampleSizes[i], loggingOutputs[i], oomsFwd[i], oomsBwd[i]))
    }

    constructor (clipNorm: real, aggregate: seq<LogOutput> -> LogOutput, gradDenom: seq<int> -> real)
      ensures Valid() && Buffered() == [] && meters == EmptyMeters()
      ensures training && calls == []
      ensures this.clipNorm == clipNorm && this.aggregate == aggregate && this.gradDenom == gradDenom
    {
      sampleSizes, loggingOutputs, oomsFwd, oomsBwd := [], [], [], [];
      meters := EmptyMeters();
      training := true;
      calls := [];
      this.clipNorm := clipNorm;
      this.aggregate := aggregate;
      this.gradDenom := gradDenom;
    }

    /** `_forward` (train.py:85-112): sets the model's mode, then runs the criterion. */
    method Forward(sample: Option<Sample>, eval: bool, outcome: CriterionOutcome) returns (r: Result<Forwarded>)
      modifies this`training
      ensures training == !eval
      ensures r == ForwardResult(sample, eval, outcome)
    {
      training := !eval;
      if sample.None? {
        return Ok(Forwarded(None, 0, InitialLog(sample), 0));
      }
      match outcome
      case Computed(loss, size, log) =>
        r := Ok(Forwarded(loss, size, InitialLog(sample) + log, 0));
      case CriterionRaises(message) =>
        if !eval && IsOom(message) {
          r := Ok(Forwarded(None, 0, InitialLog(sample), 1));
        } else {
          r := Raise(RuntimeError(message));
        }
    }

    /** `_backward` (train.py:114-127). */
    method Backward(loss: Option<real>, outcome: BackwardOutcome) returns (r: Result<nat>)
      modifies this`calls
      ensures r == BackwardResult(loss, outcome)
      ensures calls == old(calls) + BackwardCalls(loss, outcome)
    {
      if loss.None? {
        return Ok(0);
      }
      calls := calls + [LossBackward];
      match outcome
      case BackwardDone =>
        r := Ok(0);
      case BackwardRaises(message) =>
        if IsOom(message) {
          calls := calls + [ZeroModelGrad];
          r := Ok(1);
        } else {
          r := Raise(RuntimeError(message));
        }
    }

    /** `clear_buffered_stats` (train.py:129-130). */
    method ClearBufferedStats()
      requires Valid()
      modifies this`sampleSizes, this`loggingOutputs, this`oomsFwd, this`oomsBwd
      ensures Valid() && Buffered() == []
    {
      sampleSizes, loggingOutputs, oomsFwd, oomsBwd := [], [], [], [];
    }

    /** `get_meter` (train.py:148-152): the meter of that name, or None. */
    method GetMeter(name: string) returns (m: Option<seq<real>>)
      requires Valid()
      ensures m.Some? <==> name in MeterNames
      ensures m.Some? ==> m.value == meters[name]
    {
      if name !in meters {
        return None;
      }
      return Some(meters[name]);
    }

    /** `reset_meters` (train.py:251-253). */
    method ResetMeters()
      requires Valid()
      modifies this`meters
      ensures Valid() && meters == EmptyMeters()
    {
      meters := EmptyMeters();
    }

    /** Lines 196-199: append one micro-batch to each buffered list. */
    method Buffer(e: Entry)
      requires Valid() && e.oomFwd + e.oomBwd <= 1
      modifies this`sampleSizes, this`loggingOutputs, this`oomsFwd, this`oomsBwd
      ensures Valid() && Buffered() == old(Buffered()) + [e]
      ensures sampleSizes == old(sampleSizes) + [e.sampleSize] && loggingOutputs == old(loggingOutputs) + [e.log]
      ensures oomsFwd == old(oomsFwd) + [e.oomFwd] && oomsBwd == old(oomsBwd) + [e.oomBwd]
    {
      sampleSizes := sampleSizes + [e.sampleSize];
      loggingOutputs := loggingOutputs + [e.log];
      oomsFwd := oomsFwd + [e.oomFwd];
      oomsBwd := oomsBwd + [e.oomBwd];
      assert Buffered() == old(Buffered()) + [e];
    }

    /** Lines 201-241: the update that closes an accumulation window. A
        window in which every micro-batch ran out of memory is dropped;
        otherwise the gradients are rescaled by the criterion's denominator
        over all buffered sample sizes, one optimizer step is attempted, the
        meters are updated unless an overflow interrupted the step, and the
        aggregate of the buffered logging outputs is returned. The buffer is
        cleared unless an exception other than OverflowError escapes the
        update, which leaves the window buffered. */
    method UpdateParams(update: UpdateOutcome) returns (r: Result<Option<LogOutput>>)
      requires Valid()
      modifies this`sampleSizes, this`loggingOutputs, this`oomsFwd, this`oomsBwd, this`meters, this`calls
      ensures Valid()
      ensures AllFailed(old(oomsFwd), old(oomsBwd), old(loggingOutputs)) ==>
        r == Ok(None) && Buffered() == [] && meters == old(meters) && calls == old(calls)
      ensures !AllFailed(old(oomsFwd), old(oomsBwd), old(loggingOutputs)) && update.UpdateRaises? ==>
        && r == Raise(update.exception) && Buffered() == old(Buffered())
        && meters == old(meters) && calls == old(calls)
      ensures !AllFailed(old(oomsFwd), old(oomsBwd), old(loggingOutputs)) && !update.UpdateRaises? ==>
        && r == Ok(Some(aggregate(old(loggingOutputs)))) && Buffered() == []
        && calls == old(calls) + UpdateCalls(update, gradDenom(old(sampleSizes)))
        && meters == match update
             case Stepped(gradNorm) =>
               MetersAfterUpdate(old(meters), TokensOf(aggregate(old(loggingOutputs))), gradNorm,
                                 clipNorm, Sum(old(oomsFwd)) + Sum(old(oomsBwd)))
             case _ => old(meters)
    {
      if CountPositive(Ooms(oomsFwd, oomsBwd)) == |loggingOutputs| {
        ClearBufferedStats();
        return Ok(None);
      }
      if update.UpdateRaises? {
        return Raise(update.exception);
      }
      var oomTotal := Sum(oomsFwd) + Sum(oomsBwd);
      var agg := aggregate(loggingOutputs);
      var denom := gradDenom(sampleSizes);
      match update {
        case Stepped(gradNorm) =>
          calls := calls + [Rescale(denom), OptimizerStep, ZeroOptimizerGrad];
          meters := MetersAfterUpdate(meters, TokensOf(agg), gradNorm, clipNorm, oomTotal);
        case Overflow =>
          calls := calls + [Rescale(denom), ZeroOptimizerGrad];
      }
      ClearBufferedStats();
      return Ok(Some(agg));
    }

    /** `train_step(sample, update_params)` (train.py:186-243): forward and
        backward, buffer the micro-batch, and close the window when asked.
        An exception that escapes the update leaves the micro-batch buffered. */
    method TrainStep(sample: Option<Sample>, updateParams: bool, criterion: CriterionOutcome,
                     backward: BackwardOutcome, update: UpdateOutcome)
      returns (r: Result<Option<LogOutput>>)
      requires Valid()
      modifies this`sampleSizes, this`loggingOutputs, this`oomsFwd, this`oomsBwd,
               this`meters, this`training, this`calls
      ensures Valid() && training
      // an error that forward or backward lets through leaves buffer and meters alone
      ensures MicroStep(sample, criterion, backward).Raise? ==>
        && r == Raise(MicroStep(sample, criterion, backward).exception)
        && Buffered() == old(Buffered()) && meters == old(meters)
        && calls == old(calls) + MicroCalls(sample, criterion, backward)
      // a buffering call appends exactly one entry and returns None
      ensures MicroStep(sample, criterion, backward).Ok? && !updateParams ==>
        && r == Ok(None) && Buffered() == old(Buffered()) + [MicroStep(sample, criterion, backward).value]
        && meters == old(meters) && calls == old(calls) + MicroCalls(sample, criterion, backward)
      // an update call closes the window: dropped if it failed as a whole
      ensures MicroStep(sample, criterion, backward).Ok? && updateParams ==>
        var e := MicroStep(sample, criterion, backward).value;
        var fwd := old(oomsFwd) + [e.oomFwd];
        var bwd := old(oomsBwd) + [e.oomBwd];
        var logs := old(loggingOutputs) + [e.log];
        && (AllFailed(fwd, bwd, logs) ==>
              && r == Ok(None) && Buffered() == [] && meters == old(meters)
              && calls == old(calls) + MicroCalls(sample, criterion, backward))
        && (!AllFailed(fwd, bwd, logs) && update.UpdateRaises? ==>
              && r == Raise(update.exception) && Buffered() == old(Buffered()) + [e]
              && meters == old(meters) && calls == old(calls) + MicroCalls(sample, criterion, backward))
        && (!AllFailed(fwd, bwd, logs) && !update.UpdateRaises? ==>
              && r == Ok(Some(aggregate(logs))) && Buffered() == []
              && calls == old(calls) + MicroCalls(sample, criterion, backward)
                          + UpdateCalls(update, gradDenom(old(sampleSizes) + [e.sampleSize]))
              && meters == match update
                   case Stepped(gradNorm) =>
                     MetersAfterUpdate(old(meters), TokensOf(aggregate(logs)), gradNorm, clipNorm, Sum(fwd) + Sum(bwd))
                   case _ => old(meters))
    {
      var fw := Forward(sample, false, criterion);
      if fw.Raise? {
        return Raise(fw.exception);
      }
      var bw := Backward(fw.value.loss, backward);
      if bw.Raise? {
        return Raise(bw.exception);
      }
      Buffer(Entry(fw.value.sampleSize, fw.value.log, fw.value.oom, bw.value));
      if !updateParams {
        return Ok(None);
      }
      r := UpdateParams(update);
    }
  }

  /** A window fails as a whole exactly when every micro-batch in it ran
      out of memory in forward or in backward. */
  lemma {:induction false} AllFailedIffEveryMicroBatchOom(fwd: seq<nat>, bwd: seq<nat>, logs: seq<LogOutput>)
    requires |fwd| == |bwd| == |logs|
    ensures AllFailed(fwd, bwd, logs) <==> forall i :: 0 <= i < |fwd| ==> fwd[i] + bwd[i] > 0
  {
    CountPositiveIsLength(Ooms(fwd, bwd));
  }

  /** A list has as many positive elements as elements exactly when all are positive. */
  lemma {:induction false} CountPositiveIsLength(xs: seq<nat>)
    ensures CountPositive(xs) == |xs| <==> forall i :: 0 <= i < |xs| ==> xs[i] > 0
  {
    if xs != [] {
      CountPositiveIsLength(xs[1..]);
      assert forall i :: 1 <= i < |xs| ==> xs[i] == xs[1..][i - 1];
    }
  }

  /** Sum distributes over pairing. */
  lemma {:induction false} SumOoms(fwd: seq<nat>, bwd: seq<nat>)
    requires |fwd| == |bwd|
    ensures Sum(Ooms(fwd, bwd)) == Sum(fwd) + Sum(bwd)
  {
    if fwd != [] {
      SumOoms(fwd[1..], bwd[1..]);
      assert Ooms(fwd, bwd)[1..] == Ooms(fwd[1..], bwd[1..]);
    }
  }

  /** With at most one OOM per micro-batch, the OOM count of a window never
      exceeds its length, and reaches it exactly when the window failed as a
      whole: the value an update adds to the `oom` meter is always smaller
      than the number of buffered micro-batches. */
  lemma {:induction false} OomTotalBelowWindow(fwd: seq<nat>, bwd: seq<nat>, logs: seq<LogOutput>)
    requires |fwd| == |bwd| == |logs|
    requires forall i :: 0 <= i < |fwd| ==> fwd[i] + bwd[i] <= 1
    ensures Sum(fwd) + Sum(bwd) <= |fwd|
    ensures AllFailed(fwd, bwd, logs) <==> Sum(fwd) + Sum(bwd) == |fwd|
  {
    SumOoms(fwd, bwd);
    AllFailedIffEveryMicroBatchOom(fwd, bwd, logs);
    SumOfFlags(Ooms(fwd, bwd));
  }

  /** A list of 0/1 flags sums to at most its length, with equality exactly
      when every flag is set. */
  lemma {:induction false} SumOfFlags(xs: seq<nat>)
    requires forall i :: 0 <= i < |xs| ==> xs[i] <= 1
    ensures Sum(xs) <= |xs|
    ensures Sum(xs) == |xs| <==> forall i :: 0 <= i < |xs| ==> xs[i] > 0
  {
    if xs != [] {
      SumOfFlags(xs[1..]);
      assert forall i :: 1 <= i < |xs| ==> xs[i] == xs[1..][i - 1];
    }
  }
}
