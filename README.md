# A verified model of the training driver of ABDNMT-RNMT

`train.py` trains a sequence-to-sequence translation model. Most of the file is
PyTorch, tensorboard and file plumbing. This project models the sequential core
around those calls and proves properties of it:

- **Layered configuration** (`Config`, config.dfy). `override` merges two
  argparse namespaces in one of two modes. In null-filling mode only attributes
  that are None are filled in. In forced mode every non-None value wins.
  `prepare` chains these merges (command line > config files > checkpoint
  arguments > defaults) and strips the result to the declared keys. A namespace
  is a `map<string, Option<Value>>`. A missing layer (Python `None`) is
  `Option.None`.
- **Training-step executor** (`Training`, trainer.dfy). The class `Trainer` holds:
  - the four buffered lists of `_buffered_stats` (sample sizes, logging outputs,
    forward and backward OOM flags);
  - the four meters;
  - the model's train/eval mode;
  - a trace of the requests the trainer makes of the model and the optimizer.

  Its methods are `_forward`, `_backward`, `train_step`, `clear_buffered_stats`,
  `get_meter` and `reset_meters`. The criterion, `loss.backward()` and the
  update block are not modelled. What they return (a value, an out-of-memory
  `RuntimeError`, another `RuntimeError`, an `OverflowError`) is passed in as a
  datatype. The criterion's `aggregate_logging_outputs` and `grad_denom` are
  function-valued constants of the trainer.
- **Record and batch rules** (`Batching`, batching.dfy). These are the functions
  that `get_train_iterator` hands to the external iterator:
  - the length filter, with a single limit repeated per training file;
  - the sample-size choice;
  - `padded_size_fn`;
  - the collated token sums;
  - the two sort keys.
- **Control-loop decisions** (`Control`, control.dfy). This covers the stopping
  predicate, the accumulate-or-update test, the loop body's effect on the step
  counter and the trainer's buffer, and the after-epoch callback.
- **Argument normalisation** (`Options`, options.dfy). The class `Args`
  rewrites its fields in place. A single `train`/`dev`/`vocab` prefix expands
  to one path per language. A single vocabulary size is broadcast to every
  vocabulary file.

Python exceptions on the modelled paths are values of `Outcomes.Result`
(outcomes.dfy): `RuntimeError(message)`, `AttributeError`, `AssertionError`,
`IndexError` and `ZeroDivisionError`.

### Behaviour of the code worth knowing

- A Python `argparse.Namespace` has no `__len__` or `__bool__`, so an empty
  namespace is truthy. The early returns of `override` (train.py:44-47) are
  therefore taken only for a missing layer, not for an empty one.
- The window test marked `# all updates failed` (train.py:208-209) counts a
  micro-batch as failed when it ran out of memory in forward or in backward.
  One OOM in either phase is enough.
- `lr_step` names its argument `val_loss` (train.py:132-134). The after-epoch
  callback negates the last validation score and then negates it back
  (train.py:498-499), so the scheduler receives the score itself.
- `grad_denom` receives every buffered sample size (train.py:203, 218). That
  includes the size of a micro-batch whose backward ran out of memory. For
  such a micro-batch, `model.zero_grad()` (train.py:124) has wiped all
  accumulated gradients: its own and those of the earlier micro-batches in
  the window. The rescaling then divides what remains by a denominator that
  still counts the wiped micro-batches.

## Model

| member | source | states |
|---|---|---|
| Config.OverrideSpec | train.py:40-62 | A missing `from` returns `to` and a missing `to` returns `from`. A forced merge never raises. The only error is AttributeError. Two present layers give a present result. |
| Config.Force | train.py:52-61 | Forced merge: the keys are `to`'s plus those `from` sets to a non-None value. Every such value of `from` wins, and every other key keeps `to`'s value. |
| Config.FillNulls | train.py:52-57 | Null-filling merge: same keys as `to`. Non-None values of `to` are untouched. A None value of `to` takes `from`'s value, or stays None when `from` has none. |
| Config.Override | train.py:40-62 | The attribute-by-attribute `setattr` loop returns exactly `OverrideSpec`, whatever order the attributes are visited in. |
| Config.MergeLookup | train.py:52-61 | In a forced merge, the value read for any key is `from`'s if non-None and otherwise `to`'s. This holds also when either layer is missing. |
| Config.FillNullsKeepsValues | train.py:52-57 | A successful null-filling override keeps the key set and never changes a non-None value. It fills a None value only from a non-None value of `from`. |
| Config.FillNullsRaisesIffMissing | train.py:55-57 | Null-filling mode raises exactly when `from` has a non-None attribute that `to` lacks (`getattr` without a default). |
| Config.MergeFiles | train.py:603-613 | Merging the config files yields no layer exactly when there are no files. |
| Config.MergeConfigFiles | train.py:603-613 | The loop over the parsed config files equals the left fold of forced merges. |
| Config.MergeFilesLastWins | train.py:610-613 | A key takes its value from the last config file that sets it. |
| Config.Resolved | train.py:629-640 | After the two rounds of overrides, every key the second parse declares is present. |
| Config.Prepared | train.py:636-644 | The stripped namespace has exactly the declared keys. |
| Config.PreparedPriority | train.py:629-644 | Every declared key takes the first non-None value among: second command-line parse, command line, config files, checkpoint arguments, defaults, second defaults. |
| Config.PreparedAsWritten | train.py:673 | What `prepare` returns contains every declared key. |
| Config.PreparedAsWrittenKeepsStrayKeys | train.py:642-673 | A key set only by a config file and not declared by the parser survives in what `prepare` returns. The stripped namespace drops it. |
| Config.StripKeys | train.py:641-644 | The copy loop produces the namespace restricted to the declared keys. |
| Config.ResolveArgs | train.py:602-644 | `prepare`'s argument resolution returns the as-written namespace and the stripped one. |
| Training.InitialLog | train.py:94-97 | The starting logging output has exactly the keys `ntokens` and `nsentences`. |
| Training.ForwardResult | train.py:85-112 | Raises (the same RuntimeError) exactly on a criterion error that is not an OOM, or on any error in eval mode. The OOM flag is 0 or 1, and is 1 exactly when the criterion raised. An OOM leaves no loss, sample size 0 and the initial log. No sample gives a zero result. |
| Training.BackwardResult | train.py:114-127 | Without a loss nothing happens and the flag is 0. The flag is 1 exactly on an OOM. It raises exactly on another error. |
| Training.MicroStep | train.py:191-194 | A buffered entry has at most one OOM. A forward OOM implies sample size 0 and no backward OOM. An error propagates exactly on a non-OOM failure of the criterion or of backward with a loss. |
| Training.CountPositive | train.py:209 | The count of micro-batches with an OOM never exceeds the window length. |
| Training.AllFailedIffEveryMicroBatchOom | train.py:208-211 | The all-failed test, which counts the positive entries of `Ooms`, the elementwise `oom_fwd + oom_bwd`, holds exactly when every buffered micro-batch has `oom_fwd + oom_bwd > 0`. |
| Training.SumOoms | train.py:208-214 | The entries of `Ooms` sum to `sum(ooms_fwd) + sum(ooms_bwd)`, the total the update adds to the `oom` meter. |
| Training.OomTotalBelowWindow | train.py:208-233 | With the buffer's invariant, the OOM count added to the `oom` meter is at most the window length. It equals the length exactly when the window is dropped, so an update never records a full window of OOMs. |
| Training.EmptyMeters | train.py:76-81 | Exactly the meters `wps`, `gnorm`, `clip`, `oom`, each empty. |
| Training.MetersAfterUpdate | train.py:226-233 | `wps` records the aggregated token count. `gnorm` and `clip` record the norm and whether it exceeded `clip_norm`, only when a norm is returned. `oom` records the window's OOM total. |
| Training.Trainer.constructor | train.py:66-83 | Empty buffer, empty meters, no requests yet, given clip norm and criterion functions. |
| Training.Trainer.Forward | train.py:85-112 | Sets the model mode to `!eval` and returns `ForwardResult`. |
| Training.Trainer.Backward | train.py:114-127 | Returns `BackwardResult`. Records `loss.backward()` and, after an OOM, `model.zero_grad()`. |
| Training.Trainer.ClearBufferedStats | train.py:129-130 | Empties the buffer and keeps the invariant. |
| Training.Trainer.GetMeter | train.py:148-152 | Returns a meter exactly for the four known names, with its recorded values. |
| Training.Trainer.ResetMeters | train.py:251-253 | Every meter is empty again. |
| Training.Trainer.Buffer | train.py:196-199 | Appends exactly one entry to each of the four lists. |
| Training.Trainer.UpdateParams | train.py:201-241 | A failed window is cleared and returns None, with no request and no meter change. An exception other than OverflowError propagates and leaves the buffer, meters and trace as they were. Otherwise: one rescale by `grad_denom` of all buffered sizes, one optimizer step unless overflow, meters updated only after a step, the buffer cleared, and the aggregate of the buffered logs returned. |
| Training.Trainer.TrainStep | train.py:186-243 | An error from forward or backward leaves buffer and meters unchanged. A buffering call returns None and appends exactly one entry. An update call drops or applies the window as `UpdateParams` states. When an exception escapes the update, the new micro-batch stays buffered. The model is left in training mode. |
| Batching.WithinLimit | train.py:326-329 | With two limits, keep exactly when `n_src_tok - 1 <= limit[0]` and `n_trg_tok - 1 <= limit[1]`. IndexError for an empty limit, or for a one-element limit once the source test passes. |
| Batching.SingleLimitBoundsBothSides | train.py:323-329 | `BroadcastLimit` repeats a single limit for each training file. With one limit and two or more files, a record is therefore kept exactly when both sides have at most limit + 1 tokens. |
| Batching.RecordKeptIffWithinLimits | train.py:305-329 | A record built by `MakeRecord` from two index sequences, filtered with one limit per side, is kept exactly when each sequence has at most its limit + 1 tokens. |
| Batching.PaddedSize | train.py:345-346 | 0 for no records. Otherwise a record's target count times the record count, and at least every record's count times it (the maximum). |
| Batching.Collate | train.py:331-337 | One row per record, in order, for each side. |
| Batching.SumSizesConcat | train.py:335-341 | A summed per-record size, as used for both collated token counts and the iterator's sample sizes, is additive over any split of the records. |
| Batching.CollateConcat | train.py:335-336 | The collated token counts are additive over any split of the records. |
| Batching.CollatedTokensWithinPaddedSize | train.py:335-346 | The collated target token count never exceeds `padded_size_fn` of the same records. |
| Batching.SampleSizesMatchCollate | train.py:331-341 | When batching by tokens, `SampleSizeFn` gives the target token count. The sample sizes summed over a batch then equal the collated target token count, which is the batch size `main` logs (train.py:543), and a batch cut in two has the sample sizes of its parts added. When batching by sentence, there is no size function and the logged size is the record count. |
| Batching.CacheOrderIsShortestTargetFirst | train.py:362 | Ascending cache key means non-decreasing target length. |
| Batching.BatchOrderIsLongestSourceFirst | train.py:363 | Ascending batch key means non-increasing source length. |
| Control.ShouldContinue | train.py:505-507 | `Bound` turns a limit of None or 0 into no limit (`or math.inf`, train.py:473-474). Continue exactly when (no `min_lr`, or lr > `min_lr`) and the epoch and step are below their non-zero limits. |
| Control.StopIsPermanent | train.py:504-507 | Once the epoch or step reaches its non-zero limit, the predicate stays false as the counters grow, whatever the learning rate. |
| Control.PyMod | train.py:526 | Python's `%`: the remainder has the divisor's sign and agrees with Dafny's for a positive divisor. |
| Control.IsUpdateCall | train.py:526 | ZeroDivisionError exactly for `accumulate == 0`. For a positive `accumulate`, update exactly when `(step + 1) % accumulate == 0`. A negative `accumulate` always updates. |
| Control.AfterBatch | train.py:526-534 | An accumulating batch grows the buffer by one and keeps the step. An update call empties the buffer and advances the step only when it succeeds. |
| Control.AsWrittenNeverUpdates | train.py:526-534 | With `accumulate >= 2` and `(step + 1) % accumulate != 0`, no batch ever makes an update call. The step never moves and the buffer grows by one per batch. |
| Control.FreshRunAccumulateTwo | train.py:526-534 | From step 0 with `accumulate = 2`, three batches leave three micro-batches buffered and no update call. |
| Control.IsUpdateCallFixed | train.py:526 | Corrected test: update exactly on every `accumulate`-th buffered micro-batch. |
| Control.FixedUpdatesEveryWindow | train.py:526-534 | Corrected: the buffer stays below one window. `updateCalls * accumulate + buffered` counts every batch, so one update call is made per `accumulate` batches whatever the outcomes. |
| Control.StepsAtMostBatches | train.py:526-534 | Over any run of batches, the step never goes back and advances by at most one per batch. |
| Control.FailedStepsNonNegative | train.py:490-494 | Both failed-step counts logged after an epoch are never negative. This assumes the iterator counts every batch the loop consumes, the epoch counters start at 0, and the iterator's total starts at or above the step. |
| Control.AfterEpoch | train.py:496-499 | The epoch advances by one. The scheduler is stepped exactly when a score exists, with the new epoch and the last score itself. |
| Options.ExpandThenStrip | train.py:655-671 | Removing `"." + lang` from an expanded path gives the prefix back. |
| Options.ExpandList | train.py:655-671 | A one-element list becomes `prefix.lang0`, `prefix.lang1`. It raises AssertionError exactly when `langs` is missing or does not have length 2. Lists of any other length are unchanged. |
| Options.ExpandListIdempotent | train.py:655-671 | Expanding an expanded list changes nothing. |
| Options.BroadcastSizes | train.py:413-418 | No sizes means one None per file. A single size is repeated per file. AssertionError exactly when two or more sizes do not match the file count. |
| Options.Args.ExpandPaths | train.py:655-671 | Expands `train`, then `dev`, then `vocab`. The first failed assertion raises and leaves the later lists unchanged. |
| Options.Args.BroadcastVocabSize | train.py:411-418 | With vocabularies from a checkpoint, nothing changes. Otherwise `vocab_size` becomes `BroadcastSizes`, or stays as it was when the assertion fails. |

## Left out

- `Trainer.evaluate` (train.py:154-176): translation, BPE restoration and BLEU are external and work on floats.
- `scale_clip_grad_` (train.py:178-184): the gradient rescaling and norm clipping are tensor work. The model records the request `Rescale(denom)` and takes the returned norm as a parameter.
- `init_parameters`, `stat_parameters`, `check_cuda_availability` (train.py:256-295): random initialisation and torch queries.
- The lunas `Iterator`, `Shuffle`, `Zip` and `TextLine` (train.py:17-18, 299-321, 355-366): their source is not part of this model. The shuffle window, sort cache, batch cutting and reader threads are not modelled. Only the functions handed to them are.
- `text_to_indices`, `Vocabulary`, `pack_tensors` and `cuda`: external. `Batching.Collate` keeps each record's rows but does not pad them to a common length.
- The multiplication of the batch and padded sizes by the GPU count (train.py:343-353): it depends on the hardware.
- `BroadcastLimit` as written in place: `limit *= len(args.train)` also extends `args.length_limit` through aliasing. The model returns the new list instead.
- `State` and `Loader` (state.py is not part of this model): checkpoint saving, retention, resume, `increase_num_steps`, `add_valid_score` and `try_save`. `Control` takes the step, epoch and scores as values.
- The `wps` meter's timing: only the token counts passed to `stop` are recorded.
- `AverageMeter` and `SpeedMeter` are not part of this model. A meter is modelled as the list of values it received since its last reset, not as a running average.
- Logging, the tensorboard `SummaryWriter`, `set_seed` and reseeding, and the periodic evaluation in `main` (train.py:545-580).
- The file I/O in `prepare` (train.py:615-653): `rmtree`, `makedirs`, reading the JSON config files, writing `config.json`.
- `parse_static_args` and `parse_dynamic_args` (the `options` module is not part of this model): their results are parameters of `Config.ResolveArgs`.
- `lr_step`, `lr_step_update`, `get_lr`, `get_model`, `state_dict`, `load_state_dict` and `count_oom` (train.py:83, 132-146, 245-249): one-line delegations to external objects, or unused.
- Training.Trainer.UpdateParams: an `OverflowError` is modelled as interrupting the update before the optimizer step takes effect. Which of `scale_clip_grad_` and `optimizer.step()` raises it is outside this model, so the trace records the rescale request in both cases. Any other exception is modelled as escaping before the update has any effect. An exception from `optimizer.step()` or from a meter update would leave a request or a meter change behind, and the model does not capture that.
- Config.Override: the visiting order of a namespace's attributes is left open. It decides only which missing key an AttributeError would name, and the error carries no key.

## Findings

| source | as written | input that shows it | evidently intended | confidence | as-written member | corrected member |
|---|---|---|---|---|---|---|
| train.py:526-534 | The window test reads `state.step`, which only a successful update advances (train.py:534), so an accumulating batch never changes the test's outcome. | `--accumulate 2` on a fresh run: step 0 gives `(0 + 1) % 2 == 1` on every batch, so every batch only buffers. No update is ever made, and the trainer's buffer grows without bound. | An update on every `accumulate`-th micro-batch, counting the micro-batches of the current window. | medium: state.py is outside this model; not executed | Control.AsWrittenNeverUpdates | Control.FixedUpdatesEveryWindow |
| train.py:642-673 | `prepare` builds `stripped_args` with only the declared keys, then returns `args` and writes `args` to `config.json`. | A config file setting a key `lr-typo` that the parser does not declare: the key is in the returned arguments. | Return the namespace stripped to the declared keys. | medium: not executed | Config.PreparedAsWrittenKeepsStrayKeys | Config.PreparedPriority |
