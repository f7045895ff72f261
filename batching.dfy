/** The record and batch rules that `get_train_iterator` (train.py:298-368)
    hands to the external iterator: the length filter, the sample size, the
    padded size, the collated token counts and the two sort keys. The
    iterator itself (shuffling, caching, cutting batches) is not part of
    this model. */
module Batching {
  import opened Outcomes

  /** One training record (train.py:305-316): the source and target token
      ids and their counts. */
  datatype Record = Record(src: seq<int>, trg: seq<int>, nSrcTok: nat, nTrgTok: nat)

  /** A collated batch: the token rows of each side (padding to a common
      length is done by an external helper) and the summed token counts. */
  datatype Batch = Batch(src: seq<seq<int>>, trg: seq<seq<int>>, nSrcTok: nat, nTrgTok: nat)

  /** The record `fn` builds from the two index sequences (train.py:305-316). */
  function MakeRecord(src: seq<int>, trg: seq<int>): (r: Record)
    ensures r.nSrcTok == |r.src| && r.nTrgTok == |r.trg|
    ensures r.src == src && r.trg == trg
  {
    Record(src, trg, |src|, |trg|)
  }

  /** `limit *= len(args.train)` on a one-element limit (train.py:324-325):
      the single limit is repeated once per training file; any other limit
      is left as it is. */
  function BroadcastLimit(limit: Option<seq<int>>, nTrain: nat): (r: Option<seq<int>>)
    ensures r.None? <==> limit.None?
    ensures limit.Some? && |limit.value| == 1 ==>
      |r.value| == nTrain && forall i :: 0 <= i < nTrain ==> r.value[i] == limit.value[0]
    ensures limit.Some? && |limit.value| != 1 ==> r == limit
  {
    if limit.Some? && |limit.value| == 1 then Some(seq(nTrain, _ => limit.value[0])) else limit
  }

  /** The `where` predicate of train.py:327-329. Python's `and` stops at
      the first false test, so a missing second limit raises only when the
      source side passes. */
  function WithinLimit(r: Record, limit: seq<int>): (res: Result<bool>)
    ensures |limit| >= 2 ==> res == Ok(r.nSrcTok - 1 <= limit[0] && r.nTrgTok - 1 <= limit[1])
    ensures res.Raise? ==> res.exception == IndexError
    ensures res.Raise? <==> |limit| == 0 || (|limit| == 1 && r.nSrcTok - 1 <= limit[0])
  {
    if |limit| == 0 then Raise(IndexError)
    else if !(r.nSrcTok - 1 <= limit[0]) then Ok(false)
    else if |limit| == 1 then Raise(IndexError)
    else Ok(r.nTrgTok - 1 <= limit[1])
  }

  /** Whether the pipeline keeps a record: without a limit there is no filter. */
  function Keep(r: Record, limit: Option<seq<int>>, nTrain: nat): Result<bool>
  {
    var l := BroadcastLimit(limit, nTrain);
    if l.None? then Ok(true) else WithinLimit(r, l.value)
  }

  /** With one limit and a parallel corpus, a record is kept exactly when
      neither side has more than limit + 1 tokens. */
  lemma SingleLimitBoundsBothSides(r: Record, limit: int, nTrain: nat)
    requires nTrain >= 2
    ensures Keep(r, Some([limit]), nTrain) == Ok(r.nSrcTok <= limit + 1 && r.nTrgTok <= limit + 1)
  {
  }

  /** With a limit per side, a record built from two index sequences is
      kept exactly when each sequence has at most its limit + 1 tokens. */
  lemma RecordKeptIffWithinLimits(src: seq<int>, trg: seq<int>, limit: seq<int>, nTrain: nat)
    requires |limit| >= 2
    ensures Keep(MakeRecord(src, trg), Some(limit), nTrain) == Ok(|src| <= limit[0] + 1 && |trg| <= limit[1] + 1)
  {
  }

  /** `sample_size_fn` (train.py:339-341): None, so that the iterator counts
      sentences, when batching by sentence; the target token count otherwise. */
  function SampleSizeFn(batchBySentence: bool): (f: Option<Record -> nat>)
    ensures f.None? <==> batchBySentence
    ensures f.Some? ==> forall r :: f.value(r) == r.nTrgTok
  {
    if batchBySentence then None else Some(TrgTokens)
  }

  /** A record's target token count. */
  function TrgTokens(r: Record): nat
  {
    r.nTrgTok
  }

  /** A record's source token count. */
  function SrcTokens(r: Record): nat
  {
    r.nSrcTok
  }

  /** The largest target token count of a non-empty list. */
  function MaxTrg(xs: seq<Record>): (m: nat)
    requires xs != []
    ensures forall i :: 0 <= i < |xs| ==> xs[i].nTrgTok <= m
    ensures exists i :: 0 <= i < |xs| && xs[i].nTrgTok == m
  {
    if |xs| == 1 then xs[0].nTrgTok
    else
      var rest := MaxTrg(xs[1..]);
      assert forall i :: 1 <= i < |xs| ==> xs[i] == xs[1..][i - 1];
      if xs[0].nTrgTok >= rest then xs[0].nTrgTok else rest
  }

  /** `padded_size_fn` (train.py:345-346): the longest target times the
      number of records, 0 for no records. */
  function PaddedSize(xs: seq<Record>): (p: nat)
    ensures xs == [] ==> p == 0
    ensures xs != [] ==> exists i :: 0 <= i < |xs| && p == xs[i].nTrgTok * |xs|
    ensures forall i :: 0 <= i < |xs| ==> xs[i].nTrgTok * |xs| <= p
  {
    if xs == [] then 0
    else
      var m := MaxTrg(xs);
      assert forall i :: 0 <= i < |xs| ==> xs[i].nTrgTok * |xs| <= m * |xs| by {
        forall i | 0 <= i < |xs| ensures xs[i].nTrgTok * |xs| <= m * |xs| {
          MulMonotone(xs[i].nTrgTok, m, |xs|);
        }
      }
      m * |xs|
  }

  lemma MulMonotone(a: nat, b: nat, n: nat)
    requires a <= b
    ensures a * n <= b * n
  {
  }

  /** A per-record size summed over records. */
  function SumSizes(f: Record -> nat, xs: seq<Record>): nat
  {
    if xs == [] then 0 else f(xs[0]) + SumSizes(f, xs[1..])
  }

  /** Summed sizes are additive over any split of the records. */
  lemma {:induction false} SumSizesConcat(f: Record -> nat, xs: seq<Record>, ys: seq<Record>)
    ensures SumSizes(f, xs + ys) == SumSizes(f, xs) + SumSizes(f, ys)
  {
    if xs == [] {
      assert xs + ys == ys;
    } else {
      SumSizesConcat(f, xs[1..], ys);
      assert (xs + ys)[1..] == xs[1..] + ys;
    }
  }

  /** `collate_fn` (train.py:331-337): the rows of each side, in order, and
      the summed token counts. */
  function Collate(xs: seq<Record>): (b: Batch)
    ensures |b.src| == |b.trg| == |xs|
    ensures forall i :: 0 <= i < |xs| ==> b.src[i] == xs[i].src && b.trg[i] == xs[i].trg
  {
    Batch(seq(|xs|, i requires 0 <= i < |xs| => xs[i].src),
          seq(|xs|, i requires 0 <= i < |xs| => xs[i].trg),
          SumSizes(SrcTokens, xs), SumSizes(TrgTokens, xs))
  }

  /** Collating two parts and adding their counts gives the counts of the
      whole: the aggregates are additive over any split of a batch. */
  lemma CollateConcat(xs: seq<Record>, ys: seq<Record>)
    ensures Collate(xs + ys).nTrgTok == Collate(xs).nTrgTok + Collate(ys).nTrgTok
    ensures Collate(xs + ys).nSrcTok == Collate(xs).nSrcTok + Collate(ys).nSrcTok
  {
    SumSizesConcat(TrgTokens, xs, ys);
    SumSizesConcat(SrcTokens, xs, ys);
  }

  /** A list whose sizes are all at most `m` sums to at most `m` per record. */
  lemma {:induction false} SumSizesBounded(f: Record -> nat, xs: seq<Record>, m: nat)
    requires forall i :: 0 <= i < |xs| ==> f(xs[i]) <= m
    ensures SumSizes(f, xs) <= m * |xs|
  {
    if xs != [] {
      assert forall i :: 1 <= i < |xs| ==> xs[i] == xs[1..][i - 1];
      SumSizesBounded(f, xs[1..], m);
      assert m * |xs| == m + m * (|xs| - 1);
    }
  }

  /** The collated target token count never exceeds the padded size the
      iterator bounds: padding only adds positions. */
  lemma CollatedTokensWithinPaddedSize(xs: seq<Record>)
    ensures Collate(xs).nTrgTok <= PaddedSize(xs)
  {
    if xs != [] {
      SumSizesBounded(TrgTokens, xs, MaxTrg(xs));
    }
  }

  /** The batch size `main` logs (train.py:543): rows when batching by
      sentence, target tokens otherwise. */
  function LoggedBatchSize(batchBySentence: bool, b: Batch): nat
  {
    if batchBySentence then |b.trg| else b.nTrgTok
  }

  /** When batching by tokens, the sample sizes the iterator sums over a
      batch are the collated target token count, which is also the batch
      size `main` logs, and a batch cut into parts has the sample size of
      its parts together; when batching by sentence, `main` logs the
      number of records. */
  lemma SampleSizesMatchCollate(batchBySentence: bool, xs: seq<Record>, ys: seq<Record>)
    ensures !batchBySentence ==>
      && SumSizes(SampleSizeFn(false).value, xs) == Collate(xs).nTrgTok == LoggedBatchSize(false, Collate(xs))
      && SumSizes(SampleSizeFn(false).value, xs + ys) ==
         SumSizes(SampleSizeFn(false).value, xs) + SumSizes(SampleSizeFn(false).value, ys)
    ensures batchBySentence ==> LoggedBatchSize(true, Collate(xs)) == |xs|
  {
    SumSizesConcat(TrgTokens, xs, ys);
  }

  /** `sort_cache_by` (train.py:362). */
  function SortCacheKey(r: Record): int
  {
    r.nTrgTok
  }

  /** `sort_batch_by` (train.py:363). */
  function SortBatchKey(r: Record): int
  {
    -(r.nSrcTok as int)
  }

  /** A list is in ascending order of a key. */
  predicate SortedBy(key: Record -> int, xs: seq<Record>)
  {
    forall i, j :: 0 <= i < j < |xs| ==> key(xs[i]) <= key(xs[j])
  }

  /** The sort cache is ordered shortest target first. */
  lemma CacheOrderIsShortestTargetFirst(xs: seq<Record>)
    ensures SortedBy(SortCacheKey, xs) <==> forall i, j :: 0 <= i < j < |xs| ==> xs[i].nTrgTok <= xs[j].nTrgTok
  {
  }

  /** A cut batch is ordered longest source first. */
  lemma BatchOrderIsLongestSourceFirst(xs: seq<Record>)
    ensures SortedBy(SortBatchKey, xs) <==> forall i, j :: 0 <= i < j < |xs| ==> xs[i].nSrcTok >= xs[j].nSrcTok
  {
  }
}
