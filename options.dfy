/** Argument normalisation: expanding a single corpus or vocabulary prefix
    into one path per language (train.py:655-671) and broadcasting a single
    vocabulary size to every vocabulary file (train.py:413-418). */
module Options {
  import opened Outcomes

  /** The prefix followed by a dot and each of the two languages, in order. */
  function Expand(prefix: string, langs: seq<string>): (paths: seq<string>)
    requires |langs| == 2
    ensures |paths| == 2
  {
    [prefix + "." + langs[0], prefix + "." + langs[1]]
  }

  /** The prefix of `path` before the suffix `"." + lang`, if it has that suffix. */
  function StripLang(path: string, lang: string): (prefix: Option<string>)
    ensures prefix.Some? ==> prefix.value + "." + lang == path
  {
    var suffix := "." + lang;
    if |suffix| <= |path| && path[|path| - |suffix|..] == suffix then
      var p := path[..|path| - |suffix|];
      assert p + suffix == path;
      Some(p)
    else None
  }

  /** Each expanded path is its prefix followed by `"." + lang`, so removing
      that suffix gives the prefix back: the expansion loses nothing. */
  lemma ExpandThenStrip(prefix: string, langs: seq<string>, i: nat)
    requires |langs| == 2 && i < 2
    ensures StripLang(Expand(prefix, langs)[i], langs[i]) == Some(prefix)
  {
    var path := prefix + "." + langs[i];
    var suffix := "." + langs[i];
    assert path == prefix + suffix;
    assert path[|path| - |suffix|..] == suffix;
    assert path[..|path| - |suffix|] == prefix;
  }

  /** One of the three expansions of train.py:655-671: a one-element list
      becomes one path per language, which needs exactly two languages;
      any other list is left as it is. */
  function ExpandList(paths: seq<string>, langs: Option<seq<string>>): (r: Result<seq<string>>)
    ensures |paths| != 1 ==> r == Ok(paths)
    ensures |paths| == 1 ==> (r.Raise? <==> langs.None? || |langs.value| != 2)
    ensures r.Raise? ==> r.exception == AssertionError
    ensures |paths| == 1 && r.Ok? ==>
      && |r.value| == 2
      && r.value[0] == paths[0] + "." + langs.value[0]
      && r.value[1] == paths[0] + "." + langs.value[1]
  {
    if |paths| != 1 then Ok(paths)
    else if langs.None? || |langs.value| != 2 then Raise(AssertionError)
    else Ok(Expand(paths[0], langs.value))
  }

  /** Expanding is idempotent: an expanded list is never expanded again. */
  lemma ExpandListIdempotent(paths: seq<string>, langs: Option<seq<string>>)
    requires ExpandList(paths, langs).Ok?
    ensures ExpandList(ExpandList(paths, langs).value, langs) == ExpandList(paths, langs)
  {
  }

  /** The vocabulary sizes `main` pairs with the vocabulary files
      (train.py:413-418): no sizes mean one size None; a single size is
      repeated once per file; the count must then match the files. */
  function BroadcastSizes(sizes: Option<seq<Option<int>>>, nVocab: nat): (r: Result<seq<Option<int>>>)
    ensures r.Raise? <==> sizes.Some? && |sizes.value| >= 2 && |sizes.value| != nVocab
    ensures r.Raise? ==> r.exception == AssertionError
    ensures r.Ok? ==> |r.value| == nVocab
    ensures (sizes.None? || sizes.value == []) ==> r == Ok(seq(nVocab, _ => None))
    ensures sizes.Some? && |sizes.value| == 1 ==>
      r.Ok? && forall i :: 0 <= i < nVocab ==> r.value[i] == sizes.value[0]
    ensures sizes.Some? && |sizes.value| >= 2 && r.Ok? ==> r.value == sizes.value
  {
    var s := if sizes.None? || sizes.value == [] then [None] else sizes.value;
    var s' := if |s| == 1 then seq(nVocab, _ => s[0]) else s;
    if |s'| == nVocab then Ok(s') else Raise(AssertionError)
  }

  /** The fields of `args` that the normalisation reads and rewrites. */
  class Args {
    var train: seq<string>
    var dev: seq<string>
    var vocab: seq<string>
    var langs: Option<seq<string>>
    var vocabSize: Option<seq<Option<int>>>

    constructor (train: seq<string>, dev: seq<string>, vocab: seq<string>,
                 langs: Option<seq<string>>, vocabSize: Option<seq<Option<int>>>)
      ensures this.train == train && this.dev == dev && this.vocab == vocab
      ensures this.langs == langs && this.vocabSize == vocabSize
    {
      this.train := train;
      this.dev := dev;
      this.vocab := vocab;
      this.langs := langs;
      this.vocabSize := vocabSize;
    }

    /** The end of `prepare` (train.py:655-671): train, dev and vocab are
        expanded in that order; the first failed assertion raises and
        leaves the lists after it as they were. */
    method ExpandPaths() returns (r: Result<()>)
      modifies this`train, this`dev, this`vocab
      ensures ExpandList(old(train), langs).Raise? ==>
        r == Raise(AssertionError) && train == old(train) && dev == old(dev) && vocab == old(vocab)
      ensures ExpandList(old(train), langs).Ok? ==> train == ExpandList(old(train), langs).value
      ensures ExpandList(old(train), langs).Ok? && ExpandList(old(dev), langs).Raise? ==>
        r == Raise(AssertionError) && dev == old(dev) && vocab == old(vocab)
      ensures ExpandList(old(train), langs).Ok? && ExpandList(old(dev), langs).Ok? ==>
        && dev == ExpandList(old(dev), langs).value
        && (ExpandList(old(vocab), langs).Raise? ==> r == Raise(AssertionError) && vocab == old(vocab))
        && (ExpandList(old(vocab), langs).Ok? ==> r == Ok(()) && vocab == ExpandList(old(vocab), langs).value)
    {
      var t := ExpandList(train, langs);
      if t.Raise? {
        return Raise(t.exception);
      }
      train := t.value;
      var d := ExpandList(dev, langs);
      if d.Raise? {
        return Raise(d.exception);
      }
      dev := d.value;
      var v := ExpandList(vocab, langs);
      if v.Raise? {
        return Raise(v.exception);
      }
      vocab := v.value;
      return Ok(());
    }

    /** train.py:413-418, run when the checkpoint holds no vocabularies:
        `vocab_size` is broadcast over the vocabulary files; when the
        assertion fails it is left as it was. */
    method BroadcastVocabSize(haveVocabularies: bool) returns (r: Result<()>)
      modifies this`vocabSize
      ensures haveVocabularies ==> r == Ok(()) && vocabSize == old(vocabSize)
      ensures !haveVocabularies ==>
        var b := BroadcastSizes(old(vocabSize), |vocab|);
        && (b.Ok? ==> r == Ok(()) && vocabSize == Some(b.value))
        && (b.Raise? ==> r == Raise(AssertionError) && vocabSize == old(vocabSize))
    {
      if haveVocabularies {
        return Ok(());
      }
      if vocabSize.None? || vocabSize.value == [] {
        vocabSize := Some([None]);
      }
      if |vocabSize.value| == 1 {
        var single := vocabSize.value[0];
        vocabSize := Some(seq(|vocab|, _ => single));
      }
      if |vocabSize.value| != |vocab| {
        return Raise(AssertionError);
      }
      return Ok(());
    }
  }
}
