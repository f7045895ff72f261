/** Layered configuration: the `override` merge of two argparse namespaces
    (train.py:40-62) and the priority chain that `prepare` builds from it
    (train.py:603-644). */
module Config {
  import opened Outcomes

  /** A configuration value as JSON and argparse produce it. */
  datatype Value = Str(s: string) | Int(i: int) | Real(r: real) | Bool(b: bool) | List(items: seq<Value>)

  /** The attributes of an argparse namespace; an attribute set to None maps to None. */
  type Namespace = map<string, Option<Value>>

  /** One configuration layer: a namespace, or None when the layer does not
      exist (no config file given, no checkpoint found). A namespace, even an
      empty one, is truthy in Python; only a missing layer is falsy. */
  type Layer = Option<Namespace>

  /** The value a reader of the layer gets for `k`: None when the layer is
      missing, the attribute is missing or the attribute is None. */
  function Lookup(c: Layer, k: string): Option<Value>
  {
    if c.Some? && k in c.value then c.value[k] else None
  }

  /** The keys of `from` that carry a value other than None. */
  function SetKeys(from: Namespace): set<string>
  {
    set k | k in from && from[k].Some?
  }

  /** Forced merge: every non-None attribute of `from` is written into `to`. */
  function Force(to: Namespace, from: Namespace): (r: Namespace)
    ensures r.Keys == to.Keys + SetKeys(from)
    ensures forall k :: k in from && from[k].Some? ==> r[k] == from[k]
    ensures forall k :: k in to && (k !in from || from[k].None?) ==> r[k] == to[k]
  {
    map k | k in to.Keys + SetKeys(from) :: if k in from && from[k].Some? then from[k] else to[k]
  }

  /** Null-filling merge: an attribute of `to` that is None takes the
      non-None value `from` has for it; no attribute is added. */
  function FillNulls(to: Namespace, from: Namespace): (r: Namespace)
    ensures r.Keys == to.Keys
    ensures forall k :: k in to && to[k].Some? ==> r[k] == to[k]
    ensures forall k :: k in to && to[k].None? ==>
      r[k] == if k in from && from[k].Some? then from[k] else None
  {
    map k | k in to :: if to[k].None? && k in from && from[k].Some? then from[k] else to[k]
  }

  /** A non-None attribute of `from` that `to` does not have: `getattr`
      without a default raises AttributeError on it in null-filling mode. */
  predicate MissingTarget(to: Namespace, from: Namespace)
  {
    exists k :: k in from && from[k].Some? && k !in to
  }

  /** What `override(to, from, onlyNull)` returns. */
  function OverrideSpec(to: Layer, from: Layer, onlyNull: bool): (r: Result<Layer>)
    ensures !onlyNull ==> r.Ok?
    ensures r.Raise? ==> r.exception == AttributeError
    ensures from.None? ==> r == Ok(to)
    ensures to.None? && from.Some? ==> r == Ok(from)
    ensures r.Ok? && to.Some? && from.Some? ==> r.value.Some?
  {
    if from.None? then Ok(to)
    else if to.None? then Ok(from)
    else if !onlyNull then Ok(Some(Force(to.value, from.value)))
    else if MissingTarget(to.value, from.value) then Raise(AttributeError)
    else Ok(Some(FillNulls(to.value, from.value)))
  }

  /** The part of `from` whose keys are in `done`. */
  function Restrict(from: Namespace, done: set<string>): (r: Namespace)
    ensures r.Keys == from.Keys * done
  {
    map k | k in from && k in done :: from[k]
  }

  /** Visiting one more attribute of `from` in forced mode. */
  lemma ForceStep(to: Namespace, src: Namespace, done: set<string>, k: string)
    requires k in src && k !in done
    ensures var cfg := Force(to, Restrict(src, done));
      Force(to, Restrict(src, done + {k})) == if src[k].Some? then cfg[k := src[k]] else cfg
  {
    var cfg := Force(to, Restrict(src, done));
    var next := Force(to, Restrict(src, done + {k}));
    var expected := if src[k].Some? then cfg[k := src[k]] else cfg;
    assert next.Keys == expected.Keys;
    forall j | j in next.Keys ensures next[j] == expected[j] {
    }
  }

  /** Visiting one more attribute of `from` in null-filling mode, when `to` has it. */
  lemma FillStep(to: Namespace, src: Namespace, done: set<string>, k: string)
    requires k in src && k !in done && (src[k].Some? ==> k in to)
    ensures var cfg := FillNulls(to, Restrict(src, done));
      FillNulls(to, Restrict(src, done + {k})) ==
        if src[k].Some? && cfg[k].None? then cfg[k := src[k]] else cfg
  {
    var cfg := FillNulls(to, Restrict(src, done));
    var next := FillNulls(to, Restrict(src, done + {k}));
    var expected := if src[k].Some? && cfg[k].None? then cfg[k := src[k]] else cfg;
    assert next.Keys == expected.Keys;
    forall j | j in next.Keys ensures next[j] == expected[j] {
    }
  }

  /** `override`: copy `to`, then visit the attributes of `from` one at a
      time, skipping None values and writing the others (only over None
      attributes of the copy when `onlyNull` holds). The visiting order is
      left open: the result does not depend on it. */
  method Override(to: Layer, from: Layer, onlyNull: bool) returns (r: Result<Layer>)
    ensures r == OverrideSpec(to, from, onlyNull)
  {
    if from.None? {
      return Ok(to);
    }
    if to.None? {
      return Ok(from);
    }
    var src := from.value;
    var cfg := to.value;
    var pending := src.Keys;
    ghost var done: set<string> := {};
    assert Restrict(src, done) == map[];
    while pending != {}
      invariant pending <= src.Keys && done == src.Keys - pending
      invariant onlyNull ==> !MissingTarget(to.value, Restrict(src, done))
      invariant onlyNull ==> cfg == FillNulls(to.value, Restrict(src, done))
      invariant !onlyNull ==> cfg == Force(to.value, Restrict(src, done))
      decreases pending
    {
      var k :| k in pending;
      pending := pending - {k};
      var v := src[k];
      if onlyNull {
        if v.Some? && k !in cfg {
          assert MissingTarget(to.value, src);
          return Raise(AttributeError);
        }
        FillStep(to.value, src, done, k);
        if v.Some? && cfg[k].None? {
          cfg := cfg[k := v];
        }
      } else {
        ForceStep(to.value, src, done, k);
        if v.Some? {
          cfg := cfg[k := v];
        }
      }
      done := done + {k};
    }
    assert Restrict(src, done) == src;
    return Ok(Some(cfg));
  }

  /** Forced merge of two layers, which never raises. */
  function Merge(to: Layer, from: Layer): Layer
  {
    OverrideSpec(to, from, false).value
  }

  /** The first of two lookups that carries a value. */
  function FirstSome(a: Option<Value>, b: Option<Value>): Option<Value>
  {
    if a.Some? then a else b
  }

  /** A forced merge lets every non-None value of `from` win and keeps `to`
      everywhere else, whichever layers are missing. */
  lemma MergeLookup(to: Layer, from: Layer, k: string)
    ensures Lookup(Merge(to, from), k) == FirstSome(Lookup(from, k), Lookup(to, k))
  {
  }

  /** A null-filling override that succeeds never changes a non-None value
      of `to`, and fills a None value only from a non-None value of `from`. */
  lemma FillNullsKeepsValues(to: Namespace, from: Layer, k: string)
    requires OverrideSpec(Some(to), from, true).Ok?
    ensures var r := OverrideSpec(Some(to), from, true).value;
      && r.Some? && r.value.Keys == to.Keys
      && (k in to && to[k].Some? ==> r.value[k] == to[k])
      && (k in to && to[k].None? ==> r.value[k] == Lookup(from, k))
  {
  }

  /** A null-filling override raises exactly when `from` has a non-None
      attribute that `to` lacks. */
  lemma FillNullsRaisesIffMissing(to: Namespace, from: Namespace)
    ensures OverrideSpec(Some(to), Some(from), true).Raise? <==>
      exists k :: k in from && from[k].Some? && k !in to
  {
  }

  /** The configuration files are merged in order, each later file
      forcing its values over the earlier ones (train.py:604-613); no file
      gives no layer. */
  function MergeFiles(files: seq<Namespace>): (r: Layer)
    ensures r.None? <==> files == []
  {
    if files == [] then None
    else if |files| == 1 then Some(files[0])
    else Merge(MergeFiles(files[..|files| - 1]), Some(files[|files| - 1]))
  }

  /** The loop of train.py:610-613 over the parsed configuration files. */
  method MergeConfigFiles(files: seq<Namespace>) returns (r: Layer)
    ensures r == MergeFiles(files)
  {
    if files == [] {
      return None;
    }
    r := Some(files[0]);
    var i := 1;
    while i < |files|
      invariant 1 <= i <= |files|
      invariant r == MergeFiles(files[..i])
    {
      var merged := Override(r, Some(files[i]), false);
      assert files[..i + 1][..i] == files[..i];
      r := merged.value;
      i := i + 1;
    }
    assert files[..|files|] == files;
  }

  /** The value of `k` in a merge of configuration files is that of the
      last file that sets it. */
  lemma {:induction false} MergeFilesLastWins(files: seq<Namespace>, k: string, i: nat)
    requires i < |files| && k in files[i] && files[i][k].Some?
    requires forall j :: i < j < |files| ==> k !in files[j] || files[j][k].None?
    ensures Lookup(MergeFiles(files), k) == files[i][k]
  {
    if |files| == 1 {
    } else if i == |files| - 1 {
      MergeLookup(MergeFiles(files[..|files| - 1]), Some(files[|files| - 1]), k);
    } else {
      var init := files[..|files| - 1];
      MergeFilesLastWins(init, k, i);
      MergeLookup(MergeFiles(init), Some(files[|files| - 1]), k);
    }
  }

  /** `prepare`, steps 4 to 7 (train.py:629-640): cli > config files >
      checkpoint arguments > defaults, then the second parse (`cli2`,
      `defaults2`, results of an external parser) over that. */
  function Resolved(cli: Namespace, config: Layer, model: Layer, defaults: Namespace,
                    cli2: Namespace, defaults2: Namespace): (r: Namespace)
    ensures defaults2.Keys <= r.Keys
  {
    var first := Merge(config, Some(cli));
    var second := Merge(model, first);
    var third := Merge(Some(defaults), second);
    var fourth := Merge(third, Some(cli2));
    Merge(Some(defaults2), fourth).value
  }

  /** Step 8 (train.py:641-644): keep only the keys the parser declares. */
  function Prepared(cli: Namespace, config: Layer, model: Layer, defaults: Namespace,
                    cli2: Namespace, defaults2: Namespace): (r: Namespace)
    ensures r.Keys == defaults2.Keys
  {
    var args := Resolved(cli, config, model, defaults, cli2, defaults2);
    map k | k in defaults2 :: args[k]
  }

  /** What `prepare` returns for the arguments: `args` itself, not the
      stripped copy built beside it (train.py:673). */
  function PreparedAsWritten(cli: Namespace, config: Layer, model: Layer, defaults: Namespace,
                             cli2: Namespace, defaults2: Namespace): (r: Namespace)
    ensures defaults2.Keys <= r.Keys
  {
    Resolved(cli, config, model, defaults, cli2, defaults2)
  }

  /** Every declared argument takes its value from the first layer that sets
      it: the second command-line parse, the command line, the config files,
      the checkpoint's arguments, the defaults, the second defaults. */
  lemma PreparedPriority(cli: Namespace, config: Layer, model: Layer, defaults: Namespace,
                         cli2: Namespace, defaults2: Namespace, k: string)
    requires k in defaults2
    ensures Prepared(cli, config, model, defaults, cli2, defaults2)[k] ==
      FirstSome(Lookup(Some(cli2), k), FirstSome(Lookup(Some(cli), k), FirstSome(Lookup(config, k),
        FirstSome(Lookup(model, k), FirstSome(Lookup(Some(defaults), k), defaults2[k])))))
  {
    var first := Merge(config, Some(cli));
    var second := Merge(model, first);
    var third := Merge(Some(defaults), second);
    var fourth := Merge(third, Some(cli2));
    MergeLookup(config, Some(cli), k);
    MergeLookup(model, first, k);
    MergeLookup(Some(defaults), second, k);
    MergeLookup(third, Some(cli2), k);
    MergeLookup(Some(defaults2), fourth, k);
  }

  /** An attribute that only a config file sets, and that the parser does
      not declare, is still in what `prepare` returns. */
  lemma PreparedAsWrittenKeepsStrayKeys()
    ensures var cfg := Some(map["lr-typo" := Some(Real(0.1))]);
      var defaults := map["lr" := Some(Real(0.001))];
      && "lr-typo" in PreparedAsWritten(map[], cfg, None, defaults, map[], defaults)
      && "lr-typo" !in Prepared(map[], cfg, None, defaults, map[], defaults)
  {
    var cfg := Some(map["lr-typo" := Some(Real(0.1))]);
    var defaults := map["lr" := Some(Real(0.001))];
    MergeLookup(Some(defaults), Merge(Merge(None, Merge(cfg, Some(map[]))), Some(map[])), "lr-typo");
    assert Lookup(Merge(cfg, Some(map[])), "lr-typo") == Some(Real(0.1));
  }

  /** `prepare`'s argument resolution (train.py:602-644): merge the config
      files, run the priority chain, then copy the declared keys into a
      stripped namespace. Both namespaces are returned; `prepare` hands on
      `args`. */
  method ResolveArgs(cli: Namespace, files: seq<Namespace>, model: Layer, defaults: Namespace,
                     cli2: Namespace, defaults2: Namespace)
    returns (args: Namespace, stripped: Namespace)
    ensures args == PreparedAsWritten(cli, MergeFiles(files), model, defaults, cli2, defaults2)
    ensures stripped == Prepared(cli, MergeFiles(files), model, defaults, cli2, defaults2)
  {
    var config := MergeConfigFiles(files);
    var first := Override(config, Some(cli), false);
    var second := Override(model, first.value, false);
    var third := Override(Some(defaults), second.value, false);
    var fourth := Override(third.value, Some(cli2), false);
    var fifth := Override(Some(defaults2), fourth.value, false);
    assert first.value == Merge(config, Some(cli));
    assert second.value == Merge(model, Merge(config, Some(cli)));
    assert third.value == Merge(Some(defaults), second.value);
    assert fourth.value == Merge(third.value, Some(cli2));
    assert fifth.value == Merge(Some(defaults2), fourth.value);
    args := fifth.value.value;
    assert args == Resolved(cli, config, model, defaults, cli2, defaults2);
    stripped := StripKeys(args, defaults2.Keys);
  }

  /** Copy the declared keys into a fresh namespace (train.py:642-644). */
  method StripKeys(args: Namespace, valid: set<string>) returns (stripped: Namespace)
    requires valid <= args.Keys
    ensures stripped == map k | k in valid :: args[k]
  {
    stripped := map[];
    var pending := valid;
    while pending != {}
      invariant pending <= valid
      invariant stripped.Keys == valid - pending
      invariant forall k :: k in stripped ==> stripped[k] == args[k]
      decreases pending
    {
      var k :| k in pending;
      stripped := stripped[k := args[k]];
      pending := pending - {k};
    }
    assert stripped.Keys == valid;
  }
}
