/**
  Model of sample-source loading: gathering chains or profiles (or anything
  else) into a list, optional burn-in removal, and the two derived requests,
  a parameter choice and a parameter covariance, with default filling for the
  requested parameters the source does not hold.
*/
module Samples {
  import opened Wrappers

  // ===== data =====

  /** A float entry of a covariance matrix; NaN marks a missing proposal. */
  datatype Float = Finite(r: real) | NaN

  /**
    A loaded chain, profile or other sample object, as an abstract record: its
    Python class, the names of the parameters it holds, its covariance entries
    per pair of names (a pair it does not list reads as 0), whether it has
    `remove_burnin`, its truth value, and its `bestfit` / `covariance`
    attributes when it has them.
  */
  datatype Source = Source(
    kind: string,
    names: seq<string>,
    cov: map<(string, string), real>,
    burnable: bool,
    nonEmpty: bool,
    bestfit: Option<Source>,
    covariance: Option<Source>)

  /** What `type(...)` tells apart. */
  datatype TypeTag = NoneType | ClassName(name: string)

  function TypeOf(s: Option<Source>): TypeTag {
    if s.None? then NoneType else ClassName(s.value.kind)
  }

  /** One entry of the `source` argument: a file pattern, an object, or None. */
  datatype Item = Pattern(pattern: string) | Object(obj: Source) | NoneItem

  /** A requested parameter: its name, its reference value and its proposal width. */
  datatype Param = Param(name: string, value: real, proposal: Option<real>)

  /** `default=False` or a default value. */
  datatype DefaultArg = NoDefault | DefaultTo(value: real)

  /** Keyword options for `choice`. */
  type Options = map<string, string>

  /** The `choice` argument: a dict of options, or any other value (then no options). */
  datatype ChoiceArg = ChoiceOptions(options: Options) | NotADict

  /**
    What lies outside the model: globbing and loading a pattern, each object's
    `remove_burnin`, `concatenate` and `choice` methods.
  */
  datatype Externals = Externals(
    load: string -> seq<Source>,
    removeBurnin: (Source, real) -> Source,
    concatenate: seq<Source> -> Source,
    choose: (Source, seq<string>, Options) -> map<string, real>)

  /** The combined source: `{}` when the first source is None, else the concatenation. */
  datatype Combined = EmptyDict | Obj(src: Source)

  datatype ChoiceResult =
    | PerParam(values: seq<real>)                                   // aligned with `params`
    | AllParams(source: Source, returnType: Option<string>, options: Options)  // the source's own choice of all its params
    | EmptyChoice                                                    // `{}`

  datatype CovResult =
    | CovMatrix(rows: seq<seq<Float>>)                  // aligned with `params`
    | CovOfSource(source: Source, returnType: Option<string>)   // the source's own covariance
    | NoCov                                             // None

  /** The shape of `load_source`'s return value. */
  datatype Loaded =
    | SourceList(sources: seq<Option<Source>>)
    | ChoiceOnly(choice: ChoiceResult)
    | CovOnly(cov: CovResult)
    | Both(choice: ChoiceResult, cov: CovResult)

  datatype SourceError =
    | DifferentTypes      // ValueError: sources of different types for choice / cov
    | NoSources           // IndexError: no source to take the first of
    | MissingKey(name: string)  // KeyError: the chosen values lack a requested name
    | EmptyConcatenate    // ValueError: concatenation of no index ranges

  // ===== gathering sources =====

  /** A pattern expands to everything loaded from it; anything else is kept as is. */
  function Expand(ext: Externals, it: Item): (r: seq<Option<Source>>)
    ensures it.Pattern? ==> |r| == |ext.load(it.pattern)| && forall i :: 0 <= i < |r| ==> r[i] == Some(ext.load(it.pattern)[i])
    ensures it.Object? ==> r == [Some(it.obj)]
    ensures it.NoneItem? ==> r == [None]
  {
    match it
    case Pattern(p) => seq(|ext.load(p)|, i requires 0 <= i < |ext.load(p)| => Some(ext.load(p)[i]))
    case Object(s) => [Some(s)]
    case NoneItem => [None]
  }

  /** The `sources` list built from the entries in order. */
  function Gather(ext: Externals, items: seq<Item>): seq<Option<Source>> {
    if items == [] then []
    else Gather(ext, items[..|items| - 1]) + Expand(ext, items[|items| - 1])
  }

  /** Gathering is done entry by entry, in order. */
  lemma {:induction false} GatherConcat(ext: Externals, a: seq<Item>, b: seq<Item>)
    ensures Gather(ext, a + b) == Gather(ext, a) + Gather(ext, b)
    decreases |b|
  {
    if b == [] {
      assert a + b == a;
    } else {
      var b' := b[..|b| - 1];
      var last := b[|b| - 1];
      assert (a + b)[..|a + b| - 1] == a + b';
      assert (a + b)[|a + b| - 1] == last;
      assert Gather(ext, a + b) == Gather(ext, a + b') + Expand(ext, last);
      GatherConcat(ext, a, b');
      assert Gather(ext, b) == Gather(ext, b') + Expand(ext, last);
    }
  }

  /** Object and None entries are kept in order. */
  function AsItems(sources: seq<Option<Source>>): (r: seq<Item>)
    ensures |r| == |sources|
  {
    seq(|sources|, i requires 0 <= i < |sources| => if sources[i].Some? then Object(sources[i].value) else NoneItem)
  }

  /** Gathering already loaded sources gives them back unchanged. */
  lemma {:induction false} GatherObjects(ext: Externals, sources: seq<Option<Source>>)
    ensures Gather(ext, AsItems(sources)) == sources
  {
    if sources != [] {
      var n := |sources| - 1;
      var items := AsItems(sources);
      GatherObjects(ext, sources[..n]);
      assert items[..n] == AsItems(sources[..n]);
      assert Expand(ext, items[n]) == [sources[n]];
      assert Gather(ext, items) == Gather(ext, items[..n]) + Expand(ext, items[n]);
      assert sources == sources[..n] + [sources[n]];
    }
  }

  /** Burn-in is removed from the sources that support it; the others pass through. */
  function WithoutBurnin(ext: Externals, sources: seq<Option<Source>>, burnin: real): (r: seq<Option<Source>>)
    ensures |r| == |sources|
    ensures forall i :: 0 <= i < |r| ==>
      r[i] == (if sources[i].Some? && sources[i].value.burnable
               then Some(ext.removeBurnin(sources[i].value, burnin)) else sources[i])
  {
    seq(|sources|, i requires 0 <= i < |sources| =>
      if sources[i].Some? && sources[i].value.burnable then Some(ext.removeBurnin(sources[i].value, burnin)) else sources[i])
  }

  /** The `sources` list after gathering and burn-in removal. */
  function LoadedSources(ext: Externals, source: OneOrMany<Item>, burnin: Option<real>): seq<Option<Source>> {
    var s := Gather(ext, AsList(source));
    if burnin.Some? then WithoutBurnin(ext, s, burnin.value) else s
  }

  predicate SameType(sources: seq<Option<Source>>)
    requires |sources| > 0
  {
    forall i :: 0 <= i < |sources| ==> TypeOf(sources[i]) == TypeOf(sources[0])
  }

  function Unwrapped(sources: seq<Option<Source>>): (r: seq<Source>)
    requires forall i :: 0 <= i < |sources| ==> sources[i].Some?
    ensures |r| == |sources| && forall i :: 0 <= i < |r| ==> Some(r[i]) == sources[i]
  {
    seq(|sources|, i requires 0 <= i < |sources| => sources[i].value)
  }

  /** The type check and the concatenation done before a choice or a covariance. */
  function Combine(ext: Externals, sources: seq<Option<Source>>): Result<Combined, SourceError> {
    if |sources| == 0 then Err(NoSources)
    else if !SameType(sources) then Err(DifferentTypes)
    else if sources[0].None? then Ok(EmptyDict)
    else
      assert forall i :: 0 <= i < |sources| ==> sources[i].Some? by {
        forall i | 0 <= i < |sources| ensures sources[i].Some? {
          assert TypeOf(sources[i]) == TypeOf(sources[0]);
        }
      }
      Ok(Obj(ext.concatenate(Unwrapped(sources))))
  }

  // ===== choice =====

  predicate Contains(c: Combined, name: string) {
    c.Obj? && name in c.src.names
  }

  /** `params_in_source` (keep) or `params_not_in_source` (not keep), in the order of params. */
  function Filter(params: seq<Param>, c: Combined, keep: bool): (r: seq<Param>)
    ensures c.EmptyDict? && keep ==> r == []
    ensures |r| <= |params|
  {
    if params == [] then []
    else
      var n := |params| - 1;
      Filter(params[..n], c, keep) + (if Contains(c, params[n].name) == keep then [params[n]] else [])
  }

  lemma {:induction false} FilterMembers(params: seq<Param>, c: Combined, keep: bool)
    ensures forall p :: p in Filter(params, c, keep) <==> p in params && Contains(c, p.name) == keep
  {
    if params != [] {
      var n := |params| - 1;
      FilterMembers(params[..n], c, keep);
      assert params == params[..n] + [params[n]];
    }
  }

  function Names(ps: seq<Param>): (r: seq<string>)
    ensures |r| == |ps| && forall i :: 0 <= i < |ps| ==> r[i] == ps[i].name
  {
    seq(|ps|, i requires 0 <= i < |ps| => ps[i].name)
  }

  predicate DistinctNames(ps: seq<Param>) {
    forall i, j :: 0 <= i < j < |ps| ==> ps[i].name != ps[j].name
  }

  /** With a profile, the choice is read from its best fit. */
  function ChoiceSource(c: Combined): Combined {
    if c.Obj? && c.src.bestfit.Some? then Obj(c.src.bestfit.value) else c
  }

  /** The value for a parameter the source does not hold. */
  function FillValue(p: Param, default: DefaultArg): real {
    if default.NoDefault? then p.value else default.value
  }

  /** `tmp[str(param)] = ...` for each missing parameter in turn. */
  function FillChoice(tmp: map<string, real>, missing: seq<Param>, default: DefaultArg): map<string, real> {
    if missing == [] then tmp
    else
      var n := |missing| - 1;
      FillChoice(tmp, missing[..n], default)[missing[n].name := FillValue(missing[n], default)]
  }

  /**
    After the fill, a name of a missing parameter maps to that parameter's fill
    value (every missing entry with that name being the same parameter), and
    any other name keeps what it had.
  */
  lemma {:induction false} FillChoiceAt(tmp: map<string, real>, missing: seq<Param>, default: DefaultArg, p: Param)
    requires forall k :: 0 <= k < |missing| && missing[k].name == p.name ==> missing[k] == p
    ensures p in missing ==> p.name in FillChoice(tmp, missing, default) && FillChoice(tmp, missing, default)[p.name] == FillValue(p, default)
    ensures p.name !in Names(missing) ==>
      (p.name in FillChoice(tmp, missing, default) <==> p.name in tmp)
      && (p.name in tmp ==> FillChoice(tmp, missing, default)[p.name] == tmp[p.name])
  {
    if missing != [] {
      var n := |missing| - 1;
      FillChoiceAt(tmp, missing[..n], default, p);
      assert missing == missing[..n] + [missing[n]];
      assert Names(missing[..n]) == Names(missing)[..n];
      if p.name !in Names(missing) {
        assert missing[n].name == Names(missing)[n];
      }
    }
  }

  /** The first requested name the filled dict lacks: the KeyError of `tmp[str(param)]`. */
  function FirstAbsent(params: seq<Param>, tmp: map<string, real>): (r: Option<nat>)
    ensures r.None? <==> forall i :: 0 <= i < |params| ==> params[i].name in tmp
    ensures r.Some? ==>
      && r.value < |params| && params[r.value].name !in tmp
      && (forall i :: 0 <= i < r.value ==> params[i].name in tmp)
  {
    if params == [] then None
    else if params[0].name !in tmp then Some(0)
    else
      var rest := FirstAbsent(params[1..], tmp);
      assert forall i :: 1 <= i < |params| ==> params[1..][i - 1] == params[i];
      if rest.None? then None else Some(rest.value + 1)
  }

  /** `[tmp[str(param)] for param in params]`. */
  function Pick(params: seq<Param>, tmp: map<string, real>): Result<seq<real>, SourceError> {
    var absent := FirstAbsent(params, tmp);
    if absent.Some? then Err(MissingKey(params[absent.value].name))
    else Ok(seq(|params|, i requires 0 <= i < |params| => tmp[params[i].name]))
  }

  /** What the source's own `choice` returns for the requested parameters it holds. */
  function Chosen(ext: Externals, c: Combined, params: seq<Param>, options: Options): map<string, real> {
    var ins := Filter(params, c, true);
    if |ins| > 0 then ext.choose(c.src, Names(ins), options) else map[]
  }

  /** The choice branch, `source` already replaced by its best fit. */
  function ChoiceStep(ext: Externals, c: Combined, choice: ChoiceArg, params: Option<seq<Param>>,
                      default: DefaultArg, returnType: Option<string>): Result<ChoiceResult, SourceError>
  {
    var options := if choice.ChoiceOptions? then choice.options else map[];
    if params.Some? then
      var tmp := FillChoice(Chosen(ext, c, params.value, options), Filter(params.value, c, false), default);
      var picked := Pick(params.value, tmp);
      if picked.Err? then Err(picked.error) else Ok(PerParam(picked.value))
    else if c.Obj? && c.src.nonEmpty then Ok(AllParams(c.src, returnType, options))
    else Ok(EmptyChoice)
  }

  /**
    A choice with `params` is a list aligned with the params: a parameter the
    source holds gets the source's chosen value, any other its reference value,
    or `default` when one is given; it fails exactly when the source's choice
    lacks one of the names it was asked for.
  */
  lemma ChoiceValues(ext: Externals, c: Combined, choice: ChoiceArg, params: seq<Param>, default: DefaultArg, returnType: Option<string>)
    requires DistinctNames(params)
    ensures var options := if choice.ChoiceOptions? then choice.options else map[];
      var chosen := Chosen(ext, c, params, options);
      var r := ChoiceStep(ext, c, choice, Some(params), default, returnType);
      && (r.Ok? <==> forall i :: 0 <= i < |params| && Contains(c, params[i].name) ==> params[i].name in chosen)
      && (r.Ok? ==>
            r.value.PerParam? && |r.value.values| == |params|
            && forall i :: 0 <= i < |params| ==>
                 r.value.values[i] == (if Contains(c, params[i].name) then chosen[params[i].name] else FillValue(params[i], default)))
  {
    var options := if choice.ChoiceOptions? then choice.options else map[];
    var chosen := Chosen(ext, c, params, options);
    var missing := Filter(params, c, false);
    var tmp := FillChoice(chosen, missing, default);
    FilterMembers(params, c, false);
    forall i | 0 <= i < |params|
      ensures Contains(c, params[i].name) ==> (params[i].name in tmp <==> params[i].name in chosen)
      ensures Contains(c, params[i].name) && params[i].name in chosen ==> tmp[params[i].name] == chosen[params[i].name]
      ensures !Contains(c, params[i].name) ==> params[i].name in tmp && tmp[params[i].name] == FillValue(params[i], default)
    {
      var p := params[i];
      forall k | 0 <= k < |missing| && missing[k].name == p.name ensures missing[k] == p {
        assert missing[k] in missing;
        var j :| 0 <= j < |params| && params[j] == missing[k];
        assert j == i;
      }
      if Contains(c, p.name) {
        forall k | 0 <= k < |missing| ensures Names(missing)[k] != p.name {
          assert missing[k] in missing;
        }
      }
      FillChoiceAt(chosen, missing, default, p);
    }
  }

  // ===== covariance =====

  /** With a profile, the covariance is read from its `covariance` attribute. */
  function CovSource(c: Combined): Combined {
    if c.Obj? && c.src.covariance.Some? then Obj(c.src.covariance.value) else c
  }

  /** The source's covariance entry for a pair of parameter names. */
  function CovValue(s: Source, a: string, b: string): real {
    if (a, b) in s.cov then s.cov[(a, b)] else 0.0
  }

  /** `source.cov(params=names)._value`: the source's block over the given names. */
  function SourceBlock(s: Source, names: seq<string>): (r: seq<seq<real>>)
    ensures |r| == |names| && forall a :: 0 <= a < |r| ==> |r[a]| == |names|
  {
    seq(|names|, a requires 0 <= a < |names| => seq(|names|, b requires 0 <= b < |names| => CovValue(s, names[a], names[b])))
  }

  /** `list.index`: the first parameter with the name. */
  function IndexOfName(ps: seq<Param>, name: string): (r: nat)
    requires name in Names(ps)
    ensures r < |ps| && ps[r].name == name
    ensures forall j :: 0 <= j < r ==> ps[j].name != name
  {
    if ps[0].name == name then 0
    else
      assert name in Names(ps[1..]) by {
        var j :| 0 <= j < |ps| && Names(ps)[j] == name;
        assert Names(ps[1..])[j - 1] == name;
      }
      1 + IndexOfName(ps[1..], name)
  }

  /** `[params.index(param) for param in sub]`. */
  function Positions(params: seq<Param>, sub: seq<Param>): (r: seq<nat>)
    requires forall k :: 0 <= k < |sub| ==> sub[k] in params
    ensures |r| == |sub| && forall k :: 0 <= k < |r| ==> r[k] < |params|
  {
    seq(|sub|, k requires 0 <= k < |sub| =>
      assert sub[k].name in Names(params) by {
        var j :| 0 <= j < |params| && params[j] == sub[k];
        assert Names(params)[j] == sub[k].name;
      }
      IndexOfName(params, sub[k].name))
  }

  /** The last position of x in s: the write at that position is the one that stays. */
  function LastIndex(s: seq<nat>, x: nat): (r: nat)
    requires x in s
    ensures r < |s| && s[r] == x
    ensures forall j :: r < j < |s| ==> s[j] != x
  {
    if s[|s| - 1] == x then |s| - 1
    else
      assert x in s[..|s| - 1] by {
        var j :| 0 <= j < |s| && s[j] == x;
        assert s[..|s| - 1][j] == x;
      }
      LastIndex(s[..|s| - 1], x)
  }

  /** The diagonal value for a parameter the source does not hold. */
  function Fill(p: Param, default: DefaultArg): Float {
    if default.DefaultTo? then Finite(default.value)
    else if p.proposal.Some? then Finite(p.proposal.value * p.proposal.value)
    else NaN
  }

  /**
    Entry (i, j) of the zero matrix after `tmp[np.ix_(idx, idx)] = value` and
    then `tmp[(miss, miss)] = fills`: a later write to the same cell wins.
  */
  function EmbedEntry(idx: seq<nat>, value: seq<seq<real>>, miss: seq<nat>, fills: seq<Float>, i: nat, j: nat): Float
    requires |value| == |idx| && (forall a :: 0 <= a < |value| ==> |value[a]| == |idx|)
    requires |fills| == |miss|
  {
    if i == j && i in miss then fills[LastIndex(miss, i)]
    else if i in idx && j in idx then Finite(value[LastIndex(idx, i)][LastIndex(idx, j)])
    else Finite(0.0)
  }

  /** The two fancy-index assignments: target positions and values of the block, then of the diagonal fill. */
  datatype Writes = Writes(idx: seq<nat>, value: seq<seq<real>>, miss: seq<nat>, fills: seq<Float>)

  predicate WellShaped(w: Writes, n: nat) {
    && (forall a :: 0 <= a < |w.idx| ==> w.idx[a] < n)
    && (forall a :: 0 <= a < |w.miss| ==> w.miss[a] < n)
    && |w.value| == |w.idx| && (forall a :: 0 <= a < |w.value| ==> |w.value[a]| == |w.idx|)
    && |w.fills| == |w.miss|
  }

  /**
    The writes of the covariance branch: the source block at the positions of
    the parameters it holds, then the fill values at the positions of the others.
  */
  function CovWrites(c: Combined, params: seq<Param>, default: DefaultArg): (w: Writes)
    ensures WellShaped(w, |params|)
  {
    var ins := Filter(params, c, true);
    var missing := Filter(params, c, false);
    FilterMembers(params, c, true);
    FilterMembers(params, c, false);
    var value := if |ins| > 0 then SourceBlock(c.src, Names(ins)) else [];
    Writes(Positions(params, ins), value, Positions(params, missing),
           seq(|missing|, k requires 0 <= k < |missing| => Fill(missing[k], default)))
  }

  /** The matrix that `load_source` builds for params, given the source after `covariance`. */
  function Embedding(c: Combined, params: seq<Param>, default: DefaultArg): (m: seq<seq<Float>>)
    ensures |m| == |params| && forall i :: 0 <= i < |m| ==> |m[i]| == |params|
  {
    var w := CovWrites(c, params, default);
    seq(|params|, i requires 0 <= i < |params| =>
      seq(|params|, j requires 0 <= j < |params| => EmbedEntry(w.idx, w.value, w.miss, w.fills, i, j)))
  }

  /** The reference description of the embedded covariance. */
  function CovEntry(c: Combined, params: seq<Param>, default: DefaultArg, i: nat, j: nat): Float
    requires i < |params| && j < |params|
  {
    if Contains(c, params[i].name) && Contains(c, params[j].name) then Finite(CovValue(c.src, params[i].name, params[j].name))
    else if i == j then Fill(params[i], default)
    else Finite(0.0)
  }

  /** With distinct names, Positions picks each filtered parameter's own place. */
  lemma PositionsOfFilter(params: seq<Param>, c: Combined, keep: bool)
    requires DistinctNames(params)
    ensures var sub := Filter(params, c, keep);
      && (forall k :: 0 <= k < |sub| ==> sub[k] in params)
      && var pos := Positions(params, sub);
         && (forall k :: 0 <= k < |sub| ==> params[pos[k]] == sub[k])
         && (forall i :: 0 <= i < |params| ==> (i in pos <==> Contains(c, params[i].name) == keep))
  {
    FilterMembers(params, c, keep);
    var sub := Filter(params, c, keep);
    var pos := Positions(params, sub);
    forall k | 0 <= k < |sub| ensures params[pos[k]] == sub[k] {
      assert sub[k] in params;
      var j :| 0 <= j < |params| && params[j] == sub[k];
      assert pos[k] == j;
    }
    forall i | 0 <= i < |params| ensures i in pos <==> Contains(c, params[i].name) == keep {
      if Contains(c, params[i].name) == keep {
        assert params[i] in sub;
        var k :| 0 <= k < |sub| && sub[k] == params[i];
        assert pos[k] == i;
      }
    }
  }

  /**
    With distinct parameter names, the embedded covariance holds the source's
    entries between parameters it holds, the fill value on the diagonal of
    those it does not, and 0 everywhere else.
  */
  lemma EmbeddingEntries(c: Combined, params: seq<Param>, default: DefaultArg)
    requires DistinctNames(params)
    ensures forall i, j :: 0 <= i < |params| && 0 <= j < |params| ==>
      Embedding(c, params, default)[i][j] == CovEntry(c, params, default, i, j)
  {
    forall i, j | 0 <= i < |params| && 0 <= j < |params|
      ensures Embedding(c, params, default)[i][j] == CovEntry(c, params, default, i, j)
    {
      EmbeddingEntry(c, params, default, i, j);
    }
  }

  lemma EmbeddingEntry(c: Combined, params: seq<Param>, default: DefaultArg, i: nat, j: nat)
    requires DistinctNames(params)
    requires i < |params| && j < |params|
    ensures Embedding(c, params, default)[i][j] == CovEntry(c, params, default, i, j)
  {
    var w := CovWrites(c, params, default);
    assert Embedding(c, params, default)[i][j] == EmbedEntry(w.idx, w.value, w.miss, w.fills, i, j);
    var ins := Filter(params, c, true);
    var missing := Filter(params, c, false);
    PositionsOfFilter(params, c, true);
    PositionsOfFilter(params, c, false);
    EmbedEntryMatches(c, params, default, ins, missing, w, i, j);
  }

  /** The entry the writes leave is the one the reference description names. */
  lemma EmbedEntryMatches(c: Combined, params: seq<Param>, default: DefaultArg,
                          ins: seq<Param>, missing: seq<Param>, w: Writes, i: nat, j: nat)
    requires i < |params| && j < |params|
    requires WellShaped(w, |params|)
    requires |w.idx| == |ins| && |w.miss| == |missing|
    requires forall k :: 0 <= k < |w.idx| ==> params[w.idx[k]] == ins[k]
    requires forall k :: 0 <= k < |w.miss| ==> params[w.miss[k]] == missing[k]
    requires forall t :: 0 <= t < |params| ==> (t in w.idx <==> Contains(c, params[t].name))
    requires forall t :: 0 <= t < |params| ==> (t in w.miss <==> !Contains(c, params[t].name))
    requires |ins| > 0 ==> c.Obj? && w.value == SourceBlock(c.src, Names(ins))
    requires w.fills == seq(|missing|, k requires 0 <= k < |missing| => Fill(missing[k], default))
    ensures EmbedEntry(w.idx, w.value, w.miss, w.fills, i, j) == CovEntry(c, params, default, i, j)
  {
    if i == j && i in w.miss {
      var k := LastIndex(w.miss, i);
      assert missing[k] == params[i];
    } else if i in w.idx && j in w.idx {
      var a, b := LastIndex(w.idx, i), LastIndex(w.idx, j);
      assert ins[a] == params[i] && ins[b] == params[j];
    }
  }

  /**
    The covariance branch as written: the diagonal fill concatenates the index
    ranges of the missing parameters, which fails when there are none.
  */
  function CovStepAsWritten(c: Combined, params: Option<seq<Param>>, default: DefaultArg, returnType: Option<string>): Result<CovResult, SourceError> {
    if params.Some? then
      if |Filter(params.value, c, false)| == 0 then Err(EmptyConcatenate)
      else Ok(CovMatrix(Embedding(c, params.value, default)))
    else if c.Obj? && c.src.nonEmpty then Ok(CovOfSource(c.src, returnType))
    else Ok(NoCov)
  }

  /** The covariance branch with the diagonal fill skipped when no parameter is missing. */
  function CovStep(c: Combined, params: Option<seq<Param>>, default: DefaultArg, returnType: Option<string>): Result<CovResult, SourceError> {
    if params.Some? then Ok(CovMatrix(Embedding(c, params.value, default)))
    else if c.Obj? && c.src.nonEmpty then Ok(CovOfSource(c.src, returnType))
    else Ok(NoCov)
  }

  /** Asking for the covariance of a parameter the source holds fails as written. */
  lemma AllInSourceFailsAsWritten(s: Source, p: Param)
    requires p.name in s.names
    ensures CovStepAsWritten(Obj(s), Some([p]), NoDefault, Some("nparray")) == Err(EmptyConcatenate)
  {
    assert [p][..0] == [];
  }

  /** Corrected: when every parameter is in the source, the result is the source's own block. */
  lemma AllInSourceCorrected(c: Combined, params: seq<Param>, default: DefaultArg, returnType: Option<string>)
    requires DistinctNames(params)
    requires forall i :: 0 <= i < |params| ==> Contains(c, params[i].name)
    ensures CovStep(c, Some(params), default, returnType).Ok?
    ensures CovStep(c, Some(params), default, returnType).value.rows == seq(|params|, i requires 0 <= i < |params| =>
      seq(|params|, j requires 0 <= j < |params| => Finite(CovValue(c.src, params[i].name, params[j].name))))
  {
    EmbeddingEntries(c, params, default);
    var m := Embedding(c, params, default);
    var want := seq(|params|, i requires 0 <= i < |params| =>
      seq(|params|, j requires 0 <= j < |params| => Finite(CovValue(c.src, params[i].name, params[j].name))));
    assert forall i :: 0 <= i < |params| ==> m[i] == want[i];
  }

  /** The two agree whenever some requested parameter is missing. */
  lemma CovStepAgrees(c: Combined, params: Option<seq<Param>>, default: DefaultArg, returnType: Option<string>)
    requires params.None? || |Filter(params.value, c, false)| > 0
    ensures CovStepAsWritten(c, params, default, returnType) == CovStep(c, params, default, returnType)
  {
  }

  // ===== load_source =====

  /** `load_source`, with the corrected covariance branch. */
  function LoadSpec(ext: Externals, source: OneOrMany<Item>, choice: Option<ChoiceArg>, cov: bool,
                    burnin: Option<real>, params: Option<seq<Param>>, default: DefaultArg, returnType: Option<string>)
    : Result<Loaded, SourceError>
  {
    var sources := LoadedSources(ext, source, burnin);
    if choice.None? && !cov then Ok(SourceList(sources))
    else
      var combined := Combine(ext, sources);
      if combined.Err? then Err(combined.error)
      else
        var c := if choice.Some? then ChoiceSource(combined.value) else combined.value;
        var ch := if choice.Some? then ChoiceStep(ext, c, choice.value, params, default, returnType) else Ok(EmptyChoice);
        if ch.Err? then Err(ch.error)
        else
          var cv := if cov then CovStep(CovSource(c), params, default, returnType) else Ok(NoCov);
          if cv.Err? then Err(cv.error)
          else if !cov then Ok(ChoiceOnly(ch.value))
          else if choice.None? then Ok(CovOnly(cv.value))
          else Ok(Both(ch.value, cv.value))
  }

  /** Nothing requested gives the source list; one request gives that item alone; both give the pair. */
  lemma ReturnShape(ext: Externals, source: OneOrMany<Item>, choice: Option<ChoiceArg>, cov: bool,
                    burnin: Option<real>, params: Option<seq<Param>>, default: DefaultArg, returnType: Option<string>)
    ensures var r := LoadSpec(ext, source, choice, cov, burnin, params, default, returnType);
      && (choice.None? && !cov ==> r == Ok(SourceList(LoadedSources(ext, source, burnin))))
      && (r.Ok? && choice.Some? && !cov ==> r.value.ChoiceOnly?)
      && (r.Ok? && choice.None? && cov ==> r.value.CovOnly?)
      && (r.Ok? && choice.Some? && cov ==> r.value.Both?)
      && (choice.Some? || cov ==> (r.Ok? ==> Combine(ext, LoadedSources(ext, source, burnin)).Ok?))
  {
  }

  /** A choice or covariance of sources whose types differ fails, and only then with that error. */
  lemma MixedTypesRejected(ext: Externals, source: OneOrMany<Item>, choice: Option<ChoiceArg>, cov: bool,
                           burnin: Option<real>, params: Option<seq<Param>>, default: DefaultArg, returnType: Option<string>)
    requires choice.Some? || cov
    ensures var sources := LoadedSources(ext, source, burnin);
      LoadSpec(ext, source, choice, cov, burnin, params, default, returnType) == Err(DifferentTypes)
      <==> |sources| > 0 && !SameType(sources)
  {
    var sources := LoadedSources(ext, source, burnin);
    var r := LoadSpec(ext, source, choice, cov, burnin, params, default, returnType);
    if |sources| > 0 && SameType(sources) {
      var combined := Combine(ext, sources);
      assert combined.Ok?;
      if choice.Some? {
        var c := ChoiceSource(combined.value);
        var ch := ChoiceStep(ext, c, choice.value, params, default, returnType);
        assert ch.Err? ==> ch.error.MissingKey?;
      }
    }
  }

  /** A single entry is wrapped; a pattern expands to what it loads, anything else is kept. */
  lemma SingleSourceWrapped(ext: Externals, it: Item)
    ensures LoadedSources(ext, One(it), None) == Expand(ext, it)
  {
    assert [it][..0] == [];
    assert Gather(ext, [it]) == Gather(ext, []) + Expand(ext, it);
  }

  /** Fills `tmp[np.ix_(idx, idx)] = value` and then `tmp[(miss, miss)] = fills` into a zero matrix. */
  method FillCovariance(n: nat, idx: seq<nat>, value: seq<seq<real>>, miss: seq<nat>, fills: seq<Float>)
    returns (tmp: array2<Float>)
    requires forall a :: 0 <= a < |idx| ==> idx[a] < n
    requires forall a :: 0 <= a < |miss| ==> miss[a] < n
    requires |value| == |idx| && (forall a :: 0 <= a < |value| ==> |value[a]| == |idx|)
    requires |fills| == |miss|
    ensures fresh(tmp) && tmp.Length0 == n && tmp.Length1 == n
    ensures forall i, j :: 0 <= i < n && 0 <= j < n ==> tmp[i, j] == EmbedEntry(idx, value, miss, fills, i, j)
  {
    tmp := new Float[n, n]((i, j) => Finite(0.0));
    var r := 0;
    while r < |idx|
      invariant 0 <= r <= |idx|
      invariant forall i, j :: 0 <= i < n && 0 <= j < n ==> tmp[i, j] == BlockAt(idx, value, r, i, j)
    {
      FillRow(tmp, idx, value, r);
      r := r + 1;
    }
    assert idx[..r] == idx;
    var k := 0;
    while k < |miss|
      invariant 0 <= k <= |miss|
      invariant forall i, j :: 0 <= i < n && 0 <= j < n ==>
        tmp[i, j] == (if i == j && i in miss[..k] then fills[LastIndex(miss[..k], i)] else BlockAt(idx, value, |idx|, i, j))
    {
      tmp[miss[k], miss[k]] := fills[k];
      LastIndexSnocAll(miss[..k], miss[k]);
      assert miss[..k + 1] == miss[..k] + [miss[k]];
      k := k + 1;
    }
    assert miss[..k] == miss;
  }

  /** Row r of `tmp[np.ix_(idx, idx)] = value`: the cells (idx[r], idx[c]) in turn. */
  method FillRow(tmp: array2<Float>, idx: seq<nat>, value: seq<seq<real>>, r: nat)
    requires r < |idx|
    requires forall a :: 0 <= a < |idx| ==> idx[a] < tmp.Length0 && idx[a] < tmp.Length1
    requires |value| == |idx| && (forall a :: 0 <= a < |value| ==> |value[a]| == |idx|)
    requires forall i, j :: 0 <= i < tmp.Length0 && 0 <= j < tmp.Length1 ==> tmp[i, j] == BlockAt(idx, value, r, i, j)
    modifies tmp
    ensures forall i, j :: 0 <= i < tmp.Length0 && 0 <= j < tmp.Length1 ==> tmp[i, j] == BlockAt(idx, value, r + 1, i, j)
  {
    var c := 0;
    while c < |idx|
      invariant 0 <= c <= |idx|
      invariant forall i, j :: 0 <= i < tmp.Length0 && 0 <= j < tmp.Length1 ==>
        tmp[i, j] == (if i == idx[r] && j in idx[..c] then Finite(value[r][LastIndex(idx[..c], j)])
                      else BlockAt(idx, value, r, i, j))
    {
      tmp[idx[r], idx[c]] := Finite(value[r][c]);
      LastIndexSnocAll(idx[..c], idx[c]);
      assert idx[..c + 1] == idx[..c] + [idx[c]];
      c := c + 1;
    }
    assert idx[..c] == idx;
    LastIndexSnocAll(idx[..r], idx[r]);
    assert idx[..r + 1] == idx[..r] + [idx[r]];
  }

  /** Entry (i, j) after the writes of the first `rows` rows of `np.ix_`. */
  function BlockAt(idx: seq<nat>, value: seq<seq<real>>, rows: nat, i: nat, j: nat): Float
    requires rows <= |idx|
    requires |value| == |idx| && (forall a :: 0 <= a < |value| ==> |value[a]| == |idx|)
  {
    if i in idx[..rows] && j in idx then Finite(value[LastIndex(idx[..rows], i)][LastIndex(idx, j)]) else Finite(0.0)
  }

  /** Appending x makes it the last occurrence of x and leaves other values' last occurrences alone. */
  lemma LastIndexSnocAll(s: seq<nat>, x: nat)
    ensures LastIndex(s + [x], x) == |s|
    ensures forall y :: y in s + [x] <==> y in s || y == x
    ensures forall y :: y in s && y != x ==> LastIndex(s + [x], y) == LastIndex(s, y)
  {
    forall y | y in s && y != x ensures LastIndex(s + [x], y) == LastIndex(s, y) {
      assert (s + [x])[..|s|] == s;
    }
  }

  /** The loop that builds `sources`: patterns are expanded, anything else appended. */
  method GatherSources(ext: Externals, fns: seq<Item>) returns (sources: seq<Option<Source>>)
    ensures sources == Gather(ext, fns)
  {
    sources := [];
    var i := 0;
    while i < |fns|
      invariant 0 <= i <= |fns|
      invariant sources == Gather(ext, fns[..i])
    {
      sources := sources + Expand(ext, fns[i]);
      assert fns[..i + 1][..i] == fns[..i];
      i := i + 1;
    }
    assert fns[..i] == fns;
  }

  /** The choice branch of `load_source`, `src` being the source after `bestfit`. */
  method ChoiceBranch(ext: Externals, src: Combined, choice: ChoiceArg, params: Option<seq<Param>>,
                      default: DefaultArg, returnType: Option<string>)
    returns (r: Result<ChoiceResult, SourceError>)
    ensures r == ChoiceStep(ext, src, choice, params, default, returnType)
  {
    var options := if choice.ChoiceOptions? then choice.options else map[];
    if params.Some? {
      var ins := Filter(params.value, src, true);
      var tmp: map<string, real> := map[];
      if |ins| > 0 {
        tmp := ext.choose(src.src, Names(ins), options);
      }
      var missing := Filter(params.value, src, false);
      tmp := FillMissing(tmp, missing, default);
      var picked := Pick(params.value, tmp);
      if picked.Err? {
        return Err(picked.error);
      }
      r := Ok(PerParam(picked.value));
    } else if src.Obj? && src.src.nonEmpty {
      r := Ok(AllParams(src.src, returnType, options));
    } else {
      r := Ok(EmptyChoice);
    }
  }

  /** The loop that gives every missing parameter its fill value, in order. */
  method FillMissing(tmp: map<string, real>, missing: seq<Param>, default: DefaultArg) returns (r: map<string, real>)
    ensures r == FillChoice(tmp, missing, default)
  {
    r := tmp;
    var j := 0;
    while j < |missing|
      invariant 0 <= j <= |missing|
      invariant r == FillChoice(tmp, missing[..j], default)
    {
      r := r[missing[j].name := FillValue(missing[j], default)];
      assert missing[..j + 1][..j] == missing[..j];
      j := j + 1;
    }
    assert missing[..j] == missing;
  }

  /** The covariance branch of `load_source`, `src` being the source after `covariance`. */
  method CovBranch(src: Combined, params: Option<seq<Param>>, default: DefaultArg, returnType: Option<string>)
    returns (r: CovResult)
    ensures CovStep(src, params, default, returnType).Ok? && CovStep(src, params, default, returnType).value == r
  {
    if params.Some? {
      var ps := params.value;
      var w := CovWrites(src, ps, default);
      var tmp := FillCovariance(|ps|, w.idx, w.value, w.miss, w.fills);
      var rows := seq(|ps|, a requires 0 <= a < |ps| reads tmp =>
        seq(|ps|, b requires 0 <= b < |ps| reads tmp => tmp[a, b]));
      assert forall a :: 0 <= a < |ps| ==> rows[a] == Embedding(src, ps, default)[a];
      assert rows == Embedding(src, ps, default);
      r := CovMatrix(rows);
    } else if src.Obj? && src.src.nonEmpty {
      r := CovOfSource(src.src, returnType);
    } else {
      r := NoCov;
    }
  }

  /** `load_source`. */
  method LoadSource(ext: Externals, source: OneOrMany<Item>, choice: Option<ChoiceArg>, cov: bool,
                    burnin: Option<real>, params: Option<seq<Param>>, default: DefaultArg, returnType: Option<string>)
    returns (r: Result<Loaded, SourceError>)
    ensures r == LoadSpec(ext, source, choice, cov, burnin, params, default, returnType)
  {
    var sources := GatherSources(ext, AsList(source));
    if burnin.Some? {
      sources := WithoutBurnin(ext, sources, burnin.value);
    }
    if choice.None? && !cov {
      return Ok(SourceList(sources));
    }
    var combined := Combine(ext, sources);
    if combined.Err? {
      return Err(combined.error);
    }
    var src := combined.value;
    var choiceOut := EmptyChoice;
    if choice.Some? {
      src := ChoiceSource(src);
      var ch := ChoiceBranch(ext, src, choice.value, params, default, returnType);
      if ch.Err? {
        return Err(ch.error);
      }
      choiceOut := ch.value;
    }
    var covOut := NoCov;
    if cov {
      covOut := CovBranch(CovSource(src), params, default, returnType);
    }
    if !cov {
      r := Ok(ChoiceOnly(choiceOut));
    } else if choice.None? {
      r := Ok(CovOnly(covOut));
    } else {
      r := Ok(Both(choiceOut, covOut));
    }
  }

  // ===== source configuration =====

  /** The entries of a source configuration the model knows; None = key absent. */
  datatype ConfigDict = ConfigDict(
    fn: Option<OneOrMany<Item>>,
    source: Option<OneOrMany<Item>>,
    choice: Option<Options>,
    burnin: Option<real>)

  /** The `data` argument: a dict, or anything else, which stands for the source itself. */
  datatype ConfigData = DictData(dict: ConfigDict) | OtherData(value: OneOrMany<Item>)

  /** Non-dict data is wrapped as `{'fn': data}`. */
  function AsConfig(data: ConfigData): (d: ConfigDict)
    ensures data.OtherData? ==> d == ConfigDict(Some(data.value), None, None, None)
    ensures data.DictData? ==> d == data.dict
  {
    match data
    case DictData(d) => d
    case OtherData(v) => ConfigDict(Some(v), None, None, None)
  }

  /** `self.pop('fn', self.pop('source', None))`: both keys go, 'fn' is preferred. */
  function SourceEntry(d: ConfigDict): (e: OneOrMany<Item>)
    ensures d.fn.Some? ==> e == d.fn.value
    ensures d.fn.None? && d.source.Some? ==> e == d.source.value
    ensures d.fn.None? && d.source.None? ==> e == One(NoneItem)
  {
    if d.fn.Some? then d.fn.value else if d.source.Some? then d.source.value else One(NoneItem)
  }

  /** `{**stored, **call}`: the call's options win. */
  function MergeOptions(stored: Options, call: Options): (m: Options)
    ensures m.Keys == stored.Keys + call.Keys
    ensures forall k :: k in call ==> m[k] == call[k]
    ensures forall k :: k in stored && k !in call ==> m[k] == stored[k]
  {
    stored + call
  }

  class SourceConfig {
    var config: ConfigDict
    var source: seq<Option<Source>>

    constructor ()
      ensures config == ConfigDict(None, None, None, None) && source == []
    {
      config := ConfigDict(None, None, None, None);
      source := [];
    }

    /** `__init__`: the 'fn' / 'source' entry is popped and loaded, with the configured burn-in. */
    method Initialize(ext: Externals, data: ConfigData)
      modifies this
      ensures config == AsConfig(data).(fn := None, source := None)
      ensures source == LoadedSources(ext, SourceEntry(AsConfig(data)), AsConfig(data).burnin)
    {
      var d := AsConfig(data);
      var fromSource := d.source;
      d := d.(source := None);
      var fn := d.fn;
      d := d.(fn := None);
      var entry := if fn.Some? then fn else fromSource;
      config := d;
      var loaded := LoadSource(ext, if entry.Some? then entry.value else One(NoneItem), None, false, d.burnin, None, NoDefault, None);
      source := loaded.value.sources;
    }

    /**
      `choice`: the stored sources are used as they are (not loaded again),
      with the stored choice options overridden by the call's.
    */
    function Choice(ext: Externals, params: Option<seq<Param>>, default: DefaultArg, returnType: Option<string>, options: Options)
      : (r: Result<Loaded, SourceError>)
      reads this
      ensures var c := Combine(ext, source);
        var opts := ChoiceOptions(MergeOptions(config.choice.GetOr(map[]), options));
        && (c.Err? ==> r == Err(c.error))
        && (c.Ok? ==>
              var ch := ChoiceStep(ext, ChoiceSource(c.value), opts, params, default, returnType);
              && (ch.Err? ==> r == Err(ch.error))
              && (ch.Ok? ==> r.Ok? && r.value == ChoiceOnly(ch.value)))
    {
      ConfigSourcesKept(ext, source);
      LoadSpec(ext, Many(AsItems(source)), Some(ChoiceOptions(MergeOptions(config.choice.GetOr(map[]), options))),
               false, None, params, default, returnType)
    }

    /** `cov`: the covariance of the stored sources, which fails only when they cannot be combined. */
    function Cov(ext: Externals, params: Option<seq<Param>>, default: DefaultArg, returnType: Option<string>)
      : (r: Result<Loaded, SourceError>)
      reads this
      ensures var c := Combine(ext, source);
        && (c.Err? ==> r == Err(c.error))
        && (c.Ok? ==> r.Ok? && r.value == CovOnly(CovStep(CovSource(c.value), params, default, returnType).value))
    {
      ConfigSourcesKept(ext, source);
      LoadSpec(ext, Many(AsItems(source)), None, true, None, params, default, returnType)
    }
  }

  /** Choice and covariance of a configuration work on its stored sources, as loaded. */
  lemma ConfigSourcesKept(ext: Externals, sources: seq<Option<Source>>)
    ensures LoadedSources(ext, Many(AsItems(sources)), None) == sources
  {
    GatherObjects(ext, sources);
  }
}
