/**
  Model of `ClTheory`, the calculator that requests CMB angular power spectra
  from a cosmology: which spectra are wanted and to which multipole, how that
  request is merged into the cosmology's init configuration, how the computed
  tables are truncated and rescaled, and the state snapshot used for emulation.
*/
module ClTheoryModel {
  import opened Wrappers

  /** A requested-spectra dictionary in insertion order: (key, ellmax) pairs. */
  type ClRequest = seq<(string, nat)>

  /** A table of spectra, by key, as returned by the harmonic engine. */
  type ClTable = map<string, seq<real>>

  /** Python dictionaries have distinct keys. */
  predicate DistinctKeys(req: ClRequest) {
    forall i, j :: 0 <= i < j < |req| ==> req[i].0 != req[j].0
  }

  function Keys(req: ClRequest): set<string> {
    set i | 0 <= i < |req| :: req[i].0
  }

  const LensedKeys: set<string> := {"tt", "ee", "bb", "te"}
  const LensPotentialKeys: set<string> := {"pp", "tp", "ep"}
  /** Parity-odd spectra: accepted, but contribute to neither maximum. */
  const OddParityKeys: set<string> := {"tb", "eb"}

  predicate IsLensedCl(cl: string) { cl in LensedKeys }
  predicate IsLensPotentialCl(cl: string) { cl in LensPotentialKeys }
  predicate IsKnownCl(cl: string) {
    cl in LensedKeys || cl in LensPotentialKeys || cl in OddParityKeys
  }
  /** The keys that take part in the 'b' test of the non-linear default. */
  predicate HasB(cl: string) { 'b' in cl }

  /** Python None or a unit name. */
  datatype UnitName = NoUnit | Unit(name: string)

  predicate IsAllowedUnit(u: UnitName) { u == NoUnit || u == Unit("muK") }

  datatype ClError =
    | UnknownCl(cl: string)          // ValueError in initialize
    | MaxOfEmpty                     // max() over an empty request
    | InvalidUnit(unit: UnitName)    // ValueError in initialize
    | UnboundTable(name: string)     // a table that calculate never computed
    | MissingSpectrum(cl: string)    // KeyError on a table
    | MissingAttribute(name: string) // AttributeError
    | MissingStateKey(key: string)   // KeyError in __setstate__
    | NotAUnit                       // a snapshot whose 'unit' entry is not a unit

  /**
    The running maximum `max(acc, ellmax)` over the requested pairs whose key
    satisfies `sel`, starting from 0.
  */
  function MaxEllOver(req: ClRequest, sel: string -> bool): nat {
    if req == [] then 0
    else
      var m0 := MaxEllOver(req[..|req| - 1], sel);
      var last := req[|req| - 1];
      if sel(last.0) && last.1 > m0 then last.1 else m0
  }

  /** The running maximum bounds every selected ellmax and is one of them, or 0. */
  lemma {:induction false} MaxEllOverIsMax(req: ClRequest, sel: string -> bool)
    ensures forall i :: 0 <= i < |req| && sel(req[i].0) ==> req[i].1 <= MaxEllOver(req, sel)
    ensures MaxEllOver(req, sel) == 0 || exists i :: 0 <= i < |req| && sel(req[i].0) && req[i].1 == MaxEllOver(req, sel)
  {
    if req != [] {
      var n := |req| - 1;
      var pre := req[..n];
      MaxEllOverIsMax(pre, sel);
      assert forall i :: 0 <= i < n ==> pre[i] == req[i];
      var m0 := MaxEllOver(pre, sel);
      if m0 != 0 && MaxEllOver(req, sel) == m0 {
        var i :| 0 <= i < n && sel(pre[i].0) && pre[i].1 == m0;
        assert req[i] == pre[i];
      }
    }
  }

  /** Length of the longest prefix of the request made of known keys. */
  function KnownPrefix(req: ClRequest): (n: nat)
    ensures n <= |req|
    ensures forall i :: 0 <= i < n ==> IsKnownCl(req[i].0)
    ensures n < |req| ==> !IsKnownCl(req[n].0)
  {
    if req == [] then 0
    else if !IsKnownCl(req[0].0) then 0
    else 1 + KnownPrefix(req[1..])
  }

  /** What a successful `initialize` derives from its arguments. */
  datatype ClSettings = ClSettings(
    ellMaxLensed: nat,
    ellMaxLensPotential: nat,
    lensing: bool,
    nonLinear: string,
    ellMax: nat)

  /**
    The outcome of `initialize`, checks in the source's order: unknown keys,
    then the non-linear default, then the unit.
  */
  function Initialized(req: ClRequest, lensing: Option<bool>, nonLinear: Option<string>, unit: UnitName)
    : Result<ClSettings, ClError>
  {
    var k := KnownPrefix(req);
    if k < |req| then Err(UnknownCl(req[k].0))
    else
      var lensedMax := MaxEllOver(req, IsLensedCl);
      var potentialMax := MaxEllOver(req, IsLensPotentialCl);
      var lens := lensing.GetOr(potentialMax != 0);
      if nonLinear.None? && potentialMax == 0 && req == [] then Err(MaxOfEmpty)
      else
        var nl :=
          if nonLinear.Some? then nonLinear.value
          else if potentialMax != 0 || MaxEllOver(req, HasB) > 50 then "mead"
          else "";
        if !IsAllowedUnit(unit) then Err(InvalidUnit(unit))
        else Ok(ClSettings(lensedMax, potentialMax, lens, nl, Max(lensedMax, potentialMax)))
  }

  lemma UnknownClRejected(req: ClRequest, lensing: Option<bool>, nonLinear: Option<string>, unit: UnitName)
    ensures (exists i :: 0 <= i < |req| && !IsKnownCl(req[i].0))
        <==> Initialized(req, lensing, nonLinear, unit).Err? && Initialized(req, lensing, nonLinear, unit).error.UnknownCl?
    ensures Initialized(req, lensing, nonLinear, unit).Err? && Initialized(req, lensing, nonLinear, unit).error.UnknownCl? ==>
      exists i ::
        && 0 <= i < |req|
        && Initialized(req, lensing, nonLinear, unit).error.cl == req[i].0
        && !IsKnownCl(req[i].0)
        && forall j :: 0 <= j < i ==> IsKnownCl(req[j].0)
  {
    var k := KnownPrefix(req);
    if k < |req| {
      assert !IsKnownCl(req[k].0);
    }
  }

  /** The two maxima are maxima over their groups, and 0 for an absent group. */
  lemma EllMaxima(req: ClRequest, lensing: Option<bool>, nonLinear: Option<string>, unit: UnitName)
    requires Initialized(req, lensing, nonLinear, unit).Ok?
    ensures var s := Initialized(req, lensing, nonLinear, unit).value;
      && (forall i :: 0 <= i < |req| && req[i].0 in LensedKeys ==> req[i].1 <= s.ellMaxLensed)
      && (forall i :: 0 <= i < |req| && req[i].0 in LensPotentialKeys ==> req[i].1 <= s.ellMaxLensPotential)
      && ((forall i :: 0 <= i < |req| ==> req[i].0 !in LensedKeys) ==> s.ellMaxLensed == 0)
      && ((forall i :: 0 <= i < |req| ==> req[i].0 !in LensPotentialKeys) ==> s.ellMaxLensPotential == 0)
      && s.ellMax == Max(s.ellMaxLensed, s.ellMaxLensPotential)
  {
    MaxEllOverIsMax(req, IsLensedCl);
    MaxEllOverIsMax(req, IsLensPotentialCl);
  }

  /** Changing the ellmax of an entry that `sel` does not pick leaves the maximum as it was. */
  lemma {:induction false} UnselectedIgnored(req: ClRequest, i: nat, v: nat, sel: string -> bool)
    requires i < |req| && !sel(req[i].0)
    ensures MaxEllOver(req[i := (req[i].0, v)], sel) == MaxEllOver(req, sel)
  {
    var req' := req[i := (req[i].0, v)];
    var n := |req|;
    assert req'[n - 1].0 == req[n - 1].0;
    if i < n - 1 {
      assert req'[n - 1] == req[n - 1];
      assert req'[..n - 1] == req[..n - 1][i := (req[i].0, v)];
      UnselectedIgnored(req[..n - 1], i, v, sel);
    } else {
      assert req'[..n - 1] == req[..n - 1];
    }
  }

  /** Changing the ellmax of a tb or eb entry moves neither maximum. */
  lemma OddParityIgnored(req: ClRequest, i: nat, v: nat)
    requires i < |req| && req[i].0 in OddParityKeys
    ensures MaxEllOver(req[i := (req[i].0, v)], IsLensedCl) == MaxEllOver(req, IsLensedCl)
    ensures MaxEllOver(req[i := (req[i].0, v)], IsLensPotentialCl) == MaxEllOver(req, IsLensPotentialCl)
  {
    UnselectedIgnored(req, i, v, IsLensedCl);
    UnselectedIgnored(req, i, v, IsLensPotentialCl);
  }

  /** Without an explicit `lensing`, lensing is on exactly when a lens-potential spectrum asks for a positive ellmax. */
  lemma LensingDefault(req: ClRequest, nonLinear: Option<string>, unit: UnitName)
    requires Initialized(req, None, nonLinear, unit).Ok?
    ensures Initialized(req, None, nonLinear, unit).value.lensing
        <==> exists i :: 0 <= i < |req| && req[i].0 in LensPotentialKeys && req[i].1 > 0
  {
    MaxEllOverIsMax(req, IsLensPotentialCl);
    var m := MaxEllOver(req, IsLensPotentialCl);
    if m != 0 {
      var i :| 0 <= i < |req| && IsLensPotentialCl(req[i].0) && req[i].1 == m;
      assert req[i].0 in LensPotentialKeys && req[i].1 > 0;
    }
  }

  /**
    Without an explicit `non_linear`, it is 'mead' exactly when a lens-potential
    spectrum is wanted or a key with a 'b' goes beyond multipole 50.
  */
  lemma NonLinearDefault(req: ClRequest, lensing: Option<bool>, unit: UnitName)
    requires Initialized(req, lensing, None, unit).Ok?
    ensures var nl := Initialized(req, lensing, None, unit).value.nonLinear;
      && (nl == "mead" || nl == "")
      && (nl == "mead" <==>
            ((exists i :: 0 <= i < |req| && req[i].0 in LensPotentialKeys && req[i].1 > 0)
             || (exists i :: 0 <= i < |req| && 'b' in req[i].0 && req[i].1 > 50)))
  {
    MaxEllOverIsMax(req, IsLensPotentialCl);
    MaxEllOverIsMax(req, HasB);
    var p := MaxEllOver(req, IsLensPotentialCl);
    var b := MaxEllOver(req, HasB);
    if p != 0 {
      var i :| 0 <= i < |req| && IsLensPotentialCl(req[i].0) && req[i].1 == p;
      assert req[i].0 in LensPotentialKeys && req[i].1 > 0;
    }
    if b > 50 {
      var i :| 0 <= i < |req| && HasB(req[i].0) && req[i].1 == b;
      assert 'b' in req[i].0 && req[i].1 > 50;
    }
  }

  /** Without `non_linear`, an empty request fails on the maximum of nothing. */
  lemma EmptyRequestFails(lensing: Option<bool>, unit: UnitName)
    ensures Initialized([], lensing, None, unit) == Err(MaxOfEmpty)
  {
  }

  /** Among well-formed requests, the unit is rejected exactly when it is neither None nor 'muK'. */
  lemma UnitChecked(req: ClRequest, lensing: Option<bool>, nonLinear: Option<string>, unit: UnitName)
    requires forall i :: 0 <= i < |req| ==> IsKnownCl(req[i].0)
    requires nonLinear.Some? || req != []
    ensures Initialized(req, lensing, nonLinear, unit).Ok? <==> IsAllowedUnit(unit)
    ensures !IsAllowedUnit(unit) ==> Initialized(req, lensing, nonLinear, unit) == Err(InvalidUnit(unit))
  {
  }

  /** The cosmology's init entries this calculator touches; None = key absent. */
  datatype CosmoInit = CosmoInit(lensing: Option<bool>, ellmaxCl: Option<int>, nonLinear: Option<string>)

  /** `init.update(...)` with the `get(key, default) or/max new` rule. */
  function MergeInit(c: CosmoInit, lensing: bool, ellmax: nat, nonLinear: string): (r: CosmoInit)
    ensures r.lensing.Some? && r.ellmaxCl.Some? && r.nonLinear.Some?
  {
    var oldNl := c.nonLinear.GetOr("");
    CosmoInit(
      Some(c.lensing.GetOr(false) || lensing),
      Some(Max(c.ellmaxCl.GetOr(0), ellmax)),
      Some(if oldNl != "" then oldNl else nonLinear))
  }

  /**
    The merge never weakens an existing requirement and always meets the new
    one, and asks for no more: lensing is on exactly when it was on or is now
    requested, and ellmax_cl is the old or the new maximum.
  */
  lemma MergeMonotone(c: CosmoInit, lensing: bool, ellmax: nat, nonLinear: string)
    ensures var r := MergeInit(c, lensing, ellmax, nonLinear);
      && (r.lensing == Some(true) <==> c.lensing == Some(true) || lensing)
      && r.ellmaxCl.value >= ellmax
      && (c.ellmaxCl.Some? ==> r.ellmaxCl.value >= c.ellmaxCl.value)
      && (r.ellmaxCl == Some(ellmax) || r.ellmaxCl == c.ellmaxCl)
      && (c.nonLinear.Some? && c.nonLinear.value != "" ==> r.nonLinear == c.nonLinear)
      && (c.nonLinear.GetOr("") == "" ==> r.nonLinear == Some(nonLinear))
  {
  }

  /** Two calculators making the same request leave the same init as one. */
  lemma MergeIdempotent(c: CosmoInit, lensing: bool, ellmax: nat, nonLinear: string)
    ensures MergeInit(MergeInit(c, lensing, ellmax, nonLinear), lensing, ellmax, nonLinear)
         == MergeInit(c, lensing, ellmax, nonLinear)
  {
  }

  /** Lensing and ellmax do not depend on the order in which two requests are merged. */
  lemma MergeCommutesOnLensingAndEllmax(c: CosmoInit, l1: bool, e1: nat, n1: string, l2: bool, e2: nat, n2: string)
    ensures var a := MergeInit(MergeInit(c, l1, e1, n1), l2, e2, n2);
            var b := MergeInit(MergeInit(c, l2, e2, n2), l1, e1, n1);
            a.lensing == b.lensing && a.ellmaxCl == b.ellmaxCl
  {
  }

  // ----- calculate -----

  function Count(s: string, c: char): (n: nat)
    ensures n <= |s|
    ensures n > 0 <==> c in s
  {
    if s == [] then 0 else (if s[0] == c then 1 else 0) + Count(s[1..], c)
  }

  function Pow(x: real, n: nat): real {
    if n == 0 then 1.0 else x * Pow(x, n - 1)
  }

  /** numpy's `a[:n]`: the first n entries, or all of them if there are fewer. */
  function Truncate(s: seq<real>, n: nat): (r: seq<real>)
    ensures |r| == Min(|s|, n)
    ensures forall j :: 0 <= j < |r| ==> r[j] == s[j]
  {
    if |s| <= n then s else s[..n]
  }

  function Scale(s: seq<real>, c: real): (r: seq<real>)
    ensures |r| == |s|
  {
    seq(|s|, j requires 0 <= j < |s| => s[j] * c)
  }

  function Zeros(n: nat): (r: seq<real>)
    ensures |r| == n
  {
    seq(n, j => 0.0)
  }

  /** The factor applied under 'muK': (T0 * 1e6)^(2 - number of 'p' in the key). */
  function UnitFactor(cl: string, T0: real): real
    requires Count(cl, 'p') <= 2
  {
    Pow(T0 * 1000000.0, 2 - Count(cl, 'p'))
  }

  lemma KnownClHasFewP(cl: string)
    requires IsKnownCl(cl)
    ensures Count(cl, 'p') <= 2
  {
  }

  /** The tables calculate may read: None when the local table was never bound. */
  datatype Tables = Tables(lensed: Option<ClTable>, lensPotential: Option<ClTable>)

  /**
    One spectrum of `calculate` as the source writes it: the zero array that
    line 47 builds for tb/eb is overwritten on line 51 by the lensed table.
  */
  function SpectrumAsWritten(cl: string, ellmax: nat, t: Tables, unit: UnitName, T0: real): Result<seq<real>, ClError>
    requires IsKnownCl(cl)
  {
    var table := if 'p' in cl then t.lensPotential else t.lensed;
    if table.None? then Err(UnboundTable(if 'p' in cl then "lens_potential_cl" else "lensed_cl"))
    else if cl !in table.value then Err(MissingSpectrum(cl))
    else
      KnownClHasFewP(cl);
      var tmp := Truncate(table.value[cl], ellmax + 1);
      Ok(if unit == Unit("muK") then Scale(tmp, UnitFactor(cl, T0)) else tmp)
  }

  /** Requesting only 'tb' leaves the lensed table unbound, so the zeros never survive. */
  lemma OddParityAsWrittenFails(T0: real)
    ensures SpectrumAsWritten("tb", 10, Tables(None, None), NoUnit, T0) == Err(UnboundTable("lensed_cl"))
  {
    assert 'p' !in "tb";
  }

  /**
    One spectrum of `calculate`, with tb/eb kept as the zero array of ellmax + 1
    entries, whatever the unit; the other keys as the source computes them.
  */
  function Spectrum(cl: string, ellmax: nat, t: Tables, unit: UnitName, T0: real): (r: Result<seq<real>, ClError>)
    requires IsKnownCl(cl)
    ensures cl in OddParityKeys ==> r == Ok(Zeros(ellmax + 1))
  {
    if cl in OddParityKeys then
      var tmp := Zeros(ellmax + 1);
      KnownClHasFewP(cl);
      var f := UnitFactor(cl, T0);
      assert Scale(tmp, f) == tmp by {
        assert forall j :: 0 <= j < |tmp| ==> Scale(tmp, f)[j] == 0.0 * f == tmp[j];
      }
      Ok(if unit == Unit("muK") then Scale(tmp, f) else tmp)
    else SpectrumAsWritten(cl, ellmax, t, unit, T0)
  }

  /**
    Any other key is read from its table, lens-potential keys (with a 'p')
    from the lens-potential one and the others from the lensed one, cut to
    ellmax + 1 entries and scaled under 'muK'; it fails exactly when the table
    was not computed or lacks the key.
  */
  lemma SpectrumFromTable(cl: string, ellmax: nat, t: Tables, unit: UnitName, T0: real)
    requires IsKnownCl(cl) && cl !in OddParityKeys
    ensures var r := Spectrum(cl, ellmax, t, unit, T0);
      var table := if 'p' in cl then t.lensPotential else t.lensed;
      && (r.Ok? <==> table.Some? && cl in table.value)
      && (r.Ok? ==>
           && |r.value| == Min(|table.value[cl]|, ellmax + 1)
           && Count(cl, 'p') <= 2
           && forall j :: 0 <= j < |r.value| ==>
                r.value[j] == table.value[cl][j] * (if unit == Unit("muK") then UnitFactor(cl, T0) else 1.0))
  {
    KnownClHasFewP(cl);
  }

  /**
    The loop of `calculate` over the request: the spectra stored so far and the
    error that stopped it, if any.
  */
  function CalcRun(req: ClRequest, t: Tables, unit: UnitName, T0: real): (ClTable, Option<ClError>)
    requires forall i :: 0 <= i < |req| ==> IsKnownCl(req[i].0)
  {
    if req == [] then (map[], None)
    else
      var n := |req| - 1;
      var (m, e) := CalcRun(req[..n], t, unit, T0);
      if e.Some? then (m, e)
      else match Spectrum(req[n].0, req[n].1, t, unit, T0)
        case Ok(s) => (m[req[n].0 := s], None)
        case Err(x) => (m, Some(x))
  }

  /** A successful `calculate` stores exactly the requested keys. */
  lemma {:induction false} CalcRunKeys(req: ClRequest, t: Tables, unit: UnitName, T0: real)
    requires forall i :: 0 <= i < |req| ==> IsKnownCl(req[i].0)
    requires CalcRun(req, t, unit, T0).1 == None
    ensures CalcRun(req, t, unit, T0).0.Keys == Keys(req)
  {
    if req != [] {
      var m := CalcRunSnoc(req, t, unit, T0);
      CalcRunKeys(req[..|req| - 1], t, unit, T0);
      KeysSnoc(req);
    }
  }

  /** After a successful `calculate`, each requested key holds the spectrum its own ellmax calls for. */
  lemma {:induction false} CalcRunSpectra(req: ClRequest, t: Tables, unit: UnitName, T0: real)
    requires forall i :: 0 <= i < |req| ==> IsKnownCl(req[i].0)
    requires DistinctKeys(req)
    requires CalcRun(req, t, unit, T0).1 == None
    ensures forall i :: 0 <= i < |req| ==>
      && req[i].0 in CalcRun(req, t, unit, T0).0
      && Spectrum(req[i].0, req[i].1, t, unit, T0).Ok?
      && Spectrum(req[i].0, req[i].1, t, unit, T0).value == CalcRun(req, t, unit, T0).0[req[i].0]
  {
    if req != [] {
      var n := |req| - 1;
      var pre := req[..n];
      var m := CalcRunSnoc(req, t, unit, T0);
      CalcRunSpectra(pre, t, unit, T0);
      var k := req[n].0;
      forall i | 0 <= i < n
        ensures req[i].0 in m
        ensures Spectrum(req[i].0, req[i].1, t, unit, T0).Ok?
        ensures Spectrum(req[i].0, req[i].1, t, unit, T0).value == m[req[i].0]
      {
        assert req[i].0 != k;
        assert pre[i] == req[i];
      }
    }
  }

  /** A loop that did not stop: the last key adds its spectrum to what the others stored. */
  lemma CalcRunSnoc(req: ClRequest, t: Tables, unit: UnitName, T0: real) returns (m: ClTable)
    requires req != []
    requires forall i :: 0 <= i < |req| ==> IsKnownCl(req[i].0)
    requires CalcRun(req, t, unit, T0).1 == None
    ensures forall i :: 0 <= i < |req| - 1 ==> IsKnownCl(req[i].0)
    ensures CalcRun(req[..|req| - 1], t, unit, T0).1 == None
    ensures Spectrum(req[|req| - 1].0, req[|req| - 1].1, t, unit, T0).Ok?
    ensures m == CalcRun(req, t, unit, T0).0
    ensures m == CalcRun(req[..|req| - 1], t, unit, T0).0[req[|req| - 1].0 := Spectrum(req[|req| - 1].0, req[|req| - 1].1, t, unit, T0).value]
  {
    m := CalcRun(req, t, unit, T0).0;
  }

  /** The keys of a request are those of all but its last pair, plus the last key. */
  lemma KeysSnoc(req: ClRequest)
    requires req != []
    ensures Keys(req) == Keys(req[..|req| - 1]) + {req[|req| - 1].0}
  {
    var n := |req| - 1;
    var pre := req[..n];
    forall x | x in Keys(req) ensures x in Keys(pre) + {req[n].0} {
      var i :| 0 <= i < |req| && req[i].0 == x;
      if i < n { assert pre[i].0 == x; }
    }
    forall x | x in Keys(pre) ensures x in Keys(req) {
      var i :| 0 <= i < |pre| && pre[i].0 == x;
      assert req[i].0 == x;
    }
    assert req[n].0 in Keys(req);
  }

  /** Under 'muK' and with tt/ee/te/bb, a spectrum is scaled by (T0 * 1e6)^2. */
  lemma MuKScalingLensed(cl: string, ellmax: nat, t: Tables, T0: real)
    requires cl in LensedKeys
    requires Spectrum(cl, ellmax, t, Unit("muK"), T0).Ok?
    ensures forall j :: 0 <= j < |Spectrum(cl, ellmax, t, Unit("muK"), T0).value| ==>
      Spectrum(cl, ellmax, t, Unit("muK"), T0).value[j] == t.lensed.value[cl][j] * ((T0 * 1000000.0) * (T0 * 1000000.0))
  {
    SpectrumFromTable(cl, ellmax, t, Unit("muK"), T0);
    assert 'p' !in cl;
    assert Count(cl, 'p') == 0;
    var x := T0 * 1000000.0;
    assert Pow(x, 2) == x * x by {
      assert Pow(x, 1) == x * Pow(x, 0);
    }
  }

  /** Under 'muK', 'pp' is left unscaled. */
  lemma MuKScalingPotential(ellmax: nat, t: Tables, T0: real)
    requires Spectrum("pp", ellmax, t, Unit("muK"), T0).Ok?
    ensures Spectrum("pp", ellmax, t, Unit("muK"), T0).value == Truncate(t.lensPotential.value["pp"], ellmax + 1)
  {
    SpectrumFromTable("pp", ellmax, t, Unit("muK"), T0);
    assert 'p' in "pp";
    assert Count("pp", 'p') == 2;
  }

  // ----- snapshot -----

  /** The values a snapshot dictionary can hold. */
  datatype StateValue = Requested(req: ClRequest) | UnitValue(unit: UnitName) | Cl(values: seq<real>)

  function AsState(m: ClTable): map<string, StateValue> {
    map k | k in m :: Cl(m[k])
  }

  /** `__getstate__`: the attributes that are set, overlaid by the spectra. */
  function Snapshot(requested: Option<ClRequest>, unit: Option<UnitName>, cls: map<string, StateValue>): map<string, StateValue> {
    var state :=
      (if requested.Some? then map["requested_cls" := Requested(requested.value)] else map[])
      + (if unit.Some? then map["unit" := UnitValue(unit.value)] else map[]);
    state + cls
  }

  /** `__setstate__`: pop 'unit' and keep everything else as the spectra. */
  function Restore(state: map<string, StateValue>): Result<(UnitName, map<string, StateValue>), ClError> {
    if "unit" !in state then Err(MissingStateKey("unit"))
    else if !state["unit"].UnitValue? then Err(NotAUnit)
    else Ok((state["unit"].unit, state - {"unit"}))
  }

  /**
    Restoring a snapshot gives back the unit, and as spectra every snapshot key
    but 'unit' — so the spectra gain a 'requested_cls' entry.
  */
  lemma SnapshotRoundTrip(req: ClRequest, unit: UnitName, cls: map<string, StateValue>)
    requires "unit" !in cls && "requested_cls" !in cls
    ensures Restore(Snapshot(Some(req), Some(unit), cls)) == Ok((unit, cls["requested_cls" := Requested(req)]))
    ensures Restore(Snapshot(Some(req), Some(unit), cls)).value.1 != cls
  {
    var s := Snapshot(Some(req), Some(unit), cls);
    assert s - {"unit"} == cls["requested_cls" := Requested(req)];
    assert "requested_cls" in s - {"unit"};
  }

  /** A theory whose `initialize` stopped before setting `unit` yields a snapshot that cannot be restored. */
  lemma SnapshotWithoutUnit(req: Option<ClRequest>, cls: map<string, StateValue>)
    requires "unit" !in cls
    ensures Restore(Snapshot(req, None, cls)) == Err(MissingStateKey("unit"))
  {
  }

  // ----- the calculator -----

  /** The cosmology object: its init configuration and its CMB temperature. */
  class Cosmology {
    var init: CosmoInit
    var T0Cmb: real

    constructor (T0Cmb: real)
      ensures init == CosmoInit(None, None, None) && this.T0Cmb == T0Cmb
    {
      init := CosmoInit(None, None, None);
      this.T0Cmb := T0Cmb;
    }
  }

  class ClTheory {
    /** Attributes; None while not set. */
    var requestedCls: Option<ClRequest>
    var ellMaxLensedCls: nat
    var ellMaxLensPotentialCls: nat
    var unit: Option<UnitName>
    var T0: Option<real>
    var cosmo: Cosmology?
    var cls: Option<map<string, StateValue>>

    constructor ()
      ensures requestedCls == None && unit == None && T0 == None && cosmo == null && cls == None
    {
      requestedCls := None;
      ellMaxLensedCls, ellMaxLensPotentialCls := 0, 0;
      unit, T0, cosmo, cls := None, None, null, None;
    }

    /** The state a successful `initialize` leaves, which `calculate` needs. */
    predicate Ready()
      reads this
    {
      && requestedCls.Some?
      && (forall i :: 0 <= i < |requestedCls.value| ==> IsKnownCl(requestedCls.value[i].0))
      && unit.Some? && IsAllowedUnit(unit.value)
      && cosmo != null
    }

    /** The loop of `initialize` that sorts the request into its two maxima, up to the first unknown key. */
    method ScanRequest(req: ClRequest) returns (known: nat)
      modifies this`ellMaxLensedCls, this`ellMaxLensPotentialCls
      ensures known == KnownPrefix(req)
      ensures ellMaxLensedCls == MaxEllOver(req[..known], IsLensedCl)
      ensures ellMaxLensPotentialCls == MaxEllOver(req[..known], IsLensPotentialCl)
    {
      ellMaxLensedCls, ellMaxLensPotentialCls := 0, 0;
      var i := 0;
      while i < |req|
        invariant 0 <= i <= |req|
        invariant forall j :: 0 <= j < i ==> IsKnownCl(req[j].0)
        invariant ellMaxLensedCls == MaxEllOver(req[..i], IsLensedCl)
        invariant ellMaxLensPotentialCls == MaxEllOver(req[..i], IsLensPotentialCl)
      {
        var (cl, ellmax) := req[i];
        MaxEllOverStep(req, i, IsLensedCl);
        MaxEllOverStep(req, i, IsLensPotentialCl);
        GroupsDisjoint(cl);
        if cl in LensedKeys {
          ellMaxLensedCls := Max(ellMaxLensedCls, ellmax);
        } else if cl in LensPotentialKeys {
          ellMaxLensPotentialCls := Max(ellMaxLensPotentialCls, ellmax);
        } else if cl in OddParityKeys {
        } else {
          KnownPrefixAt(req, i);
          return i;
        }
        i := i + 1;
      }
      KnownPrefixAll(req);
      known := i;
    }

    /** The defaults and checks of `initialize` once the request has been scanned without an unknown key. */
    static method Settle(req: ClRequest, lensing: Option<bool>, nonLinear: Option<string>, unit: UnitName,
                         lensedMax: nat, potentialMax: nat) returns (r: Result<ClSettings, ClError>)
      requires KnownPrefix(req) == |req|
      requires lensedMax == MaxEllOver(req, IsLensedCl) && potentialMax == MaxEllOver(req, IsLensPotentialCl)
      ensures r == Initialized(req, lensing, nonLinear, unit)
      ensures r.Err? ==> r.error.MaxOfEmpty? || r.error == InvalidUnit(unit)
    {
      var lens := if lensing.Some? then lensing.value else potentialMax != 0;
      var nl: string;
      if nonLinear.Some? {
        nl := nonLinear.value;
      } else if potentialMax != 0 {
        nl := "mead";
      } else if req == [] {
        return Err(MaxOfEmpty);
      } else if MaxEllOver(req, HasB) > 50 {
        nl := "mead";
      } else {
        nl := "";
      }
      if !IsAllowedUnit(unit) {
        return Err(InvalidUnit(unit));
      }
      r := Ok(ClSettings(lensedMax, potentialMax, lens, nl, Max(lensedMax, potentialMax)));
    }

    method Initialize(req: ClRequest, lensing: Option<bool>, nonLinear: Option<string>, unit: UnitName,
                      cosmo: Cosmology, T0: Option<real>) returns (err: Option<ClError>)
      modifies this, cosmo
      ensures requestedCls == Some(req)
      ensures var k := KnownPrefix(req);
        && ellMaxLensedCls == MaxEllOver(req[..k], IsLensedCl)
        && ellMaxLensPotentialCls == MaxEllOver(req[..k], IsLensPotentialCl)
      ensures cls == old(cls) && cosmo.T0Cmb == old(cosmo.T0Cmb)
      ensures match Initialized(req, lensing, nonLinear, unit)
        case Ok(s) =>
          && err == None
          && this.unit == Some(unit) && this.T0 == T0 && this.cosmo == cosmo
          && cosmo.init == MergeInit(old(cosmo.init), s.lensing, s.ellMax, s.nonLinear)
          && Ready()
        case Err(e) =>
          && err == Some(e)
          && cosmo.init == old(cosmo.init)
          && this.T0 == old(this.T0) && this.cosmo == old(this.cosmo)
          && this.unit == (if e.InvalidUnit? then Some(unit) else old(this.unit))
    {
      requestedCls := Some(req);
      var known := ScanRequest(req);
      if known < |req| {
        return Some(UnknownCl(req[known].0));
      }
      assert req[..known] == req;
      var settled := Settle(req, lensing, nonLinear, unit, ellMaxLensedCls, ellMaxLensPotentialCls);
      if settled.Err? && settled.error.MaxOfEmpty? {
        return Some(MaxOfEmpty);
      }
      this.unit := Some(unit);
      if settled.Err? {
        return Some(settled.error);
      }
      var s := settled.value;
      this.T0 := T0;
      this.cosmo := cosmo;
      cosmo.init := MergeInit(cosmo.init, s.lensing, s.ellMax, s.nonLinear);
      err := None;
    }

    /** `calculate`, given the tables the harmonic engine returns for the two maxima. */
    method Calculate(lensed: ClTable, lensPotential: ClTable) returns (err: Option<ClError>)
      requires Ready()
      modifies this`cls
      ensures var t := Tables(if ellMaxLensedCls != 0 then Some(lensed) else None,
                              if ellMaxLensPotentialCls != 0 then Some(lensPotential) else None);
              var T := if T0.Some? then T0.value else cosmo.T0Cmb;
              var (m, e) := CalcRun(requestedCls.value, t, unit.value, T);
              cls == Some(AsState(m)) && err == e
    {
      var req := requestedCls.value;
      var t := Tables(if ellMaxLensedCls != 0 then Some(lensed) else None,
                      if ellMaxLensPotentialCls != 0 then Some(lensPotential) else None);
      var T := if T0.Some? then T0.value else cosmo.T0Cmb;
      var out: ClTable := map[];
      cls := Some(AsState(out));
      err := None;
      var i := 0;
      while i < |req|
        invariant 0 <= i <= |req|
        invariant CalcRun(req[..i], t, unit.value, T) == (out, None)
        invariant cls == Some(AsState(out))
      {
        var (cl, ellmax) := req[i];
        var s := Spectrum(cl, ellmax, t, unit.value, T);
        CalcRunPrefix(req, t, unit.value, T, i);
        if s.Err? {
          CalcRunStops(req, t, unit.value, T, i + 1);
          return Some(s.error);
        }
        out := out[cl := s.value];
        cls := Some(AsState(out));
        i := i + 1;
      }
      assert req[..|req|] == req;
    }

    /** `get`: the spectra of the last `calculate`; an error before any. */
    function Get(): (r: Result<map<string, StateValue>, ClError>)
      reads this
      ensures r.Ok? <==> cls.Some?
      ensures r.Ok? ==> r.value == cls.value
      ensures r.Err? ==> r.error == MissingAttribute("cls")
    {
      if cls.Some? then Ok(cls.value) else Err(MissingAttribute("cls"))
    }

    /**
      `__getstate__`: every spectrum, plus the request and the unit under their
      own names when set, a spectrum of the same name taking precedence.
    */
    function GetState(): (r: Result<map<string, StateValue>, ClError>)
      reads this
      ensures r.Ok? <==> cls.Some?
      ensures r.Ok? ==>
        && r.value.Keys == cls.value.Keys
             + (if requestedCls.Some? then {"requested_cls"} else {})
             + (if unit.Some? then {"unit"} else {})
        && (forall k :: k in cls.value ==> r.value[k] == cls.value[k])
        && (unit.Some? && "unit" !in cls.value ==> r.value["unit"] == UnitValue(unit.value))
        && (requestedCls.Some? && "requested_cls" !in cls.value ==> r.value["requested_cls"] == Requested(requestedCls.value))
    {
      if cls.None? then Err(MissingAttribute("cls"))
      else Ok(Snapshot(requestedCls, unit, cls.value))
    }

    method SetState(state: map<string, StateValue>) returns (err: Option<ClError>)
      modifies this`unit, this`cls
      ensures match Restore(state)
        case Ok((u, rest)) => err == None && unit == Some(u) && cls == Some(rest)
        case Err(e) => err == Some(e) && unit == old(unit) && cls == old(cls)
    {
      var s := state;
      if "unit" !in s {
        return Some(MissingStateKey("unit"));
      }
      var u := s["unit"];
      if !u.UnitValue? {
        return Some(NotAUnit);
      }
      s := s - {"unit"};
      unit := Some(u.unit);
      cls := Some(s);
      err := None;
    }
  }

  /** One more iteration of the running maximum. */
  lemma MaxEllOverStep(req: ClRequest, i: nat, sel: string -> bool)
    requires i < |req|
    ensures MaxEllOver(req[..i + 1], sel)
         == if sel(req[i].0) && req[i].1 > MaxEllOver(req[..i], sel) then req[i].1 else MaxEllOver(req[..i], sel)
  {
    assert req[..i + 1][..i] == req[..i];
  }

  lemma GroupsDisjoint(cl: string)
    ensures !(cl in LensedKeys && cl in LensPotentialKeys)
    ensures !(cl in LensedKeys && cl in OddParityKeys)
    ensures !(cl in LensPotentialKeys && cl in OddParityKeys)
  {
  }

  lemma KnownPrefixAt(req: ClRequest, i: nat)
    requires i < |req|
    requires forall j :: 0 <= j < i ==> IsKnownCl(req[j].0)
    requires !IsKnownCl(req[i].0)
    ensures KnownPrefix(req) == i
  {
  }

  lemma KnownPrefixAll(req: ClRequest)
    requires forall j :: 0 <= j < |req| ==> IsKnownCl(req[j].0)
    ensures KnownPrefix(req) == |req|
  {
  }

  /** One more key of the loop of `calculate`, not yet stopped. */
  lemma CalcRunPrefix(req: ClRequest, t: Tables, unit: UnitName, T0: real, i: nat)
    requires forall k :: 0 <= k < |req| ==> IsKnownCl(req[k].0)
    requires i < |req|
    requires CalcRun(req[..i], t, unit, T0).1 == None
    ensures var s := Spectrum(req[i].0, req[i].1, t, unit, T0);
      CalcRun(req[..i + 1], t, unit, T0)
        == if s.Ok? then (CalcRun(req[..i], t, unit, T0).0[req[i].0 := s.value], None)
           else (CalcRun(req[..i], t, unit, T0).0, Some(s.error))
  {
    assert req[..i + 1][..i] == req[..i];
    assert req[..i + 1][i] == req[i];
  }

  /** Once the loop of `calculate` has stopped on an error, later keys change nothing. */
  lemma {:induction false} CalcRunStops(req: ClRequest, t: Tables, unit: UnitName, T0: real, i: nat)
    requires forall k :: 0 <= k < |req| ==> IsKnownCl(req[k].0)
    requires 0 < i <= |req|
    requires CalcRun(req[..i], t, unit, T0).1.Some?
    ensures CalcRun(req, t, unit, T0) == CalcRun(req[..i], t, unit, T0)
  {
    if i < |req| {
      var n := |req| - 1;
      assert req[..n][..i] == req[..i];
      CalcRunStops(req[..n], t, unit, T0, i);
    } else {
      assert req[..i] == req;
    }
  }
}
