/**
  Model of the Gaussian covariance assembly for galaxy-clustering observables:
  bin intervals, survey footprints and their combination, and the layout of the
  covariance matrix of several power-spectrum / correlation-function
  observables, whose per-bin integrals are left abstract.
*/
module Covariance {
  import opened Wrappers

  // ===== intervals =====

  /** A bin (lower edge, upper edge). */
  datatype Interval = Interval(lo: real, hi: real)

  /** `_interval_intersection`: the largest lower bound and the smallest upper bound. */
  function Intersection(ivs: seq<Interval>): Interval
    requires |ivs| > 0
  {
    if |ivs| == 1 then ivs[0]
    else
      var rest := Intersection(ivs[1..]);
      Interval(MaxReal(ivs[0].lo, rest.lo), MinReal(ivs[0].hi, rest.hi))
  }

  /** `_interval_empty`: lower bound at or above the upper bound. */
  predicate IsEmpty(iv: Interval) {
    iv.lo >= iv.hi
  }

  /** The point x lies in every half-open interval [lo, hi). */
  predicate Covers(ivs: seq<Interval>, x: real) {
    forall i :: 0 <= i < |ivs| ==> ivs[i].lo <= x < ivs[i].hi
  }

  /** The intersection's bounds are the max of the lower and the min of the upper bounds. */
  lemma {:induction false} IntersectionBounds(ivs: seq<Interval>)
    requires |ivs| > 0
    ensures forall i :: 0 <= i < |ivs| ==> ivs[i].lo <= Intersection(ivs).lo && Intersection(ivs).hi <= ivs[i].hi
    ensures exists i :: 0 <= i < |ivs| && Intersection(ivs).lo == ivs[i].lo
    ensures exists i :: 0 <= i < |ivs| && Intersection(ivs).hi == ivs[i].hi
  {
    if |ivs| > 1 {
      var rest := ivs[1..];
      IntersectionBounds(rest);
      assert forall i :: 1 <= i < |ivs| ==> ivs[i] == rest[i - 1];
      var r := Intersection(rest);
      var a :| 0 <= a < |rest| && r.lo == rest[a].lo;
      var b :| 0 <= b < |rest| && r.hi == rest[b].hi;
      assert ivs[a + 1] == rest[a] && ivs[b + 1] == rest[b];
      var whole := Intersection(ivs);
      assert whole.lo == MaxReal(ivs[0].lo, r.lo) && whole.hi == MinReal(ivs[0].hi, r.hi);
      var la := if ivs[0].lo >= r.lo then 0 else a + 1;
      var lb := if ivs[0].hi <= r.hi then 0 else b + 1;
      assert whole.lo == ivs[la].lo;
      assert whole.hi == ivs[lb].hi;
    } else {
      assert Intersection(ivs).lo == ivs[0].lo && Intersection(ivs).hi == ivs[0].hi;
    }
  }

  /** A non-empty intersection lies inside every input interval. */
  lemma IntersectionInside(ivs: seq<Interval>)
    requires |ivs| > 0 && !IsEmpty(Intersection(ivs))
    ensures forall i :: 0 <= i < |ivs| ==>
      ivs[i].lo <= Intersection(ivs).lo < Intersection(ivs).hi <= ivs[i].hi
  {
    IntersectionBounds(ivs);
  }

  /** The intersection is non-empty exactly when some point lies in all the bins. */
  lemma IntersectionNonEmptyIff(ivs: seq<Interval>)
    requires |ivs| > 0
    ensures !IsEmpty(Intersection(ivs)) <==> exists x :: Covers(ivs, x)
  {
    IntersectionBounds(ivs);
    var r := Intersection(ivs);
    if !IsEmpty(r) {
      assert Covers(ivs, r.lo);
    }
    if x :| Covers(ivs, x) {
      var a :| 0 <= a < |ivs| && r.lo == ivs[a].lo;
      var b :| 0 <= b < |ivs| && r.hi == ivs[b].hi;
      assert ivs[a].lo <= x < ivs[b].hi;
    }
  }

  // ===== footprints =====

  datatype FootprintError =
    | MissingDensity       // neither nbar nor size: ValueError
    | MissingAreaOrZrange  // cut-sky without area or zrange: ValueError
    | NoneOperand          // arithmetic or comparison on None: TypeError
    | ZeroSize             // division of the volume by a zero size
    | EmptyArray           // a size-0 area, zrange or nbar cannot take the scalar shape (): ValueError
    | ZrangeIndex          // indexing a one-edge (scalar) or a too short merged zrange: IndexError

  /** A box (periodic) footprint; None = not given. */
  datatype BoxFootprint = BoxFootprint(nbar: Option<real>, size: Option<real>, volume: Option<real>)

  /** `BaseFootprint.__init__`. */
  function NewBox(nbar: Option<real>, size: Option<real>, volume: Option<real>): (r: Result<BoxFootprint, FootprintError>)
    ensures r.Ok? <==> nbar.Some? || size.Some?
    ensures r.Err? ==> r.error == MissingDensity
    ensures r.Ok? ==> r.value.nbar == nbar && r.value.size == size && r.value.volume == volume
  {
    if nbar.None? && size.None? then Err(MissingDensity)
    else Ok(BoxFootprint(nbar, size, volume))
  }

  /** `size`: the explicit size when given, else nbar * volume. */
  function BoxSize(f: BoxFootprint): Result<real, FootprintError> {
    if f.size.Some? then Ok(f.size.value)
    else if f.nbar.None? || f.volume.None? then Err(NoneOperand)
    else Ok(f.nbar.value * f.volume.value)
  }

  /** `shotnoise`: volume / size. */
  function BoxShotnoise(f: BoxFootprint): Result<real, FootprintError> {
    var size := BoxSize(f);
    if f.volume.None? || size.Err? then Err(NoneOperand)
    else if size.value == 0.0 then Err(ZeroSize)
    else Ok(f.volume.value / size.value)
  }

  /** Shot noise times size gives back the volume; from a density alone it is 1 / nbar. */
  lemma BoxShotnoiseRule(f: BoxFootprint)
    ensures BoxShotnoise(f).Ok? ==> BoxShotnoise(f).value * BoxSize(f).value == f.volume.value
    ensures f.size.None? && f.nbar.Some? && f.volume.Some? && f.nbar.value != 0.0 && f.volume.value != 0.0
      ==> BoxShotnoise(f).Ok? && BoxShotnoise(f).value == 1.0 / f.nbar.value
  {
    if f.size.None? && f.nbar.Some? && f.volume.Some? && f.nbar.value != 0.0 && f.volume.value != 0.0 {
      var n, v := f.nbar.value, f.volume.value;
      assert v / (n * v) == 1.0 / n;
    }
  }

  /** `BaseFootprint.__and__`: densities add, the smaller volume is kept. */
  function BoxAnd(a: BoxFootprint, b: BoxFootprint): Result<BoxFootprint, FootprintError> {
    if a.nbar.None? || b.nbar.None? || a.volume.None? || b.volume.None? then Err(NoneOperand)
    else Ok(BoxFootprint(Some(a.nbar.value + b.nbar.value), None, Some(MinReal(a.volume.value, b.volume.value))))
  }

  lemma BoxAndFields(a: BoxFootprint, b: BoxFootprint)
    ensures BoxAnd(a, b).Ok? <==> a.nbar.Some? && b.nbar.Some? && a.volume.Some? && b.volume.Some?
    ensures BoxAnd(a, b).Ok? ==>
      var c := BoxAnd(a, b).value;
      && c.nbar == Some(a.nbar.value + b.nbar.value)
      && c.volume.value <= a.volume.value && c.volume.value <= b.volume.value
      && (c.volume == a.volume || c.volume == b.volume)
      && c.size == None
      && NewBox(c.nbar, c.size, c.volume) == Ok(c)
  {
  }

  /**
    The combination of two boxes has size (nbar_a + nbar_b) times the smaller
    volume, so its shot noise is 1 / (nbar_a + nbar_b) whatever the volumes.
  */
  lemma BoxAndSize(a: BoxFootprint, b: BoxFootprint)
    ensures BoxAnd(a, b).Ok? ==>
      && BoxSize(BoxAnd(a, b).value).Ok?
      && BoxSize(BoxAnd(a, b).value).value == (a.nbar.value + b.nbar.value) * MinReal(a.volume.value, b.volume.value)
    ensures BoxAnd(a, b).Ok? && a.nbar.value + b.nbar.value != 0.0 && MinReal(a.volume.value, b.volume.value) != 0.0 ==>
      && BoxShotnoise(BoxAnd(a, b).value).Ok?
      && BoxShotnoise(BoxAnd(a, b).value).value == 1.0 / (a.nbar.value + b.nbar.value)
  {
    if BoxAnd(a, b).Ok? {
      var c := BoxAnd(a, b).value;
      assert c.size.None? && c.nbar == Some(a.nbar.value + b.nbar.value);
      assert c.volume == Some(MinReal(a.volume.value, b.volume.value));
      BoxShotnoiseRule(c);
    }
  }

  lemma BoxAndCommutative(a: BoxFootprint, b: BoxFootprint)
    ensures BoxAnd(a, b) == BoxAnd(b, a)
  {
  }

  lemma BoxAndAssociative(a: BoxFootprint, b: BoxFootprint, c: BoxFootprint)
    requires BoxAnd(a, b).Ok? && BoxAnd(b, c).Ok?
    ensures BoxAnd(BoxAnd(a, b).value, c) == BoxAnd(a, BoxAnd(b, c).value)
  {
  }

  // ----- cut-sky footprints: z-range ordering and merging -----

  /** A cut-sky footprint; `area` and `nbar` are the arrays as given. */
  datatype CutskyFootprint = CutskyFootprint(nbar: Option<seq<real>>, size: Option<real>, area: seq<real>, zrange: seq<real>)

  predicate Sorted(s: seq<real>) {
    forall i, j :: 0 <= i < j < |s| ==> s[i] <= s[j]
  }

  predicate StrictlySorted(s: seq<real>) {
    forall i, j :: 0 <= i < j < |s| ==> s[i] < s[j]
  }

  /** p orders the values of s ascending. */
  predicate SortedBy(p: seq<nat>, s: seq<real>)
    requires forall i :: 0 <= i < |p| ==> p[i] < |s|
  {
    forall i, j :: 0 <= i < j < |p| ==> s[p[i]] <= s[p[j]]
  }

  /** `a[p]`: the values of a picked by the index array p. */
  function Permute<T>(a: seq<T>, p: seq<nat>): (r: seq<T>)
    requires forall i :: 0 <= i < |p| ==> p[i] < |a|
    ensures |r| == |p|
    ensures forall i :: 0 <= i < |p| ==> r[i] == a[p[i]]
  {
    seq(|p|, i requires 0 <= i < |p| => a[p[i]])
  }

  /** Insert index k before the first index of p whose value is larger than s[k]. */
  function InsertIndex(p: seq<nat>, k: nat, s: seq<real>): (r: seq<nat>)
    requires forall i :: 0 <= i < |p| ==> p[i] < |s|
    requires k < |s|
    ensures |r| == |p| + 1
    ensures forall i :: 0 <= i < |r| ==> r[i] < |s|
  {
    if p == [] then [k]
    else if s[k] < s[p[0]] then [k] + p
    else [p[0]] + InsertIndex(p[1..], k, s)
  }

  /** Where InsertIndex puts k. */
  function InsertPos(p: seq<nat>, k: nat, s: seq<real>): (j: nat)
    requires forall i :: 0 <= i < |p| ==> p[i] < |s|
    requires k < |s|
    ensures j <= |p|
    ensures InsertIndex(p, k, s) == p[..j] + [k] + p[j..]
  {
    if p == [] then 0
    else if s[k] < s[p[0]] then 0
    else
      var j := InsertPos(p[1..], k, s);
      assert [p[0]] + (p[1..][..j] + [k] + p[1..][j..]) == p[..j + 1] + [k] + p[j + 1..];
      j + 1
  }

  /** Argsort of the first n values of s, by insertion of the indices 0 .. n-1 in turn. */
  function ArgSortUpTo(s: seq<real>, n: nat): (p: seq<nat>)
    requires n <= |s|
    ensures |p| == n
    ensures forall i :: 0 <= i < |p| ==> p[i] < n
  {
    if n == 0 then []
    else
      var q := ArgSortUpTo(s, n - 1);
      var j := InsertPos(q, n - 1, s);
      assert forall i :: 0 <= i < |q| ==> q[i] < |s|;
      var r := InsertIndex(q, n - 1, s);
      assert r == q[..j] + [n - 1] + q[j..];
      assert forall i :: 0 <= i < |r| ==> r[i] < n by {
        forall i | 0 <= i < |r| ensures r[i] < n {
          if i < j { assert r[i] == q[i]; }
          else if i > j { assert r[i] == q[i - 1]; }
        }
      }
      r
  }

  /** `np.argsort`, modelled as a stable sort: tied values keep their input order. */
  function ArgSort(s: seq<real>): seq<nat> {
    ArgSortUpTo(s, |s|)
  }

  lemma {:induction false} InsertIndexSorted(p: seq<nat>, k: nat, s: seq<real>)
    requires forall i :: 0 <= i < |p| ==> p[i] < |s|
    requires k < |s|
    requires SortedBy(p, s)
    ensures SortedBy(InsertIndex(p, k, s), s)
  {
    if p != [] && s[k] >= s[p[0]] {
      var tail := p[1..];
      assert SortedBy(tail, s) by {
        forall i, j | 0 <= i < j < |tail| ensures s[tail[i]] <= s[tail[j]] {
          assert tail[i] == p[i + 1] && tail[j] == p[j + 1];
        }
      }
      InsertIndexSorted(tail, k, s);
      var rest := InsertIndex(tail, k, s);
      var jj := InsertPos(tail, k, s);
      assert rest == tail[..jj] + [k] + tail[jj..];
      var r := [p[0]] + rest;
      forall i, j | 0 <= i < j < |r| ensures s[r[i]] <= s[r[j]] {
        if i == 0 {
          if j - 1 < jj { assert r[j] == p[j]; }
          else if j - 1 > jj { assert r[j] == p[j - 1]; }
        }
      }
    }
  }

  lemma {:induction false} ArgSortSorted(s: seq<real>, n: nat)
    requires n <= |s|
    ensures SortedBy(ArgSortUpTo(s, n), s)
  {
    if n > 0 {
      ArgSortSorted(s, n - 1);
      InsertIndexSorted(ArgSortUpTo(s, n - 1), n - 1, s);
    }
  }

  /** Picking by an index array with k spliced in at j splices t[k] in at j. */
  lemma PermuteSplice<T>(t: seq<T>, q: seq<nat>, j: nat, k: nat, r: seq<nat>)
    requires forall i :: 0 <= i < |q| ==> q[i] < |t|
    requires j <= |q| && k < |t|
    requires r == q[..j] + [k] + q[j..]
    ensures forall i :: 0 <= i < |r| ==> r[i] < |t|
    ensures multiset(Permute(t, r)) == multiset(Permute(t, q)) + multiset{t[k]}
  {
    var pq := Permute(t, q);
    assert Permute(t, r) == pq[..j] + [t[k]] + pq[j..];
    assert pq == pq[..j] + pq[j..];
  }

  /** Splicing index k into a permutation of t[..k] gives a permutation of t[..k+1]. */
  lemma SpliceStep<T>(t: seq<T>, q: seq<nat>, j: nat, k: nat, r: seq<nat>)
    requires forall i :: 0 <= i < |q| ==> q[i] < |t|
    requires j <= |q| && k < |t|
    requires r == q[..j] + [k] + q[j..]
    requires multiset(Permute(t, q)) == multiset(t[..k])
    ensures forall i :: 0 <= i < |r| ==> r[i] < |t|
    ensures multiset(Permute(t, r)) == multiset(t[..k + 1])
  {
    PermuteSplice(t, q, j, k, r);
    assert t[..k + 1] == t[..k] + [t[k]];
  }

  /** One insertion step of ArgSortUpTo. */
  lemma ArgSortStep(s: seq<real>, n: nat) returns (q: seq<nat>, j: nat)
    requires 0 < n <= |s|
    ensures q == ArgSortUpTo(s, n - 1) && j <= |q|
    ensures ArgSortUpTo(s, n) == q[..j] + [n - 1] + q[j..]
  {
    q := ArgSortUpTo(s, n - 1);
    j := InsertPos(q, n - 1, s);
  }

  /** Picking any sequence by the argsort of n values is a permutation of its first n entries. */
  lemma {:induction false} ArgSortPermutes<T>(s: seq<real>, t: seq<T>, n: nat)
    requires n <= |s| && n <= |t|
    ensures multiset(Permute(t, ArgSortUpTo(s, n))) == multiset(t[..n])
  {
    if n > 0 {
      var q, j := ArgSortStep(s, n);
      ArgSortPermutes(s, t, n - 1);
      SpliceStep(t, q, j, n - 1, ArgSortUpTo(s, n));
    } else {
      assert Permute(t, ArgSortUpTo(s, n)) == [] == t[..n];
    }
  }

  /** The cut-sky constructor's arguments; None = not given. */
  function NewCutsky(nbar: Option<seq<real>>, size: Option<real>, area: Option<seq<real>>, zrange: Option<seq<real>>)
    : Result<CutskyFootprint, FootprintError>
  {
    if nbar.None? && size.None? then Err(MissingDensity)
    else if area.None? || zrange.None? then Err(MissingAreaOrZrange)
    else if |area.value| == 0 || |zrange.value| == 0 || nbar == Some([]) then Err(EmptyArray)
    else if |zrange.value| == 1 then Err(ZrangeIndex)
    else
      var z := zrange.value;
      var p := ArgSort(z);
      var nb := if nbar.Some? && |nbar.value| == |z| then Some(Permute(nbar.value, p)) else nbar;
      Ok(CutskyFootprint(nb, size, area.value, Permute(z, p)))
  }

  function Zip(a: seq<real>, b: seq<real>): (r: seq<(real, real)>)
    requires |a| == |b|
    ensures |r| == |a|
  {
    seq(|a|, i requires 0 <= i < |a| => (a[i], b[i]))
  }

  /**
    The cut-sky constructor fails exactly as the source does: no density, then
    no area or zrange, then an empty array (which numpy cannot reshape to a
    scalar), then a one-edge zrange (a scalar, which the argsort cannot index).
    It stores zrange ascending as a permutation of the input, and when nbar has
    one value per edge keeps each edge paired with its own density.
  */
  lemma CutskyConstruction(nbar: Option<seq<real>>, size: Option<real>, area: Option<seq<real>>, zrange: Option<seq<real>>)
    ensures nbar.None? && size.None? ==> NewCutsky(nbar, size, area, zrange) == Err(MissingDensity)
    ensures (nbar.Some? || size.Some?) && (area.None? || zrange.None?) ==> NewCutsky(nbar, size, area, zrange) == Err(MissingAreaOrZrange)
    ensures (nbar.Some? || size.Some?) && area.Some? && zrange.Some? ==>
      && (|area.value| == 0 || |zrange.value| == 0 || nbar == Some([]) ==> NewCutsky(nbar, size, area, zrange) == Err(EmptyArray))
      && (|area.value| > 0 && |zrange.value| == 1 && nbar != Some([]) ==> NewCutsky(nbar, size, area, zrange) == Err(ZrangeIndex))
      && (NewCutsky(nbar, size, area, zrange).Ok? <==> |area.value| > 0 && |zrange.value| >= 2 && nbar != Some([]))
    ensures NewCutsky(nbar, size, area, zrange).Ok? ==>
      var f := NewCutsky(nbar, size, area, zrange).value;
      && f.area == area.value && f.size == size
      && |f.zrange| == |zrange.value| >= 2
      && Sorted(f.zrange)
      && multiset(f.zrange) == multiset(zrange.value)
      && (nbar.Some? && |nbar.value| == |zrange.value| ==>
            f.nbar.Some? && |f.nbar.value| == |f.zrange|
            && multiset(Zip(f.zrange, f.nbar.value)) == multiset(Zip(zrange.value, nbar.value)))
      && ((nbar.None? || |nbar.value| != |zrange.value|) ==> f.nbar == nbar)
  {
    if NewCutsky(nbar, size, area, zrange).Ok? {
      var z := zrange.value;
      var p := ArgSort(z);
      ArgSortSorted(z, |z|);
      ArgSortPermutes(z, z, |z|);
      assert z[..|z|] == z;
      var f := NewCutsky(nbar, size, area, zrange).value;
      assert f.zrange == Permute(z, p);
      if nbar.Some? && |nbar.value| == |z| {
        var zn := Zip(z, nbar.value);
        ArgSortPermutes(z, zn, |z|);
        assert zn[..|z|] == zn;
        assert Zip(f.zrange, f.nbar.value) == Permute(zn, p);
      }
    }
  }

  /** Insert x into a strictly increasing sequence, unless it is already there. */
  function InsertUnique(u: seq<real>, x: real): seq<real> {
    if u == [] then [x]
    else if x < u[0] then [x] + u
    else if x == u[0] then u
    else [u[0]] + InsertUnique(u[1..], x)
  }

  lemma {:induction false} InsertUniqueProps(u: seq<real>, x: real)
    requires StrictlySorted(u)
    ensures StrictlySorted(InsertUnique(u, x))
    ensures Elements(InsertUnique(u, x)) == Elements(u) + {x}
  {
    if u == [] {
      ElementsCons(x, []);
    } else {
      ElementsCons(u[0], u[1..]);
      assert u == [u[0]] + u[1..];
      if x < u[0] {
        ElementsCons(x, u);
        ConsStrictlySorted(x, u);
      } else if x > u[0] {
        var tail := u[1..];
        TailStrictlySorted(u);
        InsertUniqueProps(tail, x);
        var t := InsertUnique(tail, x);
        ElementsAbove(t, u[0]);
        ElementsCons(u[0], t);
        ConsStrictlySorted(u[0], t);
      }
    }
  }

  /** Dropping the head of a strictly increasing sequence leaves one whose values all exceed the head. */
  lemma TailStrictlySorted(u: seq<real>)
    requires StrictlySorted(u) && u != []
    ensures StrictlySorted(u[1..])
    ensures forall y :: y in Elements(u[1..]) ==> y > u[0]
  {
    var tail := u[1..];
    forall i, j | 0 <= i < j < |tail| ensures tail[i] < tail[j] {
      assert tail[i] == u[i + 1] && tail[j] == u[j + 1];
    }
    forall y | y in Elements(tail) ensures y > u[0] {
      var k :| 0 <= k < |tail| && tail[k] == y;
      assert u[k + 1] == y;
    }
  }

  lemma ElementsAbove(t: seq<real>, b: real)
    requires forall y :: y in Elements(t) ==> y > b
    ensures forall i :: 0 <= i < |t| ==> t[i] > b
  {
    forall i | 0 <= i < |t| ensures t[i] > b {
      assert t[i] in Elements(t);
    }
  }

  lemma ConsStrictlySorted(x: real, t: seq<real>)
    requires StrictlySorted(t)
    requires forall i :: 0 <= i < |t| ==> t[i] > x
    ensures StrictlySorted([x] + t)
  {
    var r := [x] + t;
    forall i, j | 0 <= i < j < |r| ensures r[i] < r[j] {
      assert r[j] == t[j - 1];
      if i > 0 { assert r[i] == t[i - 1]; }
    }
  }

  function Elements(s: seq<real>): set<real> {
    set i | 0 <= i < |s| :: s[i]
  }

  lemma ElementsCons(x: real, s: seq<real>)
    ensures Elements([x] + s) == {x} + Elements(s)
  {
    var r := [x] + s;
    forall y | y in Elements(r) ensures y in {x} + Elements(s) {
      var i :| 0 <= i < |r| && r[i] == y;
      if i > 0 { assert s[i - 1] == y; }
    }
    forall y | y in Elements(s) ensures y in Elements(r) {
      var i :| 0 <= i < |s| && s[i] == y;
      assert r[i + 1] == y;
    }
    assert r[0] == x;
  }

  /** `np.unique`: the distinct values, ascending. */
  function Unique(s: seq<real>): (r: seq<real>)
    ensures StrictlySorted(r)
    ensures Elements(r) == Elements(s)
  {
    if s == [] then []
    else
      var n := |s| - 1;
      var u := Unique(s[..n]);
      assert s == s[..n] + [s[n]];
      ElementsConcat(s[..n], [s[n]]);
      ElementsCons(s[n], []);
      assert [s[n]] + [] == [s[n]];
      InsertUniqueProps(u, s[n]);
      InsertUnique(u, s[n])
  }

  /** `zrange[(zrange >= lo) & (zrange <= hi)]`. */
  function Mask(s: seq<real>, lo: real, hi: real): (r: seq<real>)
    ensures forall i :: 0 <= i < |r| ==> lo <= r[i] <= hi
    ensures Elements(r) == set x | x in Elements(s) && lo <= x <= hi
  {
    if s == [] then []
    else
      var rest := Mask(s[1..], lo, hi);
      assert s == [s[0]] + s[1..];
      ElementsCons(s[0], s[1..]);
      if lo <= s[0] <= hi then
        ElementsCons(s[0], rest);
        [s[0]] + rest
      else rest
  }

  lemma {:induction false} MaskKeepsOrder(s: seq<real>, lo: real, hi: real)
    requires StrictlySorted(s)
    ensures StrictlySorted(Mask(s, lo, hi))
  {
    if s != [] {
      var t := s[1..];
      assert StrictlySorted(t) by {
        forall i, j | 0 <= i < j < |t| ensures t[i] < t[j] { assert t[i] == s[i + 1] && t[j] == s[j + 1]; }
      }
      MaskKeepsOrder(t, lo, hi);
      var rest := Mask(t, lo, hi);
      forall i | 0 <= i < |rest| ensures s[0] < rest[i] {
        assert rest[i] in Elements(rest);
        var k :| 0 <= k < |t| && t[k] == rest[i];
        assert s[k + 1] == rest[i];
      }
    }
  }

  /**
    `CutskyFootprint.__and__`, z-range part: the distinct edges of both
    footprints, clipped to the overlap of their redshift ranges. Every
    constructed footprint has at least two edges (CutskyConstruction); a merged
    range with fewer than two edges hits the out-of-range index of the
    `zrange.size < 2` branch.
  */
  function CutskyAndZrange(a: CutskyFootprint, b: CutskyFootprint): Result<seq<real>, FootprintError>
    requires |a.zrange| >= 2 && |b.zrange| >= 2
  {
    var lo := MaxReal(a.zrange[0], b.zrange[0]);
    var hi := MinReal(a.zrange[|a.zrange| - 1], b.zrange[|b.zrange| - 1]);
    var z := Mask(Unique(a.zrange + b.zrange), lo, hi);
    if |z| < 2 then Err(ZrangeIndex) else Ok(z)
  }

  /** The merged z-range is ascending, duplicate-free and made of the edges of both inside the common range. */
  lemma CutskyAndZrangeProps(a: CutskyFootprint, b: CutskyFootprint)
    requires |a.zrange| >= 2 && |b.zrange| >= 2
    requires CutskyAndZrange(a, b).Ok?
    ensures var z := CutskyAndZrange(a, b).value;
      && StrictlySorted(z)
      && |z| >= 2
      && (forall i :: 0 <= i < |z| ==>
            MaxReal(a.zrange[0], b.zrange[0]) <= z[i] <= MinReal(a.zrange[|a.zrange| - 1], b.zrange[|b.zrange| - 1]))
      && Elements(z) == set x | x in Elements(a.zrange + b.zrange)
                                && MaxReal(a.zrange[0], b.zrange[0]) <= x
                                && x <= MinReal(a.zrange[|a.zrange| - 1], b.zrange[|b.zrange| - 1])
  {
    MaskKeepsOrder(Unique(a.zrange + b.zrange),
                   MaxReal(a.zrange[0], b.zrange[0]),
                   MinReal(a.zrange[|a.zrange| - 1], b.zrange[|b.zrange| - 1]));
  }

  lemma CutskyAndZrangeCommutative(a: CutskyFootprint, b: CutskyFootprint)
    requires |a.zrange| >= 2 && |b.zrange| >= 2
    ensures CutskyAndZrange(a, b).Ok? <==> CutskyAndZrange(b, a).Ok?
    ensures CutskyAndZrange(a, b).Ok? ==> CutskyAndZrange(a, b) == CutskyAndZrange(b, a)
  {
    var lo := MaxReal(a.zrange[0], b.zrange[0]);
    var hi := MinReal(a.zrange[|a.zrange| - 1], b.zrange[|b.zrange| - 1]);
    var u1 := Unique(a.zrange + b.zrange);
    var u2 := Unique(b.zrange + a.zrange);
    assert Elements(a.zrange + b.zrange) == Elements(b.zrange + a.zrange) by {
      ElementsConcat(a.zrange, b.zrange);
      ElementsConcat(b.zrange, a.zrange);
    }
    StrictlySortedUnique(u1, u2);
    assert u1 == u2;
    assert lo == MaxReal(b.zrange[0], a.zrange[0]);
    assert hi == MinReal(b.zrange[|b.zrange| - 1], a.zrange[|a.zrange| - 1]);
  }

  lemma ElementsConcat(a: seq<real>, b: seq<real>)
    ensures Elements(a + b) == Elements(a) + Elements(b)
  {
    forall y | y in Elements(a + b) ensures y in Elements(a) + Elements(b) {
      var i :| 0 <= i < |a + b| && (a + b)[i] == y;
      if i >= |a| { assert b[i - |a|] == y; }
    }
    forall y | y in Elements(b) ensures y in Elements(a + b) {
      var i :| 0 <= i < |b| && b[i] == y;
      assert (a + b)[i + |a|] == y;
    }
    forall y | y in Elements(a) ensures y in Elements(a + b) {
      var i :| 0 <= i < |a| && a[i] == y;
      assert (a + b)[i] == y;
    }
  }

  /** A sequence has no values exactly when it is empty. */
  lemma ElementsEmpty(s: seq<real>)
    ensures Elements(s) == {} <==> s == []
  {
    if s != [] {
      assert s[0] in Elements(s);
    }
  }

  /** Two strictly increasing sequences with the same values are equal. */
  lemma {:induction false} StrictlySortedUnique(u: seq<real>, v: seq<real>)
    requires StrictlySorted(u) && StrictlySorted(v)
    requires Elements(u) == Elements(v)
    ensures u == v
  {
    ElementsEmpty(u);
    ElementsEmpty(v);
    if u != [] && v != [] {
      assert u[0] <= v[0] by {
        assert v[0] in Elements(u);
        var j :| 0 <= j < |u| && u[j] == v[0];
        if j > 0 { assert u[0] < u[j]; }
      }
      assert v[0] <= u[0] by {
        assert u[0] in Elements(v);
        var i :| 0 <= i < |v| && v[i] == u[0];
        if i > 0 { assert v[0] < v[i]; }
      }
      var u', v' := u[1..], v[1..];
      assert StrictlySorted(u') by {
        forall a, b | 0 <= a < b < |u'| ensures u'[a] < u'[b] { assert u'[a] == u[a + 1] && u'[b] == u[b + 1]; }
      }
      assert StrictlySorted(v') by {
        forall a, b | 0 <= a < b < |v'| ensures v'[a] < v'[b] { assert v'[a] == v[a + 1] && v'[b] == v[b + 1]; }
      }
      assert u == [u[0]] + u' && v == [v[0]] + v';
      ElementsConcat([u[0]], u');
      ElementsConcat([v[0]], v');
      assert u[0] !in Elements(u') by {
        forall a | 0 <= a < |u'| ensures u'[a] != u[0] { assert u'[a] == u[a + 1]; }
      }
      assert v[0] !in Elements(v') by {
        forall a | 0 <= a < |v'| ensures v'[a] != v[0] { assert v'[a] == v[a + 1]; }
      }
      assert Elements(u') == Elements(v');
      StrictlySortedUnique(u', v');
    }
  }

  // ===== matrices and block assembly =====

  /** A dense rows x cols matrix. */
  datatype Matrix = Matrix(rows: nat, cols: nat, at: seq<seq<real>>)

  predicate IsMatrix(m: Matrix) {
    |m.at| == m.rows && forall i :: 0 <= i < m.rows ==> |m.at[i]| == m.cols
  }

  predicate IsSymmetric(m: Matrix)
    requires IsMatrix(m)
  {
    m.rows == m.cols && forall i, j :: 0 <= i < m.rows && 0 <= j < m.cols ==> m.at[i][j] == m.at[j][i]
  }

  /** `c.T`. */
  function Transpose(m: Matrix): (r: Matrix)
    requires IsMatrix(m)
    ensures IsMatrix(r) && r.rows == m.cols && r.cols == m.rows
    ensures forall i, j :: 0 <= i < m.cols && 0 <= j < m.rows ==> r.at[i][j] == m.at[j][i]
  {
    Matrix(m.cols, m.rows, seq(m.cols, j requires 0 <= j < m.cols => seq(m.rows, i requires 0 <= i < m.rows => m.at[i][j])))
  }

  /** `(c + c.T) / 2` of a square matrix. */
  function Symmetrize(m: Matrix): (r: Matrix)
    requires IsMatrix(m) && m.rows == m.cols
    ensures IsMatrix(r) && r.rows == m.rows && r.cols == m.cols
  {
    Matrix(m.rows, m.cols, seq(m.rows, i requires 0 <= i < m.rows =>
      seq(m.cols, j requires 0 <= j < m.cols => (m.at[i][j] + m.at[j][i]) / 2.0)))
  }

  lemma TransposeInvolution(m: Matrix)
    requires IsMatrix(m)
    ensures Transpose(Transpose(m)) == m
  {
    var t := Transpose(Transpose(m));
    assert forall i :: 0 <= i < m.rows ==> t.at[i] == m.at[i];
  }

  lemma SymmetrizeSymmetric(m: Matrix)
    requires IsMatrix(m) && m.rows == m.cols
    ensures IsSymmetric(Symmetrize(m))
    ensures Transpose(Symmetrize(m)) == Symmetrize(m)
    ensures IsSymmetric(m) ==> Symmetrize(m) == m
  {
    var s := Symmetrize(m);
    var t := Transpose(s);
    assert forall i :: 0 <= i < m.rows ==> t.at[i] == s.at[i];
    if IsSymmetric(m) {
      assert forall i :: 0 <= i < m.rows ==> s.at[i] == m.at[i];
    }
  }

  function Sum(s: seq<nat>): nat {
    if s == [] then 0 else s[0] + Sum(s[1..])
  }

  /** Where block i starts: the sum of the sizes before it. */
  function Offset(s: seq<nat>, i: nat): nat
    requires i <= |s|
  {
    if i == 0 then 0 else s[0] + Offset(s[1..], i - 1)
  }

  lemma {:induction false} OffsetLast(s: seq<nat>, i: nat)
    requires i < |s|
    ensures Offset(s, i) + s[i] <= Sum(s)
  {
    if i > 0 { OffsetLast(s[1..], i - 1); }
  }

  /** Which block a global index p falls in, and where inside it. */
  function Locate(sizes: seq<nat>, p: nat): (r: (nat, nat))
    requires p < Sum(sizes)
    ensures r.0 < |sizes| && r.1 < sizes[r.0] && p == Offset(sizes, r.0) + r.1
  {
    if p < sizes[0] then (0, p)
    else
      var (i, k) := Locate(sizes[1..], p - sizes[0]);
      (i + 1, k)
  }

  lemma {:induction false} LocateOffset(sizes: seq<nat>, i: nat, k: nat)
    requires i < |sizes| && k < sizes[i]
    ensures Offset(sizes, i) + k < Sum(sizes)
    ensures Locate(sizes, Offset(sizes, i) + k) == (i, k)
  {
    OffsetLast(sizes, i);
    if i > 0 {
      LocateOffset(sizes[1..], i - 1, k);
    }
  }

  /** blocks[i][j] is an rs[i] x cs[j] matrix. */
  predicate BlockShaped(blocks: seq<seq<Matrix>>, rs: seq<nat>, cs: seq<nat>) {
    && |blocks| == |rs|
    && (forall i :: 0 <= i < |blocks| ==> |blocks[i]| == |cs|)
    && (forall i, j {:trigger blocks[i][j]} :: 0 <= i < |blocks| && 0 <= j < |cs| ==>
          IsMatrix(blocks[i][j]) && blocks[i][j].rows == rs[i] && blocks[i][j].cols == cs[j])
  }

  function BmatEntry(blocks: seq<seq<Matrix>>, rs: seq<nat>, cs: seq<nat>, p: nat, q: nat): real
    requires BlockShaped(blocks, rs, cs)
    requires p < Sum(rs) && q < Sum(cs)
  {
    var (i, k) := Locate(rs, p);
    var (j, l) := Locate(cs, q);
    blocks[i][j].at[k][l]
  }

  /** `np.bmat(blocks).A`. */
  function Bmat(blocks: seq<seq<Matrix>>, rs: seq<nat>, cs: seq<nat>): (r: Matrix)
    requires BlockShaped(blocks, rs, cs)
    ensures IsMatrix(r) && r.rows == Sum(rs) && r.cols == Sum(cs)
  {
    Matrix(Sum(rs), Sum(cs), seq(Sum(rs), p requires 0 <= p < Sum(rs) =>
      seq(Sum(cs), q requires 0 <= q < Sum(cs) => BmatEntry(blocks, rs, cs, p, q))))
  }

  /** Entry (k, l) of block (i, j) sits at (offset of row block i + k, offset of column block j + l). */
  lemma BmatAt(blocks: seq<seq<Matrix>>, rs: seq<nat>, cs: seq<nat>, i: nat, j: nat, k: nat, l: nat)
    requires BlockShaped(blocks, rs, cs)
    requires i < |rs| && j < |cs| && k < rs[i] && l < cs[j]
    ensures Offset(rs, i) + k < Sum(rs) && Offset(cs, j) + l < Sum(cs)
    ensures Bmat(blocks, rs, cs).at[Offset(rs, i) + k][Offset(cs, j) + l] == blocks[i][j].at[k][l]
  {
    LocateOffset(rs, i, k);
    LocateOffset(cs, j, l);
  }

  /** A block matrix whose block (j, i) is the transpose of block (i, j) assembles to a symmetric matrix. */
  lemma BmatSymmetric(blocks: seq<seq<Matrix>>, sizes: seq<nat>)
    requires BlockShaped(blocks, sizes, sizes)
    requires forall i, j :: 0 <= i < |sizes| && 0 <= j < |sizes| ==> blocks[j][i] == Transpose(blocks[i][j])
    ensures IsSymmetric(Bmat(blocks, sizes, sizes))
  {
    var m := Bmat(blocks, sizes, sizes);
    forall p, q | 0 <= p < m.rows && 0 <= q < m.cols ensures m.at[p][q] == m.at[q][p] {
      var (i, k) := Locate(sizes, p);
      var (j, l) := Locate(sizes, q);
      assert m.at[p][q] == blocks[i][j].at[k][l];
      assert m.at[q][p] == blocks[j][i].at[l][k];
    }
  }

  // ===== observables and the covariance layout =====

  datatype ObservableKind = PowerSpectrum | CorrelationFunction

  datatype Footprint = Box(box: BoxFootprint) | Cutsky(cutsky: CutskyFootprint)

  /**
    An observable as the covariance sees it: its multipoles, for each multipole
    the bin edges (k for a power spectrum, s for a correlation function) and the
    data vector, and its own footprint attribute if it has one.
  */
  datatype Observable = Observable(
    kind: ObservableKind,
    ells: seq<int>,
    edges: seq<seq<real>>,
    data: seq<seq<real>>,
    footprint: Option<Footprint>)

  /**
    At least one multipole, all distinct, each with a non-empty data vector and
    one more edge than data points (`np.bmat` in `_run` rejects an observable
    without multipoles or with an empty data vector).
  */
  predicate ValidObservable(o: Observable) {
    && |o.ells| == |o.edges| == |o.data|
    && |o.ells| > 0
    && (forall ill :: 0 <= ill < |o.data| ==> |o.data[ill]| > 0)
    && (forall a, b :: 0 <= a < b < |o.ells| ==> o.ells[a] != o.ells[b])
    && (forall ill :: 0 <= ill < |o.edges| ==> |o.edges[ill]| == |o.data[ill]| + 1)
  }

  /** `list.index`: the first position of x. */
  function IndexOf(s: seq<int>, x: int): (r: nat)
    requires x in s
    ensures r < |s| && s[r] == x
    ensures forall j :: 0 <= j < r ==> s[j] != x
  {
    if s[0] == x then 0 else 1 + IndexOf(s[1..], x)
  }

  /** The sizes of the data vectors, one per multipole. */
  function DataSizes(o: Observable): (r: seq<nat>)
    ensures |r| == |o.data|
  {
    seq(|o.data|, ill requires 0 <= ill < |o.data| => |o.data[ill]|)
  }

  function TotalSize(o: Observable): nat {
    Sum(DataSizes(o))
  }

  /** Bin i of multipole ell: `edges[ells.index(ell)][i:i+2]`. */
  function Bin(o: Observable, ill: nat, i: nat): Interval
    requires ValidObservable(o) && ill < |o.ells| && i < |o.data[ill]|
  {
    var j := IndexOf(o.ells, o.ells[ill]);
    assert j == ill;
    Interval(o.edges[j][i], o.edges[j][i + 1])
  }

  /** What an opaque per-bin integral is given. */
  datatype BinQuery = BinQuery(io1: nat, io2: nat, ell1: int, ell2: int, bin1: Interval, bin2: Interval)

  /**
    The numerical parts of `_run`, left abstract: the power x power value of a
    bin pair whose intersection is non-empty, the correlation x power value,
    the cached sigma_k table of a correlation x correlation pair for given
    multipoles, and the correlation x correlation value built from that table.
  */
  datatype Kernels = Kernels(
    powerPower: BinQuery -> real,
    corrPower: BinQuery -> real,
    sigma: (nat, nat, int, int) -> seq<real>,
    corrCorr: (seq<real>, BinQuery) -> real)

  /** The pairs `_run` computes itself; (power, correlation) is swapped first. */
  predicate Direct(o1: Observable, o2: Observable) {
    !(o1.kind == PowerSpectrum && o2.kind == CorrelationFunction)
  }

  /** `get_bin_cov(obs, (ell1, ell2), (i1, i2))` for the observables io1, io2. */
  function BinCov(k: Kernels, io1: nat, io2: nat, o1: Observable, o2: Observable, ill1: nat, ill2: nat, i1: nat, i2: nat): real
    requires ValidObservable(o1) && ValidObservable(o2) && Direct(o1, o2)
    requires ill1 < |o1.ells| && ill2 < |o2.ells| && i1 < |o1.data[ill1]| && i2 < |o2.data[ill2]|
  {
    var b1 := Bin(o1, ill1, i1);
    var b2 := Bin(o2, ill2, i2);
    var q := BinQuery(io1, io2, o1.ells[ill1], o2.ells[ill2], b1, b2);
    if o1.kind == PowerSpectrum then
      if IsEmpty(Intersection([b1, b2])) then 0.0 else k.powerPower(q)
    else if o2.kind == PowerSpectrum then k.corrPower(q)
    else k.corrCorr(k.sigma(io1, io2, o1.ells[ill1], o2.ells[ill2]), q)
  }

  /** A power x power bin pair whose k-bins do not overlap has zero covariance. */
  /** A zero-width power-spectrum bin (two equal edges) has zero covariance with every power-spectrum bin. */
  lemma ZeroWidthBinZero(k: Kernels, io1: nat, io2: nat, o1: Observable, o2: Observable, ill1: nat, ill2: nat, i1: nat, i2: nat)
    requires ValidObservable(o1) && ValidObservable(o2)
    requires o1.kind == PowerSpectrum && o2.kind == PowerSpectrum
    requires ill1 < |o1.ells| && ill2 < |o2.ells| && i1 < |o1.data[ill1]| && i2 < |o2.data[ill2]|
    requires Bin(o1, ill1, i1).lo == Bin(o1, ill1, i1).hi
    ensures BinCov(k, io1, io2, o1, o2, ill1, ill2, i1, i2) == 0.0
  {
    var bins := [Bin(o1, ill1, i1), Bin(o2, ill2, i2)];
    forall x ensures !Covers(bins, x) {
      assert !(bins[0].lo <= x < bins[0].hi);
    }
    DisjointBinsZero(k, io1, io2, o1, o2, ill1, ill2, i1, i2);
  }

  lemma DisjointBinsZero(k: Kernels, io1: nat, io2: nat, o1: Observable, o2: Observable, ill1: nat, ill2: nat, i1: nat, i2: nat)
    requires ValidObservable(o1) && ValidObservable(o2)
    requires o1.kind == PowerSpectrum && o2.kind == PowerSpectrum
    requires ill1 < |o1.ells| && ill2 < |o2.ells| && i1 < |o1.data[ill1]| && i2 < |o2.data[ill2]|
    requires !exists x :: Covers([Bin(o1, ill1, i1), Bin(o2, ill2, i2)], x)
    ensures BinCov(k, io1, io2, o1, o2, ill1, ill2, i1, i2) == 0.0
  {
    IntersectionNonEmptyIff([Bin(o1, ill1, i1), Bin(o2, ill2, i2)]);
  }

  /** The (ell1, ell2) block: n1 x n2, entry (i1, i2) the bin covariance. */
  function EllBlock(k: Kernels, io1: nat, io2: nat, o1: Observable, o2: Observable, ill1: nat, ill2: nat): (r: Matrix)
    requires ValidObservable(o1) && ValidObservable(o2) && Direct(o1, o2)
    requires ill1 < |o1.ells| && ill2 < |o2.ells|
    ensures IsMatrix(r) && r.rows == |o1.data[ill1]| && r.cols == |o2.data[ill2]|
  {
    var n1, n2 := |o1.data[ill1]|, |o2.data[ill2]|;
    Matrix(n1, n2, seq(n1, i1 requires 0 <= i1 < n1 =>
      seq(n2, i2 requires 0 <= i2 < n2 => BinCov(k, io1, io2, o1, o2, ill1, ill2, i1, i2))))
  }

  function EllBlocks(k: Kernels, io1: nat, io2: nat, o1: Observable, o2: Observable): (r: seq<seq<Matrix>>)
    requires ValidObservable(o1) && ValidObservable(o2) && Direct(o1, o2)
    ensures BlockShaped(r, DataSizes(o1), DataSizes(o2))
  {
    seq(|o1.ells|, ill1 requires 0 <= ill1 < |o1.ells| =>
      seq(|o2.ells|, ill2 requires 0 <= ill2 < |o2.ells| => EllBlock(k, io1, io2, o1, o2, ill1, ill2)))
  }

  /** The covariance between observables io1 and io2 as `_run` returns it. */
  function PairCovariance(k: Kernels, obs: seq<Observable>, io1: nat, io2: nat): (r: Matrix)
    requires io1 < |obs| && io2 < |obs| && ValidObservable(obs[io1]) && ValidObservable(obs[io2])
    ensures IsMatrix(r) && r.rows == TotalSize(obs[io1]) && r.cols == TotalSize(obs[io2])
  {
    var o1, o2 := obs[io1], obs[io2];
    if Direct(o1, o2) then Bmat(EllBlocks(k, io1, io2, o1, o2), DataSizes(o1), DataSizes(o2))
    else Transpose(Bmat(EllBlocks(k, io2, io1, o2, o1), DataSizes(o2), DataSizes(o1)))
  }

  /**
    Entry (i1, i2) of the (ell1, ell2) block of a directly computed pair sits at
    the multipoles' offsets and is that bin pair's covariance.
  */
  lemma PairCovarianceAt(k: Kernels, obs: seq<Observable>, io1: nat, io2: nat, ill1: nat, ill2: nat, i1: nat, i2: nat)
    requires io1 < |obs| && io2 < |obs| && ValidObservable(obs[io1]) && ValidObservable(obs[io2])
    requires Direct(obs[io1], obs[io2])
    requires ill1 < |obs[io1].ells| && ill2 < |obs[io2].ells| && i1 < |obs[io1].data[ill1]| && i2 < |obs[io2].data[ill2]|
    ensures var p, q := Offset(DataSizes(obs[io1]), ill1) + i1, Offset(DataSizes(obs[io2]), ill2) + i2;
      && p < TotalSize(obs[io1]) && q < TotalSize(obs[io2])
      && PairCovariance(k, obs, io1, io2).at[p][q] == BinCov(k, io1, io2, obs[io1], obs[io2], ill1, ill2, i1, i2)
  {
    var o1, o2 := obs[io1], obs[io2];
    BmatAt(EllBlocks(k, io1, io2, o1, o2), DataSizes(o1), DataSizes(o2), ill1, ill2, i1, i2);
  }

  /** A (power, correlation) pair is the transpose of the (correlation, power) pair. */
  lemma PairCovarianceSwap(k: Kernels, obs: seq<Observable>, io1: nat, io2: nat)
    requires io1 < |obs| && io2 < |obs| && ValidObservable(obs[io1]) && ValidObservable(obs[io2])
    requires obs[io1].kind == PowerSpectrum && obs[io2].kind == CorrelationFunction
    ensures PairCovariance(k, obs, io1, io2) == Transpose(PairCovariance(k, obs, io2, io1))
  {
  }

  /** The blocks `run` assembles: lower ones from `_run`, upper ones transposed, diagonal ones symmetrised. */
  function CovarianceBlocks(k: Kernels, obs: seq<Observable>): (r: seq<seq<Matrix>>)
    requires forall io :: 0 <= io < |obs| ==> ValidObservable(obs[io])
    ensures |r| == |obs| && forall a :: 0 <= a < |obs| ==> |r[a]| == |obs|
  {
    seq(|obs|, a requires 0 <= a < |obs| => seq(|obs|, b requires 0 <= b < |obs| =>
      if b < a then PairCovariance(k, obs, a, b)
      else if a == b then Symmetrize(PairCovariance(k, obs, a, a))
      else Transpose(PairCovariance(k, obs, b, a))))
  }

  function TotalSizes(obs: seq<Observable>): (r: seq<nat>)
    ensures |r| == |obs|
  {
    seq(|obs|, a requires 0 <= a < |obs| => TotalSize(obs[a]))
  }

  /** The assembled covariance of `run` is symmetric, and its blocks are the pair covariances. */
  lemma AssembledCovariance(k: Kernels, obs: seq<Observable>)
    requires forall io :: 0 <= io < |obs| ==> ValidObservable(obs[io])
    ensures BlockShaped(CovarianceBlocks(k, obs), TotalSizes(obs), TotalSizes(obs))
    ensures IsSymmetric(Bmat(CovarianceBlocks(k, obs), TotalSizes(obs), TotalSizes(obs)))
    ensures forall a, b :: 0 <= b < a < |obs| ==> CovarianceBlocks(k, obs)[a][b] == PairCovariance(k, obs, a, b)
  {
    var B := CovarianceBlocks(k, obs);
    var sz := TotalSizes(obs);
    forall a, b {:trigger B[a][b]} | 0 <= a < |obs| && 0 <= b < |obs|
      ensures IsMatrix(B[a][b]) && B[a][b].rows == sz[a] && B[a][b].cols == sz[b]
    {
      if b < a {
        assert B[a][b] == PairCovariance(k, obs, a, b);
      } else if a == b {
        assert B[a][b] == Symmetrize(PairCovariance(k, obs, a, a));
      } else {
        assert B[a][b] == Transpose(PairCovariance(k, obs, b, a));
      }
    }
    forall i, j | 0 <= i < |sz| && 0 <= j < |sz| ensures B[j][i] == Transpose(B[i][j]) {
      if i == j {
        SymmetrizeSymmetric(PairCovariance(k, obs, i, i));
      } else if j < i {
        assert B[j][i] == Transpose(PairCovariance(k, obs, i, j));
        assert B[i][j] == PairCovariance(k, obs, i, j);
      } else {
        assert B[i][j] == Transpose(PairCovariance(k, obs, j, i));
        assert B[j][i] == PairCovariance(k, obs, j, i);
        TransposeInvolution(PairCovariance(k, obs, j, i));
      }
    }
    BmatSymmetric(B, sz);
  }

  // ===== the covariance-matrix object =====

  /** A theory calculator, referred to by handle. */
  type TheoryHandle = nat

  datatype CovError =
    | MissingFootprint(io: nat)   // AttributeError: no footprint given and none on the observable
    | NonPositiveResolution       // ValueError
    | FootprintIndex(io: nat)     // IndexError: `run` reads a footprint past the end of the zipped list
    | EmptyBmat                   // ValueError: `np.bmat` of no blocks, when there is no observable

  /** Python's `int()` of a float: truncation toward zero. */
  function TruncateTowardZero(r: real): int {
    if r >= 0.0 then r.Floor else -((-r).Floor)
  }

  /** `int(resolution) <= 0` fails exactly for resolutions below 1. */
  lemma ResolutionAccepted(r: real)
    ensures TruncateTowardZero(r) > 0 <==> r >= 1.0
  {
  }

  /** The footprint argument for each observable: a single one is repeated. */
  function FootprintArgs(obs: seq<Observable>, footprints: OneOrMany<Option<Footprint>>): (r: seq<Option<Footprint>>)
    ensures footprints.One? ==> |r| == |obs| && forall i :: 0 <= i < |r| ==> r[i] == footprints.item
    ensures footprints.Many? ==> r == footprints.items
  {
    match footprints
    case One(f) => seq(|obs|, i => f)
    case Many(fs) => fs
  }

  /**
    The footprints the constructor keeps: one per (footprint, observable) pair
    of `zip`, a None replaced by the observable's own; the first observable
    without either is an error.
  */
  function ChosenFootprints(obs: seq<Observable>, args: seq<Option<Footprint>>): Result<seq<Footprint>, CovError>
    decreases |obs|
  {
    if obs == [] || args == [] then Ok([])
    else
      var head: Result<Footprint, CovError> :=
        if args[0].Some? then Ok(args[0].value)
        else if obs[0].footprint.Some? then Ok(obs[0].footprint.value)
        else Err(MissingFootprint(0));
      var rest := ChosenFootprints(obs[1..], args[1..]);
      if head.Err? then Err(head.error)
      else if rest.Err? then Err(MissingFootprint(rest.error.io + 1))
      else Ok([head.value] + rest.value)
  }

  /**
    One footprint per zipped pair, the given one if any, else the observable's;
    an error names the first observable with neither.
  */
  lemma {:induction false} ChosenFootprintsProps(obs: seq<Observable>, args: seq<Option<Footprint>>)
    ensures ChosenFootprints(obs, args).Ok? <==>
      forall i :: 0 <= i < Min(|obs|, |args|) ==> args[i].Some? || obs[i].footprint.Some?
    ensures ChosenFootprints(obs, args).Ok? ==>
      var fs := ChosenFootprints(obs, args).value;
      && |fs| == Min(|obs|, |args|)
      && forall i :: 0 <= i < |fs| ==> fs[i] == (if args[i].Some? then args[i].value else obs[i].footprint.value)
    ensures ChosenFootprints(obs, args).Err? ==>
      var i := ChosenFootprints(obs, args).error.io;
      && i < Min(|obs|, |args|) && args[i].None? && obs[i].footprint.None?
      && forall j :: 0 <= j < i ==> args[j].Some? || obs[j].footprint.Some?
  {
    if obs != [] && args != [] {
      ChosenFootprintsProps(obs[1..], args[1..]);
      assert forall i :: 1 <= i < Min(|obs|, |args|) ==> obs[1..][i - 1] == obs[i] && args[1..][i - 1] == args[i];
    }
  }

  class ObservablesCovarianceMatrix {
    var observables: seq<Observable>
    var footprints: seq<Footprint>
    var theories: seq<Option<TheoryHandle>>
    var resolution: int
    var covariance: Option<Matrix>

    constructor ()
      ensures observables == [] && footprints == [] && theories == [] && covariance == None
    {
      observables, footprints, theories := [], [], [];
      resolution := 1;
      covariance := None;
    }

    /**
      The state `run` starts from: valid observables and at most one footprint
      each (`zip` may have kept fewer footprints than observables).
    */
    predicate Valid()
      reads this
    {
      && (forall io :: 0 <= io < |observables| ==> ValidObservable(observables[io]))
      && |footprints| <= |observables|
      && resolution > 0
    }

    /** `__init__`. */
    method Initialize(observables: OneOrMany<Observable>, footprints: OneOrMany<Option<Footprint>>,
                      theories: Option<seq<Option<TheoryHandle>>>, resolution: real)
      returns (err: Option<CovError>)
      modifies this
      ensures this.observables == AsList(observables)
      ensures var chosen := ChosenFootprints(this.observables, FootprintArgs(this.observables, footprints));
        match chosen
        case Err(e) => err == Some(e)
        case Ok(fs) =>
          && this.footprints == fs
          && |this.footprints| == Min(|this.observables|, |FootprintArgs(this.observables, footprints)|)
          && this.theories == (if theories.Some? then theories.value else seq(|this.observables|, i => None))
          && this.resolution == TruncateTowardZero(resolution)
          && (err == None <==> TruncateTowardZero(resolution) > 0)
          && (err.Some? ==> err.value == NonPositiveResolution)
      ensures covariance == old(covariance)
    {
      var obs := AsList(observables);
      this.observables := obs;
      var args := FootprintArgs(obs, footprints);
      var chosen, missing := ChooseFootprints(obs, args);
      ChosenFootprintsProps(obs, args);
      if missing.Some? {
        return missing;
      }
      this.footprints := chosen;
      this.theories := if theories.Some? then theories.value else seq(|obs|, j => None);
      this.resolution := TruncateTowardZero(resolution);
      if this.resolution <= 0 {
        return Some(NonPositiveResolution);
      }
      err := None;
    }

    /** `get_bin_cov` with the sigma_k memo of the correlation x correlation case. */
    method BinCovCached(k: Kernels, io1: nat, io2: nat, ill1: nat, ill2: nat, i1: nat, i2: nat,
                        cache: map<(int, int), seq<real>>)
      returns (v: real, cache': map<(int, int), seq<real>>)
      requires io1 < |observables| && io2 < |observables|
      requires ValidObservable(observables[io1]) && ValidObservable(observables[io2])
      requires Direct(observables[io1], observables[io2])
      requires ill1 < |observables[io1].ells| && ill2 < |observables[io2].ells|
      requires i1 < |observables[io1].data[ill1]| && i2 < |observables[io2].data[ill2]|
      requires CacheSound(k, io1, io2, cache)
      ensures v == BinCov(k, io1, io2, observables[io1], observables[io2], ill1, ill2, i1, i2)
      ensures CacheSound(k, io1, io2, cache')
    {
      var o1, o2 := observables[io1], observables[io2];
      var b1 := Bin(o1, ill1, i1);
      var b2 := Bin(o2, ill2, i2);
      var q := BinQuery(io1, io2, o1.ells[ill1], o2.ells[ill2], b1, b2);
      cache' := cache;
      if o1.kind == PowerSpectrum {
        var b := Intersection([b1, b2]);
        if IsEmpty(b) {
          v := 0.0;
        } else {
          v := k.powerPower(q);
        }
      } else if o2.kind == PowerSpectrum {
        v := k.corrPower(q);
      } else {
        var ells := (o1.ells[ill1], o2.ells[ill2]);
        var sigmak: seq<real>;
        if ells in cache {
          sigmak := cache[ells];
        } else {
          sigmak := k.sigma(io1, io2, ells.0, ells.1);
          cache' := cache[ells := sigmak];
        }
        v := k.corrCorr(sigmak, q);
      }
    }

    /** `_run(io1, io2)`: the covariance block of two observables. */
    method RunPair(k: Kernels, io1: nat, io2: nat) returns (r: Matrix)
      requires Valid() && io1 < |observables| && io2 < |observables|
      requires io1 < |footprints| && io2 < |footprints|
      ensures r == PairCovariance(k, observables, io1, io2)
      decreases if Direct(observables[io1], observables[io2]) then 0 else 1
    {
      var o1, o2 := observables[io1], observables[io2];
      if !Direct(o1, o2) {
        var c := RunPair(k, io2, io1);
        return Transpose(c);
      }
      var cache: map<(int, int), seq<real>> := map[];
      var blocks: seq<seq<Matrix>> := [];
      var ill1 := 0;
      while ill1 < |o1.ells|
        invariant 0 <= ill1 <= |o1.ells|
        invariant |blocks| == ill1
        invariant forall a :: 0 <= a < ill1 ==> blocks[a] == EllBlocks(k, io1, io2, o1, o2)[a]
        invariant CacheSound(k, io1, io2, cache)
      {
        var row: seq<Matrix> := [];
        var ill2 := 0;
        while ill2 < |o2.ells|
          invariant 0 <= ill2 <= |o2.ells|
          invariant |row| == ill2
          invariant forall b :: 0 <= b < ill2 ==> row[b] == EllBlock(k, io1, io2, o1, o2, ill1, b)
          invariant CacheSound(k, io1, io2, cache)
        {
          var block;
          block, cache := RunEllBlock(k, io1, io2, ill1, ill2, cache);
          row := row + [block];
          ill2 := ill2 + 1;
        }
        assert row == EllBlocks(k, io1, io2, o1, o2)[ill1];
        blocks := blocks + [row];
        ill1 := ill1 + 1;
      }
      assert blocks == EllBlocks(k, io1, io2, o1, o2);
      r := Bmat(blocks, DataSizes(o1), DataSizes(o2));
    }

    /** The n1 x n2 array of bin covariances for one (ell1, ell2) pair. */
    method RunEllBlock(k: Kernels, io1: nat, io2: nat, ill1: nat, ill2: nat, cache: map<(int, int), seq<real>>)
      returns (block: Matrix, cache': map<(int, int), seq<real>>)
      requires io1 < |observables| && io2 < |observables|
      requires ValidObservable(observables[io1]) && ValidObservable(observables[io2])
      requires Direct(observables[io1], observables[io2])
      requires ill1 < |observables[io1].ells| && ill2 < |observables[io2].ells|
      requires CacheSound(k, io1, io2, cache)
      ensures block == EllBlock(k, io1, io2, observables[io1], observables[io2], ill1, ill2)
      ensures CacheSound(k, io1, io2, cache')
    {
      var o1, o2 := observables[io1], observables[io2];
      var n1, n2 := |o1.data[ill1]|, |o2.data[ill2]|;
      ghost var spec := EllBlock(k, io1, io2, o1, o2, ill1, ill2);
      cache' := cache;
      var rows: seq<seq<real>> := [];
      var i1 := 0;
      while i1 < n1
        invariant 0 <= i1 <= n1
        invariant |rows| == i1
        invariant forall a :: 0 <= a < i1 ==> rows[a] == spec.at[a]
        invariant CacheSound(k, io1, io2, cache')
      {
        var line: seq<real> := [];
        var i2 := 0;
        while i2 < n2
          invariant 0 <= i2 <= n2
          invariant |line| == i2
          invariant forall b :: 0 <= b < i2 ==> line[b] == spec.at[i1][b]
          invariant CacheSound(k, io1, io2, cache')
        {
          var v;
          v, cache' := BinCovCached(k, io1, io2, ill1, ill2, i1, i2, cache');
          line := line + [v];
          i2 := i2 + 1;
        }
        assert line == spec.at[i1];
        rows := rows + [line];
        i1 := i1 + 1;
      }
      assert rows == spec.at;
      block := Matrix(n1, n2, rows);
    }

    /** `run`: computes the lower-triangle pairs and assembles the symmetric covariance. */
    /** The two loops of `run` over the lower pairs, mirrored: the blocks given to `np.bmat`. */
    method RunBlocks(k: Kernels) returns (blocks: seq<seq<Matrix>>)
      requires Valid() && |footprints| == |observables|
      ensures blocks == CovarianceBlocks(k, observables)
    {
      var n := |observables|;
      ghost var spec := CovarianceBlocks(k, observables);
      var grid: seq<seq<Option<Matrix>>> := seq(n, a => seq(n, b => None));
      var io1 := 0;
      while io1 < n
        invariant 0 <= io1 <= n
        invariant |grid| == n && forall a :: 0 <= a < n ==> |grid[a]| == n
        invariant forall a, b :: 0 <= a < n && 0 <= b < n ==>
          grid[a][b] == (if a < io1 && b < io1 then Some(spec[a][b]) else None)
      {
        var io2 := 0;
        while io2 <= io1
          invariant 0 <= io2 <= io1 + 1
          invariant |grid| == n && forall a :: 0 <= a < n ==> |grid[a]| == n
          invariant forall a, b :: 0 <= a < n && 0 <= b < n ==>
            grid[a][b] == (if (a < io1 && b < io1) || (a == io1 && b < io2) || (b == io1 && a < io2)
                           then Some(spec[a][b]) else None)
        {
          var c := RunPair(k, io1, io2);
          grid := grid[io1 := grid[io1][io2 := Some(c)]];
          if io2 == io1 {
            grid := grid[io2 := grid[io2][io1 := Some(Symmetrize(c))]];
          } else {
            grid := grid[io2 := grid[io2][io1 := Some(Transpose(c))]];
          }
          io2 := io2 + 1;
        }
        io1 := io1 + 1;
      }
      blocks := seq(n, a requires 0 <= a < n => seq(n, b requires 0 <= b < n => grid[a][b].value));
      assert forall a :: 0 <= a < n ==> blocks[a] == spec[a];
    }

    /**
      `run`: fails when there is no observable (`np.bmat` of nothing), or on
      the first pair past the footprints the constructor kept; otherwise
      stores the `np.bmat` of the blocks.
    */
    method Run(k: Kernels) returns (err: Option<CovError>)
      requires Valid()
      modifies this`covariance
      ensures err.Some? <==> |observables| == 0 || |footprints| < |observables|
      ensures err.Some? ==> covariance == old(covariance)
      ensures |observables| == 0 ==> err == Some(EmptyBmat)
      ensures 0 < |observables| && |footprints| < |observables| ==> err == Some(FootprintIndex(|footprints|))
      ensures BlockShaped(CovarianceBlocks(k, observables), TotalSizes(observables), TotalSizes(observables))
      ensures err.None? ==>
        covariance == Some(Bmat(CovarianceBlocks(k, observables), TotalSizes(observables), TotalSizes(observables)))
    {
      AssembledCovariance(k, observables);
      if |observables| == 0 {
        return Some(EmptyBmat);
      }
      if |footprints| < |observables| {
        // the pair (|footprints|, 0) is the first whose `_run` reads past the footprints
        return Some(FootprintIndex(|footprints|));
      }
      var blocks := RunBlocks(k);
      covariance := Some(Bmat(blocks, TotalSizes(observables), TotalSizes(observables)));
      err := None;
    }
  }

  /** The loop of the constructor over `zip(footprints, observables)`. */
  method ChooseFootprints(obs: seq<Observable>, args: seq<Option<Footprint>>)
    returns (fs: seq<Footprint>, err: Option<CovError>)
    ensures match ChosenFootprints(obs, args)
      case Ok(x) => err == None && fs == x
      case Err(e) => err == Some(e)
  {
    fs := [];
    var i := 0;
    var n := Min(|args|, |obs|);
    ChosenFootprintsProps(obs, args);
    while i < n
      invariant 0 <= i <= n
      invariant |fs| == i
      invariant forall j :: 0 <= j < i ==> args[j].Some? || obs[j].footprint.Some?
      invariant forall j :: 0 <= j < i ==> fs[j] == (if args[j].Some? then args[j].value else obs[j].footprint.value)
    {
      var footprint := args[i];
      if footprint.None? {
        if obs[i].footprint.None? {
          return fs, Some(MissingFootprint(i));
        }
        footprint := obs[i].footprint;
      }
      fs := fs + [footprint.value];
      i := i + 1;
    }
    err := None;
  }

  /** Every cached sigma_k table is the one the kernel computes for its multipoles. */
  predicate CacheSound(k: Kernels, io1: nat, io2: nat, cache: map<(int, int), seq<real>>) {
    forall e :: e in cache ==> cache[e] == k.sigma(io1, io2, e.0, e.1)
  }
}
