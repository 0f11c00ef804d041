/** Bill Williams' indicators (neobabix/indicators/billwilliams.py): the trimming
    and seeding of the three Alligator lines, the swing fractals and the Market
    Facilitation Index. The smoothed series the Alligator lines start from comes
    from a library that is not part of this model and is taken as an input. */
module BillWilliams {
  import opened Common

  // ---------------------------------------------------------------------------
  // Alligator lines

  /** The end index Python uses for the slice s[0:stop] of a list of length n;
      a negative stop counts from the end. */
  function SliceEnd(n: nat, stop: int): (e: nat)
    ensures e <= n
    ensures 0 <= stop <= n ==> e == stop
    ensures stop < 0 && n + stop >= 0 ==> e == n + stop
  {
    if stop >= 0 then (if stop <= n then stop else n)
    else if n + stop >= 0 then n + stop
    else 0
  }

  /** How many values survive s[0:len(s)-drop]: all but the last drop when the
      series is long enough; otherwise the negative stop counts from the end again. */
  function KeptLength(n: nat, drop: nat): (k: nat)
    ensures n >= drop ==> k == n - drop
    ensures n < drop ==> k == (if 2 * n >= drop then 2 * n - drop else 0)
  {
    SliceEnd(n, n - drop)
  }

  /** The shared post-processing of the three Alligator lines: keep
      smoothed[0:len-drop], then overwrite its first five values with lows[0].
      Indexing a too-short slice, or an empty lows, raises IndexError. */
  method TrimAndSeed(smoothed: seq<real>, lows: seq<real>, drop: nat) returns (r: Result<seq<real>>)
    ensures r.Ok? <==> |lows| > 0 && KeptLength(|smoothed|, drop) >= 5
    ensures r.Err? ==> r.error == IndexError
    ensures r.Ok? ==> |r.value| == KeptLength(|smoothed|, drop)
    ensures r.Ok? ==> forall i :: 0 <= i < 5 ==> r.value[i] == lows[0]
    ensures r.Ok? ==> forall i :: 5 <= i < |r.value| ==> r.value[i] == smoothed[i]
  {
    var kept := KeptLength(|smoothed|, drop);
    var line := new real[kept](k requires 0 <= k < kept => smoothed[k]);
    for i := 0 to 5
      invariant i <= kept
      invariant i > 0 ==> |lows| > 0
      invariant forall k :: 0 <= k < i ==> line[k] == lows[0]
      invariant forall k :: i <= k < kept ==> line[k] == smoothed[k]
    {
      if |lows| == 0 || i >= kept {
        return Err(IndexError);
      }
      line[i] := lows[0];
    }
    r := Ok(line[..]);
  }

  /** WilliamsAlligatorJaws: the 13-period smoothing shifted by 8, less its last 12 values. */
  method WilliamsAlligatorJaws(smoothed: seq<real>, lows: seq<real>) returns (r: Result<seq<real>>)
    ensures r.Ok? <==> |lows| > 0 && KeptLength(|smoothed|, 12) >= 5
    ensures r.Ok? ==> |r.value| == KeptLength(|smoothed|, 12)
    ensures r.Ok? ==> forall i :: 0 <= i < |r.value| ==> r.value[i] == if i < 5 then lows[0] else smoothed[i]
  {
    r := TrimAndSeed(smoothed, lows, 12);
  }

  /** WilliamsAlligatorTeeth: the 8-period smoothing shifted by 5, less its last 7 values. */
  method WilliamsAlligatorTeeth(smoothed: seq<real>, lows: seq<real>) returns (r: Result<seq<real>>)
    ensures r.Ok? <==> |lows| > 0 && KeptLength(|smoothed|, 7) >= 5
    ensures r.Ok? ==> |r.value| == KeptLength(|smoothed|, 7)
    ensures r.Ok? ==> forall i :: 0 <= i < |r.value| ==> r.value[i] == if i < 5 then lows[0] else smoothed[i]
  {
    r := TrimAndSeed(smoothed, lows, 7);
  }

  /** WilliamsAlligatorLips: the 5-period smoothing shifted by 3, less its last 4 values. */
  method WilliamsAlligatorLips(smoothed: seq<real>, lows: seq<real>) returns (r: Result<seq<real>>)
    ensures r.Ok? <==> |lows| > 0 && KeptLength(|smoothed|, 4) >= 5
    ensures r.Ok? ==> |r.value| == KeptLength(|smoothed|, 4)
    ensures r.Ok? ==> forall i :: 0 <= i < |r.value| ==> r.value[i] == if i < 5 then lows[0] else smoothed[i]
  {
    r := TrimAndSeed(smoothed, lows, 4);
  }

  // ---------------------------------------------------------------------------
  // Up fractals

  /** _fractal inside UpFractal, for bar n. Its guard `n < 6 or n < len(highs)`
      returns None for every bar of the series; only an index past the end
      would reach the patterns, and their first comparison reads highs[n]. */
  function UpFractalAt(highs: seq<real>, n: nat): Result<Option<real>>
  {
    if n < 6 || n < |highs| then Ok(None) else Err(IndexError)
  }

  /** UpFractal: one entry per bar. */
  function UpFractal(highs: seq<real>): (r: seq<Option<real>>)
    ensures |r| == |highs|
  {
    seq(|highs|, n requires 0 <= n < |highs| => UpFractalAt(highs, n).value)
  }

  /** As written, UpFractal never marks a bar. */
  lemma UpFractalNeverMarks(highs: seq<real>, n: nat)
    requires n < |highs|
    ensures UpFractal(highs)[n] == None
  {
  }

  // ---------------------------------------------------------------------------
  // Down fractals

  /** How lows[n + offset] must compare with lows[n]. */
  datatype Rel = Above | Level | AtLeast

  /** One comparison of a fractal pattern: lows[n + offset] rel lows[n]. */
  datatype Test = Test(offset: int, rel: Rel)

  /** The five patterns of DownFractal, each a chain of comparisons in source order. */
  const Low1: seq<Test> := [Test(-2, Above), Test(-1, Above), Test(1, Above), Test(2, Above)]
  const Low2: seq<Test> := [Test(-3, Above), Test(-2, Above), Test(-1, Level), Test(1, Above), Test(2, Above)]
  const Low3: seq<Test> := [Test(-4, Above), Test(-3, Above), Test(-2, Level), Test(-1, AtLeast), Test(1, Above), Test(2, Above)]
  const Low4: seq<Test> :=
    [Test(-5, Above), Test(-4, Above), Test(-3, Level), Test(-2, Level), Test(-1, AtLeast), Test(1, Above), Test(2, Above)]
  const Low5: seq<Test> :=
    [Test(-6, Above), Test(-5, Above), Test(-4, Level), Test(-3, AtLeast), Test(-2, Level), Test(-1, AtLeast),
     Test(1, Above), Test(2, Above)]

  predicate InWindow(ts: seq<Test>)
  {
    forall i :: 0 <= i < |ts| ==> -6 <= ts[i].offset <= 2
  }

  predicate Holds(lows: seq<real>, n: nat, t: Test)
    requires 0 <= n + t.offset < |lows| && n < |lows|
  {
    match t.rel
    case Above => lows[n + t.offset] > lows[n]
    case Level => lows[n + t.offset] == lows[n]
    case AtLeast => lows[n + t.offset] >= lows[n]
  }

  /** A chain of comparisons joined by Python's `and`: evaluation stops at the
      first false comparison and raises at the first index past the end. */
  function EvalChain(lows: seq<real>, n: nat, ts: seq<Test>): (r: Result<bool>)
    requires 6 <= n < |lows| && InWindow(ts)
    ensures r.Err? ==> r.error == IndexError
  {
    if ts == [] then Ok(true)
    else if n + ts[0].offset >= |lows| then Err(IndexError)
    else if !Holds(lows, n, ts[0]) then Ok(false)
    else EvalChain(lows, n, ts[1..])
  }

  /** The pattern itself, for a bar whose whole window lies inside the series. */
  predicate Matches(lows: seq<real>, n: nat, ts: seq<Test>)
    requires 6 <= n && n + 2 < |lows| && InWindow(ts)
  {
    forall i :: 0 <= i < |ts| ==> Holds(lows, n, ts[i])
  }

  lemma {:induction false} EvalChainInside(lows: seq<real>, n: nat, ts: seq<Test>)
    requires 6 <= n && n + 2 < |lows| && InWindow(ts)
    ensures EvalChain(lows, n, ts) == Ok(Matches(lows, n, ts))
  {
    if ts != [] {
      EvalChainInside(lows, n, ts[1..]);
      assert Matches(lows, n, ts) <==> Holds(lows, n, ts[0]) && Matches(lows, n, ts[1..]) by {
        if Holds(lows, n, ts[0]) && Matches(lows, n, ts[1..]) {
          forall i | 0 <= i < |ts| ensures Holds(lows, n, ts[i]) {
            if i > 0 { assert ts[i] == ts[1..][i - 1]; }
          }
        }
        if Matches(lows, n, ts) {
          forall i | 0 <= i < |ts| - 1 ensures Holds(lows, n, ts[1..][i]) {
            assert ts[1..][i] == ts[i + 1];
          }
        }
      }
    }
  }

  /** _fractal inside DownFractal, for bar n of the series. The guard
      `n < 6 or n > len(lows)` excludes no bar of the series; all five chains
      are evaluated, in order, before their results are combined. */
  function DownFractalAt(lows: seq<real>, n: nat): (r: Result<Option<real>>)
    requires n < |lows|
    ensures r.Err? ==> r.error == IndexError
    ensures r.Ok? && r.value.Some? ==> 6 <= n && r.value.value == lows[n]
  {
    if n < 6 || n > |lows| then Ok(None)
    else
      var low1 :- EvalChain(lows, n, Low1);
      var low2 :- EvalChain(lows, n, Low2);
      var low3 :- EvalChain(lows, n, Low3);
      var low4 :- EvalChain(lows, n, Low4);
      var low5 :- EvalChain(lows, n, Low5);
      if low1 || low2 || low3 || low4 || low5 then Ok(Some(lows[n])) else Ok(None)
  }

  /** The list comprehension over the first k bars: raises as soon as one bar raises. */
  function DownFractalUpTo(lows: seq<real>, k: nat): (r: Result<seq<Option<real>>>)
    requires k <= |lows|
    ensures r.Ok? <==> forall i :: 0 <= i < k ==> DownFractalAt(lows, i).Ok?
    ensures r.Err? ==> r.error == IndexError
    ensures r.Ok? ==> |r.value| == k && forall i :: 0 <= i < k ==> DownFractalAt(lows, i) == Ok(r.value[i])
  {
    if k == 0 then Ok([])
    else
      var prev :- DownFractalUpTo(lows, k - 1);
      var x :- DownFractalAt(lows, k - 1);
      Ok(prev + [x])
  }

  /** DownFractal: one entry per bar, or the IndexError the last bars can raise. */
  function DownFractal(lows: seq<real>): Result<seq<Option<real>>>
  {
    DownFractalUpTo(lows, |lows|)
  }

  /** Every bar whose window lies inside the series evaluates without raising. */
  lemma DownFractalAtInside(lows: seq<real>, n: nat)
    requires n + 2 < |lows|
    ensures DownFractalAt(lows, n).Ok?
  {
    if n >= 6 {
      EvalChainInside(lows, n, Low1);
      EvalChainInside(lows, n, Low2);
      EvalChainInside(lows, n, Low3);
      EvalChainInside(lows, n, Low4);
      EvalChainInside(lows, n, Low5);
    }
  }

  /** The first six bars are never fractals, and a marked bar carries its own low. */
  lemma DownFractalShape(lows: seq<real>, n: nat)
    requires DownFractal(lows).Ok? && n < |lows|
    ensures |DownFractal(lows).value| == |lows|
    ensures n < 6 ==> DownFractal(lows).value[n] == None
    ensures DownFractal(lows).value[n].Some? ==> DownFractal(lows).value[n].value == lows[n]
  {
    assert DownFractalAt(lows, n) == Ok(DownFractal(lows).value[n]);
  }

  /** Inside the series, a bar is a down fractal exactly when one of the five patterns holds. */
  lemma DownFractalAtPatterns(lows: seq<real>, n: nat)
    requires 6 <= n && n + 2 < |lows|
    ensures DownFractalAt(lows, n) == Ok(Some(lows[n])) <==>
      Matches(lows, n, Low1) || Matches(lows, n, Low2) || Matches(lows, n, Low3) ||
      Matches(lows, n, Low4) || Matches(lows, n, Low5)
    ensures DownFractalAt(lows, n).Ok? && (DownFractalAt(lows, n).value == None || DownFractalAt(lows, n).value == Some(lows[n]))
  {
    EvalChainInside(lows, n, Low1);
    EvalChainInside(lows, n, Low2);
    EvalChainInside(lows, n, Low3);
    EvalChainInside(lows, n, Low4);
    EvalChainInside(lows, n, Low5);
  }

  /** Pattern low1: a bar strictly below its two neighbours on each side is a down fractal. */
  lemma DownFractalStrictLow(lows: seq<real>, n: nat)
    requires 6 <= n && n + 2 < |lows|
    requires lows[n - 2] > lows[n] && lows[n - 1] > lows[n] && lows[n + 1] > lows[n] && lows[n + 2] > lows[n]
    ensures DownFractalAt(lows, n) == Ok(Some(lows[n]))
  {
    DownFractalAtPatterns(lows, n);
    assert Matches(lows, n, Low1) by {
      forall i | 0 <= i < |Low1| ensures Holds(lows, n, Low1[i]) {
      }
    }
  }

  /** Pattern low2: a one-bar plateau on the left is accepted. */
  lemma DownFractalPlateau(lows: seq<real>, n: nat)
    requires 6 <= n && n + 2 < |lows|
    requires lows[n - 3] > lows[n] && lows[n - 2] > lows[n] && lows[n - 1] == lows[n]
    requires lows[n + 1] > lows[n] && lows[n + 2] > lows[n]
    ensures DownFractalAt(lows, n) == Ok(Some(lows[n]))
  {
    DownFractalAtPatterns(lows, n);
    assert Matches(lows, n, Low2) by {
      forall i | 0 <= i < |Low2| ensures Holds(lows, n, Low2[i]) {
      }
    }
  }

  /** The last bars can read past the end: a falling series raises IndexError. */
  lemma DownFractalFallingSeriesRaises()
    ensures DownFractal([9.0, 8.0, 7.0, 6.0, 5.0, 4.0, 3.0, 2.0]).Err?
  {
    var lows := [9.0, 8.0, 7.0, 6.0, 5.0, 4.0, 3.0, 2.0];
    assert EvalChain(lows, 7, Low1) == Err(IndexError);
    assert !DownFractalAt(lows, 7).Ok?;
  }

  // ---------------------------------------------------------------------------
  // Market Facilitation Index

  /** The four MFI colours; their codes MFI_GREEN .. MFI_GRAY are 1 .. 4. */
  datatype MfiColour = Green | Red | Yellow | Gray

  function MfiCode(c: MfiColour): (k: int)
    ensures 1 <= k <= 4
  {
    match c
    case Green => 1
    case Red => 2
    case Yellow => 3
    case Gray => 4
  }

  /** The range per unit of volume of bar n. */
  function Facilitation(highs: seq<real>, lows: seq<real>, volumes: seq<real>, n: nat): real
    requires n < |highs| == |lows| == |volumes| && volumes[n] != 0.0
  {
    (highs[n] - lows[n]) / volumes[n]
  }

  /** _mfi for bar n, with the four assignments in source order. */
  function MfiAt(highs: seq<real>, lows: seq<real>, volumes: seq<real>, n: nat): Option<MfiColour>
    requires n < |highs| == |lows| == |volumes|
    requires forall i :: 0 <= i < |volumes| ==> volumes[i] != 0.0
  {
    if n < 2 then None
    else
      var mfi0 := Facilitation(highs, lows, volumes, n);
      var mfi1 := Facilitation(highs, lows, volumes, n - 1);
      var mfiPlus, mfiMinus := mfi0 > mfi1, mfi0 < mfi1;
      var volPlus, volMinus := volumes[n] > volumes[n - 1], volumes[n] < volumes[n - 1];
      var m0: Option<MfiColour> := None;
      var m1 := if volPlus && mfiPlus then Some(Green) else m0;
      var m2 := if volMinus && mfiMinus then Some(Gray) else m1;
      var m3 := if volMinus && mfiPlus then Some(Red) else m2;
      if volPlus && mfiMinus then Some(Yellow) else m3
  }

  /** MFI: one entry per bar. */
  function Mfi(highs: seq<real>, lows: seq<real>, volumes: seq<real>): (r: seq<Option<MfiColour>>)
    requires |highs| == |lows| == |volumes|
    requires forall i :: 0 <= i < |volumes| ==> volumes[i] != 0.0
    ensures |r| == |highs|
  {
    seq(|highs|, n requires 0 <= n < |highs| => MfiAt(highs, lows, volumes, n))
  }

  /** The classification of bar n >= 2: green when volume and facilitation both
      rise, gray when both fall, red when volume falls while facilitation rises,
      yellow when volume rises while facilitation falls, and none on any tie. */
  lemma MfiClassification(highs: seq<real>, lows: seq<real>, volumes: seq<real>, n: nat)
    requires 2 <= n < |highs| == |lows| == |volumes|
    requires forall i :: 0 <= i < |volumes| ==> volumes[i] != 0.0
    ensures var r := Mfi(highs, lows, volumes)[n];
      var f0, f1 := Facilitation(highs, lows, volumes, n), Facilitation(highs, lows, volumes, n - 1);
      var v0, v1 := volumes[n], volumes[n - 1];
      (r == Some(Green) <==> v0 > v1 && f0 > f1) &&
      (r == Some(Gray) <==> v0 < v1 && f0 < f1) &&
      (r == Some(Red) <==> v0 < v1 && f0 > f1) &&
      (r == Some(Yellow) <==> v0 > v1 && f0 < f1) &&
      (r == None <==> v0 == v1 || f0 == f1)
  {
  }

  /** The first two bars never get a colour. */
  lemma MfiFirstBars(highs: seq<real>, lows: seq<real>, volumes: seq<real>, n: nat)
    requires n < 2 && n < |highs| == |lows| == |volumes|
    requires forall i :: 0 <= i < |volumes| ==> volumes[i] != 0.0
    ensures Mfi(highs, lows, volumes)[n] == None
  {
  }
}
