/** Price truncation as ccxt's decimal_to_precision(n, rounding_mode=TRUNCATE,
    precision=p) performs it when counting decimal places: every digit past the
    p-th after the point is dropped, so the magnitude never grows. */
module Precision {
  import opened Common

  /** 10^p as a real factor; a negative p counts places left of the point. */
  function Scale(p: int): (r: real)
    ensures r > 0.0
  {
    if p >= 0 then Pow10(p) as real else 1.0 / Pow10(-p) as real
  }

  /** x truncated toward zero to p decimal places. */
  function Trunc(x: real, p: int): real
  {
    TruncBy(x, Scale(p))
  }

  /** A price is on the grid of p decimal places when it is a whole number of 10^-p steps. */
  predicate OnGrid(x: real, p: int)
  {
    OnGridBy(x, Scale(p))
  }

  /** For a non-negative price, truncation never rounds up and loses less than one step. */
  lemma TruncBounds(x: real, p: int)
    requires x >= 0.0
    ensures 0.0 <= Trunc(x, p) <= x
    ensures x - Trunc(x, p) < 1.0 / Scale(p)
  {
    Bounds(x, Scale(p));
  }

  /** For a negative price, truncation moves toward zero by less than one step. */
  lemma TruncBoundsNegative(x: real, p: int)
    requires x < 0.0
    ensures x <= Trunc(x, p) <= 0.0
    ensures Trunc(x, p) - x < 1.0 / Scale(p)
  {
    Odd(x, Scale(p));
    Bounds(-x, Scale(p));
  }

  /** Truncation is the largest grid price not above a non-negative x. */
  lemma TruncGreatest(x: real, p: int, k: int)
    requires x >= 0.0
    requires k as real / Scale(p) <= x
    ensures k as real / Scale(p) <= Trunc(x, p)
  {
    Greatest(x, Scale(p), k);
  }

  /** Truncation preserves the order of prices. */
  lemma TruncMonotone(x: real, y: real, p: int)
    requires x <= y
    ensures Trunc(x, p) <= Trunc(y, p)
  {
    Monotone(x, y, Scale(p));
  }

  /** A price already on the grid is left as it is. */
  lemma TruncOnGridPrice(x: real, p: int)
    requires OnGrid(x, p)
    ensures Trunc(x, p) == x
  {
    OnGridKept(x, Scale(p));
  }

  /** A truncated price lies on the grid, so truncating twice changes nothing. */
  lemma TruncIdempotent(x: real, p: int)
    ensures OnGrid(Trunc(x, p), p)
    ensures Trunc(Trunc(x, p), p) == Trunc(x, p)
  {
    Idem(x, Scale(p));
    OnGridKept(Trunc(x, p), Scale(p));
  }

  /** truncate(123.4567, precision=2) gives 123.45, never 123.46. */
  lemma TruncExample()
    ensures Trunc(123.4567, 2) == 123.45
  {
    assert Scale(2) == 100.0;
    assert 123.4567 * 100.0 == 12345.67;
    assert (12345.67).Floor == 12345;
  }

  // ---------------------------------------------------------------------------
  // The same facts for an arbitrary positive scale factor s.

  /** x truncated toward zero to a whole number of 1/s steps. */
  function TruncBy(x: real, s: real): real
    requires s > 0.0
  {
    if x >= 0.0 then (x * s).Floor as real / s
    else -((-x * s).Floor as real / s)
  }

  lemma Bounds(x: real, s: real)
    requires s > 0.0 && x >= 0.0
    ensures 0.0 <= TruncBy(x, s) <= x
    ensures x - TruncBy(x, s) < 1.0 / s
  {
    var xs := x * s;
    var f := xs.Floor;
    assert f as real <= xs < f as real + 1.0;
    var q := f as real / s;
    assert q * s == f as real;
    assert q <= x;
    assert 0.0 <= q;
    var r := (f as real + 1.0) / s;
    assert r * s == f as real + 1.0;
    assert x < r;
    assert r == q + 1.0 / s;
  }

  lemma Greatest(x: real, s: real, k: int)
    requires s > 0.0 && x >= 0.0
    requires k as real / s <= x
    ensures k as real / s <= TruncBy(x, s)
  {
    var q := k as real / s;
    assert q * s == k as real;
    assert k as real <= x * s;
    var f := (x * s).Floor;
    assert k <= f;
    assert (f as real) / s * s == f as real;
  }

  lemma FloorMono(a: real, b: real)
    requires a <= b
    ensures a.Floor <= b.Floor
  {
    assert a.Floor as real <= a;
    assert b < b.Floor as real + 1.0;
  }

  lemma MulMono(x: real, y: real, s: real)
    requires s > 0.0 && x <= y
    ensures x * s <= y * s
  {
  }

  lemma DivMono(a: real, b: real, s: real)
    requires s > 0.0 && a <= b
    ensures a / s <= b / s
  {
  }

  lemma MonoPos(x: real, y: real, s: real)
    requires s > 0.0 && 0.0 <= x <= y
    ensures TruncBy(x, s) <= TruncBy(y, s)
  {
    var a, b := x * s, y * s;
    MulMono(x, y, s);
    FloorMono(a, b);
    DivMono(a.Floor as real, b.Floor as real, s);
    PosUnfold(x, s);
    PosUnfold(y, s);
  }

  lemma PosUnfold(x: real, s: real)
    requires s > 0.0 && x >= 0.0
    ensures TruncBy(x, s) == (x * s).Floor as real / s
  {
  }

  lemma Odd(x: real, s: real)
    requires s > 0.0 && x < 0.0
    ensures TruncBy(x, s) == -TruncBy(-x, s)
  {
  }

  lemma Monotone(x: real, y: real, s: real)
    requires s > 0.0 && x <= y
    ensures TruncBy(x, s) <= TruncBy(y, s)
  {
    if 0.0 <= x {
      MonoPos(x, y, s);
    } else if 0.0 <= y {
      Odd(x, s);
      Bounds(-x, s);
      Bounds(y, s);
    } else {
      Odd(x, s);
      Odd(y, s);
      MonoPos(-y, -x, s);
    }
  }

  predicate OnGridBy(x: real, s: real) { (x * s).Floor as real == x * s }

  lemma OnGridKept(x: real, s: real)
    requires s > 0.0 && OnGridBy(x, s)
    ensures TruncBy(x, s) == x
  {
    if x >= 0.0 {
      KeptPos(x, s);
    } else {
      Odd(x, s);
      GridNeg(x, s);
      KeptPos(-x, s);
    }
  }

  lemma KeptPos(x: real, s: real)
    requires s > 0.0 && x >= 0.0 && OnGridBy(x, s)
    ensures TruncBy(x, s) == x
  {
    var xs := x * s;
    assert xs.Floor as real == xs;
    assert xs / s == x;
  }

  lemma GridNeg(q: real, s: real)
    requires OnGridBy(q, s)
    ensures OnGridBy(-q, s)
  {
    var k := (q * s).Floor;
    assert -q * s == -(q * s);
    assert -q * s == (-k) as real;
  }

  lemma IdemPos(x: real, s: real)
    requires s > 0.0 && x >= 0.0
    ensures OnGridBy(TruncBy(x, s), s)
  {
    var f := (x * s).Floor;
    var t := TruncBy(x, s);
    assert t == f as real / s;
    assert t * s == f as real;
    assert (f as real).Floor == f;
    assert (t * s).Floor == f;
    assert OnGridBy(t, s);
  }

  lemma Idem(x: real, s: real)
    requires s > 0.0
    ensures OnGridBy(TruncBy(x, s), s)
  {
    if x >= 0.0 {
      IdemPos(x, s);
    } else {
      Odd(x, s);
      IdemPos(-x, s);
      GridNeg(TruncBy(-x, s), s);
    }
  }
}
