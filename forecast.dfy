/** `linearRegression` as written: closed-form slope and intercept built from
    four left folds over the series, evaluated one step past the end. The
    folds take the sum of the VALUES as the x-sum and the sum of the squared
    values as the x-square sum, so this is not a least-squares fit over the
    index positions 0 .. n-1. */
module Forecast {

  /** The forecast value, or NotFinite where the JavaScript division by zero
      would make the result NaN or an infinity. */
  datatype Forecast = Defined(value: real) | NotFinite

  /** The left-to-right sum of the values (src/script.js:142-143). */
  function Sum(data: seq<real>): real {
    if data == [] then 0.0 else Sum(data[..|data| - 1]) + data[|data| - 1]
  }

  /** The sum of each value times its position, counted from 0
      (src/script.js:144). */
  function SumIndexed(data: seq<real>): real {
    if data == [] then 0.0
    else SumIndexed(data[..|data| - 1]) + data[|data| - 1] * (|data| - 1) as real
  }

  /** The sum of the squares of the values (src/script.js:145). */
  function SumSquares(data: seq<real>): real {
    if data == [] then 0.0
    else SumSquares(data[..|data| - 1]) + data[|data| - 1] * data[|data| - 1]
  }

  /** The divisor of the slope (src/script.js:147): n times the sum of
      squares, minus the square of the value sum. */
  function Denominator(data: seq<real>): real {
    |data| as real * SumSquares(data) - Sum(data) * Sum(data)
  }

  /** Every value of the series equals the first one (the empty series too). */
  predicate Constant(data: seq<real>) {
    forall i :: 0 <= i < |data| ==> data[i] == data[0]
  }

  /** `linearRegression`: the slope and intercept of the closed form, then
      the value at position n. The divisions fail (NaN or an infinity in the
      source) exactly for a constant series, the empty one included. */
  function LinearRegression(data: seq<real>): (r: Forecast)
    ensures r.NotFinite? <==> Constant(data)
  {
    DenominatorZeroIff(data);
    var n := |data| as real;
    var sumX := Sum(data);
    var sumY := Sum(data);
    var sumXY := SumIndexed(data);
    var d := Denominator(data);
    if d == 0.0 then NotFinite
    else
      var slope := (n * sumXY - sumX * sumY) / d;
      var intercept := (sumY - slope * sumX) / n;
      Defined(slope * n + intercept)
  }

  function Square(z: real): real { z * z }

  /** Sum of the squared distances of the values from y. */
  function SquaredDeviation(data: seq<real>, y: real): real {
    if data == [] then 0.0
    else SquaredDeviation(data[..|data| - 1], y) + Square(data[|data| - 1] - y)
  }

  /** Appending y to the series extends every fold by one step. */
  lemma {:induction false} FoldsAppend(data: seq<real>, y: real)
    ensures Sum(data + [y]) == Sum(data) + y
    ensures SumSquares(data + [y]) == SumSquares(data) + y * y
    ensures SumIndexed(data + [y]) == SumIndexed(data) + y * |data| as real
  {
    var d := data + [y];
    assert d[..|d| - 1] == data && d[|d| - 1] == y;
    assert (|d| - 1) as real == |data| as real;
  }

  /** Ring identity behind SquaredDeviationExpand, on plain variables. */
  lemma DeviationStepAlgebra(q: real, s: real, n: real, x: real, y: real,
                             q': real, s': real, n': real, prev: real)
    requires q' == q + x * x && s' == s + x && n' == n + 1.0
    requires prev == q - 2.0 * y * s + n * y * y
    ensures prev + Square(x - y) == q' - 2.0 * y * s' + n' * y * y
  {
    assert Square(x - y) == (x - y) * (x - y);
  }

  /** The squared deviation expands into the folds. */
  lemma {:induction false} SquaredDeviationExpand(data: seq<real>, y: real)
    ensures SquaredDeviation(data, y) == SumSquares(data) - 2.0 * y * Sum(data) + |data| as real * y * y
  {
    if data != [] {
      var p, x := data[..|data| - 1], data[|data| - 1];
      SquaredDeviationExpand(p, y);
      DeviationStepAlgebra(SumSquares(p), Sum(p), |p| as real, x, y,
                           SumSquares(data), Sum(data), |data| as real, SquaredDeviation(p, y));
    }
  }

  /** Cancelling one factor of a square. */
  lemma DivideSquare(z: real)
    requires z != 0.0
    ensures (z * z) / z == z
  {
  }

  /** A square is never negative. */
  lemma SquareNonNegative(z: real)
    ensures Square(z) >= 0.0
  {
  }

  /** A square is zero only at zero. */
  lemma SquareZero(z: real)
    requires Square(z) == 0.0
    ensures z == 0.0
  {
    if z != 0.0 {
      DivideSquare(z);
    }
  }

  /** A sum of squares is zero exactly when every term is. */
  lemma {:induction false} SquaredDeviationZero(data: seq<real>, y: real)
    ensures SquaredDeviation(data, y) >= 0.0
    ensures SquaredDeviation(data, y) == 0.0 <==> forall i :: 0 <= i < |data| ==> data[i] == y
  {
    if data != [] {
      var p, x := data[..|data| - 1], data[|data| - 1];
      SquaredDeviationZero(p, y);
      SquareNonNegative(x - y);
      if SquaredDeviation(data, y) == 0.0 {
        SquareZero(x - y);
        forall i | 0 <= i < |data| ensures data[i] == y {
          if i < |p| { assert data[i] == p[i]; }
        }
      }
      if forall i :: 0 <= i < |data| ==> data[i] == y {
        assert forall i :: 0 <= i < |p| ==> p[i] == data[i];
      }
    }
  }

  /** The sum of a series of n copies of c is n times c. */
  lemma {:induction false} SumOfConstant(data: seq<real>, c: real)
    requires forall i :: 0 <= i < |data| ==> data[i] == c
    ensures Sum(data) == |data| as real * c
  {
    if data != [] {
      var p := data[..|data| - 1];
      SumOfConstant(p, c);
      assert data[|data| - 1] == c;
    }
  }

  /** The index-weighted sum gives the first value weight 0, so a series of
      at most one value sums to 0; non-negative values give a non-negative sum. */
  lemma {:induction false} SumIndexedBounds(data: seq<real>)
    ensures |data| <= 1 ==> SumIndexed(data) == 0.0
    ensures (forall i :: 0 <= i < |data| ==> 0.0 <= data[i]) ==> 0.0 <= SumIndexed(data)
  {
    if data != [] {
      var p := data[..|data| - 1];
      SumIndexedBounds(p);
      if forall i :: 0 <= i < |data| ==> 0.0 <= data[i] {
        assert forall i :: 0 <= i < |p| ==> p[i] == data[i];
        var x, k := data[|data| - 1], (|data| - 1) as real;
        assert 0.0 <= x && 0.0 <= k;
        assert 0.0 <= x * k;
      }
    }
  }

  /** The sum of squares is the squared deviation from 0, so it is never
      negative and is zero exactly for an all-zero series. */
  lemma SumSquaresNonNegative(data: seq<real>)
    ensures SumSquares(data) == SquaredDeviation(data, 0.0)
    ensures SumSquares(data) >= 0.0
    ensures SumSquares(data) == 0.0 <==> forall i :: 0 <= i < |data| ==> data[i] == 0.0
  {
    SquaredDeviationExpand(data, 0.0);
    SquaredDeviationZero(data, 0.0);
  }

  /** Ring identity behind DenominatorAppend, on plain variables. */
  lemma DenominatorStepAlgebra(q: real, s: real, n: real, y: real,
                               q': real, s': real, n': real, dev: real)
    requires q' == q + y * y && s' == s + y && n' == n + 1.0
    requires dev == q - 2.0 * y * s + n * y * y
    ensures n' * q' - s' * s' == (n * q - s * s) + dev
  {
  }

  /** Appending y grows the denominator by the squared deviation from y
      (the one-step form of Lagrange's identity). */
  lemma {:induction false} DenominatorAppend(data: seq<real>, y: real)
    ensures Denominator(data + [y]) == Denominator(data) + SquaredDeviation(data, y)
  {
    var d := data + [y];
    FoldsAppend(data, y);
    SquaredDeviationExpand(data, y);
    assert |d| as real == |data| as real + 1.0;
    DenominatorStepAlgebra(SumSquares(data), Sum(data), |data| as real, y,
                           SumSquares(d), Sum(d), |d| as real, SquaredDeviation(data, y));
  }

  /** The denominator is never negative, and it is zero exactly when the
      series is constant. */
  lemma {:induction false} DenominatorZeroIff(data: seq<real>)
    ensures Denominator(data) >= 0.0
    ensures Denominator(data) == 0.0 <==> Constant(data)
  {
    if data != [] {
      var p, y := data[..|data| - 1], data[|data| - 1];
      assert data == p + [y];
      DenominatorZeroIff(p);
      DenominatorAppend(p, y);
      SquaredDeviationZero(p, y);
      if Denominator(data) == 0.0 {
        assert forall i :: 0 <= i < |p| ==> p[i] == y;
        forall i | 0 <= i < |data| ensures data[i] == data[0] {
          if i < |p| { assert data[i] == p[i]; }
          if 0 < |p| { assert data[0] == p[0]; }
        }
      }
      if Constant(data) {
        assert forall i :: 0 <= i < |p| ==> p[i] == data[i] == data[0] == y;
        assert Constant(p);
      }
    }
  }

  /** The fit is not a least-squares fit over index positions: the straight
      line 1, 2, 3 forecasts 0, where a fit over indices would give 4. */
  lemma LinearSeriesForecast()
    ensures LinearRegression([1.0, 2.0, 3.0]) == Defined(0.0)
  {
    FoldsAppend([], 1.0);
    FoldsAppend([1.0], 2.0);
    FoldsAppend([1.0, 2.0], 3.0);
    assert [] + [1.0] == [1.0];
    assert [1.0] + [2.0] == [1.0, 2.0] && [1.0, 2.0] + [3.0] == [1.0, 2.0, 3.0];
    var d := [1.0, 2.0, 3.0];
    assert Sum(d) == 6.0 && SumSquares(d) == 14.0 && SumIndexed(d) == 8.0;
    assert 3.0 * 14.0 - 6.0 * 6.0 == 6.0;
    assert (3.0 * 8.0 - 6.0 * 6.0) / 6.0 == -2.0;
    assert (6.0 - (-2.0) * 6.0) / 3.0 == 6.0;
  }
}
