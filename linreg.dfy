/**
 * The simple linear regression of src/PhpMachinist/Models/LinearRegression.php: `train`
 * fits a slope and an intercept to (x, y) pairs by least squares, `predict` evaluates the
 * fitted line.
 */
module LeastSquares {
  import opened Wrappers
  import opened Numerics

  /** What PHP throws: `DivisionByZeroError`, or the `Error` for reading a typed property never set. */
  datatype Error = DivisionByZero | Uninitialised

  /** The fitted line y = slope * x + intercept. */
  datatype Line = Line(slope: real, intercept: real)

  /** `array_sum($s) / $n`. */
  function Mean(s: seq<real>, n: nat): real
    requires n > 0
  {
    Sum(s) / n as real
  }

  /** The terms (x[i] - mx) * (y[i] - my) whose sum is the slope's numerator (line 68). */
  function CrossDeviations(x: seq<real>, y: seq<real>, mx: real, my: real): (r: seq<real>)
    ensures |r| == |x|
  {
    seq(|x|, i requires 0 <= i < |x| => (x[i] - mx) * (At(y, i) - my))
  }

  /** PHP's `d ** 2`. */
  function Square(d: real): real
  {
    d * d
  }

  /** The terms (x[i] - mx) ** 2 whose sum is the slope's denominator (line 80). */
  function SquaredDeviations(x: seq<real>, mx: real): (r: seq<real>)
    ensures |r| == |x|
  {
    seq(|x|, i requires 0 <= i < |x| => Square(x[i] - mx))
  }

  /**
   * What `train` computes: the least-squares line, or the division by zero PHP throws for
   * no points (the means) or for x values that are all equal (the slope).
   */
  function Fit(x: seq<real>, y: seq<real>): Result<Line, Error>
  {
    if |x| == 0 then Failure(DivisionByZero)
    else
      var mx, my := Mean(x, |x|), Mean(y, |x|);
      LineFrom(mx, my, Sum(CrossDeviations(x, y, mx, my)), Sum(SquaredDeviations(x, mx)))
  }

  /** Lines 88-96: slope = numerator / denominator, and the line through the mean point. */
  function LineFrom(mx: real, my: real, numerator: real, denominator: real): Result<Line, Error>
  {
    if denominator == 0.0 then Failure(DivisionByZero)
    else Success(LineThrough(numerator / denominator, mx, my))
  }

  /** Line 96: the line of the given slope through (mx, my), with intercept my - slope * mx. */
  function LineThrough(slope: real, mx: real, my: real): Line
  {
    Line(slope, my - slope * mx)
  }

  /** Line 111: slope * x + intercept. */
  function Value(slope: real, intercept: real, x: real): real
  {
    slope * x + intercept
  }

  /** What `predict` returns: the line at each x, in order. */
  function Predictions(line: Line, xs: seq<real>): (r: seq<real>)
    ensures |r| == |xs|
  {
    seq(|xs|, i requires 0 <= i < |xs| => Value(line.slope, line.intercept, xs[i]))
  }

  /** The point (px, py) lies on the line. */
  predicate OnLine(line: Line, px: real, py: real)
  {
    line.slope * px + line.intercept == py
  }

  /** All x values are equal. */
  predicate Constant(x: seq<real>)
  {
    forall i, j :: 0 <= i < |x| && 0 <= j < |x| ==> x[i] == x[j]
  }

  // ---------------------------------------------------------------------------
  // Arithmetic on plain numbers, kept apart from the sums

  /** The square of a non-zero number is positive. */
  lemma SquarePositive(d: real)
    ensures d != 0.0 ==> Square(d) > 0.0
  {
    if d > 0.0 {
      ProductPositive(Square(d), d, d);
    } else if d < 0.0 {
      ProductOfNegatives(Square(d), d, d);
    }
  }

  /** A squared deviation is non-negative, and zero exactly when the value equals the mean. */
  lemma SquaredDeviationSign(x: seq<real>, mx: real, i: nat)
    requires i < |x|
    ensures SquaredDeviations(x, mx)[i] >= 0.0
    ensures SquaredDeviations(x, mx)[i] == 0.0 <==> x[i] == mx
  {
    SquarePositive(x[i] - mx);
  }

  /** The line from a numerator b times the denominator, through a mean point on y = a + b * x. */
  lemma LineFromExact(mx: real, my: real, a: real, b: real, numerator: real, denominator: real)
    requires denominator != 0.0 && numerator == b * denominator && my == a + b * mx
    ensures LineFrom(mx, my, numerator, denominator) == Success(Line(b, a))
  {
    DivideOut(numerator, denominator, b);
    LineThroughExact(a, b, mx, my);
  }

  lemma DivideOut(numerator: real, denominator: real, b: real)
    requires denominator != 0.0 && numerator == b * denominator
    ensures numerator / denominator == b
  {
  }

  /** The line of slope b through a point of y = a + b * x is that line. */
  lemma LineThroughExact(a: real, b: real, mx: real, my: real)
    requires my == a + b * mx
    ensures LineThrough(b, mx, my) == Line(b, a)
  {
  }

  lemma MeanOfAffine(n: real, a: real, b: real, s: real)
    requires n > 0.0
    ensures (n * a + b * s) / n == a + b * (s / n)
  {
  }

  /** A point of the line y = a + b * x deviates from the mean point by b times its x deviation. */
  lemma LineDeviation(a: real, b: real, xi: real, mx: real, yi: real, my: real)
    requires yi == a + b * xi && my == a + b * mx
    ensures (xi - mx) * (yi - my) == b * Square(xi - mx)
  {
    assert yi - my == b * (xi - mx);
  }

  /** A line through the mean point (sx / n, sy / n) has n * c + s * sx == sy. */
  lemma ResidualAlgebra(n: real, sx: real, sy: real, s: real, c: real)
    requires n > 0.0 && s * (sx / n) + c == sy / n
    ensures n * c + s * sx == sy
  {
    assert n * (s * (sx / n)) == s * sx;
    assert n * (sy / n) == sy;
  }

  // ---------------------------------------------------------------------------
  // Sums

  /** A sum of non-negative terms is non-negative, and zero exactly when every term is. */
  lemma {:induction false} SumOfNonNegative(s: seq<real>)
    requires forall i :: 0 <= i < |s| ==> s[i] >= 0.0
    ensures Sum(s) >= 0.0
    ensures Sum(s) == 0.0 <==> forall i :: 0 <= i < |s| ==> s[i] == 0.0
  {
    if |s| > 0 {
      SumOfNonNegative(s[..|s| - 1]);
    }
  }

  /** The sum of n copies of c. */
  lemma {:induction false} SumConstant(x: seq<real>, c: real)
    requires forall i :: 0 <= i < |x| ==> x[i] == c
    ensures Sum(x) == |x| as real * c
  {
    if |x| > 0 {
      SumConstant(x[..|x| - 1], c);
    }
  }

  /** Summing an affine image: if y[i] = a + b * x[i] then sum(y) = n * a + b * sum(x). */
  lemma {:induction false} SumAffine(x: seq<real>, y: seq<real>, a: real, b: real)
    requires |y| == |x| && forall i :: 0 <= i < |x| ==> y[i] == a + b * x[i]
    ensures Sum(y) == |x| as real * a + b * Sum(x)
  {
    if |x| > 0 {
      SumAffine(x[..|x| - 1], y[..|y| - 1], a, b);
    }
  }

  /** Scaling every term scales the sum. */
  lemma {:induction false} SumScaled(s: seq<real>, t: seq<real>, b: real)
    requires |s| == |t| && forall i :: 0 <= i < |s| ==> s[i] == b * t[i]
    ensures Sum(s) == b * Sum(t)
  {
    if |s| > 0 {
      SumScaled(s[..|s| - 1], t[..|t| - 1], b);
    }
  }

  // ---------------------------------------------------------------------------
  // Properties

  /** The denominator is a sum of squares: never negative. */
  lemma DenominatorNonNegative(x: seq<real>, mx: real)
    ensures Sum(SquaredDeviations(x, mx)) >= 0.0
  {
    var sq := SquaredDeviations(x, mx);
    forall i | 0 <= i < |x|
      ensures sq[i] >= 0.0
    {
      SquaredDeviationSign(x, mx, i);
    }
    SumOfNonNegative(sq);
  }

  /**
   * The denominator is zero exactly when the x values are all equal: the slope division
   * at line 88 fails for constant x and for nothing else.
   */
  lemma DenominatorZeroIffConstant(x: seq<real>)
    requires |x| > 0
    ensures Sum(SquaredDeviations(x, Mean(x, |x|))) == 0.0 <==> Constant(x)
  {
    var m := Mean(x, |x|);
    var sq := SquaredDeviations(x, m);
    forall i | 0 <= i < |x|
      ensures sq[i] >= 0.0 && (sq[i] == 0.0 <==> x[i] == m)
    {
      SquaredDeviationSign(x, m, i);
    }
    SumOfNonNegative(sq);
    if Constant(x) {
      SumConstant(x, x[0]);
      assert m == x[0];
    }
  }

  /** `train` fails exactly for no points or for equal x values, and then with a division by zero. */
  lemma FitFailsIff(x: seq<real>, y: seq<real>)
    ensures Fit(x, y).Failure? <==> |x| == 0 || Constant(x)
    ensures Fit(x, y).Failure? ==> Fit(x, y).error == DivisionByZero
  {
    if |x| > 0 {
      DenominatorZeroIffConstant(x);
    }
  }

  /** The fitted line passes through the point of means (mean x, mean y). */
  lemma FitThroughMeans(x: seq<real>, y: seq<real>)
    requires Fit(x, y).Success?
    ensures |x| > 0 && OnLine(Fit(x, y).value, Mean(x, |x|), Mean(y, |x|))
  {
  }

  /** Points that lie exactly on y = a + b * x, with x not all equal, give back slope b and intercept a. */
  lemma ExactFit(x: seq<real>, y: seq<real>, a: real, b: real)
    requires |y| == |x| && |x| > 0 && !Constant(x)
    requires forall i :: 0 <= i < |x| ==> y[i] == a + b * x[i]
    ensures Fit(x, y) == Success(Line(b, a))
  {
    var mx, my := Mean(x, |x|), Mean(y, |x|);
    ExactMeans(x, y, a, b);
    ExactTerms(x, y, a, b, mx, my);
    var cross, sq := CrossDeviations(x, y, mx, my), SquaredDeviations(x, mx);
    SumScaled(cross, sq, b);
    DenominatorZeroIffConstant(x);
    FitUnfold(x, y);
    LineFromExact(mx, my, a, b, Sum(cross), Sum(sq));
  }

  /** `Fit` on points: the line from the means and the two sums. */
  lemma FitUnfold(x: seq<real>, y: seq<real>)
    requires |x| > 0
    ensures var mx, my := Mean(x, |x|), Mean(y, |x|);
            Fit(x, y) == LineFrom(mx, my, Sum(CrossDeviations(x, y, mx, my)), Sum(SquaredDeviations(x, mx)))
  {
  }

  /** On y = a + b * x the mean point is on the line too. */
  lemma ExactMeans(x: seq<real>, y: seq<real>, a: real, b: real)
    requires |y| == |x| && |x| > 0
    requires forall i :: 0 <= i < |x| ==> y[i] == a + b * x[i]
    ensures Mean(y, |x|) == a + b * Mean(x, |x|)
  {
    SumAffine(x, y, a, b);
    MeanOfAffine(|x| as real, a, b, Sum(x));
  }

  /** On y = a + b * x every numerator term is b times the denominator term. */
  lemma ExactTerms(x: seq<real>, y: seq<real>, a: real, b: real, mx: real, my: real)
    requires |y| == |x| && my == a + b * mx
    requires forall i :: 0 <= i < |x| ==> y[i] == a + b * x[i]
    ensures forall i :: 0 <= i < |x| ==> CrossDeviations(x, y, mx, my)[i] == b * SquaredDeviations(x, mx)[i]
  {
    forall i | 0 <= i < |x|
      ensures CrossDeviations(x, y, mx, my)[i] == b * SquaredDeviations(x, mx)[i]
    {
      ExactTerm(x, y, a, b, mx, my, i);
    }
  }

  lemma ExactTerm(x: seq<real>, y: seq<real>, a: real, b: real, mx: real, my: real, i: nat)
    requires i < |x| && i < |y| && my == a + b * mx && y[i] == a + b * x[i]
    ensures CrossDeviations(x, y, mx, my)[i] == b * SquaredDeviations(x, mx)[i]
  {
    LineDeviation(a, b, x[i], mx, y[i], my);
  }

  /** On exact data, predicting at the training points gives back the training targets. */
  lemma ExactFitReproduces(x: seq<real>, y: seq<real>, a: real, b: real)
    requires |y| == |x| && |x| > 0 && !Constant(x)
    requires forall i :: 0 <= i < |x| ==> y[i] == a + b * x[i]
    ensures Fit(x, y).Success? && Predictions(Fit(x, y).value, x) == y
  {
    ExactFit(x, y, a, b);
    PredictionsOnLine(x, y, a, b);
  }

  /** Predicting on the line y = a + b * x at points that lie on it gives back their y values. */
  lemma PredictionsOnLine(x: seq<real>, y: seq<real>, a: real, b: real)
    requires |y| == |x| && forall i :: 0 <= i < |x| ==> y[i] == a + b * x[i]
    ensures Predictions(Line(b, a), x) == y
  {
    var p := Predictions(Line(b, a), x);
    assert forall i :: 0 <= i < |x| ==> p[i] == y[i];
  }

  /** Least-squares residuals cancel: the predictions at the training points add up to the targets. */
  lemma ResidualsCancel(x: seq<real>, y: seq<real>)
    requires |y| == |x| && Fit(x, y).Success?
    ensures Sum(Predictions(Fit(x, y).value, x)) == Sum(y)
  {
    FitThroughMeans(x, y);
    ThroughMeansCancels(x, y, Fit(x, y).value);
  }

  /** Any line through the point of means predicts, at the points, values that add up to the targets. */
  lemma ThroughMeansCancels(x: seq<real>, y: seq<real>, line: Line)
    requires |y| == |x| > 0 && OnLine(line, Mean(x, |x|), Mean(y, |x|))
    ensures Sum(Predictions(line, x)) == Sum(y)
  {
    PredictionsSum(x, line);
    ResidualAlgebra(|x| as real, Sum(x), Sum(y), line.slope, line.intercept);
  }

  /** The predictions add up to n * intercept + slope * sum(x). */
  lemma PredictionsSum(x: seq<real>, line: Line)
    ensures Sum(Predictions(line, x)) == |x| as real * line.intercept + line.slope * Sum(x)
  {
    SumAffine(x, Predictions(line, x), line.intercept, line.slope);
  }

  /** Lines 54-81: the loop accumulating the slope's numerator and denominator. */
  method SumDeviations(xData: seq<real>, yData: seq<real>, meanX: real, meanY: real)
    returns (numerator: real, denominator: real)
    ensures numerator == Sum(CrossDeviations(xData, yData, meanX, meanY))
    ensures denominator == Sum(SquaredDeviations(xData, meanX))
  {
    numerator := 0.0;
    denominator := 0.0;
    ghost var cross, sq := CrossDeviations(xData, yData, meanX, meanY), SquaredDeviations(xData, meanX);
    for i := 0 to |xData|
      invariant numerator == Sum(cross[..i]) && denominator == Sum(sq[..i])
    {
      var term := (xData[i] - meanX) * (At(yData, i) - meanY);
      var square := Square(xData[i] - meanX);
      SumStep(cross, i, term);
      SumStep(sq, i, square);
      numerator := numerator + term;
      denominator := denominator + square;
    }
    SumWhole(cross);
    SumWhole(sq);
  }

  /** One more term of a running sum. */
  lemma SumStep(s: seq<real>, i: nat, term: real)
    requires i < |s| && s[i] == term
    ensures Sum(s[..i + 1]) == Sum(s[..i]) + term
  {
    assert s[..i + 1][..i] == s[..i];
  }

  lemma SumWhole(s: seq<real>)
    ensures Sum(s[..|s|]) == Sum(s)
  {
    assert s[..|s|] == s;
  }

  /** The intercept computed at line 96 is that of `LineThrough`. */
  lemma LineThroughParts(slope: real, mx: real, my: real, intercept: real)
    requires intercept == my - slope * mx
    ensures LineThrough(slope, mx, my) == Line(slope, intercept)
  {
  }

  // ---------------------------------------------------------------------------
  // The class

  class LinearRegression {
    var slope: real
    var intercept: real
    /** Whether the typed properties have been assigned (by a `train` that did not throw). */
    var trained: bool

    constructor ()
      ensures !trained
    {
      trained := false;
    }

    /** `train($xData, $yData)`: on success the line of `Fit`; on an error nothing changes. */
    method Train(xData: seq<real>, yData: seq<real>) returns (err: Option<Error>)
      modifies this
      ensures Fit(xData, yData).Failure? ==> err == Some(Fit(xData, yData).error) && unchanged(this)
      ensures Fit(xData, yData).Success? ==> err.None? && trained && Line(slope, intercept) == Fit(xData, yData).value
    {
      var xDataSize := |xData|;
      if xDataSize == 0 {
        return Some(DivisionByZero);
      }
      var meanX := Sum(xData) / xDataSize as real;
      var meanY := Sum(yData) / xDataSize as real;
      var numerator, denominator := SumDeviations(xData, yData, meanX, meanY);
      FitUnfold(xData, yData);
      if denominator == 0.0 {
        return Some(DivisionByZero);
      }
      var s := numerator / denominator;
      slope := s;
      intercept := meanY - s * meanX;
      trained := true;
      LineThroughParts(s, meanX, meanY, intercept);
      err := None;
    }

    /** `predict($xData)`: the line at each x; reading the unset properties throws. */
    method Predict(xData: seq<real>) returns (r: Result<seq<real>, Error>)
      ensures r == if |xData| > 0 && !trained then Failure(Uninitialised)
                   else Success(Predictions(Line(slope, intercept), xData))
    {
      if |xData| > 0 && !trained {
        return Failure(Uninitialised);
      }
      var predictions: seq<real> := [];
      for i := 0 to |xData|
        invariant |predictions| == i
        invariant forall k :: 0 <= k < i ==> predictions[k] == Value(slope, intercept, xData[k])
      {
        predictions := predictions + [slope * xData[i] + intercept];
      }
      assert predictions == Predictions(Line(slope, intercept), xData);
      r := Success(predictions);
    }
  }
}
