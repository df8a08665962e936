/** The simple linear regression page's worked example: five fixed points,
    their means, the least-squares slope and intercept, and the prediction at
    x = 6, computed in the browser with the same formulas as the backend. */
module LinearRegressionPage {
  import opened Common
  import LinearRegression

  const X: seq<real> := [1.0, 2.0, 3.0, 4.0, 5.0]
  const Y: seq<real> := [2.0, 3.0, 5.0, 4.0, 6.0]
  const XPred: real := 6.0

  /** Every quantity the page shows. */
  datatype Walkthrough = Walkthrough(meanX: real, meanY: real, numerator: real, denominator: real,
                                     m: real, c: real, yPred: real)

  /** The page's reductions over arbitrary points. An empty list or a constant
      x gives NaN or Infinity in the browser; here that is `None`. */
  function Walk(x: seq<real>, y: seq<real>, xPred: real): (r: Option<Walkthrough>)
    requires |x| == |y|
    ensures r.None? <==> |x| == 0 || LinearRegression.CrossDeviation(x, x, Mean(x), Mean(x)) == 0.0
    ensures r.Some? ==> r.value.meanX == Mean(x) && r.value.meanY == Mean(y)
  {
    if |x| == 0 then None
    else
      var mx, my := Mean(x), Mean(y);
      var numerator := LinearRegression.CrossDeviation(x, y, mx, my);
      var denominator := LinearRegression.CrossDeviation(x, x, mx, mx);
      if denominator == 0.0 then None
      else
        var m := LinearRegression.Slope(numerator, denominator);
        var c := LinearRegression.Intercept(mx, my, m);
        Some(Walkthrough(mx, my, numerator, denominator, m, c, LinearRegression.OnLine(m, c, xPred)))
  }

  /** The page and the backend's ordinary least squares agree: the same
      points give the same means, sums, slope and intercept, and the page's
      prediction lies on the backend's line. */
  lemma WalkAgreesWithBackend(x: seq<real>, y: seq<real>, xPred: real)
    requires |x| == |y|
    ensures Walk(x, y, xPred).Some? <==> LinearRegression.FitLine(x, y).Ok?
    ensures Walk(x, y, xPred).Some? ==>
      var w := Walk(x, y, xPred).value; var f := LinearRegression.FitLine(x, y).value;
      && w.meanX == f.xMean && w.meanY == f.yMean
      && w.numerator == f.numerator && w.denominator == f.denominator
      && w.m == f.slope && w.c == f.intercept
      && w.yPred == LinearRegression.OnLine(f.slope, f.intercept, xPred)
  {
  }

  /** The page's line passes through the point of means. */
  lemma WalkThroughMeans(x: seq<real>, y: seq<real>, xPred: real)
    requires |x| == |y| && Walk(x, y, xPred).Some?
    ensures LinearRegression.OnLine(Walk(x, y, xPred).value.m, Walk(x, y, xPred).value.c, Walk(x, y, xPred).value.meanX)
      == Walk(x, y, xPred).value.meanY
  {
    var w := Walk(x, y, xPred).value;
    LinearRegression.LineThroughPoint(w.m, w.meanX, w.meanY);
  }

  /** On the page's points: x̄ = 3, ȳ = 4, numerator 9, denominator 10,
      m = 0.9, c = 1.3 and the prediction at 6 is 6.7. */
  lemma WorkedExample()
    ensures Walk(X, Y, XPred) == Some(Walkthrough(3.0, 4.0, 9.0, 10.0, 0.9, 1.3, 6.7))
  {
    SumOfFive(X);
    SumOfFive(Y);
    assert Mean(X) == 3.0 && Mean(Y) == 4.0;
    CrossDeviationOfFive(X, Y, 3.0, 4.0);
    CrossDeviationOfFive(X, X, 3.0, 3.0);
  }

  lemma SumOfFive(a: seq<real>)
    requires |a| == 5
    ensures Sum(a) == a[0] + a[1] + a[2] + a[3] + a[4]
  {
    var a4 := a[..4];
    var a3 := a4[..3];
    var a2 := a3[..2];
    var a1 := a2[..1];
    assert a1[..0] == [];
    assert Sum(a1) == a[0];
    assert Sum(a2) == Sum(a1) + a[1];
    assert Sum(a3) == Sum(a2) + a[2];
    assert Sum(a4) == Sum(a3) + a[3];
  }

  /** The sum of cross deviations over five points, written out. */
  lemma CrossDeviationOfFive(a: seq<real>, b: seq<real>, ma: real, mb: real)
    requires |a| == 5 && |b| == 5
    ensures LinearRegression.CrossDeviation(a, b, ma, mb) ==
      LinearRegression.CrossTerm(a[0], b[0], ma, mb) + LinearRegression.CrossTerm(a[1], b[1], ma, mb)
      + LinearRegression.CrossTerm(a[2], b[2], ma, mb) + LinearRegression.CrossTerm(a[3], b[3], ma, mb)
      + LinearRegression.CrossTerm(a[4], b[4], ma, mb)
  {
    var a4, b4 := a[..4], b[..4];
    var a3, b3 := a4[..3], b4[..3];
    var a2, b2 := a3[..2], b3[..2];
    var a1, b1 := a2[..1], b2[..1];
    assert a1[..0] == [] && b1[..0] == [];
    assert LinearRegression.CrossDeviation(a1, b1, ma, mb) == LinearRegression.CrossTerm(a[0], b[0], ma, mb);
    assert LinearRegression.CrossDeviation(a2, b2, ma, mb) == LinearRegression.CrossDeviation(a1, b1, ma, mb) + LinearRegression.CrossTerm(a[1], b[1], ma, mb);
    assert LinearRegression.CrossDeviation(a3, b3, ma, mb) == LinearRegression.CrossDeviation(a2, b2, ma, mb) + LinearRegression.CrossTerm(a[2], b[2], ma, mb);
    assert LinearRegression.CrossDeviation(a4, b4, ma, mb) == LinearRegression.CrossDeviation(a3, b3, ma, mb) + LinearRegression.CrossTerm(a[3], b[3], ma, mb);
  }
}
