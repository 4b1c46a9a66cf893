// Realized movement over 31 closes, in basis points: the root of the sum of squared simple
// returns, with every rounding upward. The exact value is real; the code works in integers.
module Volatility {
  import opened Wrappers
  import opened SquareRoot

  const SCALE: nat := 1_000_000_000_000
  const BPS: nat := 10_000
  const MAX_SAFE_INTEGER: nat := 9007199254740991

  function Abs(n: int): nat {
    if n < 0 then -n else n
  }

  function CeilDiv(n: nat, d: nat): (r: nat)
    requires d > 0
    ensures r * d >= n && (r > 0 ==> (r - 1) * d < n)
  {
    CeilDivBounds(n, d);
    (n + d - 1) / d
  }

  lemma CeilDivBounds(n: nat, d: nat)
    requires d > 0
    ensures var r := (n + d - 1) / d; r * d >= n && (r > 0 ==> (r - 1) * d < n)
  {
  }

  predicate Positive(closes: seq<int>) {
    forall i :: 0 <= i < |closes| ==> closes[i] > 0
  }

  // ---- the exact quantities --------------------------------------------------------------

  // The k-th simple return without its sign.
  function Return(closes: seq<int>, k: nat): (r: real)
    requires Positive(closes) && 0 < k < |closes|
    ensures r >= 0.0
  {
    (Abs(closes[k] - closes[k - 1]) as real) / (closes[k - 1] as real)
  }

  // Its scaled rounding upward.
  function Rounded(closes: seq<int>, k: nat): nat
    requires Positive(closes) && 0 < k < |closes|
  {
    CeilDiv(Abs(closes[k] - closes[k - 1]) * SCALE, closes[k - 1])
  }

  // Squares behind a name keep the solver from multiplying out sums it only has to add up.
  function Square(x: real): (r: real)
    ensures r >= 0.0
  {
    SquareIsPositive(x);
    x * x
  }

  lemma SquareIsPositive(x: real)
    ensures x * x >= 0.0
  {
  }

  function Returns(closes: seq<int>, k: nat): (r: real)
    requires Positive(closes) && k < |closes|
    ensures r >= 0.0
  {
    if k == 0 then 0.0 else Returns(closes, k - 1) + Return(closes, k)
  }

  function SquaredReturns(closes: seq<int>, k: nat): (r: real)
    requires Positive(closes) && k < |closes|
    ensures r >= 0.0
  {
    if k == 0 then 0.0 else SquaredReturns(closes, k - 1) + Square(Return(closes, k))
  }

  function Squared(n: nat): nat {
    n * n
  }

  function SquaredRounded(closes: seq<int>, k: nat): nat
    requires Positive(closes) && k < |closes|
  {
    if k == 0 then 0 else SquaredRounded(closes, k - 1) + Squared(Rounded(closes, k))
  }

  // ---- rounding one return ---------------------------------------------------------------

  lemma Cancel(a: real, b: real, d: real)
    requires d > 0.0
    ensures a * d < b * d ==> a < b
    ensures d * a <= d * b ==> a <= b
  {
  }

  lemma RealQuotient(n: real, d: real)
    requires d > 0.0
    ensures (n / d) * d == n
  {
  }

  lemma RealProduct(r: int, d: nat)
    ensures (r * d) as real == (r as real) * (d as real)
  {
  }

  lemma QuotientBounds(n: nat, d: nat, r: nat)
    requires d > 0 && r * d >= n && (r > 0 ==> (r - 1) * d < n)
    ensures r as real >= (n as real) / (d as real) && (r as real) < (n as real) / (d as real) + 1.0
  {
    var q, x, y := (n as real) / (d as real), r as real, d as real;
    RealQuotient(n as real, y);
    RealProduct(r, d);
    RealProduct(r - 1, d);
    Commutes(q, y);
    Commutes(x, y);
    Cancel(q, x, y);
    Cancel(x - 1.0, q, y);
    assert (r - 1) as real == x - 1.0;
  }

  lemma Commutes(a: real, b: real)
    ensures a * b == b * a
  {
  }

  ghost predicate RoundsUp(s: real, e: real, r: real) {
    s * e <= r <= s * e + 1.0
  }

  lemma RoundedBounds(closes: seq<int>, k: nat, s: real)
    requires Positive(closes) && 0 < k < |closes| && s == SCALE as real
    ensures RoundsUp(s, Return(closes, k), Rounded(closes, k) as real)
  {
    var n, d := Abs(closes[k] - closes[k - 1]), closes[k - 1];
    QuotientBounds(n * SCALE, d, Rounded(closes, k));
    assert ((n * SCALE) as real) == (n as real) * (SCALE as real);
    assert ((n * SCALE) as real) / (d as real) == (SCALE as real) * ((n as real) / (d as real));
  }

  // ---- sums --------------------------------------------------------------------------------

  lemma SquareOfSum(a: real, b: real)
    ensures (a + b) * (a + b) == a * a + 2.0 * (a * b) + b * b
  {
  }

  lemma SquareMonotone(a: real, b: real)
    requires 0.0 <= a <= b
    ensures a * a <= b * b
  {
  }

  lemma SquareBetween(a: real, r: real)
    requires 0.0 <= a <= r <= a + 1.0
    ensures a * a <= r * r <= a * a + 2.0 * a + 1.0
  {
    SquareMonotone(a, r);
    SquareMonotone(r, a + 1.0);
    SquareOfSum(a, 1.0);
  }

  lemma Scaled(s: real, q: real, t: real, e: real)
    ensures s * s * (q + e * e) == s * s * q + (s * e) * (s * e) && s * (t + e) == s * t + s * e
  {
    assert s * s * (e * e) == (s * e) * (s * e);
  }

  // total lies between the exact q and what rounding k terms with sum t may add.
  ghost predicate Between(s: real, q: real, t: real, total: real, k: real) {
    s * s * q <= total <= s * s * q + 2.0 * (s * t) + k
  }

  lemma AccumulateStep(s: real, q: real, t: real, e: real, r: real, total: real, k: real)
    requires s >= 0.0 && e >= 0.0 && RoundsUp(s, e, r) && Between(s, q, t, total, k)
    ensures Between(s, q + Square(e), t + e, total + Square(r), k + 1.0)
  {
    assert s * e >= 0.0;
    SquareBetween(s * e, r);
    Scaled(s, q, t, e);
  }

  lemma SumAsReal(total: nat, r: nat)
    ensures (total + Squared(r)) as real == total as real + Square(r as real)
  {
  }

  lemma BetweenNothing(s: real)
    ensures Between(s, 0.0, 0.0, 0.0, 0.0)
  {
  }

  // The accumulated squares lie between the exact sum and what one unit of rounding a term adds.
  lemma {:induction false} AccumulatedBounds(closes: seq<int>, k: nat, s: real)
    requires Positive(closes) && k < |closes| && s == SCALE as real
    ensures Between(s, SquaredReturns(closes, k), Returns(closes, k), SquaredRounded(closes, k) as real, k as real)
  {
    hide Return, Rounded, Between, RoundsUp, Square, Squared;
    if k == 0 {
      BetweenNothing(s);
    } else {
      AccumulatedBounds(closes, k - 1, s);
      RoundedBounds(closes, k, s);
      AccumulateStep(s, SquaredReturns(closes, k - 1), Returns(closes, k - 1), Return(closes, k),
          Rounded(closes, k) as real,
                     SquaredRounded(closes, k - 1) as real, (k - 1) as real);
      SumAsReal(SquaredRounded(closes, k - 1), Rounded(closes, k));
      assert (k - 1) as real + 1.0 == k as real;
    }
  }

  ghost predicate SquareWithin(t: real, n: real, q: real) {
    t * t <= n * q
  }

  lemma CauchyStep(n: real, t: real, q: real, e: real)
    requires n > 0.0 && SquareWithin(t, n, q)
    ensures SquareWithin(t + e, n + 1.0, q + Square(e))
  {
    var w, f, m := t * e, e * e, n * e;
    SquareOfSum(t, -m);
    SquareIsPositive(t - m);
    assert t * m == n * w && m * m == n * (n * f);
    assert n * (2.0 * w) <= n * (q + n * f);
    Cancel(2.0 * w, q + n * f, n);
    SquareOfSum(t, e);
    assert (n + 1.0) * (q + f) == n * q + n * f + q + f;
  }

  lemma CauchyOfOne(e: real)
    ensures SquareWithin(0.0 + e, 1.0, 0.0 + Square(e)) && SquareWithin(0.0, 0.0, 0.0)
  {
  }

  // The square of the sum is at most the number of terms times the sum of the squares.
  lemma {:induction false} Cauchy(closes: seq<int>, k: nat, n: real)
    requires Positive(closes) && k < |closes| && n == k as real
    ensures SquareWithin(Returns(closes, k), n, SquaredReturns(closes, k))
  {
    hide Return, Square, SquareWithin;
    if k <= 1 {
      CauchyOfOne(if k == 1 then Return(closes, 1) else 0.0);
      assert k == 1 ==> Returns(closes, 1) == Returns(closes, 0) + Return(closes, 1);
      assert k == 1 ==> SquaredReturns(closes, 1) == SquaredReturns(closes, 0) + Square(Return(closes, 1));
    } else {
      Cauchy(closes, k - 1, n - 1.0);
      CauchyStep(n - 1.0, Returns(closes, k - 1), SquaredReturns(closes, k - 1), Return(closes, k));
      assert n - 1.0 + 1.0 == n;
    }
  }

  // ---- the two-sided bound -----------------------------------------------------------------

  // With t the scaled sum of 30 returns and a the scaled sum of their squares: rounding costs
  // the root less than seven units.
  lemma RootLosesLittle(root: real, a: real, t: real)
    requires root >= 7.0 && t >= 0.0 && t * t <= 30.0 * a && (root - 1.0) * (root - 1.0) <= a + 2.0 * t + 30.0
    ensures (root - 7.0) * (root - 7.0) <= a
  {
    var s := root - 7.0;
    if s * s > a {
      SquareOfSum(s, 6.0);
      assert (root - 1.0) * (root - 1.0) == s * s + 12.0 * s + 36.0;
      SquareIsPositive(s);
      assert (5.5 * s) * (5.5 * s) == 30.25 * (s * s);
      if t > 5.5 * s {
        SquareMonotone(5.5 * s, t);
        assert false;
      }
    }
  }

  // bps is at least the exact movement, and less than two points above it.
  ghost predicate Close(bps: real, q: real) {
    bps * bps >= 100000000.0 * q && (bps >= 2.0 ==> (bps - 2.0) * (bps - 2.0) <= 100000000.0 * q)
  }

  ghost predicate Accurate(closes: seq<int>, bps: nat)
    requires |closes| == 31 && Positive(closes)
  {
    Close(bps as real, SquaredReturns(closes, 30))
  }

  function Volatility(closes: seq<int>): nat
    requires |closes| == 31 && Positive(closes)
  {
    CeilDiv(CeilSqrt(SquaredRounded(closes, 30)) * BPS, SCALE)
  }

  lemma NeverUnderstates(root: real, a: real, bps: real)
    requires root >= 0.0 && bps >= 0.0 && root * root >= 1000000000000.0 * 1000000000000.0 * a
             && bps * 1000000000000.0 >= root * 10000.0
    ensures bps * bps >= 100000000.0 * a
  {
    var s := 1000000000000.0;
    SquareMonotone(root * 10000.0, bps * s);
    assert (root * 10000.0) * (root * 10000.0) == 100000000.0 * (root * root);
    assert (bps * s) * (bps * s) == s * s * (bps * bps);
  }

  lemma OverstatesLittle(root: real, a: real, bps: real)
    requires bps >= 2.0 && (root >= 7.0 ==> (root - 7.0) * (root - 7.0) <= 1000000000000.0 * 1000000000000.0 * a)
    requires (bps - 1.0) * 1000000000000.0 < root * 10000.0
    ensures (bps - 2.0) * (bps - 2.0) <= 100000000.0 * a
  {
    var s := 1000000000000.0;
    assert (bps - 2.0) * s <= (root - 7.0) * 10000.0;
    SquareMonotone((bps - 2.0) * s, (root - 7.0) * 10000.0);
    assert ((root - 7.0) * 10000.0) * ((root - 7.0) * 10000.0) == 100000000.0 * ((root - 7.0) * (root - 7.0));
    assert ((bps - 2.0) * s) * ((bps - 2.0) * s) == s * s * ((bps - 2.0) * (bps - 2.0));
  }

  ghost predicate RealRoot(total: real, r: real) {
    r >= 0.0 && r * r >= total && (r >= 1.0 ==> (r - 1.0) * (r - 1.0) <= total)
  }

  lemma RootsAsReals(sum: nat, root: nat)
    requires IsCeilRoot(sum, root)
    ensures RealRoot(sum as real, root as real)
  {
    var r := root as real;
    assert r * r == (root * root) as real;
    if root > 0 {
      assert (r - 1.0) * (r - 1.0) == ((root - 1) * (root - 1)) as real;
    }
  }

  ghost predicate RealPoints(s: real, r: real, b: real) {
    b >= 0.0 && b * s >= r * 10000.0 && (b >= 1.0 ==> (b - 1.0) * s < r * 10000.0)
  }

  lemma PointsAsReals(root: nat, s: real)
    requires s == SCALE as real
    ensures RealPoints(s, root as real, CeilDiv(root * BPS, SCALE) as real)
  {
  }

  lemma TwoSided(s: real, q: real, t: real, total: real, r: real, b: real)
    requires s == 1000000000000.0 && t >= 0.0 && Between(s, q, t, total, 30.0) && SquareWithin(t, 30.0, q)
    requires RealRoot(total, r) && RealPoints(s, r, b)
    ensures Close(b, q)
  {
    NeverUnderstates(r, q, b);
    if b >= 2.0 {
      if r >= 7.0 {
        assert (s * t) * (s * t) == s * s * (t * t);
        RootLosesLittle(r, s * s * q, s * t);
      }
      OverstatesLittle(r, q, b);
    }
  }

  // Sound and tight for every series: never below the exact movement, never two points above.
  lemma VolatilityIsAccurate(closes: seq<int>)
    requires |closes| == 31 && Positive(closes)
    ensures Accurate(closes, Volatility(closes))
  {
    hide SquaredReturns, Returns, SquaredRounded, CeilSqrt, CeilDiv, Between, SquareWithin, RealRoot, RealPoints,
        IsCeilRoot, Close;
    var s, sum := SCALE as real, SquaredRounded(closes, 30);
    AccumulatedBounds(closes, 30, s);
    Cauchy(closes, 30, 30.0);
    RootsAsReals(sum, CeilSqrt(sum));
    PointsAsReals(CeilSqrt(sum), s);
    TwoSided(s, SquaredReturns(closes, 30), Returns(closes, 30), sum as real, CeilSqrt(sum) as real,
        Volatility(closes) as real);
  }

  // ---- the code ------------------------------------------------------------------------------

  method VolatilityBps(closes: seq<int>) returns (r: Result<nat>)
    ensures |closes| != 31 || !Positive(closes) ==> r.Failure?
    ensures |closes| == 31 && Positive(closes)
            ==> r == if Volatility(closes) > MAX_SAFE_INTEGER then Failure("Volatility exceeds safe integer range")
                else Success(Volatility(closes))
    ensures r.Success? ==> |closes| == 31 && Positive(closes) && Accurate(closes, r.value)
  {
    if |closes| != 31 || exists i :: 0 <= i < |closes| && closes[i] <= 0 {
      return Failure("Expected 31 positive minute closes");
    }
    var sum := 0;
    for i := 1 to |closes|
      invariant sum == SquaredRounded(closes, i - 1)
    {
      var delta := closes[i] - closes[i - 1];
      var r := CeilDiv((if delta < 0 then -delta else delta) * SCALE, closes[i - 1]);
      sum := sum + r * r;
    }
    VolatilityIsAccurate(closes);
    if sum == 0 {
      return Success(0);
    }
    var root := SqrtRoundedUp(sum);
    var bps := CeilDiv(root * BPS, SCALE);
    if bps > MAX_SAFE_INTEGER {
      return Failure("Volatility exceeds safe integer range");
    }
    return Success(bps);
  }

  datatype Book = Book(midpoint: nat, spreadBps: nat)

  method BookMetrics(bid: int, ask: int) returns (r: Result<Book>)
    ensures r.Failure? <==> bid <= 0 || ask < bid
    ensures r.Success? ==> 2 * r.value.midpoint <= bid + ask <= 2 * r.value.midpoint + 1
                           && bid <= r.value.midpoint <= ask
    ensures r.Success? ==> r.value.spreadBps * r.value.midpoint >= (ask - bid) * BPS && r.value.spreadBps <= 2 * BPS
    ensures r.Success? && r.value.spreadBps > 0 ==> (r.value.spreadBps - 1) * r.value.midpoint < (ask - bid) * BPS
  {
    if bid <= 0 || ask < bid {
      return Failure("Invalid or crossed order book");
    }
    var midpoint := (bid + ask) / 2;
    var spread := CeilDiv((ask - bid) * BPS, midpoint);
    SpreadBounded(midpoint, ask - bid, spread);
    return Success(Book(midpoint, spread));
  }

  lemma ProductGrows(a: nat, b: nat, m: nat)
    requires a <= b
    ensures a * m <= b * m
  {
  }

  lemma SpreadBounded(midpoint: nat, gap: nat, spread: nat)
    requires gap <= 2 * midpoint && (spread > 0 ==> (spread - 1) * midpoint < gap * BPS)
    ensures spread <= 2 * BPS
  {
    assert gap * BPS <= (2 * BPS) * midpoint;
    if spread > 2 * BPS {
      ProductGrows(2 * BPS, spread - 1, midpoint);
    }
  }
}
