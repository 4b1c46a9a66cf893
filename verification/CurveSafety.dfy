// What the preview's arithmetic guarantees: no liquidity from nowhere, no value from rounding,
// and balances that stay inside the envelope over whole scenarios.
module CurveSafety {
  import opened Wrappers
  import opened SquareRoot
  import opened CurvePreview

  // ---- products -----------------------------------------------------------------------------

  lemma Scale(a: int, b: int, k: nat)
    requires a <= b
    ensures a * k <= b * k && k * a <= k * b
  {
  }

  lemma Shrink(a: int, b: int, k: nat)
    requires k > 0 && k * a <= k * b
    ensures a <= b
  {
    assert k * (b + 1) == k * b + k;
    if a > b {
      Scale(b + 1, a, k);
    }
  }

  lemma Quotient(n: nat, d: nat)
    requires d > 0
    ensures (n / d) * d <= n < (n / d + 1) * d
  {
  }

  lemma RoundedUp(n: nat, d: nat, q: nat)
    requires d > 0 && q == n / d + (if n % d == 0 then 0 else 1)
    ensures n <= q * d && (q > 0 ==> (q - 1) * d < n)
  {
    assert n == d * (n / d) + n % d;
  }

  // ---- the concentrated liquidity never exceeds the exact root --------------------------------

  lemma Expand(p: int, q: int)
    ensures (p - q) * (p - q) == p * p - 2 * (p * q) + q * q
  {
  }

  lemma Regroup(a: int, b: int, c: int, d: int)
    ensures (a * b) * (c * d) == (a * c) * (b * d) && (a * b) * c == a * (b * c) && (a * b) * c == (a * c) * b
  {
    assert (a * b) * (c * d) == a * (b * (c * d)) && (a * c) * (b * d) == a * (c * (b * d));
    assert b * (c * d) == c * (b * d);
  }

  lemma Distribute(a: int, b: int, k: int)
    ensures (a + b) * k == a * k + b * k && k * (a + b) == k * a + k * b && (a - b) * k == a * k - b * k
  {
  }

  // The squared root term, scaled.
  lemma RadicandBound(s: nat, be: nat, f: nat, e: nat, m: nat)
    requires s * s <= be * be + f && f * e <= 4 * m
    ensures (s * e) * (s * e) <= (be * e) * (be * e) + 4 * (m * e)
  {
    Regroup(s, e, s, e);
    Regroup(be, e, be, e);
    Scale(s * s, be * be + f, e * e);
    Distribute(be * be, f, e * e);
    Regroup(f, e, e, 1);
    Scale(f * e, 4 * m, e);
    Regroup(4, m, e, 1);
  }

  // Completing the square.
  lemma QuadraticBound(al: nat, l: nat, q: nat, m: nat)
    requires al >= 1
    requires var p := 2 * (al * l); (p - q) * (p - q) <= q * q + 4 * (al * m)
    ensures al * (l * l) <= l * q + m
  {
    var p := 2 * (al * l);
    Expand(p, q);
    Regroup(al, l, al, l);
    Regroup(al, al, l, l);
    Regroup(al, l, q, 1);
    assert p * p == 4 * (al * (al * (l * l)));
    assert p * q == 2 * (al * (l * q));
    Distribute(l * q, m, al);
    Shrink(al * (l * l), l * q + m, al);
  }

  lemma SmallRoot(al: nat, l: nat, q: nat)
    requires 2 * (al * l) <= q
    ensures al * (l * l) <= l * q
  {
    Scale(2 * (al * l), q, l);
    Regroup(al, l, l, 1);
  }

  lemma LargeRoot(al: nat, be: nat, s: nat, f: nat, l: nat, xz: nat, e: nat)
    requires s * s <= be * be + f && f * e <= 4 * (al * xz) && al >= 1
    requires be * e < 2 * (al * l) <= be * e + s * e
    ensures al * (l * l) <= l * (be * e) + xz * e
  {
    SquareGrows(2 * (al * l) - be * e, s * e);
    RadicandBound(s, be, f, e, al * xz);
    Regroup(al, xz, e, 1);
    QuadraticBound(al, l, be * e, xz * e);
  }

  // al*L^2 <= be*E*L + x*z*E for the L computed from a floored root of be^2 + F.
  lemma RootBound(al: nat, be: nat, s: nat, f: nat, l: nat, xz: nat, e: nat)
    requires l * (2 * al) <= (be + s) * e && s * s <= be * be + f && f * e <= 4 * (al * xz) && al >= 1
    ensures al * (l * l) <= l * (be * e) + xz * e
  {
    Distribute(be, s, e);
    Regroup(al, l, 2, 1);
    if 2 * (al * l) <= be * e {
      SmallRoot(al, l, be * e);
      assert xz * e >= 0;
    } else {
      LargeRoot(al, be, s, f, l, xz, e);
    }
  }

  lemma ExpandProduct(a: int, b: int, c: int, d: int)
    ensures (a + b) * (c + d) == a * c + a * d + b * c + b * d
  {
  }

  // From the rounded coefficients to the exact quadratic.
  lemma ExactQuadratic(al: nat, be: nat, l: nat, x: nat, z: nat, lo: nat, hi: nat, e: nat)
    requires al * (l * l) <= l * (be * e) + (x * z) * e
    requires al * hi >= e * hi - lo * e && (be * e) * hi <= (x * lo) * hi + (z * e) * e
    ensures (l * l) * (hi * e) <= (x * hi + l * e) * (z * e + l * lo)
  {
    var sq, xz := l * l, x * z;
    Scale(al * sq, l * (be * e) + xz * e, hi);
    Regroup(al, sq, hi, 1);
    Distribute(l * (be * e), xz * e, hi);
    Regroup(l, be * e, hi, 1);
    Scale(e * hi - lo * e, al * hi, sq);
    Distribute(e * hi, lo * e, sq);
    Scale((be * e) * hi, (x * lo) * hi + (z * e) * e, l);
    Distribute((x * lo) * hi, (z * e) * e, l);
    ExpandProduct(x * hi, l * e, z * e, l * lo);
    CrossTerms(l, x, z, lo, hi, e);
  }

  lemma CrossTerms(l: nat, x: nat, z: nat, lo: nat, hi: nat, e: nat)
    ensures (x * hi) * (z * e) == ((x * z) * e) * hi
    ensures (x * hi) * (l * lo) == l * ((x * lo) * hi)
    ensures (l * e) * (z * e) == l * ((z * e) * e)
    ensures (l * e) * (l * lo) == (lo * e) * (l * l)
    ensures (l * l) * (hi * e) == (e * hi) * (l * l)
  {
    Regroup(x, hi, z, e);
    Regroup(x * z, hi, e, 1);
    Regroup(l, e, z * e, 1);
    Regroup(l, e, l, lo);
    Regroup(x, hi, l, lo);
    Regroup(x, lo, hi, 1);
    Regroup(l, x, hi, lo);
    Regroup(l, x * lo, hi, 1);
  }

  lemma Checked(a: nat, b: nat)
    ensures Mul(a, b).Success? ==> Mul(a, b).value == a * b
    ensures Add(a, b).Success? ==> Add(a, b).value == a + b
  {
  }

  lemma MulDivRoundsDown(a: nat, b: nat, d: nat)
    ensures MulDiv(a, b, d).Success? ==> d > 0 && MulDiv(a, b, d).value * d <= a * b
  {
    if d > 0 {
      Quotient(a * b, d);
    }
  }

  // Whenever the range is proper alpha is at least one, and it never rounds below the exact ratio.
  lemma AlphaIsPositive(lo: nat, hi: nat)
    ensures Alpha(lo, hi).Success? ==> (Alpha(lo, hi).value >= 1 <==> lo < hi)
                                       && Alpha(lo, hi).value * hi >= E18 * hi - lo * E18
    ensures 0 < hi && lo < hi ==> Alpha(lo, hi).Success?
  {
    if hi > 0 {
      var q := lo * E18 / hi;
      Quotient(lo * E18, hi);
      Distribute(E18, q, hi);
      if lo < hi {
        assert lo * E18 < hi * E18;
        assert q < E18 by {
          if q >= E18 {
            Scale(E18, q, hi);
          }
        }
      } else {
        assert q >= E18 by {
          if q < E18 {
            Scale(q + 1, E18, hi);
          }
        }
      }
      assert E18 <= U256;
    }
  }

  lemma BetaRoundsDown(bLt: nat, bGt: nat, lo: nat, hi: nat)
    ensures Beta(bLt, bGt, lo, hi).Success? ==>
              (Beta(bLt, bGt, lo, hi).value * E18) * hi <= (bLt * lo) * hi + (bGt * E18) * E18
  {
    MulDivRoundsDown(bLt, lo, E18);
    MulDivRoundsDown(bGt, E18, hi);
    var b := Beta(bLt, bGt, lo, hi);
    if b.Success? {
      var left, right := MulDiv(bLt, lo, E18).value, MulDiv(bGt, E18, hi).value;
      hide MulDiv;
      Distribute(left, right, E18);
      Distribute(left * E18, right * E18, hi);
      Scale(left * E18, bLt * lo, hi);
      Regroup(right, E18, hi, 1);
      Scale(right * hi, bGt * E18, E18);
    }
  }

  // The second half of the computation, from the two coefficients on.
  function LiquidityOf(al: nat, be: nat, bLt: nat, bGt: nat): Result<nat> {
    var fourAlpha :- Mul(4, al);
    var scaled :- MulDiv(fourAlpha, bLt, E18);
    var fourAC :- Mul(scaled, bGt);
    var square :- Mul(be, be);
    var radicand :- Add(square, fourAC);
    var sum :- Add(be, FloorSqrt(radicand));
    var twoAlpha :- Mul(2, al);
    MulDiv(sum, E18, twoAlpha)
  }

  lemma LiquiditySplits(bLt: nat, bGt: nat, lo: nat, hi: nat)
    ensures Liquidity(bLt, bGt, lo, hi).Success? ==>
              Alpha(lo, hi).Success? && Beta(bLt, bGt, lo, hi).Success?
              && Liquidity(bLt, bGt, lo, hi) == LiquidityOf(Alpha(lo, hi).value, Beta(bLt, bGt, lo, hi).value, bLt, bGt)
  {
    hide Alpha, Beta, Mul, MulDiv, Add, FloorSqrt;
  }

  // The chain of roundings as inequalities, for the floored root s of be^2 + f.
  lemma LiquidityChain(al: nat, be: nat, bLt: nat, bGt: nat) returns (s: nat, f: nat)
    requires LiquidityOf(al, be, bLt, bGt).Success?
    ensures al >= 1 && LiquidityOf(al, be, bLt, bGt).value * (2 * al) <= (be + s) * E18
    ensures s * s <= be * be + f && f * E18 <= 4 * (al * (bLt * bGt))
  {
    hide MulDiv, Mul, Add, FloorSqrt;
    Checked(4, al);
    var g := MulDiv(4 * al, bLt, E18).value;
    MulDivRoundsDown(4 * al, bLt, E18);
    Checked(g, bGt);
    f := g * bGt;
    Checked(be, be);
    Checked(be * be, f);
    s := FloorSqrt(be * be + f);
    Checked(be, s);
    Checked(2, al);
    MulDivRoundsDown(be + s, E18, 2 * al);
    FourthCoefficient(g, al, bLt, bGt);
  }

  lemma FourthCoefficient(g: nat, al: nat, bLt: nat, bGt: nat)
    requires g * E18 <= (4 * al) * bLt
    ensures (g * bGt) * E18 <= 4 * (al * (bLt * bGt))
  {
    Scale(g * E18, (4 * al) * bLt, bGt);
    Regroup(g, bGt, E18, 1);
    Regroup(4 * al, bLt, bGt, 1);
    Regroup(4, al, bLt * bGt, 1);
  }

  // L^2*hi*E18 <= (bLt*hi + L*E18)*(bGt*E18 + L*lo): the liquidity never exceeds the one the
  // balances support, whatever the five roundings did. A range that is not proper gives no L.
  lemma LiquidityNeverOverestimates(bLt: nat, bGt: nat, lo: nat, hi: nat)
    ensures var r := Liquidity(bLt, bGt, lo, hi);
            r.Success? ==>
              && lo < hi
              && (r.value * r.value) * (hi * E18) <= (bLt * hi + r.value * E18) * (bGt * E18 + r.value * lo)
  {
    LiquiditySplits(bLt, bGt, lo, hi);
    if Liquidity(bLt, bGt, lo, hi).Success? {
      hide Liquidity, LiquidityOf, Alpha, Beta;
      var al, be, l := Alpha(lo, hi).value, Beta(bLt, bGt, lo, hi).value, Liquidity(bLt, bGt, lo, hi).value;
      var s, f := LiquidityChain(al, be, bLt, bGt);
      RootBound(al, be, s, f, l, bLt * bGt, E18);
      AlphaIsPositive(lo, hi);
      BetaRoundsDown(bLt, bGt, lo, hi);
      ExactQuadratic(al, be, l, bLt, bGt, lo, hi, E18);
    }
  }

  // The reserves a concentrated swap is priced with: the real balances plus the exact virtual
  // amounts L*10^18/hi and L*lo/10^18, rounded up on the input side and down on the output side.
  lemma VirtualRoundsAgainstTaker(x: nat, y: nat, inLt: bool, lo: nat, hi: nat)
    requires Virtual(x, y, inLt, lo, hi).Success?
    ensures var l, r := Liquidity(if inLt then x else y, if inLt then y else x, lo, hi),
            Virtual(x, y, inLt, lo, hi).value;
            && l.Success? && hi > 0
            && (if inLt then LeastAbove(r.x - x, l.value * E18, hi) && GreatestBelow(r.y - y, l.value * lo, E18)
                else LeastAbove(r.x - x, l.value * lo, E18) && GreatestBelow(r.y - y, l.value * E18, hi))
  {
    hide Liquidity;
    var l := Liquidity(if inLt then x else y, if inLt then y else x, lo, hi).value;
    LiquidityNeedsRange(if inLt then x else y, if inLt then y else x, lo, hi);
    Checked(l, E18);
    Checked(l, lo);
    if inLt {
      CeilIsLeast(l * E18, hi);
      MulDivIsGreatest(l, lo, E18);
    } else {
      CeilIsLeast(l * lo, E18);
      MulDivIsGreatest(l, E18, hi);
    }
    hide Ceil, MulDiv, Mul, LeastAbove, GreatestBelow;
  }

  predicate LeastAbove(q: int, n: nat, d: nat) {
    n <= q * d && (q > 0 ==> (q - 1) * d < n) && q >= 0
  }

  predicate GreatestBelow(q: int, n: nat, d: nat) {
    0 <= q * d <= n < (q + 1) * d && q >= 0
  }

  lemma CeilIsLeast(n: nat, d: nat)
    ensures Ceil(n, d).Success? ==> LeastAbove(Ceil(n, d).value, n, d)
  {
    if d > 0 {
      RoundedUp(n, d, n / d + if n % d == 0 then 0 else 1);
    }
  }

  lemma MulDivIsGreatest(a: nat, b: nat, d: nat)
    ensures MulDiv(a, b, d).Success? ==> GreatestBelow(MulDiv(a, b, d).value, a * b, d)
  {
    if d > 0 {
      Quotient(a * b, d);
    }
  }

  lemma LiquidityNeedsRange(bLt: nat, bGt: nat, lo: nat, hi: nat)
    requires Liquidity(bLt, bGt, lo, hi).Success?
    ensures hi > 0
  {
    LiquidityNeverOverestimates(bLt, bGt, lo, hi);
    hide Liquidity;
  }

  // ---- and it is close to it --------------------------------------------------------------------

  // The constant term of the rounded quadratic.
  function Constant(al: nat, bLt: nat, bGt: nat): nat {
    (4 * al) * bLt / E18 * bGt
  }

  // Any m above L by more than 1 + E18/(2 alpha) is beyond the root of the quadratic with the
  // rounded coefficients, alpha*m^2 = beta*E18*m + F*E18^2/(4 alpha).
  lemma LiquidityIsClose(bLt: nat, bGt: nat, lo: nat, hi: nat, m: nat)
    requires Liquidity(bLt, bGt, lo, hi).Success?
    requires Alpha(lo, hi).Success?
    requires var twoAlpha := 2 * Alpha(lo, hi).value;
             m * twoAlpha >= (Liquidity(bLt, bGt, lo, hi).value + 1) * twoAlpha + E18
    ensures Beta(bLt, bGt, lo, hi).Success?
    ensures var al, be := Alpha(lo, hi).value, Beta(bLt, bGt, lo, hi).value;
            (4 * al) * (al * (m * m)) > (4 * al) * (m * (be * E18)) + Constant(al, bLt, bGt) * (E18 * E18)
  {
    LiquiditySplits(bLt, bGt, lo, hi);
    hide Liquidity, LiquidityOf, Alpha, Beta, Constant;
    var al, be, l := Alpha(lo, hi).value, Beta(bLt, bGt, lo, hi).value, Liquidity(bLt, bGt, lo, hi).value;
    var s := LiquidityAbove(al, be, bLt, bGt);
    BeyondRoot(al, be, s, Constant(al, bLt, bGt), l, m, E18);
  }

  lemma LiquidityAbove(al: nat, be: nat, bLt: nat, bGt: nat) returns (s: nat)
    requires LiquidityOf(al, be, bLt, bGt).Success?
    ensures al >= 1 && (be + s) * E18 < (LiquidityOf(al, be, bLt, bGt).value + 1) * (2 * al)
    ensures be * be + Constant(al, bLt, bGt) < (s + 1) * (s + 1)
  {
    Checked(4, al);
    MulDivIsGreatest(4 * al, bLt, E18);
    MulDivValue(4 * al, bLt, E18);
    hide Mul, MulDiv, Add, FloorSqrt;
    var g := MulDiv(4 * al, bLt, E18).value;
    Checked(g, bGt);
    Checked(be, be);
    Checked(be * be, g * bGt);
    s := FloorSqrt(be * be + g * bGt);
    Checked(be, s);
    Checked(2, al);
    MulDivIsGreatest(be + s, E18, 2 * al);
  }

  lemma MulDivValue(a: nat, b: nat, d: nat)
    ensures MulDiv(a, b, d).Success? ==> d > 0 && MulDiv(a, b, d).value == a * b / d
  {
  }

  lemma BeyondRoot(al: nat, be: nat, s: nat, f: nat, l: nat, m: nat, e: nat)
    requires al >= 1 && e >= 1 && (be + s) * e < (l + 1) * (2 * al) && be * be + f < (s + 1) * (s + 1)
    requires m * (2 * al) >= (l + 1) * (2 * al) + e
    ensures (4 * al) * (al * (m * m)) > (4 * al) * (m * (be * e)) + f * (e * e)
  {
    var p, q, r := m * (2 * al), be * e, (s + 1) * e;
    Distribute(be, s, e);
    Distribute(s, 1, e);
    assert p > q + r;
    SquareGrows(r, p - q);
    RadicandScaled(s, be, f, e);
    Expand(p, q);
    PowersOf(al, m, q);
  }

  lemma RadicandScaled(s: nat, be: nat, f: nat, e: nat)
    requires be * be + f < (s + 1) * (s + 1) && e >= 1
    ensures ((s + 1) * e) * ((s + 1) * e) > (be * e) * (be * e) + f * (e * e)
  {
    Regroup(s + 1, e, s + 1, e);
    Regroup(be, e, be, e);
    ProductPositive(e, e);
    Scale(be * be + f + 1, (s + 1) * (s + 1), e * e);
    Distribute(be * be + f, 1, e * e);
    Distribute(be * be, f, e * e);
  }

  lemma PowersOf(al: nat, m: nat, q: nat)
    ensures (m * (2 * al)) * (m * (2 * al)) == (4 * al) * (al * (m * m))
            && 2 * ((m * (2 * al)) * q) == (4 * al) * (m * q)
  {
    Regroup(m, 2 * al, m, 2 * al);
    Regroup(2 * al, m, q, 1);
    assert (2 * al) * (2 * al) == 4 * (al * al);
    Regroup(al, al, m * m, 1);
    Regroup(4, al, al * (m * m), 1);
    Regroup(m, 2 * al, q, 1);
    Regroup(2, al, m * q, 1);
    Regroup(4, al, m * q, 1);
  }

  // ---- one constant-product swap --------------------------------------------------------------

  lemma OutputBounds(p: nat, x: nat, y: nat)
    requires ProductOut(p, x, y).Success?
    ensures var out := ProductOut(p, x, y).value; x > 0 && y > 0 && out * (x + p) <= p * y < (out + 1) * (x + p)
  {
    Checked(p, y);
    Checked(x, p);
    Quotient(p * y, x + p);
  }

  lemma DifferenceOf(k: int, y: int, o: int)
    ensures k * (y - o) == k * y - o * k
  {
  }

  // The output is the most that keeps the product.
  lemma OutputIsMaximal(p: nat, x: nat, y: nat, o: nat)
    requires ProductOut(p, x, y).Success?
    ensures var out := ProductOut(p, x, y).value;
            out < y && (o <= y ==> (o <= out <==> (x + p) * (y - o) >= x * y))
  {
    hide ProductOut;
    var out := ProductOut(p, x, y).value;
    OutputBounds(p, x, y);
    Distribute(x, p, y);
    ProductPositive(x, y);
    if out >= y {
      Scale(y, out, x + p);
    }
    if o <= out {
      Scale(o, out, x + p);
    } else {
      Scale(out + 1, o, x + p);
    }
    DifferenceOf(x + p, y, o);
  }

  lemma ProductPositive(x: nat, y: nat)
    requires x > 0 && y > 0
    ensures x * y > 0
  {
  }

  // The fee is the least integer at or above the exact fee, and leaves something to price.
  lemma FeeRoundsUp(amount: nat, feeBps: nat)
    requires PricingAmount(amount, feeBps).Success?
    ensures var fee := amount - PricingAmount(amount, feeBps).value;
            && 0 <= fee && (feeBps > 0 ==> fee < amount)
            && amount * (feeBps * FEE_UNIT) <= fee * FEE_DENOMINATOR
               && (fee > 0 ==> (fee - 1) * FEE_DENOMINATOR < amount * (feeBps * FEE_UNIT))
  {
    if feeBps > 0 {
      Checked(amount, feeBps * FEE_UNIT);
      var product := amount * (feeBps * FEE_UNIT);
      RoundedUp(product, FEE_DENOMINATOR, product / FEE_DENOMINATOR + if product % FEE_DENOMINATOR == 0 then 0 else 1);
    }
  }

  predicate IsProductCurve(c: Curve) {
    c.Xyc? || c.Concentrated?
  }

  // Every swap on a product curve keeps the product of the reserves it prices with, and pays as
  // much as that allows.
  lemma SwapKeepsProduct(d: Decoded, balances: Balances, tokenIn: nat, amount: nat)
    requires tokenIn < 2 && IsProductCurve(d.curve) && SwapMath(d, balances, tokenIn, amount).Success?
    ensures var q := SwapMath(d, balances, tokenIn, amount).value;
            var x, y := q.pricingBalanceIn, q.pricingBalanceOut;
            && q.amountOut < y
            && (x + q.pricingIn) * (y - q.amountOut) >= x * y > (x + q.pricingIn) * (y - q.amountOut - 1)
            && q.pricingIn + q.feeIn == amount && PricingAmount(amount, d.feeBps) == Success(q.pricingIn)
            && (d.curve.Xyc? ==> x == balances.Of(tokenIn) && y == balances.Of(1 - tokenIn)
                                 && ProductOut(q.pricingIn, x, y) == Success(q.amountOut))
  {
    hide ProductOut, PricingAmount, Virtual;
    var q := SwapMath(d, balances, tokenIn, amount).value;
    OutputIsMaximal(q.pricingIn, q.pricingBalanceIn, q.pricingBalanceOut, q.amountOut);
    OutputIsMaximal(q.pricingIn, q.pricingBalanceIn, q.pricingBalanceOut, q.amountOut + 1);
  }

  // ---- constant-product swaps one after another ---------------------------------------------------

  function Settled(b: Balances, tokenIn: nat, amountIn: nat, amountOut: nat): Balances
    requires tokenIn < 2 && amountOut <= b.Of(1 - tokenIn)
  {
    if tokenIn == 0 then Balances(b.base + amountIn, b.quote - amountOut)
        else Balances(b.base - amountOut, b.quote + amountIn)
  }

  // p of input priced against x and y pays out at most o.
  ghost predicate Kept(x: nat, y: nat, p: nat, o: nat) {
    o <= y && (x + p) * (y - o) >= x * y
  }

  lemma XycKeeps(d: Decoded, b: Balances, tokenIn: nat, amount: nat)
    requires tokenIn < 2 && d.curve.Xyc? && SwapMath(d, b, tokenIn, amount).Success?
    ensures var q := SwapMath(d, b, tokenIn, amount).value;
            && Kept(b.Of(tokenIn), b.Of(1 - tokenIn), q.pricingIn, q.amountOut) && q.pricingIn <= amount
               && b.Of(tokenIn) > 0
            && PricingAmount(amount, d.feeBps) == Success(q.pricingIn)
               && ProductOut(q.pricingIn, b.Of(tokenIn), b.Of(1 - tokenIn)) == Success(q.amountOut)
  {
    SwapKeepsProduct(d, b, tokenIn, amount);
    hide SwapMath, PricingAmount;
  }

  lemma XycSettles(d: Decoded, b: Balances, tokenIn: nat, amount: nat)
    requires tokenIn < 2 && d.curve.Xyc? && SwapMath(d, b, tokenIn, amount).Success?
    ensures var q := SwapMath(d, b, tokenIn, amount).value;
            && q.amountOut <= b.Of(1 - tokenIn)
            && var t := Settled(b, tokenIn, amount, q.amountOut); t.base * t.quote >= b.base * b.quote
  {
    XycKeeps(d, b, tokenIn, amount);
    hide SwapMath, ProductOut, PricingAmount;
    var q := SwapMath(d, b, tokenIn, amount).value;
    SettledProduct(b, tokenIn, amount, q.pricingIn, q.amountOut);
  }

  lemma SettledProduct(b: Balances, tokenIn: nat, amount: nat, p: nat, o: nat)
    requires tokenIn < 2 && p <= amount && Kept(b.Of(tokenIn), b.Of(1 - tokenIn), p, o)
    ensures var t := Settled(b, tokenIn, amount, o); t.base * t.quote >= b.base * b.quote
  {
    var x, y := b.Of(tokenIn), b.Of(1 - tokenIn);
    Scale(x + p, x + amount, y - o);
    Commute(x + amount, y - o);
    Commute(x, y);
  }

  lemma Commute(a: nat, b: nat)
    ensures a * b == b * a
  {
  }

  // Swapping out and back never returns more than was paid.
  lemma RoundTripNeverGains(d: Decoded, b: Balances, tokenIn: nat, amount: nat)
    requires tokenIn < 2 && d.curve.Xyc? && SwapMath(d, b, tokenIn, amount).Success?
    requires SwapMath(d, b, tokenIn, amount).value.amountOut <= b.Of(1 - tokenIn)
    ensures var q := SwapMath(d, b, tokenIn, amount).value;
            var back := SwapMath(d, Settled(b, tokenIn, amount, q.amountOut), 1 - tokenIn, q.amountOut);
            back.Success? ==> back.value.amountOut <= amount
  {
    hide SwapMath, ProductOut, PricingAmount;
    var q := SwapMath(d, b, tokenIn, amount).value;
    var t := Settled(b, tokenIn, amount, q.amountOut);
    var back := SwapMath(d, t, 1 - tokenIn, q.amountOut);
    XycSettles(d, b, tokenIn, amount);
    SwapKeepsProduct(d, b, tokenIn, amount);
    if back.Success? {
      XycSettles(d, t, 1 - tokenIn, q.amountOut);
      var x, y, o := b.Of(tokenIn), b.Of(1 - tokenIn), back.value.amountOut;
      assert y * (x + amount - o) >= y * x;
      Shrink(x, x + amount - o, y);
    }
  }

  lemma KeptIsBounded(x: nat, y: nat, p: nat, o: nat)
    requires ProductOut(p, x, y).Success? && Kept(x, y, p, o)
    ensures o <= ProductOut(p, x, y).value
  {
    OutputIsMaximal(p, x, y, o);
    hide ProductOut;
  }

  // ---- one input in any number of parts ------------------------------------------------------------

  function Total(inputs: seq<nat>): nat {
    if inputs == [] then 0 else inputs[0] + Total(inputs[1..])
  }

  // What the parts are priced at and pay, one after another, if every call succeeds.
  datatype Paid = Paid(priced: nat, out: nat)

  function Parts(d: Decoded, b: Balances, tokenIn: nat, inputs: seq<nat>): Result<Paid>
    requires tokenIn < 2
    decreases |inputs|
  {
    if inputs == [] then Success(Paid(0, 0))
    else
      var q :- SwapMath(d, b, tokenIn, inputs[0]);
      if q.amountOut > b.Of(1 - tokenIn) then Failure("inventory")
      else
        var rest :- Parts(d, Settled(b, tokenIn, inputs[0], q.amountOut), tokenIn, inputs[1..]);
        Success(Paid(q.pricingIn + rest.priced, q.amountOut + rest.out))
  }

  lemma {:induction false} PartsKeep(d: Decoded, b: Balances, tokenIn: nat, inputs: seq<nat>)
    requires tokenIn < 2 && d.curve.Xyc? && Parts(d, b, tokenIn, inputs).Success?
    ensures Kept(b.Of(tokenIn), b.Of(1 - tokenIn), Parts(d, b, tokenIn, inputs).value.priced,
            Parts(d, b, tokenIn, inputs).value.out)
    decreases |inputs|
  {
    if inputs == [] {
    } else {
      hide SwapMath, ProductOut, PricingAmount, Kept;
      XycKeeps(d, b, tokenIn, inputs[0]);
      var q := SwapMath(d, b, tokenIn, inputs[0]).value;
      var t := Settled(b, tokenIn, inputs[0], q.amountOut);
      PartsKeep(d, t, tokenIn, inputs[1..]);
      var rest := Parts(d, t, tokenIn, inputs[1..]).value;
      var x, y := b.Of(tokenIn), b.Of(1 - tokenIn);
      assert t.Of(tokenIn) == x + inputs[0] && t.Of(1 - tokenIn) == y - q.amountOut;
      SplitOutputs(x, y, inputs[0], q.pricingIn, q.amountOut, rest.priced, rest.out, q.pricingIn + rest.priced);
    }
  }

  // The rounded-up fees of the parts cover the exact fee on their sum.
  lemma {:induction false} PartsPayFees(d: Decoded, b: Balances, tokenIn: nat, inputs: seq<nat>)
    requires tokenIn < 2 && d.curve.Xyc? && Parts(d, b, tokenIn, inputs).Success?
    ensures var priced := Parts(d, b, tokenIn, inputs).value.priced;
            priced <= Total(inputs)
                && Total(inputs) * (d.feeBps * FEE_UNIT) <= (Total(inputs) - priced) * FEE_DENOMINATOR
    decreases |inputs|
  {
    if inputs == [] {
    } else {
      hide SwapMath, ProductOut, PricingAmount;
      XycKeeps(d, b, tokenIn, inputs[0]);
      FeeRoundsUp(inputs[0], d.feeBps);
      var q := SwapMath(d, b, tokenIn, inputs[0]).value;
      var t := Settled(b, tokenIn, inputs[0], q.amountOut);
      PartsPayFees(d, t, tokenIn, inputs[1..]);
      Distribute(inputs[0], Total(inputs[1..]), d.feeBps * FEE_UNIT);
    }
  }

  lemma FeeIsLeast(amount: nat, feeBps: nat, fee: nat)
    requires PricingAmount(amount, feeBps).Success? && amount * (feeBps * FEE_UNIT) <= fee * FEE_DENOMINATOR
    ensures amount - PricingAmount(amount, feeBps).value <= fee
  {
    FeeRoundsUp(amount, feeBps);
    hide PricingAmount;
  }

  // Splitting one input into any number of parts never pays more than the whole, rounded fees
  // included, whenever all calls succeed.
  lemma SplittingNeverGains(d: Decoded, b: Balances, tokenIn: nat, inputs: seq<nat>)
    requires tokenIn < 2 && d.curve.Xyc? && Parts(d, b, tokenIn, inputs).Success?
             && SwapMath(d, b, tokenIn, Total(inputs)).Success?
    ensures Parts(d, b, tokenIn, inputs).value.out <= SwapMath(d, b, tokenIn, Total(inputs)).value.amountOut
  {
    hide SwapMath, ProductOut, PricingAmount, Parts, Kept;
    var paid, w := Parts(d, b, tokenIn, inputs).value, SwapMath(d, b, tokenIn, Total(inputs)).value;
    XycKeeps(d, b, tokenIn, Total(inputs));
    PartsKeep(d, b, tokenIn, inputs);
    PartsPayFees(d, b, tokenIn, inputs);
    FeeIsLeast(Total(inputs), d.feeBps, Total(inputs) - paid.priced);
    MoreInputKeeps(b.Of(tokenIn), b.Of(1 - tokenIn), paid.priced, w.pricingIn, paid.out);
    KeptIsBounded(b.Of(tokenIn), b.Of(1 - tokenIn), w.pricingIn, paid.out);
  }

  lemma MoreInputKeeps(x: nat, y: nat, p: nat, w: nat, o: nat)
    requires Kept(x, y, p, o) && p <= w
    ensures Kept(x, y, w, o)
  {
    Scale(x + p, x + w, y - o);
  }

  lemma SplitOutputs(x: nat, y: nat, a: nat, p: nat, o: nat, q: nat, r: nat, w: nat)
    requires x > 0 && p <= a && p + q <= w && o <= y && Kept(x, y, p, o) && Kept(x + a, y - o, q, r)
    ensures Kept(x, y, w, o + r)
  {
    var v, k, z := y - o, y - o - r, a - p;
    // k/v >= (x+a)/(x+a+q) >= (x+p)/(x+p+q)
    LargerShare(x + p, z, q, v, k);
    Scale(x + p + q, x + w, k);
  }

  // Adding z to both sides of a share only raises it.
  lemma LargerShare(s: nat, z: nat, q: nat, v: nat, k: nat)
    requires s > 0 && k <= v && (s + z + q) * k >= (s + z) * v
    ensures (s + q) * k >= s * v
  {
    Distribute(s + q, z, k);
    Distribute(s, z, v);
    Scale(k, v, z);
  }

  // ---- the pegged curve -------------------------------------------------------------------------

  // The output is the greatest that leaves at least the target on the output side.
  predicate LeavesTarget(y: nat, out: nat, rate: nat, target: nat, reference: nat) {
    && out * rate <= y && target * reference <= (y - out * rate) * E27
    && (y - (out + 1) * rate) * E27 < target * reference
  }

  // A pegged swap leaves the target, so it never pays more than the real balance.
  lemma PeggedLeavesTarget(pricing: nat, balanceIn: nat, balanceOut: nat, c: Curve, inLt: bool)
    requires c.Pegged? && PeggedOut(pricing, balanceIn, balanceOut, c, inLt).Success?
    ensures var r, rate := PeggedOut(pricing, balanceIn, balanceOut, c, inLt).value, if inLt then c.rateGt
            else c.rateLt;
            && r.amountOut <= balanceOut && r.y == balanceOut * rate
               && r.x == balanceIn * (if inLt then c.rateLt else c.rateGt)
            && PeggedTarget(pricing, r.x, r.y, c, inLt).Success?
            && LeavesTarget(r.y, r.amountOut, rate, PeggedTarget(pricing, r.x, r.y, c, inLt).value, if inLt then c.yGt
               else c.xLt)
  {
    var rateIn, rate := if inLt then c.rateLt else c.rateGt, if inLt then c.rateGt else c.rateLt;
    var reference := if inLt then c.yGt else c.xLt;
    Checked(balanceIn, rateIn);
    Checked(balanceOut, rate);
    var x, y := balanceIn * rateIn, balanceOut * rate;
    hide PeggedTarget, LeavesTarget;
    var target := PeggedTarget(pricing, x, y, c, inLt).value;
    Checked(target, reference);
    PaysTheRest(y, target * reference, rate);
    hide Ceil, Mul, Div;
    var nextY := Ceil(target * reference, E27).value;
    var out := Div(y - nextY, rate).value;
    LeavesRest(y, nextY, out, rate, target, reference);
    Commute(rate, out);
    Commute(rate, balanceOut);
    Shrink(out, balanceOut, rate);
  }

  lemma PaysTheRest(y: nat, product: nat, rate: nat)
    requires Ceil(product, E27).Success? && Ceil(product, E27).value <= y
             && Div(y - Ceil(product, E27).value, rate).Success?
    ensures var nextY := Ceil(product, E27).value; var out := Div(y - nextY, rate).value;
            && rate > 0 && out * rate <= y - nextY < (out + 1) * rate
            && product <= nextY * E27 && (nextY > 0 ==> (nextY - 1) * E27 < product)
  {
    CeilIsLeast(product, E27);
    var nextY := Ceil(product, E27).value;
    Quotient(y - nextY, rate);
  }

  lemma LeavesRest(y: nat, nextY: nat, out: nat, rate: nat, target: nat, reference: nat)
    requires nextY <= y && out * rate <= y - nextY < (out + 1) * rate
    requires target * reference <= nextY * E27 && (nextY > 0 ==> (nextY - 1) * E27 < target * reference)
    ensures LeavesTarget(y, out, rate, target, reference)
  {
    Scale(nextY, y - out * rate, E27);
    if nextY > 0 {
      Scale(y - (out + 1) * rate, nextY - 1, E27);
    }
  }
}
