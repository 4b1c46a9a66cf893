// The preview's arithmetic step by step, as the code computes it.
module CurveMath {
  import opened Wrappers
  import opened SquareRoot
  import opened CurvePreview
  import opened CurveSafety

  method Root(n: nat) returns (root: nat)
    ensures root == FloorSqrt(n)
  {
    var r := Sqrt(n);
    root := r.value;
  }

  method LiquidityMath(bLt: nat, bGt: nat, lo: nat, hi: nat) returns (r: Result<nat>)
    ensures r == Liquidity(bLt, bGt, lo, hi)
    ensures r.Success? ==>
              && lo < hi
              && (r.value * r.value) * (hi * E18) <= (bLt * hi + r.value * E18) * (bGt * E18 + r.value * lo)
  {
    LiquidityNeverOverestimates(bLt, bGt, lo, hi);
    hide FloorSqrt;
    var alpha :- Alpha(lo, hi);
    var beta :- Beta(bLt, bGt, lo, hi);
    var fourAlpha :- Mul(4, alpha);
    var scaled :- MulDiv(fourAlpha, bLt, E18);
    var fourAC :- Mul(scaled, bGt);
    var square :- Mul(beta, beta);
    var radicand :- Add(square, fourAC);
    var root := Root(radicand);
    var sum :- Add(beta, root);
    var twoAlpha :- Mul(2, alpha);
    r := MulDiv(sum, E18, twoAlpha);
  }

  method TargetMath(pricing: nat, x: nat, y: nat, c: Curve, inLt: bool) returns (r: Result<nat>)
    requires c.Pegged?
    ensures r == PeggedTarget(pricing, x, y, c, inLt)
  {
    hide Mul, Add, Div, FloorSqrt, NextV;
    var xRef, yRef := if inLt then c.xLt else c.yGt, if inLt then c.yGt else c.xLt;
    var u :- Scale27(x, xRef);
    var v :- Scale27(y, yRef);
    var scaledU :- Mul(u, E27);
    var rootU := Root(scaledU);
    var scaledV :- Mul(v, E27);
    var rootV := Root(scaledV);
    var roots :- Add(rootU, rootV);
    var sum :- Add(u, v);
    var linear :- Linear(c.a, sum);
    var invariant' :- Add(roots, linear);
    var added :- Mul(pricing, if inLt then c.rateLt else c.rateGt);
    var nextX :- Add(x, added);
    var nextU :- Scale27(nextX, xRef);
    var scaledNext :- Mul(nextU, E27);
    var rootNext := Root(scaledNext);
    var linearNext :- Linear(c.a, nextU);
    var used :- Add(rootNext, linearNext);
    if used > invariant' {
      return Failure("curve-price-boundary");
    }
    r := NextVMath(invariant' - used, c.a);
  }

  method PeggedMath(pricing: nat, balanceIn: nat, balanceOut: nat, c: Curve,
      inLt: bool) returns (r: Result<PeggedResult>)
    requires c.Pegged?
    ensures r == PeggedOut(pricing, balanceIn, balanceOut, c, inLt)
    ensures r.Success? ==>
              && r.value.amountOut <= balanceOut && PeggedTarget(pricing, r.value.x, r.value.y, c, inLt).Success?
              && LeavesTarget(r.value.y, r.value.amountOut, if inLt then c.rateGt else c.rateLt,
                              PeggedTarget(pricing, r.value.x, r.value.y, c, inLt).value, if inLt then c.yGt else c.xLt)
  {
    if PeggedOut(pricing, balanceIn, balanceOut, c, inLt).Success? {
      PeggedLeavesTarget(pricing, balanceIn, balanceOut, c, inLt);
    }
    hide Mul, Add, Div, Ceil, UInt, PeggedTarget, LeavesTarget;
    var yRef := if inLt then c.yGt else c.xLt;
    var rateIn, rateOut := if inLt then c.rateLt else c.rateGt, if inLt then c.rateGt else c.rateLt;
    if balanceIn == 0 && balanceOut == 0 {
      return Failure("curve-empty-reserve");
    }
    var x :- Mul(balanceIn, rateIn);
    var y :- Mul(balanceOut, rateOut);
    var nextV :- TargetMath(pricing, x, y, c, inLt);
    var product :- Mul(nextV, yRef);
    var nextY :- Ceil(product, E27);
    var difference := y as int - nextY as int;
    var left :- UInt(difference);
    var amountOut :- Div(left, rateOut);
    return Success(PeggedResult(x, y, amountOut));
  }

  method NextVMath(right: nat, a: nat) returns (r: Result<nat>)
    ensures r == NextV(right, a)
  {
    hide Mul, Add, Div, FloorSqrt;
    if a == 0 {
      var square :- Mul(right, right);
      r := Div(square, E27);
    } else {
      var fourA :- Mul(4, a);
      var product :- Mul(fourA, right);
      var quotient :- Div(product, E27);
      var discriminant :- Add(E27, quotient);
      var scaled :- Mul(discriminant, E27);
      var root := Root(scaled);
      if root * root != scaled {
        root := root + 1;
      }
      var twoRight :- Mul(2, right);
      var numerator :- Mul(twoRight, E27);
      var denominator :- Add(E27, root);
      var w :- Div(numerator, denominator);
      var square :- Mul(w, w);
      r := Div(square, E27);
    }
  }

  // x and y start as the real balances and become the reserves the swap is priced with.
  method PreviewSwapMath(d: Decoded, balances: Balances, tokenIn: nat, amount: nat) returns (r: Result<Quote>)
    requires tokenIn < 2
    ensures r == SwapMath(d, balances, tokenIn, amount)
  {
    hide FloorSqrt, Mul, Div, Ceil, MulDiv, PeggedOut, Liquidity, PricingAmount;
    var base :- UInt(balances.base);
    var quote :- UInt(balances.quote);
    var checked :- UInt(amount);
    if amount == 0 {
      return Failure("zero-input");
    }
    var pricing :- PricingAmount(amount, d.feeBps);
    var x, y, inLt := balances.Of(tokenIn), balances.Of(1 - tokenIn), InIsLt(d, tokenIn);
    if d.curve.Pegged? {
      var result :- PeggedMath(pricing, x, y, d.curve, inLt);
      return Success(Quote(amount, pricing, amount - pricing, result.amountOut, result.x, result.y));
    }
    if d.curve.Concentrated? {
      var lo, hi := d.curve.lo, d.curve.hi;
      var liquidity :- LiquidityMath(if inLt then x else y, if inLt then y else x, lo, hi);
      var product :- Mul(liquidity, if inLt then E18 else lo);
      var extraIn :- Ceil(product, if inLt then hi else E18);
      x :- Add(x, extraIn);
      var extraOut :- if inLt then MulDiv(liquidity, lo, E18) else MulDiv(liquidity, E18, hi);
      y :- Add(y, extraOut);
    }
    if x == 0 || y == 0 {
      return Failure("curve-empty-reserve");
    }
    var numerator :- Mul(pricing, y);
    var denominator :- Add(x, pricing);
    var amountOut :- Div(numerator, denominator);
    return Success(Quote(amount, pricing, amount - pricing, amountOut, x, y));
  }
}
