// The swap preview: checked uint256 arithmetic, the three curves, and the sequential scenarios.
module CurvePreview {
  import opened Wrappers
  import opened SquareRoot

  const U256: nat := 0xffffffff_ffffffff_ffffffff_ffffffff_ffffffff_ffffffff_ffffffff_ffffffff
  const E18: nat := 1000000000000000000
  const E27: nat := 1000000000000000000000000000
  const FEE_UNIT: nat := 100000
  const FEE_DENOMINATOR: nat := 1000000000

  const DOMAIN := "curve-arithmetic-domain"
  const BY_ZERO := "curve-division-by-zero"

  // ---- checked arithmetic ----------------------------------------------------------------

  function UInt(n: int): (r: Result<nat>)
    ensures r == if 0 <= n <= U256 then Success(n) else Failure(DOMAIN)
  {
    if n < 0 || n > U256 then Failure(DOMAIN) else Success(n)
  }

  function Add(a: nat, b: nat): Result<nat> {
    UInt(a + b)
  }

  function Mul(a: nat, b: nat): Result<nat> {
    UInt(a * b)
  }

  function Div(a: nat, b: nat): Result<nat> {
    if b == 0 then Failure(BY_ZERO) else UInt(a / b)
  }

  function Ceil(a: nat, b: nat): Result<nat> {
    var q :- Div(a, b);
    Add(q, if a % b == 0 then 0 else 1)
  }

  // A 512-bit intermediate: only the quotient is checked.
  function MulDiv(a: nat, b: nat, denominator: nat): Result<nat> {
    Div(a * b, denominator)
  }

  // ---- strategies ------------------------------------------------------------------------

  datatype Curve = Xyc | Concentrated(lo: nat, hi: nat) | Pegged(xLt: nat, yGt: nat, a: nat, rateLt: nat, rateGt: nat)

  // `baseIsLt`: the base token has the lower address. Tokens are 0 for base and 1 for quote.
  datatype Decoded = Decoded(curve: Curve, feeBps: nat, baseIsLt: bool)

  datatype Balances = Balances(base: nat, quote: nat) {
    function Of(token: nat): nat
      requires token < 2
    {
      if token == 0 then base else quote
    }
  }

  datatype Quote = Quote(amountIn: nat, pricingIn: nat, feeIn: nat, amountOut: nat, pricingBalanceIn: nat,
      pricingBalanceOut: nat)

  predicate InIsLt(d: Decoded, tokenIn: nat) {
    if tokenIn == 0 then d.baseIsLt else !d.baseIsLt
  }

  // The input net of the fee, which is rounded up.
  function PricingAmount(amount: nat, feeBps: nat): (r: Result<nat>)
    ensures r.Success? ==> r.value <= amount
  {
    if feeBps == 0 then Success(amount)
    else
      var product :- Mul(amount, feeBps * FEE_UNIT);
      var fee :- Ceil(product, FEE_DENOMINATOR);
      if fee >= amount then Failure("fee-exceeds-input") else Success(amount - fee)
  }

  // ---- concentrated liquidity --------------------------------------------------------------

  function Alpha(lo: nat, hi: nat): Result<nat> {
    var scaled :- MulDiv(lo, E18, hi);
    UInt(E18 - scaled)
  }

  function Beta(bLt: nat, bGt: nat, lo: nat, hi: nat): Result<nat> {
    var left :- MulDiv(bLt, lo, E18);
    var right :- MulDiv(bGt, E18, hi);
    Add(left, right)
  }

  function Liquidity(bLt: nat, bGt: nat, lo: nat, hi: nat): Result<nat> {
    var alpha :- Alpha(lo, hi);
    var beta :- Beta(bLt, bGt, lo, hi);
    var fourAlpha :- Mul(4, alpha);
    var scaled :- MulDiv(fourAlpha, bLt, E18);
    var fourAC :- Mul(scaled, bGt);
    var square :- Mul(beta, beta);
    var radicand :- Add(square, fourAC);
    var sum :- Add(beta, FloorSqrt(radicand));
    var twoAlpha :- Mul(2, alpha);
    MulDiv(sum, E18, twoAlpha)
  }

  datatype Reserves = Reserves(x: nat, y: nat)

  // The real balances with the virtual amounts of the range added, input side rounded up.
  function Virtual(x: nat, y: nat, inLt: bool, lo: nat, hi: nat): Result<Reserves> {
    var liquidity :- Liquidity(if inLt then x else y, if inLt then y else x, lo, hi);
    if inLt then
      var product :- Mul(liquidity, E18);
      var extraIn :- Ceil(product, hi);
      var newX :- Add(x, extraIn);
      var extraOut :- MulDiv(liquidity, lo, E18);
      var newY :- Add(y, extraOut);
      Success(Reserves(newX, newY))
    else
      var product :- Mul(liquidity, lo);
      var extraIn :- Ceil(product, E18);
      var newX :- Add(x, extraIn);
      var extraOut :- MulDiv(liquidity, E18, hi);
      var newY :- Add(y, extraOut);
      Success(Reserves(newX, newY))
  }

  function ProductOut(pricing: nat, x: nat, y: nat): Result<nat> {
    if x == 0 || y == 0 then Failure("curve-empty-reserve")
    else
      var numerator :- Mul(pricing, y);
      var denominator :- Add(x, pricing);
      Div(numerator, denominator)
  }

  // ---- the pegged curve ----------------------------------------------------------------------

  function CeilRoot(n: nat): nat {
    var r := FloorSqrt(n);
    if r * r == n then r else r + 1
  }

  function Scale27(n: nat, reference: nat): Result<nat> {
    var scaled :- Mul(n, E27);
    Div(scaled, reference)
  }

  function Root27(n: nat): Result<nat> {
    var scaled :- Mul(n, E27);
    Success(FloorSqrt(scaled))
  }

  function Linear(a: nat, n: nat): Result<nat> {
    var product :- Mul(a, n);
    Div(product, E27)
  }

  function Invariant(u: nat, v: nat, a: nat): Result<nat> {
    var rootU :- Root27(u);
    var rootV :- Root27(v);
    var roots :- Add(rootU, rootV);
    var sum :- Add(u, v);
    var linear :- Linear(a, sum);
    Add(roots, linear)
  }

  function Used(nextU: nat, a: nat): Result<nat> {
    var root :- Root27(nextU);
    var linear :- Linear(a, nextU);
    Add(root, linear)
  }

  function NextV(right: nat, a: nat): Result<nat> {
    if a == 0 then
      var square :- Mul(right, right);
      Div(square, E27)
    else
      var fourA :- Mul(4, a);
      var product :- Mul(fourA, right);
      var quotient :- Div(product, E27);
      var discriminant :- Add(E27, quotient);
      var scaled :- Mul(discriminant, E27);
      var twoRight :- Mul(2, right);
      var numerator :- Mul(twoRight, E27);
      var denominator :- Add(E27, CeilRoot(scaled));
      var w :- Div(numerator, denominator);
      var square :- Mul(w, w);
      Div(square, E27)
  }

  datatype PeggedResult = PeggedResult(x: nat, y: nat, amountOut: nat)

  // The output side's share of its reference that the invariant leaves after the input.
  function PeggedTarget(pricing: nat, x: nat, y: nat, c: Curve, inLt: bool): Result<nat>
    requires c.Pegged?
  {
    var xRef, yRef := if inLt then c.xLt else c.yGt, if inLt then c.yGt else c.xLt;
    var u :- Scale27(x, xRef);
    var v :- Scale27(y, yRef);
    var invariant' :- Invariant(u, v, c.a);
    var added :- Mul(pricing, if inLt then c.rateLt else c.rateGt);
    var nextX :- Add(x, added);
    var nextU :- Scale27(nextX, xRef);
    var used :- Used(nextU, c.a);
    if used > invariant' then Failure("curve-price-boundary") else NextV(invariant' - used, c.a)
  }

  function PeggedOut(pricing: nat, balanceIn: nat, balanceOut: nat, c: Curve, inLt: bool): Result<PeggedResult>
    requires c.Pegged?
  {
    var yRef := if inLt then c.yGt else c.xLt;
    var rateIn, rateOut := if inLt then c.rateLt else c.rateGt, if inLt then c.rateGt else c.rateLt;
    if balanceIn == 0 && balanceOut == 0 then Failure("curve-empty-reserve")
    else
      var x :- Mul(balanceIn, rateIn);
      var y :- Mul(balanceOut, rateOut);
      var nextV :- PeggedTarget(pricing, x, y, c, inLt);
      var product :- Mul(nextV, yRef);
      var nextY :- Ceil(product, E27);
      var left :- UInt(y - nextY);
      var amountOut :- Div(left, rateOut);
      Success(PeggedResult(x, y, amountOut))
  }

  // ---- one swap -----------------------------------------------------------------------------

  function SwapMath(d: Decoded, balances: Balances, tokenIn: nat, amount: nat): Result<Quote>
    requires tokenIn < 2
  {
    var base :- UInt(balances.base);
    var quote :- UInt(balances.quote);
    var amountIn :- UInt(amount);
    if amount == 0 then Failure("zero-input")
    else
      var pricing :- PricingAmount(amount, d.feeBps);
      var x, y, inLt := balances.Of(tokenIn), balances.Of(1 - tokenIn), InIsLt(d, tokenIn);
      match d.curve
      case Xyc =>
        var out :- ProductOut(pricing, x, y);
        Success(Quote(amount, pricing, amount - pricing, out, x, y))
      case Concentrated(lo, hi) =>
        var reserves :- Virtual(x, y, inLt, lo, hi);
        var out :- ProductOut(pricing, reserves.x, reserves.y);
        Success(Quote(amount, pricing, amount - pricing, out, reserves.x, reserves.y))
      case Pegged(_, _, _, _, _) =>
        var result :- PeggedOut(pricing, x, y, d.curve, inLt);
        Success(Quote(amount, pricing, amount - pricing, result.amountOut, result.x, result.y))
  }
}
