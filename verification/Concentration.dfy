// Human price bounds to raw square-root prices at 10^18, rounded inward.
module Concentration {
  import opened Wrappers
  import opened SquareRoot
  import opened PriceText

  const E36: nat := 1000000000000000000000000000000000000
  const TWO_256: nat := 0x1_0000000000000000000000000000000000000000000000000000000000000000

  // A text that is not an address is None.
  type Token = Option<nat>

  datatype Bounds = Bounds(sqrtPriceMin: nat, sqrtPriceMax: nat)

  datatype Ratio = Ratio(n: nat, d: nat)

  predicate ValidPair(tokens: seq<Token>, decimals: seq<int>) {
    && |tokens| == 2 && tokens[0].Some? && tokens[1].Some? && tokens[0] != tokens[1]
    && |decimals| == 2 && 0 <= decimals[0] <= 36 && 0 <= decimals[1] <= 36
  }

  predicate Reversed(tokens: seq<Token>, decimals: seq<int>)
    requires ValidPair(tokens, decimals)
  {
    tokens[0].value > tokens[1].value
  }

  // A display price as a ratio of raw amounts, of the lower address in terms of the higher.
  function RawRatio(tokens: seq<Token>, decimals: seq<int>, price: nat): (r: Ratio)
    requires ValidPair(tokens, decimals) && price > 0
    ensures r.n > 0 && r.d > 0
  {
    var n, d := price * Pow10(decimals[1]), Pow10(decimals[0]) * E18;
    assert n > 0 by { Positive(price, Pow10(decimals[1])); }
    if Reversed(tokens, decimals) then Ratio(d, n) else Ratio(n, d)
  }

  lemma Positive(a: nat, b: nat)
    requires a > 0 && b > 0
    ensures a * b > 0
  {
  }

  function Bound(r: Ratio, up: bool): nat
    requires r.d > 0
  {
    var scaled := r.n * E36;
    var root := FloorSqrt(scaled / r.d);
    root + if up && root * root * r.d < scaled then 1 else 0
  }

  function ConcentrationBounds(tokens: seq<Token>, decimals: seq<int>, min: string, max: string): Result<Bounds> {
    if !ValidPair(tokens, decimals) then Failure("invalid tokens or decimals")
    else
      var lo :- PriceE18(min);
      var hi :- PriceE18(max);
      if lo >= hi then Failure("invalid price range")
      else
        var reversed := Reversed(tokens, decimals);
        var lower := Bound(RawRatio(tokens, decimals, if reversed then hi else lo), true);
        var upper := Bound(RawRatio(tokens, decimals, if reversed then lo else hi), false);
        if lower == 0 || lower >= upper || upper >= TWO_256 then Failure("range collapses at fixed-point precision")
        else Success(Bounds(lower, upper))
  }

  // ---- the tightest integers inside the exact range --------------------------------------------

  // m*m >= n*10^36/d: the square-root price m is at or above the exact one.
  predicate AtOrAbove(m: nat, r: Ratio) {
    m * m * r.d >= r.n * E36
  }

  predicate AtOrBelow(m: nat, r: Ratio) {
    m * m * r.d <= r.n * E36
  }

  lemma QuotientIsGreatest(scaled: nat, d: nat, k: nat)
    requires d > 0
    ensures k * d <= scaled <==> k <= scaled / d
  {
    var q := scaled / d;
    assert q * d <= scaled < (q + 1) * d;
    if k <= q {
      assert k * d <= q * d;
    } else {
      assert (q + 1) * d <= k * d;
    }
  }

  // The upper bound is the greatest integer at or below the exact root.
  lemma UpperIsGreatest(r: Ratio, m: nat)
    requires r.d > 0
    ensures AtOrBelow(m, r) <==> m <= Bound(r, false)
  {
    QuotientIsGreatest(r.n * E36, r.d, m * m);
    RootIsGreatest(r.n * E36 / r.d, m);
  }

  // The lower bound is the least integer at or above it.
  lemma LowerIsLeast(r: Ratio, m: nat)
    requires r.d > 0
    ensures AtOrAbove(m, r) <==> m >= Bound(r, true)
  {
    var root := Bound(r, false);
    UpperIsGreatest(r, m);
    UpperIsGreatest(r, root);
    if m < root {
      SquaresScale(m, root, r.d);
    }
  }

  lemma SquaresScale(a: nat, b: nat, d: nat)
    requires a < b && d > 0
    ensures a * a * d < b * b * d
  {
    SquareGrows(a, b);
    LessScales(a * a, b * b, d);
  }

  lemma LessScales(a: nat, b: nat, d: nat)
    requires a < b && d > 0
    ensures a * d < b * d
  {
  }

  function LowerRatio(tokens: seq<Token>, decimals: seq<int>, lo: nat, hi: nat): Ratio
    requires ValidPair(tokens, decimals) && lo > 0 && hi > 0
  {
    RawRatio(tokens, decimals, if Reversed(tokens, decimals) then hi else lo)
  }

  function UpperRatio(tokens: seq<Token>, decimals: seq<int>, lo: nat, hi: nat): Ratio
    requires ValidPair(tokens, decimals) && lo > 0 && hi > 0
  {
    RawRatio(tokens, decimals, if Reversed(tokens, decimals) then lo else hi)
  }

  // Among all integer ranges inside the exact one, the result is the widest, for either order of
  // the token addresses.
  lemma BoundsAreTightest(tokens: seq<Token>, decimals: seq<int>, min: string, max: string, m: nat)
    ensures var b := ConcentrationBounds(tokens, decimals, min, max);
            b.Success? ==>
              && ValidPair(tokens, decimals) && PriceE18(min).Success? && PriceE18(max).Success?
                 && PriceE18(min).value > 0 && PriceE18(max).value > 0
              && (AtOrAbove(m, LowerRatio(tokens, decimals, PriceE18(min).value, PriceE18(max).value))
                 <==> m >= b.value.sqrtPriceMin)
              && (AtOrBelow(m, UpperRatio(tokens, decimals, PriceE18(min).value, PriceE18(max).value))
                 <==> m <= b.value.sqrtPriceMax)
  {
    hide PriceE18, Bound, RawRatio, AtOrAbove, AtOrBelow;
    PricesAreBounded(min);
    PricesAreBounded(max);
    if ConcentrationBounds(tokens, decimals, min, max).Success? {
      LowerIsLeast(LowerRatio(tokens, decimals, PriceE18(min).value, PriceE18(max).value), m);
      UpperIsGreatest(UpperRatio(tokens, decimals, PriceE18(min).value, PriceE18(max).value), m);
    }
  }

  // ---- monotonicity ---------------------------------------------------------------------------

  // a is no larger a price than b.
  predicate RatioAtMost(a: Ratio, b: Ratio) {
    (a.n <= b.n && a.d == b.d) || (a.n == b.n && a.d >= b.d)
  }

  lemma BoundGrows(a: Ratio, b: Ratio)
    requires a.d > 0 && b.d > 0 && RatioAtMost(a, b)
    ensures Bound(a, true) <= Bound(b, true) && Bound(a, false) <= Bound(b, false)
  {
    var up, down := Bound(b, true), Bound(a, false);
    LowerIsLeast(b, up);
    LowerIsLeast(a, up);
    UpperIsGreatest(a, down);
    UpperIsGreatest(b, down);
    Comparable(a, b, up);
    Comparable(a, b, down);
    hide Bound, AtOrAbove, AtOrBelow;
  }

  lemma Comparable(a: Ratio, b: Ratio, m: nat)
    requires RatioAtMost(a, b)
    ensures (AtOrAbove(m, b) ==> AtOrAbove(m, a)) && (AtOrBelow(m, a) ==> AtOrBelow(m, b))
  {
    if a.d >= b.d {
      ProductKeeps(b.d, a.d, m * m);
    }
  }

  lemma ProductKeeps(a: nat, b: nat, k: nat)
    requires a <= b
    ensures k * a <= k * b
  {
  }

  lemma RawRatioOrder(tokens: seq<Token>, decimals: seq<int>, p: nat, q: nat)
    requires ValidPair(tokens, decimals) && 0 < p <= q
    ensures var a, b := RawRatio(tokens, decimals, p), RawRatio(tokens, decimals, q);
            if Reversed(tokens, decimals) then RatioAtMost(b, a) else RatioAtMost(a, b)
  {
    ProductKeeps(p, q, Pow10(decimals[1]));
    hide Pow10;
  }

  // A display range inside another gives raw bounds inside the other's, for either token order.
  lemma NarrowerStaysInside(tokens: seq<Token>, decimals: seq<int>, min: string, max: string, lower: string,
      upper: string)
    requires var b, c := ConcentrationBounds(tokens, decimals, min, max),
             ConcentrationBounds(tokens, decimals, lower, upper); b.Success? && c.Success?
    requires PriceE18(min).value <= PriceE18(lower).value && PriceE18(upper).value <= PriceE18(max).value
    ensures var b, c := ConcentrationBounds(tokens, decimals, min, max).value,
            ConcentrationBounds(tokens, decimals, lower, upper).value;
            b.sqrtPriceMin <= c.sqrtPriceMin < c.sqrtPriceMax <= b.sqrtPriceMax
  {
    hide PriceE18, Bound, RawRatio, RatioAtMost;
    PricesAreBounded(min);
    PricesAreBounded(upper);
    PricesAreBounded(lower);
    PricesAreBounded(max);
    RawRatioOrder(tokens, decimals, PriceE18(min).value, PriceE18(lower).value);
    RawRatioOrder(tokens, decimals, PriceE18(upper).value, PriceE18(max).value);
    var reversed := Reversed(tokens, decimals);
    var wideLow, wideHigh := RawRatio(tokens, decimals, PriceE18(min).value),
        RawRatio(tokens, decimals, PriceE18(max).value);
    var low, high := RawRatio(tokens, decimals, PriceE18(lower).value),
        RawRatio(tokens, decimals, PriceE18(upper).value);
    if reversed {
      BoundGrows(wideHigh, high);
      BoundGrows(low, wideLow);
    } else {
      BoundGrows(wideLow, low);
      BoundGrows(high, wideHigh);
    }
  }
}
