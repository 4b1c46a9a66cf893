// The intersection of the Provider's strategy with the Maker's limits, as a public Guard report.
module Authorization {
  import opened Wrappers
  import PriceText

  const PRICE_SCALE: nat := 100_000_000
  const BPS: nat := 10_000
  const MAX_REPORT_LIFETIME_SEC: nat := 600
  const UINT128_MAX: nat := 0xffffffffffffffff_ffffffffffffffff
  const UINT64_MAX: nat := 0xffffffffffffffff
  const UINT48_MAX: nat := 0xffffffffffff

  // ---- decimal prices --------------------------------------------------------------------

  predicate ValidPrice(s: string) {
    var i := PriceText.DotIndex(s);
    PriceText.AllDigits(s[..i]) && i > 0 && (i < |s| ==> i + 1 < |s| && PriceText.AllDigits(s[i + 1..]))
  }

  // Scaled by 10^8, the digits beyond the eighth dropped.
  function ParsePrice(s: string): nat
    requires ValidPrice(s)
  {
    var i := PriceText.DotIndex(s);
    var fraction := if i < |s| then s[i + 1..] else "";
    PriceText.Parse(s[..i]) * PRICE_SCALE + PriceText.Parse(Padded(fraction))
  }

  // The exact price is (whole digits and fraction digits as one number) / 10^(fraction digits);
  // the scaled one is the greatest integer at or below 10^8 times it.
  lemma ParsePriceTruncates(s: string)
    requires ValidPrice(s)
    ensures var i := PriceText.DotIndex(s);
            var fraction := if i < |s| then s[i + 1..] else "";
            var exact, unit := PriceText.Parse(s[..i] + fraction), PriceText.Pow10(|fraction|);
            && PriceText.AllDigits(s[..i] + fraction)
            && ParsePrice(s) * unit <= exact * PRICE_SCALE < (ParsePrice(s) + 1) * unit
  {
    hide PriceText.Parse, PriceText.DotIndex, PriceText.Pow10, Padded;
    var i := PriceText.DotIndex(s);
    var fraction := if i < |s| then s[i + 1..] else "";
    PriceText.ParseConcat(s[..i], fraction);
    EightDigits(fraction);
    hide PriceText.AllDigits;
    WholePlusFraction(PriceText.Parse(s[..i]), PriceText.Parse(fraction), PriceText.Parse(Padded(fraction)),
        PriceText.Pow10(|fraction|));
  }

  lemma ShortDigits(f: nat, zeros: nat, unit: nat)
    requires unit > 0 && zeros * unit == PRICE_SCALE
    ensures (f * zeros) * unit <= f * PRICE_SCALE < (f * zeros + 1) * unit
  {
    assert (f * zeros) * unit == f * (zeros * unit);
  }

  lemma LongDigits(g: nat, h: nat, rest: nat)
    requires h < rest
    ensures g * (PRICE_SCALE * rest) <= (g * rest + h) * PRICE_SCALE < (g + 1) * (PRICE_SCALE * rest)
  {
    assert g * (PRICE_SCALE * rest) == (g * rest) * PRICE_SCALE;
  }

  function Padded(f: string): string {
    (f + "00000000")[..8]
  }

  lemma ShortFraction(f: string)
    requires PriceText.AllDigits(f) && |f| <= 8
    ensures PriceText.AllDigits(Padded(f)) && PriceText.Parse(Padded(f))
            == PriceText.Parse(f) * PriceText.Pow10(8 - |f|)
  {
    hide PriceText.Pow10, PriceText.Parse;
    var zeros := PriceText.Zeros(8 - |f|);
    assert Padded(f) == f + zeros;
    PriceText.ParseZeros(8 - |f|);
    PriceText.ParseConcat(f, zeros);
  }

  lemma LongFraction(f: string)
    requires PriceText.AllDigits(f) && |f| > 8
    ensures PriceText.AllDigits(Padded(f))
    ensures PriceText.Parse(f) == PriceText.Parse(Padded(f)) * PriceText.Pow10(|f| - 8) + PriceText.Parse(f[8..])
            && PriceText.Parse(f[8..]) < PriceText.Pow10(|f| - 8)
  {
    hide PriceText.Pow10;
    assert Padded(f) == f[..8] && f == f[..8] + f[8..];
    PriceText.ParseConcat(f[..8], f[8..]);
    PriceText.ParseBounded(f[8..]);
  }

  lemma ScaleIsPow10()
    ensures PriceText.Pow10(8) == PRICE_SCALE
  {
  }

  // The first eight digits of a fraction are its value at 10^8, rounded down.
  lemma EightDigits(f: string)
    requires PriceText.AllDigits(f)
    ensures PriceText.AllDigits(Padded(f))
    ensures var d, unit := PriceText.Parse(Padded(f)), PriceText.Pow10(|f|);
            d * unit <= PriceText.Parse(f) * PRICE_SCALE < (d + 1) * unit
  {
    hide PriceText.Pow10, PriceText.Parse, Padded;
    ScaleIsPow10();
    if |f| <= 8 {
      ShortFraction(f);
      PriceText.Pow10Sum(8 - |f|, |f|);
      ShortDigits(PriceText.Parse(f), PriceText.Pow10(8 - |f|), PriceText.Pow10(|f|));
    } else {
      LongFraction(f);
      PriceText.Pow10Sum(8, |f| - 8);
      LongDigits(PriceText.Parse(Padded(f)), PriceText.Parse(f[8..]), PriceText.Pow10(|f| - 8));
    }
  }

  lemma WholePlusFraction(whole: nat, fraction: nat, d: nat, unit: nat)
    requires d * unit <= fraction * PRICE_SCALE < (d + 1) * unit
    ensures (whole * PRICE_SCALE + d) * unit <= (whole * unit + fraction) * PRICE_SCALE
    ensures (whole * unit + fraction) * PRICE_SCALE < (whole * PRICE_SCALE + d + 1) * unit
  {
  }

  // ---- the two policies --------------------------------------------------------------------

  datatype Rule = Rule(
    id: string, priceMin: Option<string>, priceMax: Option<string>, volatilityMin: Option<nat>,
        volatilityMax: Option<nat>,
    buy0: bool, sell0: bool, maxAmount0: nat, maxAmount1: nat, ttlSec: nat)

  datatype Strategy = Strategy(rules: seq<Rule>, maxBalance0: nat, maxBalance1: nat)

  datatype Limits =
    | V1(maxBudget1: nat, shareBps: nat, maxAmount0: nat, maxAmount1: nat, maxTtlSec: nat)
    | V2(maxBudget1: nat, shareBps: nat, maxToken0Value1: nat, maxSwapValue1: nat, maxTtlSec: nat)
    | V3(maxBudget1: nat, shareBps: nat, maxToken0Value1: nat, maxSwapValue1: nat)
    | V4(maxAmount0: nat, maxAmount1: nat, maxPost0: nat, maxPost1: nat)

  datatype Market = Market(midPrice: string, volatilityBps: nat, balance0: nat, balance1: nat, decimals0: nat,
      decimals1: nat)

  predicate ValidRule(r: Rule) {
    (r.priceMin.Some? ==> ValidPrice(r.priceMin.value)) && (r.priceMax.Some? ==> ValidPrice(r.priceMax.value))
        && 0 < r.ttlSec <= MAX_REPORT_LIFETIME_SEC
  }

  predicate ValidStrategy(s: Strategy) {
    s.rules != [] && forall r :: r in s.rules ==> ValidRule(r)
  }

  predicate ValidLimits(l: Limits) {
    && (!l.V4? ==> l.shareBps <= BPS) && (l.V1? || l.V2? ==> 0 < l.maxTtlSec <= MAX_REPORT_LIFETIME_SEC)
    && (l.V4? ==> l.maxAmount0 <= UINT128_MAX && l.maxAmount1 <= UINT128_MAX && l.maxPost0 <= UINT128_MAX
                  && l.maxPost1 <= UINT128_MAX)
  }

  predicate ValidMarket(m: Market) {
    ValidPrice(m.midPrice) && m.decimals0 <= 36 && m.decimals1 <= 36
  }

  // Everything of a report that identifies it; addresses and hashes as numbers.
  datatype Identity = Identity(chainId: nat, guard: nat, router: nat, maker: nat, strategyHash: nat, token0: nat,
      token1: nat)

  datatype Report = Report(
    schemaVersion: nat, identity: Identity, nonce: nat, validAfter: nat, validUntil: nat, directions: nat,
    maxAmount0: nat, maxAmount1: nat, maxPost0: nat, maxPost1: nat)

  datatype Side = Provider | Maker | Equal

  datatype Binding = Binding(amount0: Side, amount1: Side, post0: Side, post1: Side)

  datatype Outcome = Outcome(report: Report, matched: Option<string>, pausedReason: Option<string>, binding: Binding)

  predicate Buys0(directions: nat) {
    directions % 2 == 1
  }

  predicate Sells0(directions: nat) {
    directions / 2 % 2 == 1
  }

  // ---- the rule that applies -----------------------------------------------------------------

  predicate Applies(r: Rule, m: Market)
    requires ValidRule(r) && ValidPrice(m.midPrice)
  {
    var price := ParsePrice(m.midPrice);
    && (r.priceMin.Some? ==> ParsePrice(r.priceMin.value) <= price)
       && (r.priceMax.Some? ==> price <= ParsePrice(r.priceMax.value))
    && (r.volatilityMin.Some? ==> r.volatilityMin.value <= m.volatilityBps)
       && (r.volatilityMax.Some? ==> m.volatilityBps <= r.volatilityMax.value)
  }

  // The first rule all of whose stated conditions hold.
  function FirstMatch(rules: seq<Rule>, m: Market): (r: Option<Rule>)
    requires (forall r :: r in rules ==> ValidRule(r)) && ValidPrice(m.midPrice)
    ensures r.None? ==> forall k :: 0 <= k < |rules| ==> !Applies(rules[k], m)
    ensures r.Some? ==> exists k :: 0 <= k < |rules| && rules[k] == r.value && Applies(rules[k], m)
                                    && forall j :: 0 <= j < k ==> !Applies(rules[j], m)
  {
    if rules == [] then None
    else if Applies(rules[0], m) then Some(rules[0])
    else
      var rest := FirstMatch(rules[1..], m);
      assert forall k :: 1 <= k < |rules| ==> rules[1..][k - 1] == rules[k];
      assert forall k :: 0 <= k < |rules| - 1 ==> rules[1..][k] == rules[k + 1];
      rest
  }

  method MatchRule(s: Strategy, m: Market) returns (r: Option<Rule>)
    requires ValidStrategy(s) && ValidPrice(m.midPrice)
    ensures r == FirstMatch(s.rules, m)
  {
    hide ParsePrice;
    var price := ParsePrice(m.midPrice);
    for i := 0 to |s.rules|
      invariant FirstMatch(s.rules, m) == FirstMatch(s.rules[i..], m)
    {
      var w := s.rules[i];
      assert w in s.rules && s.rules[i..][0] == w && s.rules[i..][1..] == s.rules[i + 1..];
      if w.priceMin.Some? && price < ParsePrice(w.priceMin.value) {
        continue;
      }
      if w.priceMax.Some? && price > ParsePrice(w.priceMax.value) {
        continue;
      }
      if w.volatilityMin.Some? && m.volatilityBps < w.volatilityMin.value {
        continue;
      }
      if w.volatilityMax.Some? && m.volatilityBps > w.volatilityMax.value {
        continue;
      }
      return Some(w);
    }
    return None;
  }

  // ---- values and amounts --------------------------------------------------------------------

  function Min(a: nat, b: nat): nat {
    if a < b then a else b
  }

  function ClampU128(v: nat): nat {
    if v > UINT128_MAX then UINT128_MAX else v
  }

  // The token0 amount a token1 value buys at the mid price, rounded down.
  function ValueToToken0(value1: nat, m: Market): Result<nat>
    requires ValidMarket(m)
  {
    var price := ParsePrice(m.midPrice);
    if price == 0 then Failure("market snapshot: midPrice must be positive")
    else
      Success(Quotient(value1 * PriceText.Pow10(m.decimals0) * PRICE_SCALE, price, PriceText.Pow10(m.decimals1)))
  }

  function Quotient(n: nat, price: nat, unit: nat): nat
    requires price > 0 && unit > 0
  {
    Positive(price, unit);
    var d := price * unit;
    n / d
  }

  lemma Positive(a: nat, b: nat)
    requires a > 0 && b > 0
    ensures a * b > 0
  {
  }

  // The token1 value the Maker lets sit in token0.
  function Token0Value(l: Limits): nat
    requires !l.V4?
  {
    var share := l.maxBudget1 * l.shareBps / BPS;
    if l.V1? then share else Min(share, l.maxToken0Value1)
  }

  function MakerToken0Ceiling(l: Limits, m: Market): Result<nat>
    requires ValidMarket(m)
  {
    if l.V4? then Success(l.maxPost0) else ValueToToken0(Token0Value(l), m)
  }

  function MakerAmount0(l: Limits, m: Market): Result<nat>
    requires ValidMarket(m)
  {
    if l.V2? || l.V3? then ValueToToken0(l.maxSwapValue1, m) else Success(l.maxAmount0)
  }

  function MakerAmount1(l: Limits): nat {
    if l.V2? || l.V3? then l.maxSwapValue1 else l.maxAmount1
  }

  function MakerPost1(l: Limits): nat {
    if l.V4? then l.maxPost1 else l.maxBudget1
  }

  predicate Standing(l: Limits) {
    l.V3? || l.V4?
  }

  function WhoBinds(provider: nat, maker: nat): Side {
    if provider == maker then Equal else if provider < maker then Provider else Maker
  }

  // ---- the intersection ------------------------------------------------------------------------

  datatype Caps = Caps(amount0: nat, amount1: nat, post0: nat, post1: nat)

  function ProviderCaps(rule: Option<Rule>, s: Strategy): Caps {
    Caps(if rule.Some? then rule.value.maxAmount0 else 0, if rule.Some? then rule.value.maxAmount1 else 0,
        s.maxBalance0, s.maxBalance1)
  }

  function MakerCaps(l: Limits, m: Market): Result<Caps>
    requires ValidMarket(m)
  {
    var amount0 :- MakerAmount0(l, m);
    var post0 :- MakerToken0Ceiling(l, m);
    Success(Caps(amount0, MakerAmount1(l), post0, MakerPost1(l)))
  }

  function Meet(a: Caps, b: Caps): Caps {
    Caps(ClampU128(Min(a.amount0, b.amount0)), ClampU128(Min(a.amount1, b.amount1)), ClampU128(Min(a.post0, b.post0)),
        ClampU128(Min(a.post1, b.post1)))
  }

  function Directions(rule: Option<Rule>, caps: Caps, m: Market): nat {
    if rule.None? || caps.amount0 == 0 || caps.amount1 == 0 then 0
    else
      (if rule.value.buy0 && m.balance0 < caps.post0 then 1 else 0)
      + (if rule.value.sell0 && m.balance1 < caps.post1 then 2 else 0)
  }

  function PausedReason(rule: Option<Rule>, caps: Caps, m: Market): Option<string> {
    if rule.None? then Some("no-rule-matched")
    else if !rule.value.buy0 && !rule.value.sell0 then Some("rule-disallows-both-directions")
    else if caps.amount0 == 0 || caps.amount1 == 0 then Some("per-swap-cap-zero")
    else if Directions(rule, caps, m) == 0 then Some("inventory-exhausted-both-directions")
    else None
  }

  // A standing authorization has no end, written as zero.
  function ValidUntil(rule: Option<Rule>, l: Limits, nowSec: nat): nat {
    if Standing(l) then 0
    else nowSec + Min(Min(if rule.Some? then rule.value.ttlSec else MAX_REPORT_LIFETIME_SEC, l.maxTtlSec),
        MAX_REPORT_LIFETIME_SEC)
  }

  function Issued(rule: Option<Rule>, caps: Caps, l: Limits, m: Market, identity: Identity, nowSec: nat,
      nonce: nat): Report {
    var directions := Directions(rule, caps, m);
    var c := if directions == 0 then Caps(0, 0, 0, 0) else caps;
    Report(if Standing(l) then 2 else 1, identity, nonce, nowSec, ValidUntil(rule, l, nowSec), directions, c.amount0,
        c.amount1, c.post0, c.post1)
  }

  function Authorize(s: Strategy, l: Limits, m: Market, identity: Identity, nowSec: int, nonce: int): Result<Report>
    requires ValidStrategy(s) && ValidMarket(m)
  {
    if nonce <= 0 || nonce > UINT64_MAX then Failure("nonce must be in (0, 2^64)")
    else if nowSec < 0 || nowSec > UINT48_MAX then Failure("nowSec must be a uint48 unix timestamp")
    else
      var rule := FirstMatch(s.rules, m);
      var maker :- MakerCaps(l, m);
      Success(Issued(rule, Meet(ProviderCaps(rule, s), maker), l, m, identity, nowSec, nonce))
  }

  // Which side's cap is the stricter one.
  predicate Names(side: Side, provider: nat, maker: nat) {
    match side
    case Equal => provider == maker
    case Provider => provider < maker
    case Maker => maker < provider
  }

  predicate NamesTheStricter(b: Binding, provider: Caps, maker: Caps) {
    && Names(b.amount0, provider.amount0, maker.amount0) && Names(b.amount1, provider.amount1, maker.amount1)
    && Names(b.post0, provider.post0, maker.post0) && Names(b.post1, provider.post1, maker.post1)
  }

  lemma BindingNames(p: Caps, m: Caps)
    ensures NamesTheStricter(
              Binding(WhoBinds(p.amount0, m.amount0), WhoBinds(p.amount1, m.amount1), WhoBinds(p.post0, m.post0),
                  WhoBinds(p.post1, m.post1)), p, m)
  {
  }

  // Caps and direction bits are reassigned as the checks go on.
  method ComputeAuthorization(s: Strategy, l: Limits, m: Market, identity: Identity, nowSec: int,
      nonce: int) returns (r: Result<Outcome>)
    requires ValidStrategy(s) && ValidMarket(m)
    ensures var a := Authorize(s, l, m, identity, nowSec, nonce);
            if a.Failure? then r == Failure(a.error) else r.Success? && r.value.report == a.value
    ensures r.Success? ==> (r.value.pausedReason.Some? <==> r.value.report.directions == 0)
    ensures r.Success? ==>
              var rule, maker := FirstMatch(s.rules, m), MakerCaps(l, m).value;
              && r.value.matched == (if rule.Some? then Some(rule.value.id) else None)
              && r.value.pausedReason == PausedReason(rule, Meet(ProviderCaps(rule, s), maker), m)
              && NamesTheStricter(r.value.binding, ProviderCaps(rule, s), maker)
  {
    hide ValueToToken0, Applies, FirstMatch, NamesTheStricter;
    if nonce <= 0 || nonce > UINT64_MAX {
      return Failure("nonce must be in (0, 2^64)");
    }
    if nowSec < 0 || nowSec > UINT48_MAX {
      return Failure("nowSec must be a uint48 unix timestamp");
    }
    var rule := MatchRule(s, m);
    var providerCap0, providerCap1 := if rule.Some? then rule.value.maxAmount0 else 0,
        if rule.Some? then rule.value.maxAmount1 else 0;
    var makerCap0 :- MakerAmount0(l, m);
    var makerCap1 := MakerAmount1(l);
    var maxAmount0, maxAmount1 := ClampU128(Min(providerCap0, makerCap0)), ClampU128(Min(providerCap1, makerCap1));
    var makerPost0 :- MakerToken0Ceiling(l, m);
    var makerPost1 := MakerPost1(l);
    var maxPost0, maxPost1 := ClampU128(Min(s.maxBalance0, makerPost0)), ClampU128(Min(s.maxBalance1, makerPost1));
    var binding := Binding(WhoBinds(providerCap0, makerCap0), WhoBinds(providerCap1, makerCap1),
        WhoBinds(s.maxBalance0, makerPost0), WhoBinds(s.maxBalance1, makerPost1));
    BindingNames(ProviderCaps(rule, s), Caps(makerCap0, makerCap1, makerPost0, makerPost1));
    var directions, pausedReason := 0, None;
    if rule.None? {
      pausedReason := Some("no-rule-matched");
    } else if !rule.value.buy0 && !rule.value.sell0 {
      pausedReason := Some("rule-disallows-both-directions");
    } else if maxAmount0 == 0 || maxAmount1 == 0 {
      pausedReason := Some("per-swap-cap-zero");
    } else {
      if rule.value.buy0 && m.balance0 < maxPost0 {
        directions := directions + 1;
      }
      if rule.value.sell0 && m.balance1 < maxPost1 {
        directions := directions + 2;
      }
      if directions == 0 {
        pausedReason := Some("inventory-exhausted-both-directions");
      }
    }
    if directions == 0 {
      maxAmount0, maxAmount1, maxPost0, maxPost1 := 0, 0, 0, 0;
    }
    var standing := Standing(l);
    var ttlSec := if standing then 0 else Min(Min(if rule.Some? then rule.value.ttlSec else MAX_REPORT_LIFETIME_SEC,
        l.maxTtlSec), MAX_REPORT_LIFETIME_SEC);
    var report := Report(if standing then 2 else 1, identity, nonce, nowSec, if standing then 0 else nowSec + ttlSec,
        directions, maxAmount0, maxAmount1, maxPost0, maxPost1);
    return Success(Outcome(report, if rule.Some? then Some(rule.value.id) else None, pausedReason, binding));
  }

  // ---- the report refines both policies ----------------------------------------------------------

  predicate AtMost(a: Caps, b: Caps) {
    a.amount0 <= b.amount0 && a.amount1 <= b.amount1 && a.post0 <= b.post0 && a.post1 <= b.post1
  }

  function CapsOf(r: Report): Caps {
    Caps(r.maxAmount0, r.maxAmount1, r.maxPost0, r.maxPost1)
  }

  const UINT128_CAPS := Caps(UINT128_MAX, UINT128_MAX, UINT128_MAX, UINT128_MAX)

  // Caps are at most the Provider's and the Maker's; unless paused they are the greatest such; a
  // direction is open exactly when the rule allows it, both amounts are positive and its side has room.
  lemma ReportRefinesBoth(s: Strategy, l: Limits, m: Market, identity: Identity, nowSec: int, nonce: int, other: Caps)
    requires ValidStrategy(s) && ValidMarket(m) && Authorize(s, l, m, identity, nowSec, nonce).Success?
    ensures var r, rule, maker := Authorize(s, l, m, identity, nowSec, nonce).value, FirstMatch(s.rules, m),
            MakerCaps(l, m);
            && maker.Success? && AtMost(CapsOf(r), ProviderCaps(rule, s)) && AtMost(CapsOf(r), maker.value)
               && AtMost(CapsOf(r), UINT128_CAPS)
            && (r.directions > 0 && AtMost(other, ProviderCaps(rule, s)) && AtMost(other, maker.value)
                && AtMost(other, UINT128_CAPS)
                ==> AtMost(other, CapsOf(r)))
            && r.directions <= 3
            && (Buys0(r.directions) <==> rule.Some? && rule.value.buy0
                                         && MeetsRoom(rule, maker.value, s, m.balance0, true))
            && (Sells0(r.directions) <==> rule.Some? && rule.value.sell0
                                          && MeetsRoom(rule, maker.value, s, m.balance1, false))
            && (r.directions == 0 ==> CapsOf(r) == Caps(0, 0, 0, 0))
            && r.validAfter == nowSec && (if Standing(l) then r.validUntil == 0
               && r.schemaVersion == 2 else r.validUntil <= nowSec + MAX_REPORT_LIFETIME_SEC && r.schemaVersion == 1)
  {
    hide ValueToToken0, Applies, FirstMatch;
  }

  // A bounded report lives exactly as long as the shortest of the rule, the Maker and the Guard allow.
  lemma ValidityIsShortest(s: Strategy, l: Limits, m: Market, identity: Identity, nowSec: int, nonce: int)
    requires ValidStrategy(s) && ValidLimits(l) && ValidMarket(m)
             && Authorize(s, l, m, identity, nowSec, nonce).Success? && !Standing(l)
    ensures var lifetime, rule := Authorize(s, l, m, identity, nowSec, nonce).value.validUntil - nowSec,
            FirstMatch(s.rules, m);
            && 0 < lifetime <= MAX_REPORT_LIFETIME_SEC && lifetime <= l.maxTtlSec
               && (rule.Some? ==> lifetime <= rule.value.ttlSec)
            && (lifetime == MAX_REPORT_LIFETIME_SEC || lifetime == l.maxTtlSec
               || (rule.Some? && lifetime == rule.value.ttlSec))
  {
    hide MakerCaps, Applies, FirstMatch;
    var rule := FirstMatch(s.rules, m);
    assert rule.Some? ==> rule.value in s.rules && ValidRule(rule.value);
  }

  // Worth at most: an amount of token0 against a token1 value, at the mid price.
  predicate WorthAtMost(amount0: nat, value1: nat, m: Market)
    requires ValidMarket(m)
  {
    amount0 * (ParsePrice(m.midPrice) * PriceText.Pow10(m.decimals1))
    <= value1 * PriceText.Pow10(m.decimals0) * PRICE_SCALE
  }

  lemma ConvertedCapIsWorth(value1: nat, m: Market, cap: nat)
    requires ValidMarket(m) && ValueToToken0(value1, m).Success? && cap <= ValueToToken0(value1, m).value
    ensures WorthAtMost(cap, value1, m)
  {
    ValueCapIsWorthAtMost(value1, m, cap);
    hide ParsePrice, PriceText.Pow10, ValueToToken0;
  }

  // For every version that limits token0 by value: the inventory cap of a report is worth at most
  // the Maker's share of the budget (and the explicit ceiling), and the per-swap cap at most the
  // Maker's swap value.
  lemma ReportCapsAreWorthAtMost(s: Strategy, l: Limits, m: Market, identity: Identity, nowSec: int, nonce: int)
    requires ValidStrategy(s) && ValidMarket(m) && Authorize(s, l, m, identity, nowSec, nonce).Success? && !l.V4?
    ensures var r := Authorize(s, l, m, identity, nowSec, nonce).value;
            && WorthAtMost(r.maxPost0, l.maxBudget1 * l.shareBps / BPS, m)
            && (!l.V1? ==> WorthAtMost(r.maxPost0, l.maxToken0Value1, m)
                           && WorthAtMost(r.maxAmount0, l.maxSwapValue1, m))
  {
    ReportRefinesBoth(s, l, m, identity, nowSec, nonce, Caps(0, 0, 0, 0));
    hide ValueToToken0, Applies, FirstMatch, WorthAtMost, Authorize, ValidStrategy, ProviderCaps;
    var r, share := Authorize(s, l, m, identity, nowSec, nonce).value, l.maxBudget1 * l.shareBps / BPS;
    ConvertedCapIsWorth(Token0Value(l), m, r.maxPost0);
    WorthGrows(r.maxPost0, Token0Value(l), share, m);
    if !l.V1? {
      WorthGrows(r.maxPost0, Token0Value(l), l.maxToken0Value1, m);
      ConvertedCapIsWorth(l.maxSwapValue1, m, r.maxAmount0);
    }
  }

  lemma WorthGrows(amount0: nat, a: nat, b: nat, m: Market)
    requires ValidMarket(m) && WorthAtMost(amount0, a, m) && a <= b
    ensures WorthAtMost(amount0, b, m)
  {
    hide ParsePrice, PriceText.Pow10;
    Product(a, b, PriceText.Pow10(m.decimals0));
  }

  // Both per-swap caps are positive and the balance is below the inventory cap of its token.
  predicate MeetsRoom(rule: Option<Rule>, maker: Caps, s: Strategy, balance: nat, first: bool) {
    var provider := ProviderCaps(rule, s);
    && provider.amount0 > 0 && maker.amount0 > 0 && provider.amount1 > 0 && maker.amount1 > 0 && balance < UINT128_MAX
    && balance < (if first then provider.post0 else provider.post1)
    && balance < (if first then maker.post0 else maker.post1)
  }

  // A token0 cap made from a token1 value is the largest amount worth at most that value at the mid price.
  lemma ValueCapIsWorthAtMost(value1: nat, m: Market, amount0: nat)
    requires ValidMarket(m) && ValueToToken0(value1, m).Success?
    ensures amount0 <= ValueToToken0(value1, m).value
            <==> amount0 * (ParsePrice(m.midPrice) * PriceText.Pow10(m.decimals1))
                 <= value1 * PriceText.Pow10(m.decimals0) * PRICE_SCALE
  {
    hide PriceText.Pow10, ParsePrice;
    Positive(ParsePrice(m.midPrice), PriceText.Pow10(m.decimals1));
    QuotientIsGreatest(value1 * PriceText.Pow10(m.decimals0) * PRICE_SCALE,
        ParsePrice(m.midPrice) * PriceText.Pow10(m.decimals1), amount0);
  }

  lemma QuotientIsGreatest(n: nat, d: nat, k: nat)
    requires d > 0
    ensures k <= n / d <==> k * d <= n
  {
    var q := n / d;
    assert q * d <= n < (q + 1) * d;
    if k <= q {
      Product(k, q, d);
    } else {
      Product(q + 1, k, d);
    }
  }

  lemma Product(a: nat, b: nat, d: nat)
    requires a <= b
    ensures a * d <= b * d
  {
  }

  // ---- monotonicity in the Maker's limits ------------------------------------------------------------

  predicate NoLooser(a: Limits, b: Limits) {
    match a
    case V1(_, _, _, _, _) =>
      b.V1? && a.maxBudget1 <= b.maxBudget1 && a.shareBps <= b.shareBps && a.maxAmount0 <= b.maxAmount0
          && a.maxAmount1 <= b.maxAmount1 && a.maxTtlSec <= b.maxTtlSec
    case V2(_, _, _, _, _) =>
      b.V2? && a.maxBudget1 <= b.maxBudget1 && a.shareBps <= b.shareBps && a.maxToken0Value1 <= b.maxToken0Value1
          && a.maxSwapValue1 <= b.maxSwapValue1 && a.maxTtlSec <= b.maxTtlSec
    case V3(_, _, _, _) =>
      b.V3? && a.maxBudget1 <= b.maxBudget1 && a.shareBps <= b.shareBps && a.maxToken0Value1 <= b.maxToken0Value1
          && a.maxSwapValue1 <= b.maxSwapValue1
    case V4(_, _, _, _) =>
      b.V4? && a.maxAmount0 <= b.maxAmount0 && a.maxAmount1 <= b.maxAmount1 && a.maxPost0 <= b.maxPost0
          && a.maxPost1 <= b.maxPost1
  }

  lemma ValueToToken0Grows(a: nat, b: nat, m: Market)
    requires ValidMarket(m) && a <= b
    ensures ValueToToken0(a, m).Success? <==> ValueToToken0(b, m).Success?
    ensures ValueToToken0(a, m).Success? ==> ValueToToken0(a, m).value <= ValueToToken0(b, m).value
  {
    if ValueToToken0(a, m).Success? {
      var amount := ValueToToken0(a, m).value;
      ValueCapIsWorthAtMost(a, m, amount);
      ValueCapIsWorthAtMost(b, m, amount);
      hide ParsePrice, PriceText.Pow10, ValueToToken0;
      Product(a, b, PriceText.Pow10(m.decimals0));
    }
  }

  lemma Token0ValueGrows(a: Limits, b: Limits)
    requires !a.V4? && NoLooser(a, b)
    ensures Token0Value(a) <= Token0Value(b)
  {
    Product(a.maxBudget1, b.maxBudget1, a.shareBps);
    Product(a.shareBps, b.shareBps, b.maxBudget1);
  }

  lemma MakerCapsGrow(a: Limits, b: Limits, m: Market)
    requires ValidMarket(m) && NoLooser(a, b)
    ensures MakerCaps(a, m).Success? <==> MakerCaps(b, m).Success?
    ensures MakerCaps(a, m).Success? ==> AtMost(MakerCaps(a, m).value, MakerCaps(b, m).value)
  {
    if !a.V4? {
      Token0ValueGrows(a, b);
      ValueToToken0Grows(Token0Value(a), Token0Value(b), m);
    }
    if a.V2? || a.V3? {
      ValueToToken0Grows(a.maxSwapValue1, b.maxSwapValue1, m);
    }
    hide ValueToToken0, Token0Value;
  }

  lemma SmallerCapsIssueLess(rule: Option<Rule>, c: Caps, d: Caps, a: Limits, b: Limits, m: Market,
      identity: Identity, nowSec: nat, nonce: nat)
    requires AtMost(c, d) && NoLooser(a, b)
    ensures var x, y := Issued(rule, c, a, m, identity, nowSec, nonce), Issued(rule, d, b, m, identity, nowSec, nonce);
            && AtMost(CapsOf(x), CapsOf(y))
            && (Buys0(x.directions) ==> Buys0(y.directions)) && (Sells0(x.directions) ==> Sells0(y.directions))
            && x.validUntil <= y.validUntil && x.validAfter == y.validAfter
  {
  }

  // Lowering any of the Maker's limits never raises a cap, opens a direction or lengthens validity,
  // and never turns an error into a report.
  lemma LowerLimitsNeverLoosen(s: Strategy, a: Limits, b: Limits, m: Market, identity: Identity, nowSec: int,
      nonce: int)
    requires ValidStrategy(s) && ValidMarket(m) && NoLooser(a, b)
    ensures var x, y := Authorize(s, a, m, identity, nowSec, nonce), Authorize(s, b, m, identity, nowSec, nonce);
            && (x.Success? <==> y.Success?)
            && (x.Success? ==>
                  && AtMost(CapsOf(x.value), CapsOf(y.value))
                  && (Buys0(x.value.directions) ==> Buys0(y.value.directions))
                     && (Sells0(x.value.directions) ==> Sells0(y.value.directions))
                  && x.value.validUntil <= y.value.validUntil && x.value.validAfter == y.value.validAfter)
  {
    MakerCapsGrow(a, b, m);
    hide FirstMatch, MakerCaps, Issued, NoLooser, ProviderCaps, Buys0, Sells0, CapsOf;
    var rule := FirstMatch(s.rules, m);
    if Authorize(s, a, m, identity, nowSec, nonce).Success? {
      SmallerCapsIssueLess(rule, Meet(ProviderCaps(rule, s), MakerCaps(a, m).value),
          Meet(ProviderCaps(rule, s), MakerCaps(b, m).value), a, b, m, identity, nowSec, nonce);
    }
  }
}
