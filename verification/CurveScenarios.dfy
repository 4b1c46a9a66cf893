// Scenarios: trades against one strategy, one after another, under the caps of its Guard.
module CurveScenarios {
  import opened Wrappers
  import opened CurvePreview
  import opened CurveMath
  import opened CurveSafety

  datatype Trade = Trade(tokenIn: nat, amount: nat)

  predicate ValidTrade(t: Trade) {
    t.tokenIn < 2 && t.amount > 0
  }

  datatype Caps = Caps(amount: Balances, post: Balances)

  datatype TradeResult = TradeResult(quote: Option<Quote>, admitted: bool, reasons: seq<string>, before: Balances,
      after: Balances)

  // Only the curve's own errors are shown by name.
  function ShownError(error: string): string {
    if |error| >= 6 && error[..6] == "curve-" then error else "preview-unavailable"
  }

  function Refused(error: string, b: Balances): TradeResult {
    TradeResult(None, false, [ShownError(error)], b, b)
  }

  function Reasons(caps: Caps, b: Balances, t: Trade, q: Quote, nextIn: nat): seq<string>
    requires ValidTrade(t)
  {
    var out := 1 - t.tokenIn;
    (if q.amountOut == 0 then ["zero-output"] else [])
    + (if t.amount > caps.amount.Of(t.tokenIn) || q.amountOut > caps.amount.Of(out) then ["guard-amount-cap"] else [])
    + (if q.amountOut > b.Of(out) then ["aqua-output-inventory"] else [])
    + (if nextIn > caps.post.Of(t.tokenIn) || b.Of(out) - q.amountOut > caps.post.Of(out)
        then ["guard-post-inventory-cap"] else [])
  }

  // One trade of a scenario.
  function Assess(d: Decoded, caps: Caps, b: Balances, t: Trade): (r: TradeResult)
    requires ValidTrade(t)
    ensures r.before == b
  {
    var math := SwapMath(d, b, t.tokenIn, t.amount);
    if math.Failure? then Refused(math.error, b)
    else
      var q, nextIn := math.value, Add(b.Of(t.tokenIn), t.amount);
      if nextIn.Failure? then Refused(nextIn.error, b)
      else
        var reasons := Reasons(caps, b, t, q, nextIn.value);
        TradeResult(Some(q), reasons == [], reasons, b,
            if reasons == [] then Settled(b, t.tokenIn, t.amount, q.amountOut) else b)
  }

  // The balances a run of results passes through.
  predicate Linked(results: seq<TradeResult>, initial: Balances, last: Balances) {
    if results == [] then last == initial
    else results[0].before == initial && results[|results| - 1].after == last
         && forall i :: 0 < i < |results| ==> results[i].before == results[i - 1].after
  }

  predicate Assessed(d: Decoded, caps: Caps, trades: seq<Trade>, results: seq<TradeResult>) {
    |results| == |trades| && forall i :: 0 <= i < |trades|
                                         ==> ValidTrade(trades[i]) && results[i] == Assess(d, caps, results[i].before,
                                             trades[i])
  }

  method RunScenario(d: Decoded, caps: Caps, initial: Balances,
      trades: seq<Trade>) returns (results: seq<TradeResult>, balances: Balances)
    requires forall t :: t in trades ==> ValidTrade(t)
    ensures Assessed(d, caps, trades, results) && Linked(results, initial, balances)
  {
    hide Assess;
    results, balances := [], initial;
    for i := 0 to |trades|
      invariant Assessed(d, caps, trades[..i], results) && Linked(results, initial, balances)
    {
      var result := AssessTrade(d, caps, balances, trades[i]);
      assert trades[..i + 1] == trades[..i] + [trades[i]];
      results, balances := results + [result], result.after;
    }
    assert trades[..|trades|] == trades;
  }

  method AssessTrade(d: Decoded, caps: Caps, balances: Balances, t: Trade) returns (r: TradeResult)
    requires ValidTrade(t)
    ensures r == Assess(d, caps, balances, t)
  {
    hide SwapMath;
    var math := PreviewSwapMath(d, balances, t.tokenIn, t.amount);
    if math.Failure? {
      return Refused(math.error, balances);
    }
    var out, reasons := 1 - t.tokenIn, [];
    var q := math.value;
    if q.amountOut == 0 {
      reasons := reasons + ["zero-output"];
    }
    if t.amount > caps.amount.Of(t.tokenIn) || q.amountOut > caps.amount.Of(out) {
      reasons := reasons + ["guard-amount-cap"];
    }
    if q.amountOut > balances.Of(out) {
      reasons := reasons + ["aqua-output-inventory"];
    }
    var nextIn := Add(balances.Of(t.tokenIn), t.amount);
    if nextIn.Failure? {
      return Refused(nextIn.error, balances);
    }
    if nextIn.value > caps.post.Of(t.tokenIn) || balances.Of(out) - q.amountOut > caps.post.Of(out) {
      reasons := reasons + ["guard-post-inventory-cap"];
    }
    return TradeResult(Some(q), reasons == [], reasons, balances,
        if reasons == [] then Settled(balances, t.tokenIn, t.amount, q.amountOut) else balances);
  }

  // ---- solvency, for every curve ---------------------------------------------------------------

  predicate Within(b: Balances, caps: Caps) {
    b.base <= caps.post.base && b.quote <= caps.post.quote
  }

  // What one trade may do to the balances.
  ghost predicate Fair(caps: Caps, t: Trade, r: TradeResult)
    requires ValidTrade(t)
  {
    && (!r.admitted ==> r.after == r.before && r.reasons != [])
    && (r.admitted ==>
          && r.quote.Some? && r.reasons == []
          && 0 < r.quote.value.amountOut <= r.before.Of(1 - t.tokenIn)
             && r.after == Settled(r.before, t.tokenIn, t.amount, r.quote.value.amountOut)
          && t.amount <= caps.amount.Of(t.tokenIn) && r.quote.value.amountOut <= caps.amount.Of(1 - t.tokenIn)
             && Within(r.after, caps))
  }

  lemma TradesAreFair(d: Decoded, caps: Caps, b: Balances, t: Trade)
    requires ValidTrade(t)
    ensures Fair(caps, t, Assess(d, caps, b, t))
  {
    hide SwapMath;
  }

  // After every prefix of a scenario the balances are within the post-trade caps, a refused trade
  // has changed nothing, and an admitted one has moved exactly its two amounts.
  lemma {:induction false} BalancesStayWithin(d: Decoded, caps: Caps, initial: Balances, trades: seq<Trade>,
      results: seq<TradeResult>, last: Balances, i: nat)
    requires Assessed(d, caps, trades, results) && Linked(results, initial, last) && Within(initial, caps)
             && i < |results|
    ensures Within(results[i].before, caps) && Within(results[i].after, caps) && Fair(caps, trades[i], results[i])
    decreases i
  {
    hide Assess;
    if i > 0 {
      BalancesStayWithin(d, caps, initial, trades, results, last, i - 1);
    }
    TradesAreFair(d, caps, results[i].before, trades[i]);
  }

  // A pegged output never exceeds the real balance it comes from.
  lemma PeggedIsSolvent(d: Decoded, b: Balances, tokenIn: nat, amount: nat)
    requires tokenIn < 2 && d.curve.Pegged? && SwapMath(d, b, tokenIn, amount).Success?
    ensures SwapMath(d, b, tokenIn, amount).value.amountOut <= b.Of(1 - tokenIn)
  {
    hide PricingAmount, PeggedOut;
    PeggedLeavesTarget(PricingAmount(amount, d.feeBps).value, b.Of(tokenIn), b.Of(1 - tokenIn), d.curve,
        InIsLt(d, tokenIn));
  }

  // So on the pegged and the constant-product curve no trade is refused for lack of inventory.
  lemma InventoryAlwaysSuffices(d: Decoded, caps: Caps, b: Balances, t: Trade)
    requires ValidTrade(t) && !d.curve.Concentrated?
    ensures "aqua-output-inventory" !in Assess(d, caps, b, t).reasons
  {
    hide SwapMath;
    if SwapMath(d, b, t.tokenIn, t.amount).Success? {
      if d.curve.Pegged? {
        PeggedIsSolvent(d, b, t.tokenIn, t.amount);
      } else {
        XycKeeps(d, b, t.tokenIn, t.amount);
      }
    } else {
      var e := SwapMath(d, b, t.tokenIn, t.amount).error;
      assert |e| >= 6 && e[..6] == "curve-" ==> e[0] == e[..6][0] == 'c';
    }
  }

  // ---- constant product over whole scenarios -------------------------------------------------------

  function Product(b: Balances): nat {
    b.base * b.quote
  }

  lemma AssessKeepsProduct(d: Decoded, caps: Caps, b: Balances, t: Trade)
    requires ValidTrade(t) && d.curve.Xyc?
    ensures Product(Assess(d, caps, b, t).after) >= Product(b)
  {
    hide SwapMath;
    TradesAreFair(d, caps, b, t);
    if Assess(d, caps, b, t).admitted {
      XycSettles(d, b, t.tokenIn, t.amount);
    }
  }

  // Over any sequence of trades the product of the balances never falls; so if the base is back at
  // or below its start, the quote is at or above its start.
  lemma {:induction false} ProductNeverFalls(d: Decoded, caps: Caps, initial: Balances, trades: seq<Trade>,
      results: seq<TradeResult>, last: Balances)
    requires Assessed(d, caps, trades, results) && Linked(results, initial, last) && d.curve.Xyc?
    ensures Product(last) >= Product(initial)
    ensures last.base <= initial.base ==> initial.base == 0 || last.quote >= initial.quote
    decreases |trades|
  {
    hide Assess;
    if trades == [] {
    } else {
      var n := |trades| - 1;
      ProductNeverFalls(d, caps, initial, trades[..n], results[..n], results[n].before);
      AssessKeepsProduct(d, caps, results[n].before, trades[n]);
    }
    if last.base <= initial.base {
      Scale(last.base, initial.base, last.quote);
      if initial.base > 0 {
        Shrink(initial.quote, last.quote, initial.base);
      }
    }
  }
}
