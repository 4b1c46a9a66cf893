// The autopilot's pure proposal: replace an expired concentrated program by one whose range
// stays inside the policy band, and how any chain of such replacements behaves.
module Rollover {
  import opened Wrappers
  import opened PriceText
  import opened Concentration

  datatype Program = Program(concentrated: bool, sqrtPriceMin: nat, sqrtPriceMax: nat, salt: nat, deadline: nat,
      feeBps: nat)

  datatype Strategy = Strategy(tokens: seq<Token>, amounts: seq<int>, program: Program, guarded: bool, revision: nat)

  datatype Policy = Policy(minPrice: string, maxPrice: string, rangeWidthBps: nat, triggerBps: nat, cooldownSec: nat,
      ttlSec: nat,
                           maxRebalances: nat, feeBps: nat, highMovementFeeBps: nat, movementThresholdBps: nat)

  datatype Progress = Progress(rebalances: nat, lastAt: nat, anchor: Option<nat>)

  datatype Proposal =
    | Hold(reason: string)
    | Rebalance(strategy: Strategy, recentred: bool, anchor: nat, movementBps: nat, reportRequired: bool)

  function Movement(price: int, anchor: nat): nat
    requires anchor > 0
  {
    (if price < anchor then anchor - price else price - anchor) * 10000 / anchor
  }

  // The recentred display range, clipped to the policy.
  function Clipped(price: int, policy: Policy, floor: nat, ceiling: nat): (nat, nat) {
    var low, high := price * (10000 - policy.rangeWidthBps) / 10000, price * (10000 + policy.rangeWidthBps) / 10000;
    (if low < floor then floor else low, if high > ceiling then ceiling else if high < 0 then 0 else high)
  }

  function NextRange(p: Strategy, decimals: seq<int>, price: int, policy: Policy, floor: nat, ceiling: nat,
      recenter: bool): Result<Bounds> {
    if recenter then
      var range := Clipped(price, policy, floor, ceiling);
      ConcentrationBounds(p.tokens, decimals, DisplayPrice(range.0), DisplayPrice(range.1))
    else Success(Bounds(p.program.sqrtPriceMin, p.program.sqrtPriceMax))
  }

  function Replacement(p: Strategy, balances: seq<int>, range: Bounds, now: nat, fee: nat, policy: Policy): Strategy {
    p.(amounts := balances, revision := p.revision + 1,
       program := p.program.(sqrtPriceMin := range.sqrtPriceMin, sqrtPriceMax := range.sqrtPriceMax,
           salt := p.program.salt + 1,
                             deadline := now + policy.ttlSec, feeBps := fee))
  }

  // The reason to do nothing, if there is one, in the order of the checks.
  function HoldReason(p: Strategy, balances: seq<int>, price: int, now: nat, policy: Policy, state: Progress,
      floor: nat, ceiling: nat): Option<string> {
    if state.rebalances >= policy.maxRebalances then Some("rebalance-budget-exhausted")
    else if price < floor || price > ceiling then Some("price-outside-policy")
    else if now <= p.program.deadline then Some("waiting-for-expiry")
    else if now < state.lastAt + policy.cooldownSec then Some("cooldown")
    else if |balances| != 2 || balances[0] <= 0 || balances[1] <= 0 then Some("one-sided-inventory")
    else None
  }

  predicate OutsideBounds(p: Strategy, permitted: Bounds) {
    p.program.sqrtPriceMin < permitted.sqrtPriceMin || p.program.sqrtPriceMax > permitted.sqrtPriceMax
  }

  // `compilable` is the request parser and compiler, which reject a strategy by throwing.
  function ProposeRollover(p: Strategy, balances: seq<int>, decimals: seq<int>, price: int, now: nat, policy: Policy,
      state: Progress,
                           compilable: Strategy -> bool): Result<Proposal> {
    if !p.program.concentrated then Failure("autopilot requires concentrated liquidity")
    else if p.guarded && (policy.feeBps != 0 || policy.highMovementFeeBps != 0)
        then Failure("guarded autopilot requires zero fees")
    else if state.rebalances >= policy.maxRebalances then Success(Hold("rebalance-budget-exhausted"))
    else
      var floor :- PriceE18(policy.minPrice);
      var ceiling :- PriceE18(policy.maxPrice);
      var hold := HoldReason(p, balances, price, now, policy, state, floor, ceiling);
      if hold.Some? then Success(Hold(hold.value))
      else
        var anchor := if state.anchor.Some? then state.anchor.value else price;
        if anchor <= 0 then Failure("Division by zero")
        else
          var movement := Movement(price, anchor);
          var permitted :- ConcentrationBounds(p.tokens, decimals, policy.minPrice, policy.maxPrice);
          var recenter := state.anchor.None? || movement >= policy.triggerBps || OutsideBounds(p, permitted);
          var range :- NextRange(p, decimals, price, policy, floor, ceiling, recenter);
          var fee := if movement >= policy.movementThresholdBps then policy.highMovementFeeBps else policy.feeBps;
          var strategy := Replacement(p, balances, range, now, fee, policy);
          if !compilable(p) || !compilable(strategy) then Failure("invalid strategy")
          else Success(Rebalance(strategy, recenter, if recenter then price else anchor, movement, strategy.guarded))
  }

  // ---- one proposal --------------------------------------------------------------------------

  predicate InBand(tokens: seq<Token>, decimals: seq<int>, policy: Policy, program: Program) {
    var permitted := ConcentrationBounds(tokens, decimals, policy.minPrice, policy.maxPrice);
    permitted.Success? && permitted.value.sqrtPriceMin <= program.sqrtPriceMin
        && program.sqrtPriceMax <= permitted.value.sqrtPriceMax
  }

  // Printing the clipped bounds and reading them back gives the clipped bounds.
  lemma ClippedRangeReads(price: int, policy: Policy, floor: nat, ceiling: nat)
    requires 0 < floor <= price <= ceiling < Pow10(54)
    ensures var range := Clipped(price, policy, floor, ceiling);
            && floor <= range.0 <= price <= range.1 <= ceiling
            && PriceE18(DisplayPrice(range.0)) == Success(range.0)
               && PriceE18(DisplayPrice(range.1)) == Success(range.1)
  {
    hide PriceE18, DisplayPrice, Pow10;
    WidthsBracket(price, policy.rangeWidthBps);
    var range := Clipped(price, policy, floor, ceiling);
    DisplayThenRead(range.0);
    DisplayThenRead(range.1);
  }

  lemma WidthsBracket(price: int, width: nat)
    requires price >= 0
    ensures price * (10000 - width) / 10000 <= price <= price * (10000 + width) / 10000
  {
    assert price * (10000 - width) == 10000 * price - price * width;
    assert price * (10000 + width) == 10000 * price + price * width;
    assert price * width >= 0;
  }

  // A recentred range lies in the policy's: clipping, printing, reading and rounding inward never
  // leave it, for either token order.
  lemma RecentredStaysInBand(p: Strategy, decimals: seq<int>, price: int, policy: Policy, floor: nat, ceiling: nat)
    requires PriceE18(policy.minPrice) == Success(floor) && PriceE18(policy.maxPrice) == Success(ceiling)
             && floor <= price <= ceiling
    requires ConcentrationBounds(p.tokens, decimals, policy.minPrice, policy.maxPrice).Success?
    requires NextRange(p, decimals, price, policy, floor, ceiling, true).Success?
    ensures var range := NextRange(p, decimals, price, policy, floor, ceiling, true).value;
            var permitted := ConcentrationBounds(p.tokens, decimals, policy.minPrice, policy.maxPrice).value;
            permitted.sqrtPriceMin <= range.sqrtPriceMin < range.sqrtPriceMax <= permitted.sqrtPriceMax
  {
    PricesAreBounded(policy.minPrice);
    PricesAreBounded(policy.maxPrice);
    ClippedRangeReads(price, policy, floor, ceiling);
    hide Clipped, ConcentrationBounds, PriceE18, DisplayPrice, Pow10;
    var range := Clipped(price, policy, floor, ceiling);
    NarrowerStaysInside(p.tokens, decimals, policy.minPrice, policy.maxPrice, DisplayPrice(range.0),
        DisplayPrice(range.1));
  }

  // The movement is the distance from the anchor in basis points of the anchor, rounded down.
  predicate MovementIs(bps: nat, price: int, anchor: int) {
    var distance := if price < anchor then anchor - price else price - anchor;
    anchor > 0 && bps * anchor <= distance * 10000 < (bps + 1) * anchor
  }

  lemma MovementRoundsDown(price: int, anchor: nat)
    requires anchor > 0
    ensures MovementIs(Movement(price, anchor), price, anchor)
  {
    var n := (if price < anchor then anchor - price else price - anchor) * 10000;
    assert (n / anchor) * anchor <= n < (n / anchor + 1) * anchor;
  }

  // What every replacement satisfies.
  predicate Sound(p: Strategy, balances: seq<int>, decimals: seq<int>, price: int, now: nat, policy: Policy,
      state: Progress, r: Proposal)
    requires r.Rebalance?
  {
    var q := r.strategy;
    && InBand(p.tokens, decimals, policy, q.program) && q.tokens == p.tokens && q.guarded == p.guarded
       && q.amounts == balances
    && q.program.salt == p.program.salt + 1 && p.program.deadline < now <= q.program.deadline == now + policy.ttlSec
    && q.program.feeBps == (if r.movementBps >= policy.movementThresholdBps then policy.highMovementFeeBps
       else policy.feeBps)
    && (q.guarded ==> q.program.feeBps == 0)
    && MovementIs(r.movementBps, price, if state.anchor.Some? then state.anchor.value else price)
    && (r.recentred <==> state.anchor.None? || r.movementBps >= policy.triggerBps
                         || !InBand(p.tokens, decimals, policy, p.program))
    && state.rebalances < policy.maxRebalances && state.lastAt + policy.cooldownSec <= now
    && (r.recentred ==> r.anchor == price)
    && (!r.recentred ==>
          && state.anchor == Some(r.anchor)
          && q.program == p.program.(salt := q.program.salt, deadline := q.program.deadline,
             feeBps := q.program.feeBps))
    && r.reportRequired == p.guarded
  }

  // Only an expired program is replaced, within budget and cooldown, by a range inside the policy
  // band with the next salt and a later deadline; it is recentred exactly when the price has moved
  // past the trigger, there is no anchor yet, or the old range is outside the band.
  lemma RolloverIsSound(p: Strategy, balances: seq<int>, decimals: seq<int>, price: int, now: nat, policy: Policy,
      state: Progress, compilable: Strategy -> bool)
    ensures var r := ProposeRollover(p, balances, decimals, price, now, policy, state, compilable);
            r.Success? && r.value.Rebalance? ==> Sound(p, balances, decimals, price, now, policy, state, r.value)
  {
    hide PriceE18, ConcentrationBounds, DisplayPrice, Clipped, Movement, MovementIs;
    var r := ProposeRollover(p, balances, decimals, price, now, policy, state, compilable);
    var anchor := if state.anchor.Some? then state.anchor.value else price;
    if anchor > 0 {
      MovementRoundsDown(price, anchor);
    }
    if r.Success? && r.value.Rebalance? && r.value.recentred {
      RecentredStaysInBand(p, decimals, price, policy, PriceE18(policy.minPrice).value,
          PriceE18(policy.maxPrice).value);
    }
  }

  // ---- a chain of rollovers ------------------------------------------------------------------

  // One accepted proposal: what it saw, and the strategy that took over.
  datatype Turn = Turn(balances: seq<int>, price: int, now: nat, state: Progress)

  function Apply(p: Strategy, decimals: seq<int>, policy: Policy, compilable: Strategy -> bool,
      t: Turn): Option<Strategy> {
    var r := ProposeRollover(p, t.balances, decimals, t.price, t.now, policy, t.state, compilable);
    if r.Success? && r.value.Rebalance? then Some(r.value.strategy) else None
  }

  // The strategies that follow one another when each turn's proposal is carried out.
  predicate Chain(strategies: seq<Strategy>, decimals: seq<int>, policy: Policy, compilable: Strategy -> bool,
      turns: seq<Turn>) {
    && |strategies| == |turns| + 1
    && forall i :: 0 <= i < |turns| ==>
         Apply(strategies[i], decimals, policy, compilable, turns[i]) == Some(strategies[i + 1])
  }

  // Salts count the rollovers and deadlines only move forward, so no program ever comes back; and
  // after the first every range is inside the policy band.
  lemma {:induction false} ChainMovesForward(strategies: seq<Strategy>, decimals: seq<int>, policy: Policy,
      compilable: Strategy -> bool, turns: seq<Turn>, i: nat, k: nat)
    requires Chain(strategies, decimals, policy, compilable, turns) && i < k <= |turns|
    ensures strategies[k].program.salt == strategies[i].program.salt + (k - i)
            && strategies[i].program.deadline < strategies[k].program.deadline
    ensures strategies[k].tokens == strategies[i].tokens
            && InBand(strategies[k].tokens, decimals, policy, strategies[k].program)
    decreases k
  {
    hide ProposeRollover, InBand;
    var t := turns[k - 1];
    assert Apply(strategies[k - 1], decimals, policy, compilable, t) == Some(strategies[k]);
    RolloverIsSound(strategies[k - 1], t.balances, decimals, t.price, t.now, policy, t.state, compilable);
    if i < k - 1 {
      ChainMovesForward(strategies, decimals, policy, compilable, turns, i, k - 1);
    }
  }
}
