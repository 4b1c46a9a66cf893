// When a call ends its request: what the chain, the price feed and the clock answer during one call
// that is not cut off, and what the code makes of these answers and of what the store holds.
module Endings {
  import opened Wrappers
  import opened Journal
  import opened Controller

  // What a check of the risk says about a strategy; `data` tells a failed reading of prices or chain
  // data from any other error, as of a strategy that is not fully active.
  datatype Observation = Unreadable(data: bool) | AlreadyDocked | Breached | Within

  // The answers of one call. `calm`: the process is not stopped and no answer is lost.
  datatype Answers = Answers(
    calm: bool,
    // The chain still shows every recorded receipt as it was recorded.
    audited: bool,
    // The block time when a request is taken, and when a new strategy is last checked before it is signed.
    takenAt: nat, checkedAt: nat,
    // A new strategy is on the chain before its ship is signed; it is fully active after it (and the
    // replaced one docked).
    onChain: bool, live: bool,
    // The risk before a transaction is signed, and at the end.
    first: Observation, last: Observation,
    // The strategy is docked before and after the dock of a risk stop.
    riskDocked: bool, riskSettled: bool,
    // The strategy of a dock request: never shipped, docked before, and as expected after the dock.
    untouched: bool, docked: bool, dockSettled: bool,
    step: Step -> StepAnswer)

  function StepOf(revoke: bool, i: nat): Step {
    if revoke then MakerRevoke(i) else MakerApprove(i)
  }

  // The approvals or revocations of n tokens, one after another, up to the first that does not succeed.
  function Series(log: Log, id: Id, revoke: bool, n: nat, w: Answers): StepEnding {
    if n == 0 then Succeeds
    else
      var before := Series(log, id, revoke, n - 1, w);
      if before != Succeeds then before
      else StepEnds(log, TxKey(id, StepOf(revoke, n - 1)), w.step(StepOf(revoke, n - 1)))
  }

  function StepOfCall(log: Log, id: Id, step: Step, w: Answers): StepEnding {
    StepEnds(log, TxKey(id, step), w.step(step))
  }

  // A rejected or reverted transaction ends the request as failed; a throw leaves it pending.
  predicate Goes(e: StepEnding, on: bool) {
    e.Reverts? || (e.Succeeds? && on)
  }

  predicate RiskEnds(log: Log, id: Id, w: Answers) {
    if TxKey(id, RiskDock) in log.txs || !w.riskDocked then Goes(StepOfCall(log, id, RiskDock, w), w.riskSettled)
    else w.riskSettled
  }

  // A readable risk ends the request, at the end of it.
  predicate GuardEnds(log: Log, id: Id, seen: Observation, w: Answers) {
    match seen
    case Unreadable(_) => false
    case AlreadyDocked => true
    case Breached => RiskEnds(log, id, w)
    case Within => true
  }

  // Approvals, then the ship or rebalance itself, then the states of the chain, then the risk.
  predicate MoveEnds(log: Log, id: Id, n: nat, w: Answers) {
    Goes(Series(log, id, false, n, w), Goes(StepOfCall(log, id, Primary, w), w.live && GuardEnds(log, id, w.last, w)))
  }

  predicate ShipEnds(log: Log, id: Id, s: Strategy, w: Answers) {
    if PrimaryOf(id) in log.txs then MoveEnds(log, id, |s.tokens|, w)
    else s.deadline <= w.checkedAt || (!w.onChain && MoveEnds(log, id, |s.tokens|, w))
  }

  predicate RebalanceEnds(log: Log, id: Id, s: Strategy, w: Answers) {
    if PrimaryOf(id) in log.txs then MoveEnds(log, id, |s.tokens|, w)
    else if !w.first.Within? then GuardEnds(log, id, w.first, w)
    else s.deadline <= w.checkedAt || MoveEnds(log, id, |s.tokens|, w)
  }

  predicate SwapEnds(log: Log, id: Id, w: Answers) {
    if PrimaryOf(id) !in log.txs && !w.first.Within? then GuardEnds(log, id, w.first, w)
    else Goes(StepOfCall(log, id, TakerApprove, w),
        Goes(StepOfCall(log, id, Primary, w), GuardEnds(log, id, w.last, w)))
  }

  // An unreadable price or chain still ends a monitor request, as failed.
  predicate WatchEnds(log: Log, id: Id, w: Answers) {
    w.last == Unreadable(true) || GuardEnds(log, id, w.last, w)
  }

  predicate NeverShippedBy(s: Store, id: Id, w: Answers)
    requires id in s.requests
  {
    s.requests[id].beforeStatus.Starting? && w.untouched && PrimaryOf(id) !in s.log.txs
  }

  predicate DockEnds(s: Store, id: Id, tokens: nat, revoke: bool, w: Answers)
    requires id in s.requests
  {
    var revoked := w.dockSettled && (revoke ==> !Series(s.log, id, true, tokens, w).Throws?);
    if !NeverShippedBy(s, id, w) && (PrimaryOf(id) in s.log.txs || !w.docked) then
      Goes(StepOfCall(s.log, id, Primary, w), revoked)
    else revoked
  }

  // The exact condition, over the store before the call and the answers of the call.
  predicate Endable(s: Store, id: Id, w: Answers)
    requires id in s.requests
  {
    var a := s.requests[id];
    && w.audited
    && if a.riskStop.Some? then RiskEnds(s.log, id, w)
       else
         match a.request.action
         case Ship(strategy, _) => ShipEnds(s.log, id, strategy, w)
         case Rebalance(_, next) => RebalanceEnds(s.log, id, next, w)
         case Swap(_, _, _, _) => SwapEnds(s.log, id, w)
         case Watch(_) => WatchEnds(s.log, id, w)
         case Dock(_, revoke) => DockEnds(s, id, |ActiveOf(a.before).tokens|, revoke, w)
  }

  // ---- series -----------------------------------------------------------------------------------

  lemma {:induction false} SeriesStops(log: Log, id: Id, revoke: bool, k: nat, n: nat, w: Answers)
    requires k <= n && Series(log, id, revoke, k, w) != Succeeds
    ensures Series(log, id, revoke, n, w) == Series(log, id, revoke, k, w)
    decreases n
  {
    if k == n {
    } else {
      SeriesStops(log, id, revoke, k, n - 1, w);
    }
  }

  lemma {:induction false} ApprovedSeries(log: Log, id: Id, n: nat, w: Answers)
    requires Approved(log, id, n)
    ensures Series(log, id, false, n, w) == Succeeds
    decreases n
  {
    if n == 0 {
    } else {
      assert Approved(log, id, n - 1);
      ApprovedSeries(log, id, n - 1, w);
      assert Succeeded(log, TxKey(id, MakerApprove(n - 1)));
    }
  }

  // ---- what always ends, and what does not ---------------------------------------------------------

  ghost predicate Favourable(w: Answers) {
    && w.audited && !w.onChain && w.live && w.first.Within? && w.last.Within? && w.riskSettled && w.dockSettled
    && forall step :: w.step(step).preparing.Prepared? && w.step(step).fate.Lands?
  }

  lemma {:induction false} FavourableSeries(log: Log, id: Id, revoke: bool, n: nat, w: Answers)
    requires forall step :: w.step(step).preparing.Prepared? && w.step(step).fate.Lands?
    ensures !Series(log, id, revoke, n, w).Throws?
    decreases n
  {
    if n == 0 {
    } else {
      FavourableSeries(log, id, revoke, n - 1, w);
    }
  }

  // Where every expectation of the code is met and transactions only ever land, successfully or not,
  // every pending request ends, from wherever earlier calls left it.
  lemma FavourableEnds(s: Store, id: Id, w: Answers)
    requires IsPending(s, id) && Favourable(w)
    ensures Endable(s, id, w)
  {
    var a := s.requests[id];
    FavourableSeries(s.log, id, false, Approvals(a.request.action), w);
    FavourableSeries(s.log, id, true, |ActiveOf(a.before).tokens|, w);
    hide Series, ActiveOf;
  }

  // A confirmed ship or rebalance whose strategy is not fully active: never, while it is not.
  lemma InactiveMoveNeverEnds(s: Store, id: Id, w: Answers)
    requires Inv(s) && IsPending(s, id) && s.requests[id].riskStop.None? && Succeeded(s.log, PrimaryOf(id)) && !w.live
    requires s.requests[id].request.action.Ship? || s.requests[id].request.action.Rebalance?
    ensures !Endable(s, id, w)
  {
    assert AttemptOk(s, id);
    ApprovedSeries(s.log, id, Approvals(s.requests[id].request.action), w);
    hide Series, Inv, Approved, Placed, Truthful;
  }

  // An unsigned ship whose strategy is already on the chain: exactly once its deadline has passed.
  lemma OccupiedShipEndsAtDeadline(s: Store, id: Id, w: Answers)
    requires IsPending(s, id) && s.requests[id].riskStop.None? && s.requests[id].request.action.Ship?
    requires PrimaryOf(id) !in s.log.txs && w.onChain && w.audited
    ensures Endable(s, id, w) <==> s.requests[id].request.action.strategy.deadline <= w.checkedAt
  {
  }

  // An unsigned swap whose preparation throws, as for a Maker who cannot cover it: only if the risk or
  // the taker's approval ends it first.
  lemma UncoveredSwapNeverEnds(s: Store, id: Id, w: Answers)
    requires IsPending(s, id) && s.requests[id].riskStop.None? && s.requests[id].request.action.Swap?
    requires PrimaryOf(id) !in s.log.txs && w.step(Primary).preparing.Unprepared? && w.audited
    ensures Endable(s, id, w)
            <==> if w.first.Within? then StepOfCall(s.log, id, TakerApprove, w).Reverts?
                 else GuardEnds(s.log, id, w.first, w)
  {
  }

  // A signed transaction without a receipt whose nonce was consumed outside: never.
  lemma ConsumedNonceNeverEnds(s: Store, id: Id, w: Answers)
    requires Inv(s) && IsPending(s, id) && s.requests[id].riskStop.None? && PrimaryOf(id) in s.log.txs
    requires s.log.txs[PrimaryOf(id)].receipt.None? && w.step(Primary).fate.Consumed?
    requires s.requests[id].request.action.Swap? ==> StepOfCall(s.log, id, TakerApprove, w).Succeeds?
    ensures !Endable(s, id, w)
  {
    assert AttemptOk(s, id);
    if s.requests[id].request.action.Ship? || s.requests[id].request.action.Rebalance? {
      ApprovedSeries(s.log, id, Approvals(s.requests[id].request.action), w);
    }
    assert IsOwn(s.requests[id], Primary, s.log.txs[PrimaryOf(id)]);
    hide Series, Inv, Approved, Placed, Truthful;
  }

  // A risk that cannot be read before an unsigned rebalance or swap, or at the end of a confirmed ship,
  // rebalance or swap: never, while it cannot.
  lemma UnreadableRiskNeverEnds(s: Store, id: Id, w: Answers)
    requires Inv(s) && IsPending(s, id) && s.requests[id].riskStop.None? && Trades(s.requests[id].request.action)
    requires if Succeeded(s.log, PrimaryOf(id)) then w.last.Unreadable?
             else !s.requests[id].request.action.Ship? && PrimaryOf(id) !in s.log.txs && w.first.Unreadable?
    ensures !Endable(s, id, w)
  {
    assert AttemptOk(s, id);
    if Succeeded(s.log, PrimaryOf(id)) {
      ApprovedSeries(s.log, id, Approvals(s.requests[id].request.action), w);
    }
    hide Series, Inv, Approved, Placed, Truthful;
  }

  // A risk stop whose dock lands but is not seen docked, or is already seen as docked and then not:
  // never, while it is so.
  lemma UnsettledRiskNeverEnds(s: Store, id: Id, w: Answers)
    requires IsPending(s, id) && s.requests[id].riskStop.Some? && !w.riskSettled
    requires TxKey(id, RiskDock) in s.log.txs || !w.riskDocked ==> !StepOfCall(s.log, id, RiskDock, w).Reverts?
    ensures !Endable(s, id, w)
  {
  }
}
