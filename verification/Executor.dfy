// The controller's code: each method performs only enabled effects, so whatever the chain answers
// and wherever the process stops, the store it leaves is one a run can reach.
module Executor {
  import opened Wrappers
  import opened Journal
  import opened Controller
  import opened ControllerRuns
  import opened Endings

  // How executeRequest ends: with a result, refused before anything was stored, or with any other
  // error or a crash, after which the request can be resumed.
  datatype Execution = Done(conclusion: Conclusion) | Refused(error: string) | Broken

  const RISK_REVERTED := "risk-dock reverted on-chain"
  const REVOKE_REVERTED := "maker-revoke reverted on-chain"
  const EXPIRED := "strategy deadline has expired; signed transactions will not be changed"
  const SWAP_REJECTED := "swap reverted on-chain"

  // A pending ship or rebalance whose transaction is confirmed, with no risk stop stored.
  predicate IsConfirmedMove(s: Store, id: Id) {
    && IsPending(s, id) && (s.requests[id].request.action.Ship? || s.requests[id].request.action.Rebalance?)
    && s.requests[id].riskStop.None? && Succeeded(s.log, PrimaryOf(id))
  }

  class ExecutionController {
    var requests: map<Id, Attempt>
    var sessions: map<Id, Session>
    const sender: DurableSender

    ghost function State(): Store
      reads this, sender
    {
      Store(requests, sessions, sender.State())
    }

    ghost predicate Ready(id: Id)
      reads this, sender
    {
      Inv(State()) && IsPending(State(), id)
    }

    constructor ()
      ensures State() == EmptyStore() && fresh(sender)
    {
      requests, sessions := map[], map[];
      sender := new DurableSender();
    }

    // ---- single effects --------------------------------------------------------------------------

    method SaveRiskStop(id: Id, observed: Strategy)
      requires Ready(id) && Enabled(State(), StopForRisk(id, observed))
      modifies this
      ensures State() == Apply(old(State()), StopForRisk(id, observed))
    {
      requests := requests[id := requests[id].(riskStop := Some(observed))];
    }

    method SaveActive(id: Id)
      requires Ready(id) && Enabled(State(), Controller.Activate(id))
      modifies this
      ensures State() == Apply(old(State()), Controller.Activate(id))
    {
      var sid := requests[id].request.session;
      sessions := sessions[sid := sessions[sid].(status := Active)];
    }

    method SaveRebalance(id: Id)
      requires Ready(id) && Enabled(State(), Append(id))
      modifies this
      ensures State() == Apply(old(State()), Append(id))
    {
      var sid := requests[id].request.session;
      var plan := sessions[sid].plan;
      var entry := Rebalanced(requests[id].request.action.next, sender.txs[PrimaryOf(id)].hash);
      sessions := sessions[sid := sessions[sid].(plan := plan.(rebalances := plan.rebalances + [entry]))];
    }

    method CloseSession(id: Id, cause: Cause)
      requires Ready(id) && Enabled(State(), Controller.Close(id, cause))
      modifies this
      ensures State() == Apply(old(State()), Controller.Close(id, cause))
    {
      var sid := requests[id].request.session;
      sessions := sessions[sid := ClosedSession(sessions[sid], Closing(id, cause))];
    }

    // finish: the result is stored once, with the plan as it stands.
    method Conclude(id: Id, outcome: string, failed: bool) returns (r: Execution)
      requires Ready(id) && Carried(State(), id) && Truthful(State(), id, outcome, failed)
      modifies this
      ensures Reaches(old(State()), State()) && sessions == old(sessions) && State().log == old(State()).log
      ensures r.Done? && Ended(id, r) && r.conclusion.outcome == outcome && r.conclusion.failed == failed
    {
      ReachesOneStep(State(), Finish(id, outcome, failed));
      FinishingIsTrue(State(), id, outcome, failed);
      hide Inv, Carried, Reaches, Truthful;
      var conclusion := Conclusion(failed, outcome, sessions[requests[id].request.session].plan);
      requests := requests[id := requests[id].(result := Some(conclusion))];
      assert State() == Apply(old(State()), Finish(id, outcome, failed));
      return Done(conclusion);
    }

    // ---- transactions ------------------------------------------------------------------------------

    predicate Signed(id: Id, step: Step)
      reads this, sender
    {
      TxKey(id, step) in sender.txs
    }

    // send of the durable sender, for one step of this request.
    method SendStep(id: Id, step: Step, account: string, action: string, strategyHash: string, w: Answers)
        returns (r: Sending)
      requires Ready(id) && Args(requests[id], step) == Some(TxArgs(account, action, strategyHash))
      requires step.Primary? && !Signed(id, step)
               ==> Cleared(State().log, id, requests[id].request.action) && requests[id].riskStop.None?
      modifies sender
      ensures Ready(id) && Reaches(old(State()), State()) && Evolves(old(State()), State())
      ensures r.Confirmed? ==> Succeeded(State().log, TxKey(id, step))
                               && r.receipt.hash == sender.txs[TxKey(id, step)].hash
      ensures r.Reverted? ==> !Succeeded(State().log, TxKey(id, step)) && !Succeeded(old(State()).log, TxKey(id, step))
      ensures r.Reverted? && step != Primary ==> (Signed(id, Primary) <==> old(Signed(id, Primary)))
      ensures step != Primary ==> (Signed(id, Primary) <==> old(Signed(id, Primary)))
                                  && (Succeeded(State().log, PrimaryOf(id))
                                     <==> Succeeded(old(State()).log, PrimaryOf(id)))
      ensures SameBut(old(State()).log, State().log, TxKey(id, step))
      ensures w.calm ==> EndsAs(r, StepOfCall(old(State()).log, id, step, w))
    {
      OwnMatches(State(), id, step, TxArgs(account, action, strategyHash));
      hide Inv, Cleared, WriteAll, Reaches, Evolves, Args, StepEnds;
      ghost var entries;
      r, entries := sender.Send(TxKey(id, step), account, action, strategyHash, w.calm, w.step(step));
      EntriesAreEffects(old(State()), id, entries);
      assert State() == old(State()).(log := WriteAll(old(State()).log, entries));
      ReachedKeeps(old(State()), State());
      EntriesAreLocal(old(State()).log, entries, TxKey(id, step), PrimaryOf(id));
      OthersStay(old(State()).log, entries, TxKey(id, step));
    }

    // ---- risk ----------------------------------------------------------------------------------------

    // A result is stored, and true.
    ghost predicate Ended(id: Id, r: Execution)
      reads this, sender
    {
      r.Done? ==>
        && id in requests && requests[id].result == Some(r.conclusion) && requests[id].request.session in sessions
        && Truthful(State(), id, r.conclusion.outcome, r.conclusion.failed)
    }

    // settleRisk: recover or send the dock, close the session, finish. An interrupted run leaves the
    // risk stop stored, so the next one comes back here.
    method SettleRisk(id: Id, w: Answers) returns (r: Execution)
      requires Ready(id) && requests[id].riskStop.Some?
      modifies this, sender
      ensures Inv(State()) && Reaches(old(State()), State()) && Ended(id, r) && !r.Refused?
      ensures r.Done? ==> if r.conclusion.failed then r.conclusion.outcome == RISK_REVERTED
                          else r.conclusion.outcome == RISK_DOCKED
      ensures r.Broken? ==> IsPending(State(), id) && requests[id].riskStop.Some?
      ensures w.calm ==> (r.Done? <==> RiskEnds(old(State()).log, id, w))
    {
      hide Inv, Carried, NothingInFlight, Reaches, Evolves, Apply, Truthful, StepEnds;
      ReachesItself(State());
      var cause, stops := SeenDocked, false;
      if Signed(id, RiskDock) || !w.riskDocked {
        var sent := SendStep(id, RiskDock, MAKER, "risk-dock", requests[id].riskStop.value.hash, w);
        if sent.Interrupted? {
          return Broken;
        }
        if sent.Reverted? {
          RiskStopIsCarried(State(), id);
          FailureIsTrue(State(), id, RISK_REVERTED);
          label Rejected:
          r := Conclude(id, RISK_REVERTED, true);
          Onward(old(State()), old@Rejected(State()), State());
          return;
        }
        cause := ByRiskDock;
      }
      stops := sender.Stops(w.calm);
      if stops || !w.riskSettled {
        return Broken;
      }
      RiskStopIsCarried(State(), id);
      CloseFor(id, cause, old(State()));
      stops := sender.Stops(w.calm);
      if stops {
        return Broken;
      }
      RiskStopIsCarried(State(), id);
      RiskDockIsTrue(State(), id, cause);
      label Closing:
      r := Conclude(id, RISK_DOCKED, false);
      Onward(old(State()), old@Closing(State()), State());
    }

    // Close the session as one more effect of a run that began in `before`.
    method CloseFor(id: Id, cause: Cause, ghost before: Store)
      requires Ready(id) && Enabled(State(), Controller.Close(id, cause)) && Inv(before) && Reaches(before, State())
      modifies this
      ensures Ready(id) && Reaches(before, State()) && requests == old(requests) && State().log == old(State()).log
      ensures ClosedFor(State(), id, cause) && (Carried(old(State()), id) ==> Carried(State(), id))
    {
      hide Inv, Carried, Reaches, Evolves, Apply, MayClose;
      ReachesOneStep(State(), Controller.Close(id, cause));
      CloseSession(id, cause);
      ClosingKeepsPending(old(State()), id, cause);
      Onward(before, old(State()), State());
    }

    // guard: observe the risk; go on, or end the request here.
    method Guard(id: Id, observed: Strategy, seen: Observation, w: Answers) returns (stopped: Option<Execution>)
      requires Ready(id) && requests[id].riskStop.None? && Carried(State(), id) && NothingInFlight(State(), id)
               && !requests[id].request.action.Dock?
      modifies this, sender
      ensures stopped.None? ==> State() == old(State()) && seen.Within?
      ensures Inv(State()) && Reaches(old(State()), State())
              && (stopped.Some? ==> Ended(id, stopped.value) && !stopped.value.Refused?)
      ensures stopped.Some? && stopped.value.Done? ==> StoppedAs(stopped.value.conclusion)
      ensures stopped.Some? && stopped.value.Broken? ==> IsPending(State(), id)
      ensures w.calm ==> (stopped.None? <==> seen.Within?)
      ensures w.calm && stopped.Some? ==> (stopped.value.Done? <==> GuardEnds(old(State()).log, id, seen, w))
    {
      hide Inv, Carried, NothingInFlight, Reaches, Evolves, Apply, Truthful, RiskEnds;
      ReachesItself(State());
      var stops := sender.Stops(w.calm);
      if stops || seen.Unreadable? {
        return Some(Broken);
      }
      if seen.AlreadyDocked? {
        // Already docked on chain.
        CloseFor(id, SeenDocked, old(State()));
        stops := sender.Stops(w.calm);
        if stops {
          return Some(Broken);
        }
        SeenDockIsTrue(State(), id);
        label Closing:
        var r := Conclude(id, ALREADY_DOCKED, false);
        Onward(old(State()), old@Closing(State()), State());
        return Some(r);
      }
      if seen.Breached? {
        // The loss limit is breached: the observation is stored before any dock is prepared.
        ReachesOneStep(State(), StopForRisk(id, observed));
        SaveRiskStop(id, observed);
        StoppingKeepsPending(old(State()), id, observed);
        Onward(old(State()), old(State()), State());
        stops := sender.Stops(w.calm);
        if stops {
          return Some(Broken);
        }
        label Stopping:
        var r := SettleRisk(id, w);
        Onward(old(State()), old@Stopping(State()), State());
        return Some(r);
      }
      return None;
    }

    predicate StoppedAs(c: Conclusion) {
      if c.failed then c.outcome == RISK_REVERTED else c.outcome == ALREADY_DOCKED || c.outcome == RISK_DOCKED
    }

    // ---- the maker's approvals -------------------------------------------------------------------------

    // Confirmed: all approvals succeeded. Reverted: one was rejected, so the primary was never signed.
    method ApproveMaker(id: Id, strategy: Strategy, w: Answers) returns (go: bool, rejected: bool)
      requires Ready(id) && Approvals(requests[id].request.action) == |strategy.tokens|
      requires Args(requests[id], MakerApprove(0)) == Some(TxArgs(MAKER, "maker-approve", strategy.hash))
      modifies sender
      ensures Ready(id) && Reaches(old(State()), State()) && (Signed(id, Primary) <==> old(Signed(id, Primary)))
      ensures Succeeded(State().log, PrimaryOf(id)) <==> old(Succeeded(State().log, PrimaryOf(id)))
      ensures go ==> Approved(State().log, id, |strategy.tokens|)
      ensures !go && rejected ==> !Signed(id, Primary)
      ensures forall k: TxKey :: !k.step.MakerApprove? ==> SameTx(old(State()).log, State().log, k)
      ensures w.calm ==>
                var ending := Series(old(State()).log, id, false, |strategy.tokens|, w);
                (go <==> ending.Succeeds?) && (!go ==> (rejected <==> ending.Reverts?))
    {
      hide Inv, Approved, Reaches, Evolves, StepEnds, Args, SameTx;
      ReachesItself(State());
      NoneApproved(State().log, id);
      AllStay(State().log);
      for i := 0 to |strategy.tokens|
        invariant Ready(id) && Reaches(old(State()), State()) && (Signed(id, Primary) <==> old(Signed(id, Primary)))
        invariant Approved(State().log, id, i) && (Succeeded(State().log, PrimaryOf(id))
                  <==> old(Succeeded(State().log, PrimaryOf(id))))
        invariant forall k :: !InSeries(k, id, false, i) ==> SameTx(old(State()).log, State().log, k)
        invariant w.calm ==> Series(old(State()).log, id, false, i, w).Succeeds?
      {
        label Before:
        SignedIsApproved(State(), id, i);
        ApprovalArgs(requests[id], i);
        SameTxEndsSame(old(State()).log, State().log, TxKey(id, MakerApprove(i)), w.step(MakerApprove(i)));
        var sent := SendStep(id, MakerApprove(i), MAKER, "maker-approve", strategy.hash, w);
        Onward(old(State()), old@Before(State()), State());
        SeriesGoesOn(old(State()).log, old@Before(State()).log, State().log, id, false, i);
        if !sent.Confirmed? {
          if w.calm {
            SeriesStops(old(State()).log, id, false, i + 1, |strategy.tokens|, w);
          }
          return false, sent.Reverted?;
        }
        OneMoreApproved(old@Before(State()), State(), id, i);
      }
      return true, false;
    }

    // The approvals and then the ship or rebalance itself.
    method Move(id: Id, s: Strategy, action: string, reverted: string, w: Answers)
        returns (ending: StepEnding, error: string, hash: TxHash)
      requires Ready(id) && requests[id].riskStop.None? && Approvals(requests[id].request.action) == |s.tokens|
      requires requests[id].request.action.Ship? || requests[id].request.action.Rebalance?
      requires Args(requests[id], MakerApprove(0)) == Some(TxArgs(MAKER, "maker-approve", s.hash))
      requires Args(requests[id], Primary) == Some(TxArgs(MAKER, action, s.hash)) && reverted !in COMPLETIONS
      modifies sender
      ensures Ready(id) && Reaches(old(State()), State()) && error !in COMPLETIONS
      ensures ending.Succeeds? ==> Succeeded(State().log, PrimaryOf(id)) && hash == sender.txs[PrimaryOf(id)].hash
      ensures ending.Reverts? ==> !Succeeded(State().log, PrimaryOf(id)) && !Succeeded(old(State()).log, PrimaryOf(id))
      ensures forall seen :: GuardEnds(State().log, id, seen, w) == GuardEnds(old(State()).log, id, seen, w)
      ensures w.calm ==>
                var before := Series(old(State()).log, id, false, |s.tokens|, w);
                ending == if before.Succeeds? then StepOfCall(old(State()).log, id, Primary, w) else before
    {
      hide Inv, Approved, Cleared, Reaches, Evolves, Succeeded, StepEnds, Series, GuardEnds, SameTx, Args;
      SuccessIsSigned(State(), id);
      error, hash := reverted, TxHash("");
      AllStay(State().log);
      var go, rejected := ApproveMaker(id, s, w);
      label Approving:
      RiskStaysBy(old(State()).log, State().log, id, w);
      SuccessIsSigned(State(), id);
      if !go {
        return if rejected then Reverts else Throws, "maker-approve reverted on-chain", hash;
      }
      ShipIsCleared(State(), id);
      SameTxEndsSame(old(State()).log, State().log, PrimaryOf(id), w.step(Primary));
      var sent := SendStep(id, Primary, MAKER, action, s.hash, w);
      Onward(old(State()), old@Approving(State()), State());
      RiskStays(old(State()).log, old@Approving(State()).log, State().log, id, w);
      if sent.Confirmed? {
        return Succeeds, error, sent.receipt.hash;
      }
      return if sent.Reverted? then Reverts else Throws, error, hash;
    }

    // ---- the five actions ------------------------------------------------------------------------------

    // The session is active only once the ship transaction is confirmed; "shipped" is stored with the
    // session active, a failure with nothing shipped.
    method RunShip(id: Id, w: Answers) returns (r: Execution)
      requires Ready(id) && requests[id].request.action.Ship? && requests[id].riskStop.None?
      modifies this, sender
      ensures Inv(State()) && Reaches(old(State()), State()) && Ended(id, r) && !r.Refused?
      ensures r.Done? && r.conclusion.outcome == SHIPPED ==>
                Succeeded(State().log, PrimaryOf(id)) && sessions[requests[id].request.session].status.Active?
      ensures r.Done? && r.conclusion.failed ==> r.conclusion.outcome == RISK_REVERTED
                                                 || !Succeeded(State().log, PrimaryOf(id))
      ensures !w.live && old(Succeeded(State().log, PrimaryOf(id))) ==> StuckAt(id, r) && requests == old(requests)
      ensures r.Broken? ==> IsPending(State(), id)
      ensures w.calm ==> (r.Done? <==> ShipEnds(old(State()).log, id, old(requests[id].request.action.strategy), w))
    {
      hide Inv, Approved, Cleared, Reaches, Evolves, Apply, Truthful, Carried, NothingInFlight, Succeeded, StepEnds,
          Series, GuardEnds, SameTx;
      SuccessIsSigned(State(), id);
      var s := requests[id].request.action.strategy;
      var stops;
      ReachesItself(State());
      if !Signed(id, Primary) {
        if s.deadline <= w.checkedAt {
          UnsignedFails(State(), id, EXPIRED);
          r := Conclude(id, EXPIRED, true);
          Onward(old(State()), old(State()), State());
          return;
        }
        stops := sender.Stops(w.calm);
        if stops || w.onChain {
          return Broken;
        }
      }
      var ending, error, _ := Move(id, s, "ship", "ship reverted on-chain", w);
      if ending.Throws? {
        return Broken;
      }
      label Sent:
      if ending.Reverts? {
        UnsuccessfulFails(State(), id, error);
        r := Conclude(id, error, true);
        Onward(old(State()), old@Sent(State()), State());
        return;
      }
      stops := sender.Stops(w.calm);
      if stops || !w.live {
        return Broken;
      }
      MayActivate(State(), id);
      ReachesOneStep(State(), Controller.Activate(id));
      SaveActive(id);
      ActivatingKeepsPending(old@Sent(State()), id);
      Onward(old(State()), old@Sent(State()), State());
      ShipIsTrue(State(), id);
      r := Watched(id, s, SHIPPED, old(State()), w);
      WorkKeepsRequest(old(State()), State(), id);
    }

    // `return await guard(s) ?? finish(outcome)`.
    method Watched(id: Id, observed: Strategy, outcome: string, ghost before: Store, w: Answers) returns (r: Execution)
      requires Ready(id) && requests[id].riskStop.None? && Carried(State(), id) && NothingInFlight(State(), id)
      requires Inv(before) && Reaches(before, State()) && !requests[id].request.action.Dock?
      requires Truthful(State(), id, outcome, false) && outcome in [SHIPPED, REBALANCED, SWAPPED, WITHIN_LIMIT]
      modifies this, sender
      ensures Inv(State()) && Reaches(before, State()) && Ended(id, r) && !r.Refused?
      ensures r.Done? ==> StoppedAs(r.conclusion)
                          || (r.conclusion.outcome == outcome && !r.conclusion.failed && sessions == old(sessions)
                             && State().log == old(State()).log)
      ensures r.Broken? ==> IsPending(State(), id)
      ensures w.calm ==> (r.Done? <==> GuardEnds(old(State()).log, id, w.last, w))
    {
      hide Inv, Carried, NothingInFlight, Reaches, Evolves, Apply, Truthful, RiskEnds;
      var stopped := Guard(id, observed, w.last, w);
      Onward(before, old(State()), State());
      if stopped.Some? {
        return stopped.value;
      }
      var stops := sender.Stops(w.calm);
      if stops {
        return Broken;
      }
      label Watching:
      r := Conclude(id, outcome, false);
      Onward(before, old@Watching(State()), State());
    }

    method RunRebalance(id: Id, w: Answers) returns (r: Execution)
      requires Ready(id) && requests[id].request.action.Rebalance? && requests[id].riskStop.None?
      modifies this, sender
      ensures Inv(State()) && Reaches(old(State()), State()) && Ended(id, r) && !r.Refused?
      ensures r.Done? && r.conclusion.outcome == REBALANCED
              ==> Succeeded(State().log, PrimaryOf(id)) && Carried(State(), id)
      ensures r.Done? && r.conclusion.failed ==> r.conclusion.outcome == RISK_REVERTED
                                                 || !Succeeded(State().log, PrimaryOf(id))
      ensures !w.live && old(Succeeded(State().log, PrimaryOf(id))) ==> StuckAt(id, r) && requests == old(requests)
      ensures r.Broken? ==> IsPending(State(), id)
      ensures w.calm ==> (r.Done? <==> RebalanceEnds(old(State()).log, id, old(requests[id].request.action.next), w))
    {
      hide Inv, Approved, Cleared, Reaches, Evolves, Apply, ActiveOf, Truthful, Carried, NothingInFlight, Succeeded,
          StepEnds, Series, GuardEnds, SameTx;
      SuccessIsSigned(State(), id);
      var s, active := requests[id].request.action.next, ActiveOf(requests[id].before);
      ReachesItself(State());
      if !Signed(id, Primary) {
        UnsignedIsIdle(State(), id);
        var stopped := Guard(id, active, w.first, w);
        if stopped.Some? {
          return stopped.value;
        }
        if s.deadline <= w.checkedAt {
          UnsignedFails(State(), id, EXPIRED);
          r := Conclude(id, EXPIRED, true);
          Onward(old(State()), old(State()), State());
          return;
        }
      }
      var ending, error, hash := Move(id, s, "rebalance", "rebalance reverted on-chain", w);
      if ending.Throws? {
        return Broken;
      }
      label Sent:
      if ending.Reverts? {
        UnsuccessfulFails(State(), id, error);
        r := Conclude(id, error, true);
        Onward(old(State()), old@Sent(State()), State());
        return;
      }
      SuccessIsNotInFlight(State(), id);
      var recovered := Follow(id, active, s, hash, w);
      Onward(old(State()), old@Sent(State()), State());
      if !recovered || !w.live {
        return Broken;
      }
      SuccessIsNotInFlight(State(), id);
      RebalanceIsTrue(State(), id);
      label Followed:
      r := Watched(id, s, REBALANCED, old(State()), w);
      WorkKeepsRequest(old(State()), State(), id);
      if r.Done? && r.conclusion.outcome == REBALANCED {
        CarriedLasts(old@Followed(State()), State(), id);
      }
    }

    // Append the rebalance to the plan, unless a run before a crash has done so.
    method Follow(id: Id, before: Strategy, s: Strategy, hash: TxHash, w: Answers) returns (ok: bool)
      requires Ready(id) && requests[id].request.action.Rebalance? && requests[id].riskStop.None?
               && Succeeded(State().log, PrimaryOf(id)) && hash == sender.txs[PrimaryOf(id)].hash
      requires before == ActiveOf(requests[id].before) && s == requests[id].request.action.next
      modifies this
      ensures Ready(id) && Reaches(old(State()), State()) && requests == old(requests)
              && State().log == old(State()).log
      ensures ok ==> Carried(State(), id)
      ensures w.calm ==> ok
    {
      hide Inv, Approved, Reaches, Evolves, Apply, ActiveOf, Carried;
      ReachesItself(State());
      var plan := sessions[requests[id].request.session].plan;
      if ActiveOf(plan).hash == before.hash {
        ReachesOneStep(State(), Append(id));
        AppendingCarries(State(), id);
        SaveRebalance(id);
        var stops := sender.Stops(w.calm);
        return !stops;
      }
      MovedIsCarried(State(), id);
      if ActiveOf(plan).hash != s.hash || plan.rebalances == []
          || plan.rebalances[|plan.rebalances| - 1].txHash != hash {
        CarriedIsLast(State(), id);
        return false;
      }
      return true;
    }

    method RunSwap(id: Id, w: Answers) returns (r: Execution)
      requires Ready(id) && requests[id].request.action.Swap? && requests[id].riskStop.None?
      modifies this, sender
      ensures Inv(State()) && Reaches(old(State()), State()) && Ended(id, r) && !r.Refused?
      ensures r.Done? && r.conclusion.outcome == SWAPPED ==> Succeeded(State().log, PrimaryOf(id))
      ensures r.Done? && r.conclusion.failed ==> r.conclusion.outcome == RISK_REVERTED
                                                 || !Succeeded(State().log, PrimaryOf(id))
      ensures r.Broken? ==> IsPending(State(), id)
      ensures w.calm ==> (r.Done? <==> SwapEnds(old(State()).log, id, w))
    {
      hide Inv, Approved, Cleared, Reaches, Evolves, Apply, ActiveOf, Truthful, Succeeded, StepEnds, GuardEnds;
      var active := ActiveOf(requests[id].before);
      ReachesItself(State());
      if !Signed(id, Primary) {
        var stopped := Guard(id, active, w.first, w);
        if stopped.Some? {
          return stopped.value;
        }
      }
      var sent := SendStep(id, TakerApprove, TAKER, "taker-approve", active.hash, w);
      if sent.Interrupted? {
        return Broken;
      }
      label Approved:
      if sent.Reverted? {
        UnapprovedSwapFails(State(), id, SWAP_REJECTED);
        r := Conclude(id, SWAP_REJECTED, true);
        Onward(old(State()), old@Approved(State()), State());
        return;
      }
      SwapIsCleared(State(), id);
      SameTxEndsSame(old(State()).log, State().log, PrimaryOf(id), w.step(Primary));
      sent := SendStep(id, Primary, TAKER, "swap", active.hash, w);
      Onward(old(State()), old@Approved(State()), State());
      RiskStays(old(State()).log, old@Approved(State()).log, State().log, id, w);
      if sent.Interrupted? {
        return Broken;
      }
      label Sent:
      if sent.Reverted? {
        UnsuccessfulFails(State(), id, SWAP_REJECTED);
        r := Conclude(id, SWAP_REJECTED, true);
        Onward(old(State()), old@Sent(State()), State());
        return;
      }
      SwapIsTrue(State(), id);
      r := Watched(id, active, SWAPPED, old(State()), w);
    }

    // A failed observation ends a monitor request, and is still thrown.
    method RunWatch(id: Id, w: Answers) returns (r: Execution)
      requires Ready(id) && requests[id].request.action.Watch? && requests[id].riskStop.None?
      modifies this, sender
      ensures Inv(State()) && Reaches(old(State()), State()) && Ended(id, r) && !r.Refused?
      ensures r.Done? ==> (r.conclusion.outcome == WITHIN_LIMIT && !r.conclusion.failed && sessions == old(sessions))
                          || StoppedAs(r.conclusion)
      ensures w.calm ==> (HasEnded(id) <==> WatchEnds(old(State()).log, id, w))
    {
      hide Inv, Reaches, Evolves, Apply, ActiveOf, GuardEnds;
      ReachesItself(State());
      var stops := sender.Stops(w.calm);
      if stops {
        return Broken;
      }
      if w.last == Unreadable(true) {
        r := Conclude(id, "price-or-chain-data-unavailable", true);
        Onward(old(State()), old(State()), State());
        return Broken;
      }
      r := Watched(id, ActiveOf(requests[id].before), WITHIN_LIMIT, old(State()), w);
    }

    // The session is closed only after this request's dock succeeded, on seeing the strategy docked
    // with none of its own signed, or for a strategy that was never shipped.
    method RunDock(id: Id, w: Answers) returns (r: Execution)
      requires Ready(id) && requests[id].request.action.Dock? && requests[id].riskStop.None?
      modifies this, sender
      ensures Inv(State()) && Reaches(old(State()), State()) && Ended(id, r) && !r.Refused?
      ensures r.Done? && r.conclusion.outcome == DOCKED
              ==> ClosedFor(State(), id, ByDock) || ClosedFor(State(), id, SeenDocked)
      ensures r.Done? && r.conclusion.outcome == NOT_SHIPPED ==> ClosedFor(State(), id, NeverShipped)
      ensures r.Done? && !r.conclusion.failed ==> r.conclusion.outcome == DOCKED || r.conclusion.outcome == NOT_SHIPPED
      ensures r.Broken? ==> IsPending(State(), id)
      ensures w.calm ==>
                var a := old(requests[id]);
                r.Done? <==> DockEnds(old(State()), id, |ActiveOf(a.before).tokens|, a.request.action.revoke, w)
    {
      hide Inv, Reaches, Evolves, Apply, ActiveOf, Truthful, Succeeded, StepEnds, Series, SameTx;
      var active, revoke := ActiveOf(requests[id].before), requests[id].request.action.revoke;
      ReachesItself(State());
      var neverShipped := requests[id].beforeStatus.Starting? && w.untouched && !Signed(id, Primary);
      var cause, stops := if neverShipped then NeverShipped else SeenDocked, false;
      if !neverShipped && (Signed(id, Primary) || !w.docked) {
        var sent := SendDock(id, active, w);
        if sent.Interrupted? {
          return Broken;
        }
        if sent.Reverted? {
          DockFails(State(), id, "dock reverted on-chain");
          label Rejected:
          r := Conclude(id, "dock reverted on-chain", true);
          TruthOfDock(State(), id, r.conclusion.outcome, r.conclusion.failed);
          Onward(old(State()), old@Rejected(State()), State());
          return;
        }
        cause := ByDock;
      }
      stops := sender.Stops(w.calm);
      if stops || !w.dockSettled {
        return Broken;
      }
      r := FinishDock(id, active, cause, old(State()), w);
      if r.Done? {
        TruthOfDock(State(), id, r.conclusion.outcome, r.conclusion.failed);
      }
    }

    // Close the session, revoke the allowances if asked to, finish.
    method FinishDock(id: Id, active: Strategy, cause: Cause, ghost before: Store, w: Answers) returns (r: Execution)
      requires Ready(id) && requests[id].request.action.Dock? && active == ActiveOf(requests[id].before)
      requires Enabled(State(), Controller.Close(id, cause)) && cause != ByRiskDock
      requires Inv(before) && Reaches(before, State())
      modifies this, sender
      ensures Inv(State()) && Reaches(before, State()) && Ended(id, r) && !r.Refused?
      ensures r.Done? && !r.conclusion.failed ==> r.conclusion.outcome == DOCKED || r.conclusion.outcome == NOT_SHIPPED
      ensures r.Broken? ==> IsPending(State(), id)
      ensures w.calm ==>
                var revoke := old(requests[id]).request.action.revoke;
                r.Done? <==> (revoke ==> !Series(old(State()).log, id, true, |active.tokens|, w).Throws?)
    {
      RevokeErrorIsError();
      hide Inv, Reaches, Evolves, Apply, ActiveOf, Truthful, Succeeded, StepEnds, Series, SameTx, Carried, ClosedFor,
          MayClose, COMPLETIONS, REVOKE_REVERTED;
      CloseFor(id, cause, before);
      var stops := sender.Stops(w.calm);
      if stops {
        return Broken;
      }
      if requests[id].request.action.revoke {
        label Closed:
        var ending := Revoke(id, active, cause, w);
        Onward(before, old@Closed(State()), State());
        if ending.Throws? {
          return Broken;
        }
        if ending.Reverts? {
          DockFails(State(), id, REVOKE_REVERTED);
          label Rejected:
          r := Conclude(id, REVOKE_REVERTED, true);
          Onward(before, old@Rejected(State()), State());
          return;
        }
      }
      DockIsTrue(State(), id, cause, cause == NeverShipped);
      label Closing:
      r := Conclude(id, if cause == NeverShipped then NOT_SHIPPED else DOCKED, false);
      Onward(before, old@Closing(State()), State());
    }

    // The dock itself, which leaves the revocations as they were.
    method SendDock(id: Id, active: Strategy, w: Answers) returns (r: Sending)
      requires Ready(id) && requests[id].request.action.Dock? && requests[id].riskStop.None?
      requires active == ActiveOf(requests[id].before)
      modifies sender
      ensures Ready(id) && Reaches(old(State()), State())
      ensures r.Confirmed? ==> Succeeded(State().log, PrimaryOf(id))
      ensures w.calm ==> EndsAs(r, StepOfCall(old(State()).log, id, Primary, w))
      ensures forall n: nat :: Series(State().log, id, true, n, w) == Series(old(State()).log, id, true, n, w)
    {
      hide Inv, Reaches, Evolves, ActiveOf, Succeeded, StepEnds, Series, SameTx;
      NeedsNoApproval(State(), id);
      r := SendStep(id, Primary, MAKER, "dock", active.hash, w);
      forall n: nat ensures Series(State().log, id, true, n, w) == Series(old(State()).log, id, true, n, w) {
        RevokesStay(old(State()).log, State().log, id, n, w);
      }
    }

    // Set the allowances to zero, one token after another.
    method Revoke(id: Id, active: Strategy, ghost cause: Cause, w: Answers) returns (ending: StepEnding)
      requires Ready(id) && requests[id].request.action.Dock? && ClosedFor(State(), id, cause)
      requires active == ActiveOf(requests[id].before)
      modifies sender
      ensures Ready(id) && Reaches(old(State()), State()) && ClosedFor(State(), id, cause)
      ensures w.calm ==> ending == Series(old(State()).log, id, true, |active.tokens|, w)
    {
      hide Inv, Reaches, Evolves, ActiveOf, StepEnds, SameTx;
      ReachesItself(State());
      AllStay(State().log);
      for i := 0 to |active.tokens|
        invariant Ready(id) && Reaches(old(State()), State())
        invariant forall k :: !InSeries(k, id, true, i) ==> SameTx(old(State()).log, State().log, k)
        invariant w.calm ==> Series(old(State()).log, id, true, i, w).Succeeds?
      {
        label Before:
        SameTxEndsSame(old(State()).log, State().log, TxKey(id, MakerRevoke(i)), w.step(MakerRevoke(i)));
        var sent := SendStep(id, MakerRevoke(i), MAKER, "maker-revoke", active.hash, w);
        Onward(old(State()), old@Before(State()), State());
        SeriesGoesOn(old(State()).log, old@Before(State()).log, State().log, id, true, i);
        if !sent.Confirmed? {
          if w.calm {
            SeriesStops(old(State()).log, id, true, i + 1, |active.tokens|, w);
          }
          return if sent.Reverted? then Reverts else Throws;
        }
      }
      return Succeeds;
    }

    // The request has a result, whether or not the call returned it.
    predicate HasEnded(id: Id)
      reads this
    {
      id in requests && requests[id].result.Some?
    }

    // Interrupted with the request still pending.
    predicate StuckAt(id: Id, r: Execution)
      reads this
    {
      r.Broken? && id in requests && requests[id].result.None?
    }

    // ---- executeRequest --------------------------------------------------------------------------------

    method ExecuteRequest(id: Id, request: Request, trusted: Strategy -> bool, w: Answers) returns (r: Execution)
      requires Inv(State())
      modifies this, sender
      ensures Inv(State()) && Reaches(old(State()), State()) && Evolves(old(State()), State()) && Ended(id, r)
      // An id is bound to its content, and a finished request only ever returns its stored result.
      ensures id in old(requests) && old(requests[id]).request != request ==> !r.Done? && State() == old(State())
      ensures id in old(requests) && old(requests[id]).request == request && old(requests[id]).result.Some? ==>
                State() == old(State()) && (r.Done? ==> r.conclusion == old(requests[id]).result.value) && !r.Refused?
      // Nothing new is taken up while another request is pending.
      ensures id !in old(requests) && !NothingPending(old(requests)) ==> !r.Done? && State() == old(State())
      ensures r.Done? ==> requests[id].request == request
      ensures id in requests ==> id in old(requests) || requests[id].request == request
      ensures r.Refused? ==> State() == old(State())
      // A confirmed ship or rebalance whose strategy is no longer live is not ended by any resume.
      ensures !w.live && old(IsConfirmedMove(State(), id)) ==> !r.Done? && requests == old(requests)
      // A call that is not cut off ends a pending request exactly if the condition holds beforehand,
      // takes up a new one exactly if nothing is objected to it in time, and then ends it likewise.
      ensures w.calm && old(IsPending(State(), id)) && old(requests[id]).request == request ==>
                (HasEnded(id) <==> Endable(old(State()), id, w))
      ensures w.calm && id !in old(requests) ==>
                (id in requests
                 <==> Objection(old(requests), old(sessions), request, trusted).None?
                      && InTime(request.action, w.takenAt))
      ensures w.calm && id !in old(requests) && id in requests ==>
                var taken := Apply(old(State()), Accept(id, request, w.takenAt));
                id in taken.requests && (HasEnded(id) <==> Endable(taken, id, w))
    {
      hide Inv, Reaches, Evolves, Apply, Admissible, ActiveOf, Endable, Objection;
      ReachesItself(State());
      ReachedKeeps(State(), State());
      var stops := sender.Stops(w.calm);
      if stops {
        return Broken;
      }
      if id in requests && requests[id].request != request {
        return Refused("requestId is already bound to different request content");
      }
      if id !in requests {
        var objection := Objection(requests, sessions, request, trusted);
        if objection.Some? {
          ObjectionWhilePending(requests, sessions, request, trusted);
          return Refused(objection.value);
        }
        if !InTime(request.action, w.takenAt) {
          ObjectionWhilePending(requests, sessions, request, trusted);
          return Refused("new strategy deadline has expired");
        }
        ObjectionWhilePending(requests, sessions, request, trusted);
        UnobjectedIsAdmissible(State(), request, trusted);
        ReachesOneStep(State(), Accept(id, request, w.takenAt));
        Take(id, request, w.takenAt);
        Onward(old(State()), old(State()), State());
        stops := sender.Stops(w.calm);
        if stops {
          return Broken;
        }
      }
      label Taken:
      // The audit of recorded receipts, and any other error before the work.
      stops := sender.Stops(w.calm);
      if stops || !w.audited {
        UnauditedNeverEnds(State(), id, w);
        return Broken;
      }
      if requests[id].result.Some? {
        ResultIsTrue(State(), id);
        return Done(requests[id].result.value);
      }
      PendingHasSession(State(), id);
      r := Work(id, w);
      Onward(old(State()), old@Taken(State()), State());
      WorkKeepsRequest(old@Taken(State()), State(), id);
    }

    method Take(id: Id, request: Request, time: nat)
      requires Enabled(State(), Accept(id, request, time))
      modifies this
      ensures State() == Apply(old(State()), Accept(id, request, time)) && id in requests
              && requests[id].request == request && requests[id].result.None?
    {
      var session := if request.action.Ship? then NewSession(id, request) else sessions[request.session];
      sessions := sessions[request.session := session];
      requests := requests[id := Attempt(request, session.plan, session.status, None, None)];
    }

    method Work(id: Id, w: Answers) returns (r: Execution)
      requires Ready(id) && w.audited
      modifies this, sender
      ensures Inv(State()) && Reaches(old(State()), State()) && Ended(id, r) && !r.Refused?
      ensures !w.live && old(IsConfirmedMove(State(), id)) ==> StuckAt(id, r) && requests == old(requests)
      ensures w.calm ==> (HasEnded(id) <==> Endable(old(State()), id, w))
    {
      hide Inv, Reaches, Evolves, Apply, ActiveOf, Truthful, RiskEnds, ShipEnds, RebalanceEnds, SwapEnds, WatchEnds,
          DockEnds, Succeeded;
      if requests[id].riskStop.Some? {
        r := SettleRisk(id, w);
        return;
      }
      match requests[id].request.action
      case Ship(_, _) => r := RunShip(id, w);
      case Rebalance(_, _) => r := RunRebalance(id, w);
      case Swap(_, _, _, _) => r := RunSwap(id, w);
      case Watch(_) => r := RunWatch(id, w);
      case Dock(_, _) => r := RunDock(id, w);
    }
  }

  // ---- what a step leaves as it was ------------------------------------------------------------------

  predicate SameTx(a: Log, b: Log, k: TxKey) {
    (k in a.txs <==> k in b.txs) && (k in a.txs ==> a.txs[k] == b.txs[k])
  }

  ghost predicate SameBut(a: Log, b: Log, key: TxKey) {
    forall k :: k != key ==> SameTx(a, b, k)
  }

  // One of the first n steps of a series.
  predicate InSeries(k: TxKey, id: Id, revoke: bool, n: nat) {
    k.request == id && if revoke then k.step.MakerRevoke? && k.step.j < n else k.step.MakerApprove? && k.step.i < n
  }

  lemma AllStay(log: Log)
    ensures forall k :: SameTx(log, log, k)
  {
  }

  lemma SameTxEndsSame(a: Log, b: Log, k: TxKey, answer: StepAnswer)
    ensures SameTx(a, b, k) ==> StepEnds(a, k, answer) == StepEnds(b, k, answer)
  {
  }

  lemma OthersStay(log: Log, entries: seq<Entry>, key: TxKey)
    requires forall e :: e in entries ==> e.key == key
    ensures SameBut(log, WriteAll(log, entries), key)
  {
    hide WriteAll;
    forall k | k != key ensures SameTx(log, WriteAll(log, entries), k) {
      EntriesAreLocal(log, entries, key, k);
    }
  }

  lemma SeriesGoesOn(a: Log, b: Log, c: Log, id: Id, revoke: bool, i: nat)
    requires forall k :: !InSeries(k, id, revoke, i) ==> SameTx(a, b, k)
    requires SameBut(b, c, TxKey(id, StepOf(revoke, i)))
    ensures forall k :: !InSeries(k, id, revoke, i + 1) ==> SameTx(a, c, k)
  {
    forall k | !InSeries(k, id, revoke, i + 1) ensures SameTx(a, c, k) {
      assert SameTx(a, b, k) && SameTx(b, c, k);
    }
  }

  lemma RiskStaysBy(a: Log, b: Log, id: Id, w: Answers)
    requires SameTx(a, b, TxKey(id, RiskDock))
    ensures forall seen :: GuardEnds(a, id, seen, w) == GuardEnds(b, id, seen, w)
  {
    SameTxEndsSame(a, b, TxKey(id, RiskDock), w.step(RiskDock));
  }

  // Approvals and the primary transaction leave the risk dock as it was.
  lemma RiskStays(a: Log, b: Log, c: Log, id: Id, w: Answers)
    requires SameTx(a, b, TxKey(id, RiskDock)) && SameBut(b, c, PrimaryOf(id))
    ensures forall seen :: GuardEnds(a, id, seen, w) == GuardEnds(c, id, seen, w)
  {
    assert SameTx(b, c, TxKey(id, RiskDock));
    SameTxEndsSame(a, c, TxKey(id, RiskDock), w.step(RiskDock));
  }

  lemma {:induction false} RevokesStay(a: Log, b: Log, id: Id, n: nat, w: Answers)
    requires forall k: TxKey :: k.step.MakerRevoke? ==> SameTx(a, b, k)
    ensures Series(a, id, true, n, w) == Series(b, id, true, n, w)
    decreases n
  {
    hide SameTx;
    if n == 0 {
    } else {
      RevokesStay(a, b, id, n - 1, w);
      SameTxEndsSame(a, b, TxKey(id, MakerRevoke(n - 1)), w.step(MakerRevoke(n - 1)));
    }
  }

  lemma ApprovalArgs(a: Attempt, i: nat)
    ensures Args(a, MakerApprove(i)) == Args(a, MakerApprove(0))
  {
  }

  lemma OwnMatches(s: Store, id: Id, step: Step, args: TxArgs)
    requires Inv(s) && IsPending(s, id) && Args(s.requests[id], step) == Some(args)
    ensures TxKey(id, step) in s.log.txs
            ==> Matches(s.log.txs[TxKey(id, step)], args.sender, args.action, args.strategyHash)
    ensures forall tx :: Matches(tx, args.sender, args.action, args.strategyHash) ==> IsOwn(s.requests[id], step, tx)
  {
    hide AttemptsOk, SessionsRooted, StatusesOk, OnePending, PlacesDiffer, PlacesCovered, Args;
    if TxKey(id, step) in s.log.txs {
      assert IsOwn(s.requests[id], step, s.log.txs[TxKey(id, step)]);
    }
  }

  // What has been carried into the plan stands there last.
  lemma CarriedIsLast(s: Store, id: Id)
    requires IsPending(s, id) && s.requests[id].request.action.Rebalance? && Succeeded(s.log, PrimaryOf(id))
             && Carried(s, id)
    ensures var plan := PlanOf(s, id);
            && plan.rebalances != [] && ActiveOf(plan) == s.requests[id].request.action.next
            && plan.rebalances[|plan.rebalances| - 1].txHash == s.log.txs[PrimaryOf(id)].hash
  {
  }

  lemma ObjectionWhilePending(requests: map<Id, Attempt>, sessions: map<Id, Session>, request: Request,
      trusted: Strategy -> bool)
    ensures !NothingPending(requests) ==> Objection(requests, sessions, request, trusted).Some?
  {
  }

  lemma UnauditedNeverEnds(s: Store, id: Id, w: Answers)
    requires id in s.requests
    ensures !w.audited ==> !Endable(s, id, w)
  {
  }

  // Entries of one key leave the others as they are.
  lemma {:induction false} EntriesAreLocal(log: Log, entries: seq<Entry>, key: TxKey, other: TxKey)
    requires forall e :: e in entries ==> e.key == key
    ensures other != key ==> (other in WriteAll(log, entries).txs <==> other in log.txs)
    ensures other != key && other in log.txs ==> WriteAll(log, entries).txs[other] == log.txs[other]
    decreases |entries|
  {
    if entries == [] {
    } else {
      EntriesAreLocal(Write(log, entries[0]), entries[1..], key, other);
    }
  }

  lemma Onward(a: Store, b: Store, c: Store)
    requires Reaches(a, b) && Reaches(b, c) && Inv(a)
    ensures Reaches(a, c) && Inv(c) && Evolves(a, c)
  {
    ReachesChains(a, b, c);
    ReachedKeeps(a, c);
  }

  lemma RiskStopIsCarried(s: Store, id: Id)
    requires Inv(s) && IsPending(s, id) && s.requests[id].riskStop.Some?
    ensures Carried(s, id) && NothingInFlight(s, id) && !s.requests[id].request.action.Dock?
  {
    assert AttemptOk(s, id);
  }

  lemma ClosingKeepsPending(s: Store, id: Id, cause: Cause)
    requires Inv(s) && Enabled(s, Controller.Close(id, cause))
    ensures var t := Apply(s, Controller.Close(id, cause));
            && Inv(t) && IsPending(t, id) && t.requests == s.requests && t.log == s.log
            && ClosedFor(t, id, cause) && (Carried(s, id) ==> Carried(t, id))
  {
    ApplyKeeps(s, Controller.Close(id, cause));
    hide Inv, Succeeded;
  }

  // ---- what the outcomes rest on ---------------------------------------------------------------------

  lemma FinishingIsTrue(s: Store, id: Id, outcome: string, failed: bool)
    requires IsPending(s, id) && Carried(s, id) && Truthful(s, id, outcome, failed)
    ensures Truthful(Apply(s, Finish(id, outcome, failed)), id, outcome, failed)
  {
    hide Succeeded, COMPLETIONS;
  }

  lemma ResultIsTrue(s: Store, id: Id)
    requires Inv(s) && id in s.requests && s.requests[id].result.Some?
    ensures s.requests[id].request.session in s.sessions
            && Truthful(s, id, s.requests[id].result.value.outcome, s.requests[id].result.value.failed)
  {
    hide Truthful;
    assert AttemptOk(s, id);
  }

  lemma SuccessIsSigned(s: Store, id: Id)
    ensures Succeeded(s.log, PrimaryOf(id)) ==> PrimaryOf(id) in s.log.txs
  {
  }

  lemma CarriedLasts(s: Store, t: Store, id: Id)
    requires IsPending(s, id) && Carried(s, id) && id in t.requests && t.requests[id].request == s.requests[id].request
    requires t.requests[id].before == s.requests[id].before && t.sessions == s.sessions && t.log == s.log
    ensures Carried(t, id)
  {
    hide Succeeded;
  }

  lemma FailureIsTrue(s: Store, id: Id, error: string)
    requires IsPending(s, id) && s.requests[id].riskStop.Some? && error !in COMPLETIONS
    ensures Truthful(s, id, error, true)
  {
    hide Succeeded;
  }

  lemma RiskDockIsTrue(s: Store, id: Id, cause: Cause)
    requires IsPending(s, id) && s.requests[id].riskStop.Some? && ClosedFor(s, id, cause)
             && (cause == ByRiskDock || cause == SeenDocked)
    ensures Truthful(s, id, RISK_DOCKED, false)
  {
    hide Succeeded;
  }

  lemma SeenDockIsTrue(s: Store, id: Id)
    requires IsPending(s, id) && !s.requests[id].request.action.Dock? && ClosedFor(s, id, SeenDocked)
    ensures Truthful(s, id, ALREADY_DOCKED, false)
  {
    hide Succeeded;
  }

  // Without a signed primary transaction nothing was traded and nothing is in flight.
  lemma UnsignedIsIdle(s: Store, id: Id)
    requires IsPending(s, id) && PrimaryOf(id) !in s.log.txs
    ensures Carried(s, id) && NothingInFlight(s, id)
  {
  }

  lemma UnsignedFails(s: Store, id: Id, error: string)
    requires IsPending(s, id) && PrimaryOf(id) !in s.log.txs && error !in COMPLETIONS
    ensures Truthful(s, id, error, true) && Carried(s, id) && !Succeeded(s.log, PrimaryOf(id))
  {
  }

  lemma UnsuccessfulFails(s: Store, id: Id, error: string)
    requires IsPending(s, id) && !Succeeded(s.log, PrimaryOf(id)) && error !in COMPLETIONS
    ensures Truthful(s, id, error, true) && Carried(s, id)
  {
    hide Succeeded;
  }

  lemma ShipIsCleared(s: Store, id: Id)
    requires IsPending(s, id) && !s.requests[id].request.action.Swap?
             && Approved(s.log, id, Approvals(s.requests[id].request.action))
    ensures Cleared(s.log, id, s.requests[id].request.action)
  {
    hide Approved;
  }

  lemma NeedsNoApproval(s: Store, id: Id)
    requires IsPending(s, id) && s.requests[id].request.action.Dock?
    ensures Cleared(s.log, id, s.requests[id].request.action)
  {
  }

  lemma SwapIsCleared(s: Store, id: Id)
    requires IsPending(s, id) && s.requests[id].request.action.Swap? && Succeeded(s.log, TxKey(id, TakerApprove))
    ensures Cleared(s.log, id, s.requests[id].request.action)
  {
    hide Succeeded;
  }

  // No swap is signed before the taker's approval succeeded.
  lemma UnapprovedSwapFails(s: Store, id: Id, error: string)
    requires Inv(s) && IsPending(s, id) && s.requests[id].request.action.Swap?
             && !Succeeded(s.log, TxKey(id, TakerApprove)) && error !in COMPLETIONS
    ensures Truthful(s, id, error, true) && Carried(s, id) && !Succeeded(s.log, PrimaryOf(id))
  {
    hide Truthful, Placed;
    assert AttemptOk(s, id);
    UnsignedFails(s, id, error);
  }

  lemma MayActivate(s: Store, id: Id)
    requires IsPending(s, id) && s.requests[id].request.action.Ship? && Succeeded(s.log, PrimaryOf(id))
    ensures Enabled(s, Controller.Activate(id))
  {
    hide Succeeded;
  }

  lemma ShipIsTrue(s: Store, id: Id)
    requires IsPending(s, id) && s.requests[id].request.action.Ship? && Succeeded(s.log, PrimaryOf(id))
    ensures Truthful(s, id, SHIPPED, false) && Carried(s, id) && NothingInFlight(s, id)
  {
    hide Succeeded;
  }

  lemma RebalanceIsTrue(s: Store, id: Id)
    requires IsPending(s, id) && s.requests[id].request.action.Rebalance? && Succeeded(s.log, PrimaryOf(id))
    ensures Truthful(s, id, REBALANCED, false)
  {
    hide Succeeded;
  }

  lemma SuccessIsNotInFlight(s: Store, id: Id)
    requires IsPending(s, id) && Succeeded(s.log, PrimaryOf(id))
    ensures NothingInFlight(s, id)
  {
    hide Succeeded;
  }

  lemma SwapIsTrue(s: Store, id: Id)
    requires IsPending(s, id) && s.requests[id].request.action.Swap? && Succeeded(s.log, PrimaryOf(id))
    ensures Truthful(s, id, SWAPPED, false)
  {
    hide Succeeded;
  }

  lemma DockFails(s: Store, id: Id, error: string)
    requires IsPending(s, id) && s.requests[id].request.action.Dock? && error !in COMPLETIONS
    ensures Truthful(s, id, error, true) && Carried(s, id)
  {
    hide Succeeded;
  }

  lemma RevokeErrorIsError()
    ensures REVOKE_REVERTED !in COMPLETIONS
  {
  }

  lemma TruthOfDock(s: Store, id: Id, outcome: string, failed: bool)
    requires id in s.requests && s.requests[id].request.session in s.sessions && Truthful(s, id, outcome, failed)
    ensures outcome == DOCKED ==> ClosedFor(s, id, ByDock) || ClosedFor(s, id, SeenDocked)
    ensures outcome == NOT_SHIPPED ==> ClosedFor(s, id, NeverShipped)
  {
    hide Succeeded, ClosedFor;
  }

  lemma DockIsTrue(s: Store, id: Id, cause: Cause, neverShipped: bool)
    requires IsPending(s, id) && s.requests[id].request.action.Dock? && ClosedFor(s, id, cause)
    requires if neverShipped then cause == NeverShipped else cause == ByDock || cause == SeenDocked
    ensures Truthful(s, id, if neverShipped then NOT_SHIPPED else DOCKED, false) && Carried(s, id)
  {
    hide Succeeded;
  }

  lemma StoppingKeepsPending(s: Store, id: Id, observed: Strategy)
    requires Inv(s) && Enabled(s, StopForRisk(id, observed))
    ensures var t := Apply(s, StopForRisk(id, observed)); Inv(t) && IsPending(t, id) && t.requests[id].riskStop.Some?
  {
    ApplyKeeps(s, StopForRisk(id, observed));
    hide Inv;
  }

  lemma NoneApproved(log: Log, id: Id)
    ensures Approved(log, id, 0)
  {
  }

  // Once the primary is signed, every approval has a successful receipt.
  lemma SignedIsApproved(s: Store, id: Id, i: nat)
    requires Inv(s) && IsPending(s, id) && i < Approvals(s.requests[id].request.action)
    ensures PrimaryOf(id) in s.log.txs ==> Succeeded(s.log, TxKey(id, MakerApprove(i)))
  {
    assert AttemptOk(s, id);
    assert MakerApprove(i) == MakerApprove(i);
  }

  lemma OneMoreApproved(s: Store, t: Store, id: Id, i: nat)
    requires Evolves(s, t) && Approved(s.log, id, i) && Succeeded(t.log, TxKey(id, MakerApprove(i)))
    ensures Approved(t.log, id, i + 1)
  {
    forall j | 0 <= j < i + 1 ensures Succeeded(t.log, TxKey(id, MakerApprove(j))) {
      assert j < i ==> Succeeded(s.log, TxKey(id, MakerApprove(j)));
      assert j < i ==> Keeps(s.log.txs[TxKey(id, MakerApprove(j))], t.log.txs[TxKey(id, MakerApprove(j))]);
    }
  }

  lemma ActivatingKeepsPending(s: Store, id: Id)
    requires Inv(s) && Enabled(s, Controller.Activate(id))
    ensures var t := Apply(s, Controller.Activate(id));
            Inv(t) && IsPending(t, id) && t.requests == s.requests && t.log == s.log
                && t.sessions[t.requests[id].request.session].status.Active?
  {
    ApplyKeeps(s, Controller.Activate(id));
    hide Inv;
  }

  // A pending rebalance whose plan has moved on is already in it.
  lemma MovedIsCarried(s: Store, id: Id)
    requires Inv(s) && IsPending(s, id) && s.requests[id].request.action.Rebalance?
    requires ActiveOf(PlanOf(s, id)).hash != ActiveOf(s.requests[id].before).hash
    ensures Carried(s, id)
  {
    PendingIsOk(s, id);
    hide Inv, Truthful, Placed, Cleared, Origin, NothingInFlight, Succeeded;
    assert AttemptOk(s, id);
  }

  lemma AppendingCarries(s: Store, id: Id)
    requires Inv(s) && Enabled(s, Append(id))
    ensures var t := Apply(s, Append(id)); Inv(t) && IsPending(t, id) && Carried(t, id) && t.requests == s.requests
                                           && t.log == s.log
  {
    ApplyKeeps(s, Append(id));
    assert AttemptOk(s, id);
    PendingIsUnmoved(s, id);
    hide Inv, AttemptOk;
  }

  lemma UnobjectedIsAdmissible(s: Store, request: Request, trusted: Strategy -> bool)
    requires Objection(s.requests, s.sessions, request, trusted).None?
    ensures Admissible(s, request)
  {
  }

  lemma PendingHasSession(s: Store, id: Id)
    requires Inv(s) && id in s.requests && s.requests[id].result.None?
    ensures IsPending(s, id)
  {
    assert AttemptOk(s, id);
  }

  lemma WorkKeepsRequest(s: Store, t: Store, id: Id)
    requires Inv(s) && Reaches(s, t) && id in s.requests
    ensures id in t.requests && t.requests[id].request == s.requests[id].request
            && t.requests[id].before == s.requests[id].before
  {
    ReachedKeeps(s, t);
    assert Lasting(s.requests[id], t.requests[id]);
  }
}
