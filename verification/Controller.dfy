// The execution controller as durable effects: one request at a time, every effect idempotent, any
// of them followed by a crash.
module Controller {
  import opened Wrappers
  import opened Journal

  // A strategy is known by its hash; tokens are in the order their approvals are sent.
  datatype Strategy = Strategy(hash: string, tokens: seq<string>, deadline: nat)

  // The two accounts, as a store is bound to one maker and one taker.
  const MAKER := "maker"
  const TAKER := "taker"

  datatype Action =
    | Ship(strategy: Strategy, policy: string)
    | Rebalance(expected: string, next: Strategy)
    | Swap(expected: string, tokenIn: string, amountIn: nat, slippageBps: nat)
    | Watch(expected: string)
    | Dock(expected: string, revoke: bool)

  // A request's digest stands for its content.
  datatype Request = Request(session: Id, action: Action)

  datatype Rebalanced = Rebalanced(strategy: Strategy, txHash: TxHash)

  datatype Plan = Plan(strategy: Strategy, policy: string, rebalances: seq<Rebalanced>, finished: bool)

  datatype SessionStatus = Starting | Active | Closed

  // Why a request closed its session: its dock succeeded, or the strategy was seen docked on the
  // chain with no dock of the request's own signed, or it had never been shipped.
  datatype Cause = ByDock | ByRiskDock | SeenDocked | NeverShipped

  datatype Closing = Closing(closer: Id, cause: Cause)

  // `closings` is the model's own record of the closings, oldest first.
  datatype Session = Session(createdBy: Id, status: SessionStatus, plan: Plan, closings: seq<Closing>)

  datatype Conclusion = Conclusion(failed: bool, outcome: string, plan: Plan)

  // Pending until there is a result.
  datatype Attempt = Attempt(request: Request, before: Plan, beforeStatus: SessionStatus, riskStop: Option<Strategy>,
      result: Option<Conclusion>)

  datatype Store = Store(requests: map<Id, Attempt>, sessions: map<Id, Session>, log: Log)

  function EmptyStore(): Store {
    Store(map[], map[], EmptyLog())
  }

  function ActiveOf(plan: Plan): Strategy {
    if plan.rebalances != [] then plan.rebalances[|plan.rebalances| - 1].strategy else plan.strategy
  }

  predicate IsPending(s: Store, id: Id) {
    id in s.requests && s.requests[id].result.None? && s.requests[id].request.session in s.sessions
  }

  predicate NothingPending(requests: map<Id, Attempt>) {
    forall id :: id in requests ==> requests[id].result.Some?
  }

  predicate Succeeded(log: Log, key: TxKey) {
    key in log.txs && log.txs[key].receipt.Some? && log.txs[key].receipt.value.success
  }

  function PrimaryOf(id: Id): TxKey {
    TxKey(id, Primary)
  }

  predicate Approved(log: Log, id: Id, n: nat) {
    forall i {:trigger MakerApprove(i)} :: 0 <= i < n ==> Succeeded(log, TxKey(id, MakerApprove(i)))
  }

  // The tokens whose approvals come before the primary transaction.
  function Approvals(a: Action): nat {
    if a.Ship? then |a.strategy.tokens| else if a.Rebalance? then |a.next.tokens| else 0
  }

  // Who sends a step, as which action, for which strategy.
  datatype TxArgs = TxArgs(sender: string, action: string, strategyHash: string)

  function Args(a: Attempt, step: Step): Option<TxArgs> {
    var action, before := a.request.action, ActiveOf(a.before).hash;
    match step
    case MakerApprove(_) =>
      if action.Ship? then Some(TxArgs(MAKER, "maker-approve", action.strategy.hash))
      else if action.Rebalance? then Some(TxArgs(MAKER, "maker-approve", action.next.hash))
      else None
    case TakerApprove => if action.Swap? then Some(TxArgs(TAKER, "taker-approve", before)) else None
    case Primary =>
      (match action
       case Ship(strategy, _) => Some(TxArgs(MAKER, "ship", strategy.hash))
       case Rebalance(_, next) => Some(TxArgs(MAKER, "rebalance", next.hash))
       case Swap(_, _, _, _) => Some(TxArgs(TAKER, "swap", before))
       case Watch(_) => None
       case Dock(_, _) => Some(TxArgs(MAKER, "dock", before)))
    case RiskDock => if a.riskStop.Some? then Some(TxArgs(MAKER, "risk-dock", a.riskStop.value.hash)) else None
    case MakerRevoke(_) => if action.Dock? then Some(TxArgs(MAKER, "maker-revoke", before)) else None
  }

  predicate IsOwn(a: Attempt, step: Step, tx: SavedTx) {
    Args(a, step) == Some(TxArgs(tx.sender, tx.action, tx.strategyHash))
  }

  // What must have succeeded before the primary transaction is signed.
  predicate Cleared(log: Log, id: Id, a: Action) {
    Approved(log, id, Approvals(a)) && (a.Swap? ==> Succeeded(log, TxKey(id, TakerApprove)))
  }

  function PlanOf(s: Store, id: Id): Plan
    requires id in s.requests && s.requests[id].request.session in s.sessions
  {
    s.sessions[s.requests[id].request.session].plan
  }

  function EntryOf(s: Store, id: Id): Rebalanced
    requires id in s.requests && s.requests[id].request.action.Rebalance? && PrimaryOf(id) in s.log.txs
  {
    Rebalanced(s.requests[id].request.action.next, s.log.txs[PrimaryOf(id)].hash)
  }

  // A rebalance whose transaction succeeded is in the session's plan before the request may end.
  predicate Carried(s: Store, id: Id)
    requires id in s.requests && s.requests[id].request.session in s.sessions
  {
    s.requests[id].request.action.Rebalance? && Succeeded(s.log, PrimaryOf(id))
    ==> PlanOf(s, id).rebalances == s.requests[id].before.rebalances + [EntryOf(s, id)]
  }

  const SHIPPED := "shipped"
  const REBALANCED := "rebalanced"
  const SWAPPED := "swapped"
  const WITHIN_LIMIT := "within-limit"
  const DOCKED := "docked"
  const NOT_SHIPPED := "not-shipped"
  const ALREADY_DOCKED := "already-docked"
  const RISK_DOCKED := "risk-docked"
  const COMPLETIONS := [SHIPPED, REBALANCED, SWAPPED, WITHIN_LIMIT, DOCKED, NOT_SHIPPED, ALREADY_DOCKED, RISK_DOCKED]

  // The request's session is closed, and the request closed it for this cause.
  predicate ClosedFor(s: Store, id: Id, cause: Cause)
    requires id in s.requests && s.requests[id].request.session in s.sessions
  {
    var session := s.sessions[s.requests[id].request.session];
    session.status.Closed? && Closing(id, cause) in session.closings
  }

  // What a completed request's outcome says about its transactions and its session.
  predicate Completed(s: Store, id: Id, outcome: string)
    requires id in s.requests && s.requests[id].request.session in s.sessions
  {
    var a, done := s.requests[id].request.action, Succeeded(s.log, PrimaryOf(id));
    || (outcome == SHIPPED && a.Ship? && done)
    || (outcome == REBALANCED && a.Rebalance? && done)
    || (outcome == SWAPPED && a.Swap? && done)
    || (outcome == WITHIN_LIMIT && a.Watch?)
    || (outcome == DOCKED && a.Dock? && (ClosedFor(s, id, ByDock) || ClosedFor(s, id, SeenDocked)))
    || (outcome == NOT_SHIPPED && a.Dock? && ClosedFor(s, id, NeverShipped))
    || (outcome == ALREADY_DOCKED && !a.Dock? && ClosedFor(s, id, SeenDocked))
    || (outcome == RISK_DOCKED && s.requests[id].riskStop.Some?
       && (ClosedFor(s, id, ByRiskDock) || ClosedFor(s, id, SeenDocked)))
  }

  predicate Trades(a: Action) {
    a.Ship? || a.Rebalance? || a.Swap?
  }

  // A failed request without a risk stop has not shipped, rebalanced or swapped anything.
  predicate Truthful(s: Store, id: Id, outcome: string, failed: bool)
    requires id in s.requests && s.requests[id].request.session in s.sessions
  {
    if !failed then Completed(s, id, outcome)
    else
      && outcome !in COMPLETIONS
      && (Trades(s.requests[id].request.action) && s.requests[id].riskStop.None?
          ==> !Succeeded(s.log, PrimaryOf(id)))
  }

  // No rebalance transaction is signed and still unconfirmed.
  predicate NothingInFlight(s: Store, id: Id)
    requires id in s.requests
  {
    s.requests[id].request.action.Rebalance? && PrimaryOf(id) in s.log.txs ==> Succeeded(s.log, PrimaryOf(id))
  }

  // ---- effects -------------------------------------------------------------------------------

  datatype Effect =
    | Accept(id: Id, request: Request, time: nat)
    | StopForRisk(id: Id, observed: Strategy)
    | Journaled(entry: Entry)
    | Activate(id: Id)
    | Append(id: Id)
    | Close(id: Id, cause: Cause)
    | Finish(id: Id, outcome: string, failed: bool)

  function ExpectedHash(a: Action): string
    requires !a.Ship?
  {
    match a
    case Rebalance(expected, _) => expected
    case Swap(expected, _, _, _) => expected
    case Watch(expected) => expected
    case Dock(expected, _) => expected
  }

  // The error of the first check on a new request, in the order the code makes them. `trusted` is the
  // chain, maker and deployment check of a strategy.
  function Objection(requests: map<Id, Attempt>, sessions: map<Id, Session>, request: Request,
      trusted: Strategy -> bool): Option<string> {
    var a := request.action;
    if !NothingPending(requests) then Some("resume pending request")
    else if a.Ship? then
      if request.session in sessions then Some("sessionId already exists")
          else if !trusted(a.strategy) then Some("strategy chain/maker mismatch") else None
    else if request.session !in sessions then Some("unknown sessionId")
    else
      var session := sessions[request.session];
      var active := ActiveOf(session.plan);
      if ExpectedHash(a) != active.hash then Some("expectedStrategyHash does not match the current strategy")
      else if !session.status.Active? && !a.Dock? && !a.Watch? then Some("session is not active")
      else if a.Rebalance? && (!trusted(a.next) || a.next.tokens != active.tokens || a.next.hash == active.hash)
          then Some("rebalance needs the same token order and a new strategy hash")
      else if a.Swap? && a.tokenIn !in active.tokens then Some("swap tokenIn does not belong to the strategy")
      else None
  }

  // What the objections protect, whatever the deployment.
  predicate Admissible(s: Store, request: Request) {
    && NothingPending(s.requests)
    && (if request.action.Ship? then request.session !in s.sessions
        else
          && request.session in s.sessions
          && (request.action.Rebalance?
              ==> request.action.next.hash != ActiveOf(s.sessions[request.session].plan).hash))
  }

  // A new strategy is taken only before its deadline.
  predicate InTime(a: Action, time: nat) {
    (a.Ship? ==> time < a.strategy.deadline) && (a.Rebalance? ==> time < a.next.deadline)
  }

  predicate MayAccept(s: Store, id: Id, request: Request) {
    id !in s.requests && Admissible(s, request)
  }

  predicate MayAppend(s: Store, id: Id) {
    && IsPending(s, id) && s.requests[id].request.action.Rebalance? && Succeeded(s.log, PrimaryOf(id))
    && ActiveOf(PlanOf(s, id)).hash == ActiveOf(s.requests[id].before).hash
  }

  predicate MayClose(s: Store, id: Id, cause: Cause) {
    && IsPending(s, id)
    && var a := s.requests[id];
       match cause
       case ByDock => a.request.action.Dock? && Succeeded(s.log, PrimaryOf(id))
       case ByRiskDock => a.riskStop.Some? && Succeeded(s.log, TxKey(id, RiskDock))
       case SeenDocked =>
         (a.request.action.Dock? ==> PrimaryOf(id) !in s.log.txs)
             && (a.riskStop.Some? ==> TxKey(id, RiskDock) !in s.log.txs)
       case NeverShipped => a.request.action.Dock? && a.beforeStatus.Starting? && PrimaryOf(id) !in s.log.txs
  }

  predicate Enabled(s: Store, e: Effect) {
    match e
    case Accept(id, request, time) => MayAccept(s, id, request) && InTime(request.action, time)
    case StopForRisk(id, _) =>
      IsPending(s, id) && s.requests[id].riskStop.None? && !s.requests[id].request.action.Dock? && Carried(s, id)
          && NothingInFlight(s, id)
    case Journaled(entry) =>
      && IsPending(s, entry.key.request) && Allowed(s.log, entry)
      && (entry.Prepare? && entry.key.step.Primary?
         ==> Cleared(s.log, entry.key.request, s.requests[entry.key.request].request.action)
             && s.requests[entry.key.request].riskStop.None?)
      && (entry.Prepare? ==> IsOwn(s.requests[entry.key.request], entry.key.step, entry.tx))
    case Activate(id) => IsPending(s, id) && s.requests[id].request.action.Ship? && Succeeded(s.log, PrimaryOf(id))
    case Append(id) => MayAppend(s, id)
    case Close(id, cause) => MayClose(s, id, cause)
    case Finish(id, outcome, failed) => IsPending(s, id) && Carried(s, id) && Truthful(s, id, outcome, failed)
  }

  function NewSession(id: Id, request: Request): Session
    requires request.action.Ship?
  {
    Session(id, Starting, Plan(request.action.strategy, request.action.policy, [], false), [])
  }

  function WithSession(s: Store, id: Id, session: Session): Store
    requires id in s.requests
  {
    s.(sessions := s.sessions[s.requests[id].request.session := session])
  }

  function Accepted(s: Store, id: Id, request: Request): Store
    requires MayAccept(s, id, request)
  {
    var session := if request.action.Ship? then NewSession(id, request) else s.sessions[request.session];
    s.(sessions := s.sessions[request.session := session],
        requests := s.requests[id := Attempt(request, session.plan, session.status, None, None)])
  }

  function Extended(s: Store, id: Id): Store
    requires MayAppend(s, id)
  {
    var session := s.sessions[s.requests[id].request.session];
    WithSession(s, id, session.(plan := session.plan.(rebalances := session.plan.rebalances + [EntryOf(s, id)])))
  }

  function ClosedSession(session: Session, closing: Closing): Session {
    session.(status := Closed, plan := session.plan.(finished := true), closings := session.closings + [closing])
  }

  function Apply(s: Store, e: Effect): Store {
    if !Enabled(s, e) then s
    else
      match e
      case Accept(id, request, _) => Accepted(s, id, request)
      case StopForRisk(id, strategy) => s.(requests := s.requests[id := s.requests[id].(riskStop := Some(strategy))])
      case Journaled(entry) => s.(log := Write(s.log, entry))
      case Activate(id) => WithSession(s, id, s.sessions[s.requests[id].request.session].(status := Active))
      case Append(id) => Extended(s, id)
      case Close(id, cause) =>
        WithSession(s, id, ClosedSession(s.sessions[s.requests[id].request.session], Closing(id, cause)))
      case Finish(id, outcome, failed) =>
        s.(requests := s.requests[id := s.requests[id].(result := Some(Conclusion(failed, outcome, PlanOf(s, id))))])
  }

  function Run(s: Store, effects: seq<Effect>): Store
    decreases |effects|
  {
    if effects == [] then s else Run(Apply(s, effects[0]), effects[1..])
  }

  // ---- what every reachable store satisfies -----------------------------------------------------

  ghost predicate Rooted(s: Store, sid: Id) {
    && sid in s.sessions && s.sessions[sid].createdBy in s.requests
    && var q := s.requests[s.sessions[sid].createdBy].request;
       q.session == sid && q.action.Ship? && s.sessions[sid].plan.strategy == q.action.strategy
           && s.sessions[sid].plan.policy == q.action.policy
  }

  // The rebalance stands in its session's plan at the place its attempt started from.
  ghost predicate Placed(s: Store, id: Id) {
    && id in s.requests && s.requests[id].request.action.Rebalance? && s.requests[id].request.session in s.sessions
    && Succeeded(s.log, PrimaryOf(id))
    && var p := |s.requests[id].before.rebalances|; p < |PlanOf(s, id).rebalances|
                                                    && PlanOf(s, id).rebalances[p] == EntryOf(s, id)
  }

  ghost predicate Unmoved(s: Store, id: Id)
    requires id in s.requests && s.requests[id].request.session in s.sessions
  {
    PlanOf(s, id).rebalances == s.requests[id].before.rebalances
  }

  // A ship request opened its session; every other request came after that one had its result.
  ghost predicate Origin(s: Store, id: Id)
    requires id in s.requests && s.requests[id].request.session in s.sessions
  {
    var opener := s.sessions[s.requests[id].request.session].createdBy;
    && (s.requests[id].request.action.Ship? ==> opener == id)
    && (opener != id ==> opener in s.requests && s.requests[opener].result.Some?)
  }

  ghost predicate Evidence(s: Store, sid: Id, c: Closing) {
    && c.closer in s.requests && s.requests[c.closer].request.session == sid
    && match c.cause
       case ByDock => s.requests[c.closer].request.action.Dock? && Succeeded(s.log, PrimaryOf(c.closer))
       case ByRiskDock => s.requests[c.closer].riskStop.Some? && Succeeded(s.log, TxKey(c.closer, RiskDock))
       case SeenDocked => true
       case NeverShipped => s.requests[c.closer].request.action.Dock? && s.requests[c.closer].beforeStatus.Starting?
  }

  // A session is active only after its ship transaction succeeded, and closed only for a cause.
  ghost predicate StatusOk(s: Store, sid: Id)
    requires sid in s.sessions
  {
    var session := s.sessions[sid];
    && (session.status.Active? ==> Succeeded(s.log, PrimaryOf(session.createdBy)))
    && (session.status.Closed? ==> session.closings != [])
    && (forall c :: c in session.closings ==> Evidence(s, sid, c))
  }

  ghost predicate StatusesOk(s: Store) {
    forall sid {:trigger s.sessions[sid]} :: sid in s.sessions ==> StatusOk(s, sid)
  }

  ghost predicate AttemptOk(s: Store, id: Id) {
    && id in s.requests && s.requests[id].request.session in s.sessions
    && var a, plan := s.requests[id], PlanOf(s, id);
       && a.before.strategy == plan.strategy && a.before.policy == plan.policy && a.before.rebalances <= plan.rebalances
       && (a.result.Some? && a.request.action.Rebalance? && Succeeded(s.log, PrimaryOf(id)) ==> Placed(s, id))
       && (a.result.Some? ==> Truthful(s, id, a.result.value.outcome, a.result.value.failed))
       && Origin(s, id)
       && (a.result.None? ==>
             && (Unmoved(s, id) || (a.request.action.Rebalance? && Succeeded(s.log, PrimaryOf(id)) && Carried(s, id)))
             && (a.request.action.Rebalance? ==> a.request.action.next.hash != ActiveOf(a.before).hash)
             && (PrimaryOf(id) in s.log.txs ==> Cleared(s.log, id, a.request.action))
             && (a.riskStop.Some? ==> Carried(s, id) && NothingInFlight(s, id) && !a.request.action.Dock?))
  }

  ghost predicate AttemptsOk(s: Store) {
    forall id {:trigger s.requests[id]} :: id in s.requests ==> AttemptOk(s, id)
  }

  ghost predicate SessionsRooted(s: Store) {
    forall sid {:trigger s.sessions[sid]} :: sid in s.sessions ==> Rooted(s, sid)
  }

  ghost predicate OnePending(s: Store) {
    forall id, k {:trigger s.requests[id], s.requests[k]} ::
      id in s.requests && k in s.requests && s.requests[id].result.None? && s.requests[k].result.None? ==> id == k
  }

  // Every saved transaction is that of a known request's own step.
  ghost predicate KeysKnown(s: Store) {
    forall k {:trigger s.log.txs[k]} :: k in s.log.txs ==>
      k.request in s.requests && IsOwn(s.requests[k.request], k.step, s.log.txs[k])
  }

  ghost predicate SamePlace(s: Store, id: Id, k: Id) {
    Placed(s, id) && Placed(s, k) && s.requests[id].request.session == s.requests[k].request.session
        && |s.requests[id].before.rebalances| == |s.requests[k].before.rebalances|
  }

  ghost predicate PlacesDiffer(s: Store) {
    forall id, k {:trigger s.requests[id], s.requests[k]} ::
      id in s.requests && k in s.requests && SamePlace(s, id, k) ==> id == k
  }

  ghost predicate Accounts(s: Store, id: Id, sid: Id, p: nat) {
    Placed(s, id) && s.requests[id].request.session == sid && |s.requests[id].before.rebalances| == p
  }

  ghost predicate Covered(s: Store, sid: Id, p: nat) {
    exists id :: Accounts(s, id, sid, p)
  }

  ghost predicate PlacesCovered(s: Store) {
    forall sid, p: nat {:trigger Covered(s, sid, p)} :: sid in s.sessions && p < |s.sessions[sid].plan.rebalances|
                                                        ==> Covered(s, sid, p)
  }

  ghost predicate Inv(s: Store) {
    Sound(s.log) && AttemptsOk(s) && SessionsRooted(s) && StatusesOk(s) && OnePending(s) && KeysKnown(s)
        && PlacesDiffer(s) && PlacesCovered(s)
  }

  // ---- every effect keeps the invariant ------------------------------------------------------------

  lemma EmptyHolds()
    ensures Inv(EmptyStore())
  {
  }

  // A journal entry of one pending request leaves every other request's transactions alone.
  lemma EntryIsLocal(log: Log, e: Entry, key: TxKey)
    requires Sound(log)
    ensures key.request != e.key.request && key in Write(log, e).txs ==> key in log.txs
    ensures key.request != e.key.request && key in log.txs
            ==> key in Write(log, e).txs && Write(log, e).txs[key] == log.txs[key]
    ensures Succeeded(log, key) ==> Succeeded(Write(log, e), key) && Write(log, e).txs[key].hash == log.txs[key].hash
    ensures key in log.txs ==> key in Write(log, e).txs
    ensures key in Write(log, e).txs && key !in log.txs ==> e.Prepare? && e.key == key && !Succeeded(Write(log, e), key)
  {
  }

  lemma ApprovalsLast(log: Log, e: Entry, id: Id, n: nat)
    requires Sound(log) && Approved(log, id, n)
    ensures Approved(Write(log, e), id, n)
  {
    forall i | 0 <= i < n ensures Succeeded(Write(log, e), TxKey(id, MakerApprove(i))) {
      EntryIsLocal(log, e, TxKey(id, MakerApprove(i)));
    }
  }

  lemma ClearanceLasts(log: Log, e: Entry, id: Id, a: Action)
    requires Sound(log) && Cleared(log, id, a)
    ensures Cleared(Write(log, e), id, a)
  {
    ApprovalsLast(log, e, id, Approvals(a));
    EntryIsLocal(log, e, TxKey(id, TakerApprove));
  }

  lemma JournaledKeepsAttempt(s: Store, e: Entry, id: Id)
    requires Sound(s.log) && Enabled(s, Journaled(e)) && AttemptOk(s, id) && OnePending(s)
    ensures AttemptOk(Apply(s, Journaled(e)), id)
    ensures Placed(Apply(s, Journaled(e)), id) <==> Placed(s, id)
  {
    EntryIsLocal(s.log, e, PrimaryOf(id));
    if PrimaryOf(id) in s.log.txs && s.requests[id].result.None? {
      ClearanceLasts(s.log, e, id, s.requests[id].request.action);
    }
    if e.Prepare? && e.key == PrimaryOf(id) {
      ClearanceLasts(s.log, e, id, s.requests[id].request.action);
    }
    hide Write, Cleared;
  }

  // The same rebalances stand at the same places.
  ghost predicate SamePlaces(s: Store, t: Store) {
    && t.requests.Keys == s.requests.Keys && t.sessions.Keys == s.sessions.Keys
    && (forall id {:trigger t.requests[id]} :: id in s.requests
                                               ==> t.requests[id].request == s.requests[id].request
                                                   && t.requests[id].before == s.requests[id].before)
    && (forall id {:trigger Placed(t, id)} :: Placed(t, id) <==> Placed(s, id))
    && (forall sid {:trigger t.sessions[sid]} :: sid in s.sessions
                                                 ==> t.sessions[sid].plan.rebalances == s.sessions[sid].plan.rebalances)
  }

  lemma SamePlacesKeep(s: Store, t: Store)
    requires PlacesDiffer(s) && PlacesCovered(s) && SamePlaces(s, t)
    ensures PlacesDiffer(t) && PlacesCovered(t)
  {
    hide Placed;
    forall id, k | id in t.requests && k in t.requests && SamePlace(t, id, k) ensures SamePlace(s, id, k) {
    }
    forall sid, p: nat | sid in t.sessions && p < |t.sessions[sid].plan.rebalances| ensures Covered(t, sid, p) {
      assert Covered(s, sid, p);
      var id :| Accounts(s, id, sid, p);
      PlacedIsKnown(s, id);
      assert Accounts(t, id, sid, p);
    }
  }

  // Successes last, and so does every cause.
  lemma JournaledKeepsStatus(s: Store, e: Entry, sid: Id)
    requires Sound(s.log) && sid in s.sessions && StatusOk(s, sid)
    ensures StatusOk(s.(log := Write(s.log, e)), sid)
  {
    var t := s.(log := Write(s.log, e));
    EntryIsLocal(s.log, e, PrimaryOf(s.sessions[sid].createdBy));
    forall c | c in s.sessions[sid].closings ensures Evidence(t, sid, c) {
      assert Evidence(s, sid, c);
      EntryIsLocal(s.log, e, PrimaryOf(c.closer));
      EntryIsLocal(s.log, e, TxKey(c.closer, RiskDock));
    }
  }

  lemma JournaledKeepsKeys(s: Store, e: Entry)
    requires KeysKnown(s) && Enabled(s, Journaled(e))
    ensures KeysKnown(Apply(s, Journaled(e)))
  {
    hide IsOwn, Cleared;
    var t := Apply(s, Journaled(e));
    forall k | k in t.log.txs ensures k.request in t.requests && IsOwn(t.requests[k.request], k.step, t.log.txs[k]) {
      if k in s.log.txs {
        assert IsOwn(s.requests[k.request], k.step, s.log.txs[k]);
        ReceiptsKeepOwner(s.requests[k.request], k.step, s.log.txs[k], t.log.txs[k]);
      }
    }
  }

  lemma ReceiptsKeepOwner(a: Attempt, step: Step, tx: SavedTx, later: SavedTx)
    requires IsOwn(a, step, tx) && later == tx.(receipt := later.receipt)
    ensures IsOwn(a, step, later)
  {
  }

  lemma JournaledKeeps(s: Store, e: Entry)
    requires Inv(s) && Enabled(s, Journaled(e))
    ensures Inv(Apply(s, Journaled(e)))
  {
    hide AttemptOk, Placed, Rooted, PlacesDiffer, PlacesCovered, Write, Allowed, Cleared, StatusOk;
    var t := Apply(s, Journaled(e));
    WriteKeeps(s.log, e);
    forall id | id in s.requests ensures AttemptOk(t, id) && (Placed(t, id) <==> Placed(s, id)) {
      JournaledKeepsAttempt(s, e, id);
    }
    forall id ensures Placed(t, id) <==> Placed(s, id) {
      PlacedIsKnown(s, id);
      PlacedIsKnown(t, id);
    }
    SamePlacesKeep(s, t);
    RootsLast(s, t);
    forall sid | sid in t.sessions ensures StatusOk(t, sid) {
      JournaledKeepsStatus(s, e, sid);
    }
    JournaledKeepsKeys(s, e);
  }

  lemma PlacedIsKnown(s: Store, id: Id)
    ensures Placed(s, id) ==> id in s.requests
  {
  }

  predicate SameArgs(a: Attempt, b: Attempt) {
    b.request == a.request && b.before == a.before && (a.riskStop.Some? ==> b.riskStop == a.riskStop)
  }

  lemma ArgsLast(a: Attempt, b: Attempt, step: Step, tx: SavedTx)
    requires SameArgs(a, b) && IsOwn(a, step, tx)
    ensures IsOwn(b, step, tx)
  {
  }

  lemma KeysLast(s: Store, t: Store)
    requires KeysKnown(s) && t.log == s.log
    requires forall id {:trigger s.requests[id]} {:trigger t.requests[id]} ::
               id in s.requests ==> id in t.requests && SameArgs(s.requests[id], t.requests[id])
    ensures KeysKnown(t)
  {
    hide IsOwn;
    forall k | k in t.log.txs ensures k.request in t.requests && IsOwn(t.requests[k.request], k.step, t.log.txs[k]) {
      ArgsLast(s.requests[k.request], t.requests[k.request], k.step, t.log.txs[k]);
    }
  }

  // Requests keep their content and sessions their origin.
  lemma RootsLast(s: Store, t: Store)
    requires SessionsRooted(s)
    requires forall id {:trigger s.requests[id]} {:trigger t.requests[id]} ::
               id in s.requests ==> id in t.requests && t.requests[id].request == s.requests[id].request
    requires t.sessions.Keys == s.sessions.Keys
    requires forall sid {:trigger t.sessions[sid]} ::
               sid in s.sessions ==>
                 && t.sessions[sid].createdBy == s.sessions[sid].createdBy
                 && t.sessions[sid].plan.strategy == s.sessions[sid].plan.strategy
                 && t.sessions[sid].plan.policy == s.sessions[sid].plan.policy
    ensures SessionsRooted(t)
  {
    forall sid | sid in t.sessions ensures Rooted(t, sid) {
      assert Rooted(s, sid);
    }
  }

  // ---- effects on one attempt ----------------------------------------------------------------------

  lemma AttemptEffectKeepsAttempt(s: Store, id: Id, a: Attempt, k: Id)
    requires IsPending(s, id) && Carried(s, id) && AttemptOk(s, id) && AttemptOk(s, k)
    requires a.result.Some? ==> Truthful(s, id, a.result.value.outcome, a.result.value.failed)
                                && a.riskStop == s.requests[id].riskStop
    requires a == s.requests[id].(riskStop := a.riskStop, result := a.result)
    requires a.result.None? ==> NothingInFlight(s, id) && !s.requests[id].request.action.Dock?
    ensures var t := s.(requests := s.requests[id := a]); AttemptOk(t, k) && (Placed(t, k) <==> Placed(s, k))
  {
    hide Cleared, Succeeded, COMPLETIONS;
  }

  lemma AttemptEffectKeepsStatus(s: Store, id: Id, a: Attempt, sid: Id)
    requires IsPending(s, id) && sid in s.sessions && StatusOk(s, sid)
    requires a == s.requests[id].(riskStop := a.riskStop, result := a.result)
             && (s.requests[id].riskStop.Some? ==> a.riskStop == s.requests[id].riskStop)
    ensures StatusOk(s.(requests := s.requests[id := a]), sid)
  {
    var t := s.(requests := s.requests[id := a]);
    hide Succeeded;
    forall c | c in s.sessions[sid].closings ensures Evidence(t, sid, c) {
      assert Evidence(s, sid, c);
    }
  }

  lemma AttemptEffectKeeps(s: Store, id: Id, a: Attempt)
    requires Inv(s) && IsPending(s, id) && Carried(s, id)
    requires a.result.Some? ==> Truthful(s, id, a.result.value.outcome, a.result.value.failed)
                                && a.riskStop == s.requests[id].riskStop
    requires a == s.requests[id].(riskStop := a.riskStop, result := a.result)
             && (s.requests[id].riskStop.Some? ==> a.riskStop == s.requests[id].riskStop)
    requires a.result.None? ==> NothingInFlight(s, id) && !s.requests[id].request.action.Dock?
    ensures Inv(s.(requests := s.requests[id := a]))
  {
    hide AttemptOk, Placed, Rooted, PlacesDiffer, PlacesCovered, Sound, Carried, NothingInFlight, StatusOk, Truthful;
    var t := s.(requests := s.requests[id := a]);
    forall sid | sid in t.sessions ensures StatusOk(t, sid) {
      AttemptEffectKeepsStatus(s, id, a, sid);
    }
    assert AttemptOk(s, id);
    forall k | k in s.requests ensures AttemptOk(t, k) && (Placed(t, k) <==> Placed(s, k)) {
      AttemptEffectKeepsAttempt(s, id, a, k);
    }
    forall k ensures Placed(t, k) <==> Placed(s, k) {
      PlacedIsKnown(s, k);
      PlacedIsKnown(t, k);
    }
    SamePlacesKeep(s, t);
    RootsLast(s, t);
    KeysLast(s, t);
  }

  // ---- effects on one session ----------------------------------------------------------------------

  // A session effect changes the status, marks the plan finished and may add a closing.
  predicate IsStatusEffect(s: Store, id: Id, session: Session)
    requires IsPending(s, id)
  {
    var before := s.sessions[s.requests[id].request.session];
    && session == before.(status := session.status, plan := before.plan.(finished := session.plan.finished),
       closings := session.closings)
    && before.closings <= session.closings
  }

  // Reopening a session is left to its ship request, before any request on it has a result.
  ghost predicate KeepsResults(s: Store, id: Id, session: Session)
    requires IsPending(s, id)
  {
    session.status.Closed? || s.requests[id].request.action.Ship?
  }

  lemma StatusEffectKeepsAttempt(s: Store, id: Id, session: Session, k: Id)
    requires IsPending(s, id) && AttemptOk(s, id) && AttemptOk(s, k) && IsStatusEffect(s, id, session)
             && KeepsResults(s, id, session)
    ensures var t := WithSession(s, id, session); AttemptOk(t, k) && (Placed(t, k) <==> Placed(s, k))
  {
    hide Cleared, Succeeded, COMPLETIONS;
  }

  lemma StatusEffectKeepsStatus(s: Store, id: Id, session: Session, sid: Id)
    requires IsPending(s, id) && IsStatusEffect(s, id, session) && sid in s.sessions && StatusOk(s, sid)
    requires sid == s.requests[id].request.session ==> StatusOk(WithSession(s, id, session), sid)
    ensures StatusOk(WithSession(s, id, session), sid)
  {
    hide Succeeded;
    var t := WithSession(s, id, session);
    if sid != s.requests[id].request.session {
      forall c | c in s.sessions[sid].closings ensures Evidence(t, sid, c) {
        assert Evidence(s, sid, c);
      }
    }
  }

  lemma StatusEffectKeeps(s: Store, id: Id, session: Session)
    requires Inv(s) && IsPending(s, id) && IsStatusEffect(s, id, session) && KeepsResults(s, id, session)
    requires StatusOk(WithSession(s, id, session), s.requests[id].request.session)
    ensures Inv(WithSession(s, id, session))
  {
    hide AttemptOk, Placed, Rooted, PlacesDiffer, PlacesCovered, Sound, StatusOk, KeepsResults;
    var t := WithSession(s, id, session);
    assert AttemptOk(s, id);
    forall k | k in s.requests ensures AttemptOk(t, k) && (Placed(t, k) <==> Placed(s, k)) {
      StatusEffectKeepsAttempt(s, id, session, k);
    }
    forall k ensures Placed(t, k) <==> Placed(s, k) {
      PlacedIsKnown(s, k);
      PlacedIsKnown(t, k);
    }
    forall sid | sid in t.sessions ensures StatusOk(t, sid) {
      StatusEffectKeepsStatus(s, id, session, sid);
    }
    SamePlacesKeep(s, t);
    RootsLast(s, t);
    KeysLast(s, t);
  }

  lemma ActivationIsOk(s: Store, id: Id)
    requires Inv(s) && Enabled(s, Activate(id))
    ensures var session := s.sessions[s.requests[id].request.session].(status := Active);
            IsStatusEffect(s, id, session) && KeepsResults(s, id, session)
                && StatusOk(WithSession(s, id, session), s.requests[id].request.session)
  {
    hide AttemptsOk, SessionsRooted, Sound, PlacesDiffer, PlacesCovered, Succeeded, Placed, Truthful, Cleared;
    var sid := s.requests[id].request.session;
    var t := WithSession(s, id, s.sessions[sid].(status := Active));
    assert AttemptOk(s, id) by {
      PendingIsOk(s, id);
    }
    assert StatusOk(s, sid);
    forall c | c in s.sessions[sid].closings ensures Evidence(t, sid, c) {
      assert Evidence(s, sid, c);
    }
  }

  lemma PendingIsOk(s: Store, id: Id)
    requires Inv(s) && id in s.requests
    ensures AttemptOk(s, id)
  {
    hide AttemptOk;
    assert s.requests[id] == s.requests[id];
  }

  lemma ClosingIsOk(s: Store, id: Id, cause: Cause)
    requires Inv(s) && Enabled(s, Close(id, cause))
    ensures var session := ClosedSession(s.sessions[s.requests[id].request.session], Closing(id, cause));
            IsStatusEffect(s, id, session) && KeepsResults(s, id, session)
                && StatusOk(WithSession(s, id, session), s.requests[id].request.session)
  {
    hide AttemptsOk, SessionsRooted, Sound, PlacesDiffer, PlacesCovered, Succeeded;
    var sid := s.requests[id].request.session;
    var t := WithSession(s, id, ClosedSession(s.sessions[sid], Closing(id, cause)));
    assert StatusOk(s, sid);
    forall c | c in t.sessions[sid].closings ensures Evidence(t, sid, c) {
      assert c in s.sessions[sid].closings ==> Evidence(s, sid, c);
    }
  }

  lemma ActiveIsLast(plan: Plan, before: seq<Rebalanced>, e: Rebalanced)
    ensures plan.rebalances == before + [e] ==> ActiveOf(plan) == e.strategy
  {
  }

  lemma PendingIsUnmoved(s: Store, id: Id)
    requires AttemptOk(s, id) && MayAppend(s, id)
    ensures Unmoved(s, id) && Succeeded(s.log, PrimaryOf(id))
  {
    ActiveIsLast(PlanOf(s, id), s.requests[id].before.rebalances, EntryOf(s, id));
  }

  // Appending places the pending rebalance, at a place no other has.
  lemma AppendKeepsAttempt(s: Store, id: Id, k: Id)
    requires AttemptOk(s, id) && AttemptOk(s, k) && MayAppend(s, id) && OnePending(s)
    ensures AttemptOk(Extended(s, id), k)
    ensures Placed(Extended(s, id), k) <==> Placed(s, k) || k == id
    ensures Placed(s, k) && s.requests[k].request.session == s.requests[id].request.session
            ==> |s.requests[k].before.rebalances| < |s.requests[id].before.rebalances|
  {
    PendingIsUnmoved(s, id);
    hide Cleared, Allowed, COMPLETIONS;
  }

  lemma AppendKeepsStatus(s: Store, id: Id, sid: Id)
    requires MayAppend(s, id) && sid in s.sessions && StatusOk(s, sid)
    ensures StatusOk(Extended(s, id), sid)
  {
    hide Succeeded, ActiveOf, EntryOf;
    forall c | c in s.sessions[sid].closings ensures Evidence(Extended(s, id), sid, c) {
      assert Evidence(s, sid, c);
    }
  }

  lemma AppendKeepsPlaces(s: Store, id: Id)
    requires Inv(s) && MayAppend(s, id)
    ensures PlacesDiffer(Extended(s, id)) && PlacesCovered(Extended(s, id))
  {
    var t, sid := Extended(s, id), s.requests[id].request.session;
    assert AttemptOk(s, id);
    PendingIsUnmoved(s, id);
    forall k | k in s.requests
      ensures Placed(t, k) <==> Placed(s, k) || k == id
      ensures Placed(s, k) && s.requests[k].request.session == sid
              ==> |s.requests[k].before.rebalances| < |s.requests[id].before.rebalances| {
      assert AttemptOk(s, k);
      AppendKeepsAttempt(s, id, k);
    }
    hide Placed, AttemptOk, Sound, SessionsRooted, StatusesOk, AttemptsOk, OnePending, KeysKnown, Succeeded;
    forall j, k | j in t.requests && k in t.requests && SamePlace(t, j, k) ensures j == k {
      if j != id && k != id {
        assert SamePlace(s, j, k);
      }
    }
    forall r, p: nat | r in t.sessions && p < |t.sessions[r].plan.rebalances| ensures Covered(t, r, p) {
      if r == sid && p == |s.sessions[sid].plan.rebalances| {
        assert Accounts(t, id, r, p);
      } else {
        assert Covered(s, r, p);
        var k :| Accounts(s, k, r, p);
        PlacedIsKnown(s, k);
        assert Accounts(t, k, r, p);
      }
    }
  }

  lemma AppendKeepsStatuses(s: Store, id: Id)
    requires MayAppend(s, id) && StatusesOk(s)
    ensures StatusesOk(Extended(s, id))
  {
    hide StatusOk, ActiveOf, EntryOf, Succeeded;
    forall sid | sid in Extended(s, id).sessions ensures StatusOk(Extended(s, id), sid) {
      AppendKeepsStatus(s, id, sid);
    }
  }

  lemma AppendKeepsAttempts(s: Store, id: Id)
    requires MayAppend(s, id) && AttemptsOk(s) && OnePending(s)
    ensures AttemptsOk(Extended(s, id))
  {
    hide AttemptOk, Placed, ActiveOf, EntryOf, Succeeded;
    forall k | k in s.requests ensures AttemptOk(Extended(s, id), k) {
      AppendKeepsAttempt(s, id, k);
    }
  }

  lemma AppendKeeps(s: Store, id: Id)
    requires Inv(s) && MayAppend(s, id)
    ensures Inv(Extended(s, id))
  {
    AppendKeepsPlaces(s, id);
    AppendKeepsStatuses(s, id);
    AppendKeepsAttempts(s, id);
    hide AttemptsOk, StatusesOk, Rooted, PlacesDiffer, PlacesCovered, Sound, ActiveOf, EntryOf, Succeeded, IsOwn;
    RootsLast(s, Extended(s, id));
    KeysLast(s, Extended(s, id));
  }

  // ---- accepting a request ---------------------------------------------------------------------------

  lemma AcceptKeepsAttempt(s: Store, id: Id, request: Request, k: Id)
    requires MayAccept(s, id, request) && KeysKnown(s) && k in s.requests && AttemptOk(s, k)
    ensures AttemptOk(Accepted(s, id, request), k)
    ensures Placed(Accepted(s, id, request), k) <==> Placed(s, k)
  {
    hide Cleared, Succeeded, COMPLETIONS, ActiveOf;
  }

  lemma AcceptKeepsStatus(s: Store, id: Id, request: Request, sid: Id)
    requires MayAccept(s, id, request) && sid in Accepted(s, id, request).sessions
             && (sid in s.sessions ==> StatusOk(s, sid))
    ensures StatusOk(Accepted(s, id, request), sid)
  {
    hide Succeeded, ActiveOf;
    var t := Accepted(s, id, request);
    if sid in s.sessions {
      forall c | c in s.sessions[sid].closings ensures Evidence(t, sid, c) {
        assert Evidence(s, sid, c);
      }
    }
  }

  lemma AcceptKeepsStatuses(s: Store, id: Id, request: Request)
    requires StatusesOk(s) && MayAccept(s, id, request)
    ensures StatusesOk(Accepted(s, id, request))
  {
    hide StatusOk, ActiveOf;
    forall sid | sid in Accepted(s, id, request).sessions ensures StatusOk(Accepted(s, id, request), sid) {
      AcceptKeepsStatus(s, id, request, sid);
    }
  }

  lemma AcceptedIsOk(s: Store, id: Id, request: Request)
    requires MayAccept(s, id, request) && KeysKnown(s) && SessionsRooted(s)
    ensures AttemptOk(Accepted(s, id, request), id) && !Placed(Accepted(s, id, request), id)
  {
    assert PrimaryOf(id) !in s.log.txs;
    hide ActiveOf, Truthful, Cleared;
    assert !request.action.Ship? ==> Rooted(s, request.session);
  }

  lemma AcceptKeepsPlaces(s: Store, id: Id, request: Request)
    requires Inv(s) && MayAccept(s, id, request)
    ensures PlacesDiffer(Accepted(s, id, request)) && PlacesCovered(Accepted(s, id, request))
  {
    var t := Accepted(s, id, request);
    AcceptedIsOk(s, id, request);
    forall k | k in s.requests ensures Placed(t, k) <==> Placed(s, k) {
      assert AttemptOk(s, k);
      AcceptKeepsAttempt(s, id, request, k);
    }
    hide Placed, AttemptOk, Sound, SessionsRooted, StatusesOk, AttemptsOk, OnePending, KeysKnown;
    forall j, k | j in t.requests && k in t.requests && SamePlace(t, j, k) ensures j == k {
      assert SamePlace(s, j, k);
    }
    forall r, p: nat | r in t.sessions && p < |t.sessions[r].plan.rebalances| ensures Covered(t, r, p) {
      assert Covered(s, r, p);
      var k :| Accounts(s, k, r, p);
      PlacedIsKnown(s, k);
      assert Accounts(t, k, r, p);
    }
  }

  lemma AcceptKeepsAttempts(s: Store, id: Id, request: Request)
    requires AttemptsOk(s) && KeysKnown(s) && SessionsRooted(s) && MayAccept(s, id, request)
    ensures AttemptsOk(Accepted(s, id, request))
  {
    var t := Accepted(s, id, request);
    AcceptedIsOk(s, id, request);
    hide AttemptOk, Placed, KeysKnown, ActiveOf, SessionsRooted;
    forall k | k in t.requests ensures AttemptOk(t, k) {
      if k != id {
        AcceptKeepsAttempt(s, id, request, k);
      }
    }
  }

  lemma AcceptKeepsPending(s: Store, id: Id, request: Request)
    requires MayAccept(s, id, request)
    ensures OnePending(Accepted(s, id, request))
  {
    hide ActiveOf;
  }

  lemma AcceptKeeps(s: Store, id: Id, request: Request)
    requires Inv(s) && MayAccept(s, id, request)
    ensures Inv(Accepted(s, id, request))
  {
    hide AttemptsOk, PlacesDiffer, PlacesCovered, Sound, SessionsRooted, OnePending, StatusesOk;
    AcceptKeepsPlaces(s, id, request);
    AcceptKeepsStatuses(s, id, request);
    AcceptKeepsRoots(s, id, request);
    AcceptKeepsAttempts(s, id, request);
    AcceptKeepsPending(s, id, request);
    KeysLast(s, Accepted(s, id, request));
  }

  lemma AcceptKeepsRoots(s: Store, id: Id, request: Request)
    requires SessionsRooted(s) && MayAccept(s, id, request)
    ensures SessionsRooted(Accepted(s, id, request))
  {
    hide ActiveOf;
    var t := Accepted(s, id, request);
    forall sid | sid in t.sessions ensures Rooted(t, sid) {
      if sid in s.sessions {
        assert Rooted(s, sid);
      }
    }
  }

  // ---- runs ------------------------------------------------------------------------------------------

  lemma ApplyKeeps(s: Store, e: Effect)
    requires Inv(s)
    ensures Inv(Apply(s, e))
  {
    hide Inv, Carried, Admissible, Allowed, Truthful, StatusOk, KeepsResults, IsStatusEffect, Cleared;
    if Enabled(s, e) {
      match e
      case Accept(id, request, _) => AcceptKeeps(s, id, request);
      case StopForRisk(id, strategy) => AttemptEffectKeeps(s, id, s.requests[id].(riskStop := Some(strategy)));
      case Journaled(entry) => JournaledKeeps(s, entry);
      case Activate(id) =>
        ActivationIsOk(s, id);
        StatusEffectKeeps(s, id, s.sessions[s.requests[id].request.session].(status := Active));
      case Append(id) => AppendKeeps(s, id);
      case Close(id, cause) =>
        ClosingIsOk(s, id, cause);
        StatusEffectKeeps(s, id, ClosedSession(s.sessions[s.requests[id].request.session], Closing(id, cause)));
      case Finish(id, outcome, failed) =>
        AttemptEffectKeeps(s, id, s.requests[id].(result := Some(Conclusion(failed, outcome, PlanOf(s, id)))));
    }
  }

  lemma {:induction false} RunKeeps(s: Store, effects: seq<Effect>)
    requires Inv(s)
    ensures Inv(Run(s, effects))
    decreases |effects|
  {
    hide Inv, Apply;
    if effects == [] {
    } else {
      ApplyKeeps(s, effects[0]);
      RunKeeps(Apply(s, effects[0]), effects[1..]);
    }
  }
}
