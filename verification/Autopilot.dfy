// The autopilot on top of the controller: an intent is stored before its request is executed, and
// settled in one write once the request has a result.
module Autopilot {
  import opened Wrappers
  import opened Journal
  import opened Controller
  import opened ControllerRuns
  import opened Endings
  import opened Executor
  import R = Rollover

  // A rollover as proposed: the replacement, the decimals and the time of the block it was read at.
  datatype Rolled = Rolled(strategy: R.Strategy, decimals: seq<int>, now: nat)

  datatype Intent = Intent(id: Id, request: Request, anchor: nat, rolled: Option<Rolled>)

  datatype Counted = Counted(id: Id, rolled: Rolled, minedAt: nat)

  // `settled` and `counted` are the model's own record of the intents that were settled and of the
  // rollovers among them, oldest first.
  datatype Auto = Auto(
    policy: R.Policy, rebalances: nat, lastAt: nat, anchor: Option<nat>, pending: Option<Intent>,
        halted: Option<string>,
    settled: seq<Id>, counted: seq<Counted>)

  // The compiler of strategies, whose hash stands for what was compiled.
  type Compiler = R.Strategy -> Strategy

  datatype Whole = Whole(autos: map<Id, Auto>, store: Store, compile: Compiler)

  // ---- moves -----------------------------------------------------------------------------------

  datatype Move =
    | Execute(effect: Effect)
    | Adopt(session: Id, policy: R.Policy)
    | Intend(session: Id, intent: Intent)
    | Settle(session: Id, minedAt: nat)

  // The autopilot has settled the intent of this id, or has it pending.
  predicate Knows(a: Auto, id: Id) {
    id in a.settled || (a.pending.Some? && a.pending.value.id == id)
  }

  predicate IsUsed(w: Whole, id: Id) {
    id in w.store.requests || exists sid :: sid in w.autos && Knows(w.autos[sid], id)
  }

  predicate HasResult(s: Store, intent: Intent) {
    intent.id in s.requests && s.requests[intent.id].request == intent.request && s.requests[intent.id].result.Some?
  }

  // Within the budget of rollovers, and no sooner after the last one than the cooldown.
  predicate Paced(a: Auto, now: nat) {
    a.rebalances < a.policy.maxRebalances && a.lastAt + a.policy.cooldownSec <= now
  }

  // The hash of the k-th strategy of a plan, the original one being the 0th.
  function HashAt(plan: Plan, k: nat): string
    requires k <= |plan.rebalances|
  {
    if k == 0 then plan.strategy.hash else plan.rebalances[k - 1].strategy.hash
  }

  // No strategy comes back, as no strategy hash can be shipped twice.
  predicate NoneReturns(plan: Plan) {
    forall i, j :: 0 <= i < j <= |plan.rebalances| ==> HashAt(plan, i) != HashAt(plan, j)
  }

  predicate Distinct(s: Store, sid: Id) {
    sid in s.sessions ==> NoneReturns(s.sessions[sid].plan)
  }

  predicate Banded(rolled: Rolled, policy: R.Policy) {
    R.InBand(rolled.strategy.tokens, rolled.decimals, policy, rolled.strategy.program)
  }

  // A rebalance is requested for the compiled replacement, and for nothing else.
  predicate Requests(intent: Intent, compile: Compiler) {
    intent.request.action.Rebalance? ==>
      intent.rolled.Some? && intent.request.action.next == compile(intent.rolled.value.strategy)
  }

  predicate MayIntend(w: Whole, sid: Id, intent: Intent)
    requires sid in w.autos
  {
    intent.request.action.Rebalance? ==>
      Requests(intent, w.compile) && Banded(intent.rolled.value, w.autos[sid].policy)
          && (Distinct(w.store, sid) ==> Paced(w.autos[sid], intent.rolled.value.now))
  }

  predicate CanMove(w: Whole, m: Move) {
    match m
    case Execute(_) => true
    case Adopt(sid, _) => sid !in w.autos
    case Intend(sid, intent) =>
      sid in w.autos && w.autos[sid].pending.None? && intent.request.session == sid && !IsUsed(w, intent.id)
          && NothingPending(w.store.requests) && MayIntend(w, sid, intent)
    case Settle(sid, _) =>
      sid in w.autos && w.autos[sid].pending.Some? && HasResult(w.store, w.autos[sid].pending.value)
  }

  predicate Counts(a: Auto, conclusion: Conclusion)
    requires a.pending.Some?
  {
    conclusion.outcome == REBALANCED && a.pending.value.rolled.Some?
  }

  function SettledAuto(a: Auto, conclusion: Conclusion, minedAt: nat): Auto
    requires a.pending.Some?
  {
    var b := if conclusion.failed then a.(halted := Some(conclusion.outcome)) else a;
    var c := if conclusion.outcome == REBALANCED
        then b.(rebalances := b.rebalances + 1, lastAt := minedAt, anchor := Some(a.pending.value.anchor)) else b;
    c.(pending := None, settled := a.settled + [a.pending.value.id],
       counted := if Counts(a, conclusion)
           then a.counted + [Counted(a.pending.value.id, a.pending.value.rolled.value, minedAt)] else a.counted)
  }

  function Make(w: Whole, m: Move): Whole {
    if !CanMove(w, m) then w
    else
      match m
      case Execute(effect) => w.(store := Apply(w.store, effect))
      case Adopt(sid, policy) => w.(autos := w.autos[sid := Auto(policy, 0, 0, None, None, None, [], [])])
      case Intend(sid, intent) => w.(autos := w.autos[sid := w.autos[sid].(pending := Some(intent))])
      case Settle(sid, minedAt) =>
        var a := w.autos[sid];
        w.(autos := w.autos[sid := SettledAuto(a, w.store.requests[a.pending.value.id].result.value, minedAt)])
  }

  function Play(w: Whole, moves: seq<Move>): Whole
    decreases |moves|
  {
    if moves == [] then w else Play(Make(w, moves[0]), moves[1..])
  }

  // ---- counting ----------------------------------------------------------------------------------

  predicate IsRollover(s: Store, id: Id) {
    id in s.requests && s.requests[id].result.Some? && s.requests[id].result.value.outcome == REBALANCED
  }

  function CountRollovers(s: Store, ids: seq<Id>): nat {
    if ids == [] then 0 else CountRollovers(s, ids[..|ids| - 1]) + if IsRollover(s, ids[|ids| - 1]) then 1 else 0
  }

  predicate Finished(s: Store, sid: Id, id: Id) {
    id in s.requests && s.requests[id].request.session == sid && s.requests[id].result.Some?
  }

  // Each counted rollover was proposed a cooldown after the one before it was mined.
  predicate PacedSince(a: Auto, i: nat)
    requires i < |a.counted|
  {
    a.counted[i].rolled.now >= (if i == 0 then 0 else a.counted[i - 1].minedAt) + a.policy.cooldownSec
  }

  predicate BudgetOk(a: Auto) {
    && a.rebalances <= a.policy.maxRebalances && (forall i :: 0 <= i < |a.counted| ==> PacedSince(a, i))
    && (a.pending.Some? && a.pending.value.request.action.Rebalance? && a.pending.value.rolled.Some?
       ==> Paced(a, a.pending.value.rolled.value.now))
  }

  predicate CountedOk(a: Auto, compile: Compiler) {
    && |a.counted| == a.rebalances && a.lastAt == (if a.counted == [] then 0 else a.counted[|a.counted| - 1].minedAt)
    && (forall i :: 0 <= i < |a.counted| ==> Banded(a.counted[i].rolled, a.policy))
    && (a.pending.Some? && a.pending.value.request.action.Rebalance? ==>
          Requests(a.pending.value, compile) && Banded(a.pending.value.rolled.value, a.policy))
  }

  // A counted rollover is a request of the session that ended as a rebalance to the compiled replacement.
  predicate IsRun(s: Store, sid: Id, c: Counted, compile: Compiler) {
    && IsRollover(s, c.id) && s.requests[c.id].request.session == sid && s.requests[c.id].request.action.Rebalance?
    && s.requests[c.id].request.action.next == compile(c.rolled.strategy)
  }

  predicate RunsOk(s: Store, sid: Id, a: Auto, compile: Compiler) {
    && (forall i :: 0 <= i < |a.counted| ==> IsRun(s, sid, a.counted[i], compile) && a.counted[i].id in a.settled)
    && (forall i, j :: 0 <= i < j < |a.counted| ==> a.counted[i].id != a.counted[j].id)
  }

  // The counter counts the settled rollovers, and no intent is settled twice.
  predicate SettledOk(s: Store, sid: Id, a: Auto) {
    && a.rebalances == CountRollovers(s, a.settled)
    && (forall i :: 0 <= i < |a.settled| ==> Finished(s, sid, a.settled[i]))
    && (forall i, j :: 0 <= i < j < |a.settled| ==> a.settled[i] != a.settled[j])
    && (a.pending.Some? ==> a.pending.value.request.session == sid && a.pending.value.id !in a.settled)
  }

  ghost predicate AutoOk(s: Store, sid: Id, a: Auto, compile: Compiler) {
    CountedOk(a, compile) && (Distinct(s, sid) ==> BudgetOk(a)) && SettledOk(s, sid, a) && RunsOk(s, sid, a, compile)
  }

  ghost predicate AutosOk(w: Whole) {
    forall sid {:trigger w.autos[sid]} :: sid in w.autos ==> AutoOk(w.store, sid, w.autos[sid], w.compile)
  }

  ghost predicate Good(w: Whole) {
    Inv(w.store) && AutosOk(w)
  }

  lemma {:induction false} CountLasts(s: Store, t: Store, sid: Id, ids: seq<Id>)
    requires Evolves(s, t) && forall i :: 0 <= i < |ids| ==> Finished(s, sid, ids[i])
    ensures CountRollovers(t, ids) == CountRollovers(s, ids) && forall i :: 0 <= i < |ids| ==> Finished(t, sid, ids[i])
    decreases |ids|
  {
    if ids == [] {
    } else {
      CountLasts(s, t, sid, ids[..|ids| - 1]);
      assert Finished(s, sid, ids[|ids| - 1]) && Lasting(s.requests[ids[|ids| - 1]], t.requests[ids[|ids| - 1]]);
    }
  }

  lemma ExecuteKeeps(w: Whole, effect: Effect)
    requires Good(w)
    ensures Good(Make(w, Execute(effect)))
  {
    hide Inv, Apply, Evolves, CountRollovers, Finished, AutoOk;
    ApplyKeeps(w.store, effect);
    StepEvolves(w.store, effect);
    forall sid | sid in w.autos ensures AutoOk(Apply(w.store, effect), sid, w.autos[sid], w.compile) {
      assert AutoOk(w.store, sid, w.autos[sid], w.compile);
      AutoLasts(w.store, Apply(w.store, effect), sid, w.autos[sid], w.compile);
    }
  }

  lemma AutoLasts(s: Store, t: Store, sid: Id, a: Auto, compile: Compiler)
    requires Evolves(s, t) && AutoOk(s, sid, a, compile)
    ensures AutoOk(t, sid, a, compile)
  {
    CountLasts(s, t, sid, a.settled);
    DistinctEarlier(s, t, sid);
    RunsLast(s, t, sid, a, compile);
    hide Evolves, CountRollovers, Finished, CountedOk, BudgetOk, Distinct, RunsOk;
  }

  lemma RunsLast(s: Store, t: Store, sid: Id, a: Auto, compile: Compiler)
    requires Evolves(s, t) && RunsOk(s, sid, a, compile)
    ensures RunsOk(t, sid, a, compile)
  {
    forall i | 0 <= i < |a.counted| ensures IsRun(t, sid, a.counted[i], compile) && a.counted[i].id in a.settled {
      assert IsRun(s, sid, a.counted[i], compile);
      assert Lasting(s.requests[a.counted[i].id], t.requests[a.counted[i].id]);
    }
  }

  lemma DistinctEarlier(s: Store, t: Store, sid: Id)
    requires Evolves(s, t)
    ensures Distinct(t, sid) ==> Distinct(s, sid)
  {
    if sid in s.sessions && Distinct(t, sid) {
      var a, b := s.sessions[sid], t.sessions[sid];
      assert Continues(a, b);
      forall i, j | 0 <= i < j <= |a.plan.rebalances| ensures HashAt(a.plan, i) != HashAt(a.plan, j) {
        assert HashAt(a.plan, i) == HashAt(b.plan, i) && HashAt(a.plan, j) == HashAt(b.plan, j);
      }
    }
  }

  lemma SettledIsSettled(s: Store, sid: Id, a: Auto, minedAt: nat)
    requires SettledOk(s, sid, a) && a.pending.Some? && HasResult(s, a.pending.value)
    ensures SettledOk(s, sid, SettledAuto(a, s.requests[a.pending.value.id].result.value, minedAt))
  {
    var b := SettledAuto(a, s.requests[a.pending.value.id].result.value, minedAt);
    assert b.settled[..|b.settled| - 1] == a.settled;
  }

  lemma SettledRuns(s: Store, sid: Id, a: Auto, minedAt: nat, compile: Compiler)
    requires RunsOk(s, sid, a, compile) && a.pending.Some? && HasResult(s, a.pending.value)
    requires a.pending.value.request.session == sid && a.pending.value.id !in a.settled
    requires IsRollover(s, a.pending.value.id) ==> a.pending.value.request.action.Rebalance?
    requires Requests(a.pending.value, compile)
    ensures RunsOk(s, sid, SettledAuto(a, s.requests[a.pending.value.id].result.value, minedAt), compile)
  {
    var b := SettledAuto(a, s.requests[a.pending.value.id].result.value, minedAt);
    forall i | 0 <= i < |b.counted| ensures IsRun(s, sid, b.counted[i], compile) && b.counted[i].id in b.settled {
      if i < |a.counted| {
        assert IsRun(s, sid, a.counted[i], compile) && a.counted[i].id in a.settled;
      } else {
        assert b.settled[|a.settled|] == a.pending.value.id;
      }
    }
    forall i, j | 0 <= i < j < |b.counted| ensures b.counted[i].id != b.counted[j].id {
      assert a.counted[i].id in a.settled;
    }
  }

  lemma SettledIsOk(s: Store, sid: Id, a: Auto, minedAt: nat, compile: Compiler)
    requires Inv(s) && AutoOk(s, sid, a, compile) && a.pending.Some? && HasResult(s, a.pending.value)
    ensures AutoOk(s, sid, SettledAuto(a, s.requests[a.pending.value.id].result.value, minedAt), compile)
  {
    RebalancedIsRebalance(s, a.pending.value.id);
    SettlingKeepsBudget(a, s.requests[a.pending.value.id].result.value, minedAt, compile);
    SettledIsSettled(s, sid, a, minedAt);
    SettledRuns(s, sid, a, minedAt, compile);
    hide Inv, CountedOk, BudgetOk, Distinct, SettledOk, SettledAuto, RunsOk;
  }

  lemma SettleKeeps(w: Whole, sid: Id, minedAt: nat)
    requires Good(w) && CanMove(w, Settle(sid, minedAt))
    ensures Good(Make(w, Settle(sid, minedAt)))
  {
    hide Inv, AutoOk, SettledAuto;
    assert AutoOk(w.store, sid, w.autos[sid], w.compile);
    SettledIsOk(w.store, sid, w.autos[sid], minedAt, w.compile);
  }

  lemma IntendKeeps(w: Whole, sid: Id, intent: Intent)
    requires Good(w) && CanMove(w, Intend(sid, intent))
    ensures Good(Make(w, Intend(sid, intent)))
  {
    assert AutoOk(w.store, sid, w.autos[sid], w.compile);
    IntendedIsOk(w, sid, intent);
    hide Inv, AutoOk, MayIntend, IsUsed;
  }

  lemma IntendedIsOk(w: Whole, sid: Id, intent: Intent)
    requires sid in w.autos && AutoOk(w.store, sid, w.autos[sid], w.compile) && CanMove(w, Intend(sid, intent))
    ensures AutoOk(w.store, sid, w.autos[sid].(pending := Some(intent)), w.compile)
  {
    IntendedIsPaced(w.autos[sid], intent, w.compile);
    IntendedIsSettled(w, sid, intent);
    hide BudgetOk, CountedOk, SettledOk, Distinct, Banded, Paced, IsUsed, IsRun;
  }

  lemma IntendedIsSettled(w: Whole, sid: Id, intent: Intent)
    requires sid in w.autos && SettledOk(w.store, sid, w.autos[sid]) && !IsUsed(w, intent.id)
             && intent.request.session == sid
    ensures SettledOk(w.store, sid, w.autos[sid].(pending := Some(intent)))
  {
  }

  lemma IntendedIsPaced(a: Auto, intent: Intent, compile: Compiler)
    requires CountedOk(a, compile)
    requires intent.request.action.Rebalance? ==>
               Requests(intent, compile) && Banded(intent.rolled.value, a.policy)
    ensures CountedOk(a.(pending := Some(intent)), compile)
    ensures BudgetOk(a) && (intent.request.action.Rebalance? ==> Paced(a, intent.rolled.value.now))
            ==> BudgetOk(a.(pending := Some(intent)))
  {
    hide Banded;
    var b := a.(pending := Some(intent));
    if BudgetOk(a) {
      forall i | 0 <= i < |b.counted| ensures PacedSince(b, i) {
        assert PacedSince(a, i);
      }
    }
  }

  lemma RebalancedIsRebalance(s: Store, id: Id)
    requires Inv(s) && id in s.requests && s.requests[id].result.Some?
    ensures s.requests[id].result.value.outcome == REBALANCED
            ==> s.requests[id].request.action.Rebalance? && !s.requests[id].result.value.failed
  {
    ResultIsTrue(s, id);
    hide Inv, Succeeded, ClosedFor;
  }

  lemma SettlingKeepsBudget(a: Auto, conclusion: Conclusion, minedAt: nat, compile: Compiler)
    requires CountedOk(a, compile) && a.pending.Some?
    requires conclusion.outcome == REBALANCED ==> a.pending.value.request.action.Rebalance?
    ensures CountedOk(SettledAuto(a, conclusion, minedAt), compile)
            && (BudgetOk(a) ==> BudgetOk(SettledAuto(a, conclusion, minedAt)))
  {
    hide Banded;
    var b := SettledAuto(a, conclusion, minedAt);
    if BudgetOk(a) {
      forall i | 0 <= i < |b.counted| ensures PacedSince(b, i) {
        assert i < |a.counted| ==> PacedSince(a, i);
      }
    }
  }

  lemma MoveKeeps(w: Whole, m: Move)
    requires Good(w)
    ensures Good(Make(w, m))
  {
    hide Inv, Apply, MayIntend, IsUsed, SettledAuto;
    if CanMove(w, m) {
      match m
      case Execute(effect) => ExecuteKeeps(w, effect);
      case Settle(sid, minedAt) => SettleKeeps(w, sid, minedAt);
      case Intend(sid, intent) => IntendKeeps(w, sid, intent);
      case Adopt(sid, policy) => assert CountRollovers(w.store, []) == 0;
    }
  }

  lemma {:induction false} PlayKeeps(w: Whole, moves: seq<Move>)
    requires Good(w)
    ensures Good(Play(w, moves))
    decreases |moves|
  {
    hide Good, Make;
    if moves == [] {
    } else {
      MoveKeeps(w, moves[0]);
      PlayKeeps(Make(w, moves[0]), moves[1..]);
    }
  }

  function Nothing(compile: Compiler): Whole {
    Whole(map[], EmptyStore(), compile)
  }

  lemma {:induction false} CompilerStays(w: Whole, moves: seq<Move>)
    ensures Play(w, moves).compile == w.compile
    decreases |moves|
  {
    hide Apply, CanMove;
    if moves == [] {
    } else {
      CompilerStays(Make(w, moves[0]), moves[1..]);
    }
  }

  // Over every run, with crashes anywhere and any other requests in between: the counter is the
  // number of settled intents whose request ended as a rebalance, no intent is settled twice, and a
  // counted one stands in its session's plan.
  lemma RolloversCountedOnce(compile: Compiler, moves: seq<Move>, sid: Id)
    requires sid in Play(Nothing(compile), moves).autos
    ensures var w := Play(Nothing(compile), moves); var a := w.autos[sid];
            && a.rebalances == CountRollovers(w.store, a.settled)
            && (forall i, j :: 0 <= i < j < |a.settled| ==> a.settled[i] != a.settled[j])
            && (a.pending.Some? ==> a.pending.value.id !in a.settled)
            && (forall i :: 0 <= i < |a.settled| && IsRollover(w.store, a.settled[i])
                            ==> Placed(w.store, a.settled[i]) && w.store.requests[a.settled[i]].request.session == sid)
  {
    hide Inv, Play, Placed, Approved, RunsOk;
    EmptyHolds();
    PlayKeeps(Nothing(compile), moves);
    var w := Play(Nothing(compile), moves);
    assert AutoOk(w.store, sid, w.autos[sid], w.compile);
    forall i | 0 <= i < |w.autos[sid].settled| && IsRollover(w.store, w.autos[sid].settled[i])
      ensures Placed(w.store, w.autos[sid].settled[i]) {
      RolloverIsPlaced(w.store, w.autos[sid].settled[i]);
    }
  }

  // What the plan holds at the place of a rebalance.
  ghost function EntryAt(s: Store, id: Id): Rebalanced
    requires Placed(s, id)
  {
    PlanOf(s, id).rebalances[|s.requests[id].before.rebalances|]
  }

  // Over every run each counted rollover is a request of its own whose entry in the session's plan is
  // the compiled form of a replacement inside the policy band.
  lemma AppendedRolloversAreInBand(compile: Compiler, moves: seq<Move>, sid: Id, i: nat)
    requires var w := Play(Nothing(compile), moves); sid in w.autos && i < |w.autos[sid].counted|
    ensures var w := Play(Nothing(compile), moves);
            var a := w.autos[sid];
            var c := a.counted[i];
            && Placed(w.store, c.id) && w.store.requests[c.id].request.session == sid
            && EntryAt(w.store, c.id).strategy == compile(c.rolled.strategy) && Banded(c.rolled, a.policy)
            && forall j :: 0 <= j < |a.counted| && a.counted[j].id == c.id ==> j == i
  {
    hide Inv, Play, Banded, Distinct, Approved, CountRollovers;
    EmptyHolds();
    PlayKeeps(Nothing(compile), moves);
    CompilerStays(Nothing(compile), moves);
    var w := Play(Nothing(compile), moves);
    var a := w.autos[sid];
    assert AutoOk(w.store, sid, a, compile);
    assert IsRun(w.store, sid, a.counted[i], compile);
    RolloverIsPlaced(w.store, a.counted[i].id);
  }

  // Over every run in which no strategy comes back to the plan: no more rollovers are counted than
  // the policy allows, and each was proposed at least a cooldown after the one before was mined, so
  // also mined that much later if its own block is no earlier than the one it was proposed at. A
  // strategy that came back could hide that a reading is stale.
  lemma RolloversKeepThePolicy(compile: Compiler, moves: seq<Move>, sid: Id)
    requires sid in Play(Nothing(compile), moves).autos
    ensures var w := Play(Nothing(compile), moves); var a := w.autos[sid];
            && |a.counted| == a.rebalances
            && (Distinct(w.store, sid) ==>
                  && a.rebalances <= a.policy.maxRebalances
                  && (forall i :: 0 < i < |a.counted| ==>
                        a.counted[i].rolled.now >= a.counted[i - 1].minedAt + a.policy.cooldownSec)
                  && (forall i :: 0 < i < |a.counted| && a.counted[i].minedAt >= a.counted[i].rolled.now ==>
                        a.counted[i].minedAt >= a.counted[i - 1].minedAt + a.policy.cooldownSec))
  {
    hide Inv, Play, Banded, Distinct, RunsOk;
    EmptyHolds();
    PlayKeeps(Nothing(compile), moves);
    var w := Play(Nothing(compile), moves);
    var a := w.autos[sid];
    assert AutoOk(w.store, sid, a, w.compile);
    if Distinct(w.store, sid) {
      forall i | 0 < i < |a.counted|
        ensures a.counted[i].rolled.now >= a.counted[i - 1].minedAt + a.policy.cooldownSec {
        assert PacedSince(a, i);
      }
    }
  }

  lemma RolloverIsPlaced(s: Store, id: Id)
    requires Inv(s) && IsRollover(s, id)
    ensures Placed(s, id)
  {
    assert AttemptOk(s, id);
  }

  // An intent is never lost: once stored it is the pending one until the move that settles it, and
  // settled from then on.
  predicate Traced(w: Whole, sid: Id, id: Id) {
    sid in w.autos && ((w.autos[sid].pending.Some? && w.autos[sid].pending.value.id == id)
        || id in w.autos[sid].settled)
  }

  lemma {:induction false} IntentsAreNeverLost(w: Whole, moves: seq<Move>, sid: Id, id: Id)
    requires Traced(w, sid, id)
    ensures Traced(Play(w, moves), sid, id)
    ensures id in w.autos[sid].settled ==> id in Play(w, moves).autos[sid].settled
    decreases |moves|
  {
    hide Apply;
    if moves == [] {
    } else {
      IntentsAreNeverLost(Make(w, moves[0]), moves[1..], sid, id);
    }
  }

  // The request of an intent is taken up by this move.
  predicate TakesUp(m: Move, intent: Intent) {
    m.Execute? && m.effect.Accept? && m.effect.id == intent.id && m.effect.request == intent.request
  }

  // Neither taken up, nor can it be any more.
  predicate Waits(w: Whole, sid: Id, intent: Intent) {
    && sid in w.autos && w.autos[sid].pending == Some(intent)
    && (intent.id in w.store.requests ==> w.store.requests[intent.id].request != intent.request)
  }

  // An intent ends only by its request being taken up in time.
  lemma {:induction false} UnacceptedIntentsStay(w: Whole, moves: seq<Move>, sid: Id, intent: Intent)
    requires Inv(w.store) && Waits(w, sid, intent)
    requires forall m :: m in moves && TakesUp(m, intent) ==> !InTime(intent.request.action, m.effect.time)
    ensures Waits(Play(w, moves), sid, intent)
    decreases |moves|
  {
    hide Inv, Make, InTime;
    if moves == [] {
    } else {
      WaitsOn(w, moves[0], sid, intent);
      UnacceptedIntentsStay(Make(w, moves[0]), moves[1..], sid, intent);
    }
  }

  lemma WaitsOn(w: Whole, m: Move, sid: Id, intent: Intent)
    requires Inv(w.store) && Waits(w, sid, intent)
             && (TakesUp(m, intent) ==> !InTime(intent.request.action, m.effect.time))
    ensures Inv(Make(w, m).store) && Waits(Make(w, m), sid, intent)
  {
    if m.Execute? {
      ApplyKeeps(w.store, m.effect);
      StepEvolves(w.store, m.effect);
      if intent.id in w.store.requests {
        assert Lasting(w.store.requests[intent.id], Apply(w.store, m.effect).requests[intent.id]);
      } else if intent.id in Apply(w.store, m.effect).requests {
        OnlyAcceptAdds(w.store, m.effect, intent.id);
      }
    }
    hide Inv, Apply, Evolves, SettledAuto, MayIntend, IsUsed;
  }

  lemma OnlyAcceptAdds(s: Store, e: Effect, id: Id)
    requires id !in s.requests && id in Apply(s, e).requests
    ensures e.Accept? && e.id == id && Apply(s, e).requests[id].request == e.request && InTime(e.request.action, e.time)
  {
    hide MayAppend, MayClose, Carried, Truthful, Allowed, Cleared, NothingInFlight, ActiveOf, Succeeded, InTime;
  }

  // From here on requests are taken up no earlier than t.
  predicate NotBefore(moves: seq<Move>, t: nat) {
    forall m :: m in moves && m.Execute? && m.effect.Accept? ==> m.effect.time >= t
  }

  ghost predicate RefusedForGood(w: Whole, sid: Id, intent: Intent, t: nat) {
    forall moves {:trigger NotBefore(moves, t)} :: NotBefore(moves, t) ==> Waits(Play(w, moves), sid, intent)
  }

  lemma InTimeEarlier(a: Action, time: nat, t: nat)
    requires InTime(a, time) && t <= time
    ensures InTime(a, t)
  {
  }

  // When the request of a stored intent is refused for good: exactly once its strategy's deadline has
  // passed. Before that, what the binding visit checked still lets it be taken up.
  lemma RefusedForGoodExactly(w: Whole, sid: Id, intent: Intent, t: nat)
    requires Inv(w.store) && sid in w.autos && w.autos[sid].pending == Some(intent) && intent.request.session == sid
    requires MayAccept(w.store, intent.id, intent.request)
    ensures RefusedForGood(w, sid, intent, t) <==> !InTime(intent.request.action, t)
  {
    hide Inv, MayAccept, Play, InTime;
    if InTime(intent.request.action, t) {
      var moves := TakenUp(w, sid, intent, t);
      assert NotBefore(moves, t) && !Waits(Play(w, moves), sid, intent);
    } else {
      forall moves | NotBefore(moves, t) ensures Waits(Play(w, moves), sid, intent) {
        forall m | m in moves && TakesUp(m, intent) ensures !InTime(intent.request.action, m.effect.time) {
          if InTime(intent.request.action, m.effect.time) {
            InTimeEarlier(intent.request.action, m.effect.time, t);
          }
        }
        WaitsUntaken(w, sid, intent);
        UnacceptedIntentsStay(w, moves, sid, intent);
      }
    }
  }

  lemma WaitsUntaken(w: Whole, sid: Id, intent: Intent)
    requires sid in w.autos && w.autos[sid].pending == Some(intent) && MayAccept(w.store, intent.id, intent.request)
    ensures Waits(w, sid, intent)
  {
  }

  lemma TakenUp(w: Whole, sid: Id, intent: Intent, t: nat) returns (moves: seq<Move>)
    requires sid in w.autos && w.autos[sid].pending == Some(intent)
    requires MayAccept(w.store, intent.id, intent.request) && InTime(intent.request.action, t)
    ensures NotBefore(moves, t) && !Waits(Play(w, moves), sid, intent)
  {
    var e := Accept(intent.id, intent.request, t);
    moves := [Execute(e)];
    assert moves[1..] == [];
    hide Admissible, InTime;
    assert Apply(w.store, e) == Accepted(w.store, intent.id, intent.request);
    assert Play(w, moves) == Play(Make(w, moves[0]), []);
  }

  lemma {:induction false} PolicyIsBound(w: Whole, moves: seq<Move>, sid: Id)
    requires sid in w.autos
    ensures sid in Play(w, moves).autos && Play(w, moves).autos[sid].policy == w.autos[sid].policy
            && Play(w, moves).autos[sid].rebalances >= w.autos[sid].rebalances
    decreases |moves|
  {
    hide Apply;
    if moves == [] {
    } else {
      PolicyIsBound(Make(w, moves[0]), moves[1..], sid);
    }
  }

  // ---- the code ------------------------------------------------------------------------------------

  ghost predicate Leads(w: Whole, v: Whole) {
    exists moves :: Play(w, moves) == v
  }

  predicate StoresNothing(moves: seq<Move>) {
    forall m :: m in moves ==> !m.Intend?
  }

  // A run that stores no intent.
  ghost predicate Passes(w: Whole, v: Whole) {
    exists moves :: Play(w, moves) == v && StoresNothing(moves)
  }

  // A run that stores this intent, by a move the protocol allows where it is made, and no other.
  ghost predicate Stores(w: Whole, v: Whole, sid: Id, intent: Intent) {
    exists u :: Passes(w, u) && CanMove(u, Intend(sid, intent)) && Passes(Make(u, Intend(sid, intent)), v)
  }

  lemma PassesLeads(w: Whole, v: Whole)
    requires Passes(w, v)
    ensures Leads(w, v)
  {
    var moves :| Play(w, moves) == v && StoresNothing(moves);
    hide Play;
  }

  lemma PassesItself(w: Whole)
    ensures Passes(w, w)
  {
    assert Play(w, []) == w && StoresNothing([]);
  }

  lemma {:induction false} PlaySplits(w: Whole, a: seq<Move>, b: seq<Move>)
    ensures Play(w, a + b) == Play(Play(w, a), b)
    decreases |a|
  {
    hide Make;
    if a == [] {
      assert a + b == b;
    } else {
      assert (a + b)[1..] == a[1..] + b;
      PlaySplits(Make(w, a[0]), a[1..], b);
    }
  }

  lemma PassesOn(a: Whole, b: Whole, c: Whole)
    requires Passes(a, b) && Passes(b, c)
    ensures Passes(a, c)
  {
    var x :| Play(a, x) == b && StoresNothing(x);
    var y :| Play(b, y) == c && StoresNothing(y);
    hide Play;
    PlaySplits(a, x, y);
    assert StoresNothing(x + y);
  }

  lemma PassesKeeps(a: Whole, b: Whole)
    requires Passes(a, b) && Good(a)
    ensures Good(b)
  {
    var x :| Play(a, x) == b && StoresNothing(x);
    hide Play, Good;
    PlayKeeps(a, x);
  }

  lemma OneMove(w: Whole, m: Move)
    requires !m.Intend?
    ensures Passes(w, Make(w, m))
  {
    hide Make;
    assert [m][1..] == [] && Play(Make(w, m), []) == Make(w, m);
    assert Play(w, [m]) == Play(Make(w, m), [m][1..]) && StoresNothing([m]);
  }

  // What the controller did is a run of moves.
  lemma {:induction false} EffectsAreMoves(w: Whole, effects: seq<Effect>)
    ensures Passes(w, w.(store := Run(w.store, effects)))
    decreases |effects|
  {
    hide Apply, Passes;
    if effects == [] {
      PassesItself(w);
      assert w == w.(store := Run(w.store, effects));
    } else {
      var v := w.(store := Apply(w.store, effects[0]));
      OneMove(w, Execute(effects[0]));
      EffectsAreMoves(v, effects[1..]);
      PassesOn(w, v, w.(store := Run(w.store, effects)));
    }
  }

  datatype Ticked = Held(reason: string) | Proposed(action: Action) | Completed(conclusion: Conclusion) | Thrown

  class Pilot {
    var autos: map<Id, Auto>
    const controller: ExecutionController
    const trusted: Strategy -> bool
    // A strategy's hash stands for its content; `compilable` is the parser and compiler of requests.
    const decode: Strategy -> R.Strategy
    const compile: Compiler
    const compilable: R.Strategy -> bool

    ghost function State(): Whole
      reads this, controller, controller.sender
    {
      Whole(autos, controller.State(), compile)
    }

    constructor (trusted: Strategy -> bool, decode: Strategy -> R.Strategy, compile: Compiler,
                 compilable: R.Strategy -> bool)
      ensures State() == Nothing(compile) && fresh(controller) && fresh(controller.sender) && this.trusted == trusted
      ensures this.decode == decode && this.compile == compile && this.compilable == compilable
    {
      autos, this.trusted, this.decode, this.compile, this.compilable := map[], trusted, decode, compile, compilable;
      controller := new ExecutionController();
    }

    // executeRequest, as one visit to the store.
    method Run(id: Id, request: Request) returns (r: Execution)
      requires Good(State())
      modifies controller, controller.sender
      ensures Good(State()) && Passes(old(State()), State())
      ensures r.Done? ==> id in controller.requests && controller.requests[id].request == request
                          && controller.requests[id].result == Some(r.conclusion)
    {
      hide Inv, Passes, AutosOk, Evolves, Controller.Run;
      var answers: Answers := *;
      r := controller.ExecuteRequest(id, request, trusted, answers);
      ghost var effects :| Controller.Run(old(controller.State()), effects) == controller.State();
      EffectsAreMoves(old(State()), effects);
      assert State() == old(State()).(store := Controller.Run(old(controller.State()), effects));
      PassesKeeps(old(State()), State());
    }

    // The first visit of a tick: bind the policy.
    method Load(sid: Id, policy: R.Policy, execute: bool) returns (r: Result<Auto>)
      requires Good(State())
      modifies this
      ensures Good(State()) && Passes(old(State()), State())
      ensures r.Success? ==> r.value.policy == policy && (execute ==> sid in autos && autos[sid] == r.value)
      ensures r.Failure? <==> sid in old(autos) && old(autos[sid]).policy != policy
    {
      hide Good, Passes;
      PassesItself(State());
      if sid in autos {
        return if autos[sid].policy != policy then Failure("autopilot policy is bound to this session")
            else Success(autos[sid]);
      }
      var state := Auto(policy, 0, 0, None, None, None, [], []);
      if execute {
        OneMove(State(), Adopt(sid, policy));
        MoveKeeps(State(), Adopt(sid, policy));
        autos := autos[sid := state];
      }
      return Success(state);
    }

    // The visit that stores an intent, if nothing has changed since the reads.
    method Bind(sid: Id, intent: Intent, seen: Strategy) returns (ok: bool)
      requires Good(State()) && sid in autos && intent.request.session == sid
      requires !IsUsed(State(), intent.id) && MayBind(State(), sid, intent, seen)
      modifies this
      ensures Good(State())
      ensures State() == if ok then Make(old(State()), Intend(sid, intent)) else old(State())
      ensures ok ==> CanMove(old(State()), Intend(sid, intent))
      ensures ok <==> old(autos[sid]).pending.None? && sid in controller.sessions
                      && controller.sessions[sid].status.Active?
                      && ActiveOf(controller.sessions[sid].plan).hash == seen.hash
                         && NothingPending(controller.requests)
    {
      hide Good, Banded, Distinct;
      if autos[sid].pending.Some? || sid !in controller.sessions || !controller.sessions[sid].status.Active?
         || ActiveOf(controller.sessions[sid].plan).hash != seen.hash || !NothingPending(controller.requests) {
        return false;
      }
      MoveKeeps(State(), Intend(sid, intent));
      autos := autos[sid := autos[sid].(pending := Some(intent))];
      return true;
    }

    // The visit that settles an intent whose request is done, unless another process has done so.
    method SettleIntent(sid: Id, intent: Intent, conclusion: Conclusion, minedAt: nat)
      requires Good(State()) && HasResult(State().store, intent)
               && controller.requests[intent.id].result == Some(conclusion)
      modifies this
      ensures Good(State()) && Passes(old(State()), State())
      ensures sid in old(autos) && old(autos[sid]).pending == Some(intent)
              ==> sid in autos && autos[sid] == SettledAuto(old(autos[sid]), conclusion, minedAt)
      ensures !(sid in old(autos) && old(autos[sid]).pending == Some(intent)) ==> autos == old(autos)
      ensures !(sid in autos && autos[sid].pending == Some(intent))
    {
      hide Good, Passes;
      PassesItself(State());
      if sid in autos && autos[sid].pending == Some(intent) {
        OneMove(State(), Settle(sid, minedAt));
        MoveKeeps(State(), Settle(sid, minedAt));
        var saved := autos[sid];
        if conclusion.failed {
          saved := saved.(halted := Some(conclusion.outcome));
        }
        if conclusion.outcome == REBALANCED {
          saved := saved.(rebalances := saved.rebalances + 1, lastAt := minedAt, anchor := Some(intent.anchor));
        }
        autos := autos[sid := saved.(pending := None, settled := saved.settled + [intent.id],
                                     counted := if Counts(autos[sid], conclusion)
                                         then saved.counted + [Counted(intent.id, intent.rolled.value, minedAt)]
                                         else saved.counted)];
      }
    }

    // Between two visits other processes may do any number of requests and settlements.
    method Others(visits: nat)
      requires Good(State())
      modifies this, controller, controller.sender
      ensures Good(State()) && Passes(old(State()), State())
    {
      hide Good, Passes;
      PassesItself(State());
      for i := 0 to visits
        invariant Good(State()) && Passes(old(State()), State())
      {
        label Visit:
        PassesItself(State());
        if * {
          var id: Id, request: Request := *, *;
          var r := Run(id, request);
        } else if * {
          var sid: Id, minedAt: nat := *, *;
          if sid in autos && autos[sid].pending.Some? {
            var intent := autos[sid].pending.value;
            if intent.id in controller.requests && controller.requests[intent.id].request == intent.request
                && controller.requests[intent.id].result.Some? {
              SettleIntent(sid, intent, controller.requests[intent.id].result.value, minedAt);
            }
          }
        } else if * {
          var sid: Id, policy: R.Policy := *, *;
          var loaded := Load(sid, policy, true);
        }
        PassesOn(old(State()), old@Visit(State()), State());
      }
    }

    // Run the pending intent's request and settle it, whoever has run or settled it before.
    method FinishPending(sid: Id, intent: Intent, execute: bool) returns (r: Ticked)
      requires Good(State())
      modifies this, controller, controller.sender
      ensures Good(State()) && Passes(old(State()), State())
      ensures !execute ==> r == Proposed(intent.request.action) && State() == old(State())
      ensures r.Completed? ==>
                && HasResult(State().store, intent)
                && State().store.requests[intent.id].result == Some(r.conclusion)
                && !(sid in autos && autos[sid].pending == Some(intent))
    {
      hide Good, Passes, SettledAuto;
      PassesItself(State());
      if !execute {
        return Proposed(intent.request.action);
      }
      var done := Run(intent.id, intent.request);
      if !done.Done? {
        return Thrown;
      }
      label Ran:
      var visits: nat := *;
      Others(visits);
      PassesOn(old(State()), old@Ran(State()), State());
      PassesLeads(old@Ran(State()), State());
      ResultsLast(old@Ran(State()), State(), intent.id);
      var minedAt: nat := *;
      if * {
        // The read of the block failed, or the process stops.
        return Thrown;
      }
      label Settling:
      SettleIntent(sid, intent, done.conclusion, minedAt);
      PassesOn(old(State()), old@Settling(State()), State());
      return Completed(done.conclusion);
    }

    // What proposeRollover answers to some reading of balances, price and decimals, at the time `rolled` has.
    ghost predicate ByRule(active: Strategy, progress: R.Progress, policy: R.Policy, rolled: Rolled, anchor: nat) {
      exists balances: seq<int>, price: int {:trigger Rule(active, progress, policy, rolled, balances, price)} ::
        && Rule(active, progress, policy, rolled, balances, price).Success?
        && Rule(active, progress, policy, rolled, balances, price).value.Rebalance?
        && Rule(active, progress, policy, rolled, balances, price).value.strategy == rolled.strategy
        && Rule(active, progress, policy, rolled, balances, price).value.anchor == anchor
    }

    function Rule(active: Strategy, progress: R.Progress, policy: R.Policy, rolled: Rolled, balances: seq<int>,
        price: int)
        : Result<R.Proposal>
    {
      R.ProposeRollover(decode(active), balances, rolled.decimals, price, rolled.now, policy, progress, compilable)
    }

    function ProgressOf(state: Auto): R.Progress {
      R.Progress(state.rebalances, state.lastAt, state.anchor)
    }

    // A dock, or a rebalance of the active strategy to the compiled replacement the rule gives, inside the
    // policy and not halted.
    ghost predicate IsProposed(active: Strategy, state: Auto, policy: R.Policy, action: Action, anchor: nat,
        rolled: Option<Rolled>) {
      || (action == Dock(active.hash, false) && rolled.None?)
      || (&& rolled.Some? && action == Controller.Rebalance(active.hash, compile(rolled.value.strategy))
          && ByRule(active, ProgressOf(state), policy, rolled.value, anchor)
          && Banded(rolled.value, policy) && state.halted.None?
          && state.rebalances < policy.maxRebalances && state.lastAt + policy.cooldownSec <= rolled.value.now)
    }

    // proposeRollover on what was read, or a dock when the loss limit is breached.
    method Propose(active: Strategy, state: Auto,
        policy: R.Policy) returns (r: Result<Option<(Action, nat, Option<Rolled>)>>)
      ensures r.Success? && r.value.Some? ==>
                IsProposed(active, state, policy, r.value.value.0, r.value.value.1, r.value.value.2)
    {
      hide R.InBand;
      var balances: seq<int>, decimals: seq<int>, price: nat, now: nat, breached: bool := *, *, *, *, *;
      if breached {
        return Success(Some((Dock(active.hash, false), price, None)));
      }
      if state.halted.Some? {
        return Success(None);
      }
      R.RolloverIsSound(decode(active), balances, decimals, price, now, policy, ProgressOf(state), compilable);
      hide R.ProposeRollover;
      var proposal :- R.ProposeRollover(decode(active), balances, decimals, price, now, policy, ProgressOf(state),
          compilable);
      if proposal.Hold? {
        return Success(None);
      }
      var rolled := Rolled(proposal.strategy, decimals, now);
      assert Rule(active, ProgressOf(state), policy, rolled, balances, price) == Success(proposal);
      return Success(Some((Controller.Rebalance(active.hash, compile(proposal.strategy)), proposal.anchor,
          Some(rolled))));
    }

    // autopilotTick: one read and decision, or one durable action. The session is read before the
    // policy is loaded, and both are used in later visits to the store.
    // `stored` is the intent the tick has stored, if any, and `state` the autopilot's state it was made from.
    method Tick(sid: Id, policy: R.Policy, execute: bool)
        returns (r: Ticked, ghost stored: Option<Intent>, ghost state: Auto)
      requires Good(State())
      modifies this, controller, controller.sender
      ensures Good(State())
      ensures stored.None? ==> Passes(old(State()), State())
      ensures stored.Some? ==> execute && Stores(old(State()), State(), sid, stored.value)
      ensures sid in old(autos) && old(autos[sid]).policy != policy ==> r == Thrown && State() == old(State())
      ensures stored.Some? ==>
                var i := stored.value;
                && sid in old(controller.sessions) && state.policy == policy && state.pending.None?
                && IsProposed(ActiveOf(old(controller.sessions[sid].plan)), state, policy, i.request.action,
                       i.anchor, i.rolled)
    {
      hide Good, Passes, IsUsed, Banded, Distinct, R.InBand, ByRule;
      stored, state := None, Auto(policy, 0, 0, None, None, None, [], []);
      PassesItself(State());
      if sid !in controller.sessions {
        r := Thrown;
        return;
      }
      var seen, active := ActiveOf(controller.sessions[sid].plan), controller.sessions[sid].status.Active?;
      if sid in autos && autos[sid].policy != policy {
        r := Thrown;
        return;
      }
      ghost var read := State();
      var visits: nat := *;
      Others(visits);
      label Loading:
      PassesOn(old(State()), read, State());
      var loaded := Load(sid, policy, execute);
      PassesOn(old(State()), old@Loading(State()), State());
      if loaded.Failure? {
        PassesLeads(old(State()), old@Loading(State()));
        PoliciesStay(old(State()), old@Loading(State()), sid);
        r := Thrown;
        return;
      }
      var loadedState := loaded.value;
      state := loadedState;
      ghost var start := State();
      PassesOn(read, old@Loading(State()), start);
      if exists id :: id in controller.requests && controller.requests[id].result.None?
                      && (loadedState.pending.None? || id != loadedState.pending.value.id) {
        r := Held("executor-request-pending");
        return;
      }
      visits := *;
      Others(visits);
      PassesOn(old(State()), start, State());
      if loadedState.pending.Some? {
        label Pending:
        r := FinishPending(sid, loadedState.pending.value, execute);
        PassesOn(old(State()), old@Pending(State()), State());
        return;
      }
      if !active {
        r := Held("session-not-active");
        return;
      }
      var proposed := Propose(seen, loadedState, policy);
      if proposed.Failure? {
        r := Thrown;
        return;
      }
      if proposed.value.None? {
        r := Held("no-action");
        return;
      }
      var (action, anchor, rolled) := proposed.value.value;
      if !execute {
        r := Proposed(action);
        return;
      }
      var id: Id := *;
      var intent := Intent(id, Request(sid, action), anchor, rolled);
      var used := id in controller.requests || exists k :: k in autos
                                                           && (id in autos[k].settled || (autos[k].pending.Some?
                                                              && autos[k].pending.value.id == id));
      UsedIs(State(), id);
      if used {
        // A random id is never one in use.
        r := Thrown;
        return;
      }
      PassesLeads(read, start);
      PassesLeads(start, State());
      StaleReadingsShow(read, start, State(), sid, loadedState, seen, intent);
      label Binding:
      var bound := Bind(sid, intent, seen);
      if !bound {
        r := Held("concurrent-change");
        return;
      }
      stored := Some(intent);
      PassesItself(State());
      if * {
        r := Thrown;
        return;
      }
      label Bound:
      r := FinishPending(sid, intent, execute);
    }
  }

  // What an intent needs if the checks of the binding visit find nothing changed.
  predicate MayBind(w: Whole, sid: Id, intent: Intent, seen: Strategy)
    requires sid in w.autos
  {
    sid in w.store.sessions && ActiveOf(w.store.sessions[sid].plan).hash == seen.hash ==> MayIntend(w, sid, intent)
  }

  // ---- a stale reading shows in the plan ------------------------------------------------------------

  // What a run from w to v, with nothing pending for the session at w, has added.
  ghost predicate Since(w: Whole, v: Whole, sid: Id)
    requires sid in w.autos && sid in w.store.sessions
  {
    && Evolves(w.store, v.store) && sid in v.autos && sid in v.store.sessions
    && v.autos[sid].policy == w.autos[sid].policy && w.autos[sid].counted <= v.autos[sid].counted
    && (|w.autos[sid].counted| < |v.autos[sid].counted|
       ==> |w.store.sessions[sid].plan.rebalances| < |v.store.sessions[sid].plan.rebalances|)
    && (v.autos[sid].pending.Some? ==> v.autos[sid].pending.value.id !in w.store.requests)
    && (forall id {:trigger LaterStart(w, v, sid, id)} :: LaterStart(w, v, sid, id))
  }

  // A request that came later starts from at least the plan of w.
  ghost predicate LaterStart(w: Whole, v: Whole, sid: Id, id: Id)
    requires sid in w.store.sessions
  {
    id in v.store.requests && id !in w.store.requests && v.store.requests[id].request.session == sid
    ==> |w.store.sessions[sid].plan.rebalances| <= |v.store.requests[id].before.rebalances|
  }

  lemma SinceItself(w: Whole, sid: Id)
    requires sid in w.autos && sid in w.store.sessions && w.autos[sid].pending.None?
    ensures Since(w, w, sid)
  {
    StoreStays(w.store);
    hide Evolves;
    forall id ensures LaterStart(w, w, sid, id) {
    }
  }

  // A new request starts from the plan its session has.
  lemma NewStartsFromPlan(s: Store, effect: Effect, id: Id)
    requires id !in s.requests && id in Apply(s, effect).requests
    ensures var a := Apply(s, effect).requests[id];
            a.request.session in s.sessions ==> a.before == s.sessions[a.request.session].plan
  {
    hide Carried, Truthful, MayClose, MayAppend, Allowed, Cleared, NothingInFlight, ActiveOf, Succeeded;
  }

  lemma EffectSince(w: Whole, v: Whole, sid: Id, effect: Effect, id: Id)
    requires sid in w.store.sessions && Inv(v.store) && Evolves(w.store, v.store) && sid in v.store.sessions
    requires LaterStart(w, v, sid, id)
    ensures LaterStart(w, v.(store := Apply(v.store, effect)), sid, id)
  {
    StepEvolves(v.store, effect);
    assert Continues(w.store.sessions[sid], v.store.sessions[sid]);
    if id in v.store.requests {
      assert Lasting(v.store.requests[id], Apply(v.store, effect).requests[id]);
    } else if id in Apply(v.store, effect).requests {
      NewStartsFromPlan(v.store, effect, id);
    }
    hide Inv, Apply, Evolves;
  }

  lemma ExecuteSince(w: Whole, v: Whole, sid: Id, effect: Effect)
    requires sid in w.autos && sid in w.store.sessions && Since(w, v, sid) && Good(v)
    ensures Since(w, Make(v, Execute(effect)), sid)
  {
    var t := Make(v, Execute(effect));
    StepEvolves(v.store, effect);
    EvolvesChains(w.store, v.store, t.store);
    assert Continues(v.store.sessions[sid], t.store.sessions[sid]);
    hide Apply, Inv, AutosOk, Evolves;
    forall id ensures LaterStart(w, t, sid, id) {
      assert LaterStart(w, v, sid, id);
      EffectSince(w, v, sid, effect, id);
    }
  }

  // A rollover that came later lies beyond the plan of w.
  lemma LaterRolloverOutgrows(w: Whole, v: Whole, sid: Id, id: Id)
    requires sid in w.store.sessions && sid in v.store.sessions && Inv(v.store) && id !in w.store.requests
             && LaterStart(w, v, sid, id)
    requires IsRollover(v.store, id) && v.store.requests[id].request.session == sid
    ensures |w.store.sessions[sid].plan.rebalances| < |v.store.sessions[sid].plan.rebalances|
  {
    RolloverIsPlaced(v.store, id);
    hide Inv, IsRollover, Succeeded;
  }

  lemma SettlingGrows(w: Whole, v: Whole, sid: Id, minedAt: nat)
    requires sid in w.autos && sid in w.store.sessions && Since(w, v, sid) && Good(v)
             && CanMove(v, Settle(sid, minedAt))
    ensures var a, b := v.autos[sid], SettledAuto(v.autos[sid],
            v.store.requests[v.autos[sid].pending.value.id].result.value, minedAt);
            && b.policy == a.policy && a.counted <= b.counted && b.pending.None?
            && (|a.counted| < |b.counted|
               ==> |w.store.sessions[sid].plan.rebalances| < |v.store.sessions[sid].plan.rebalances|)
  {
    hide Banded, IsRun, Requests, PacedSince, Paced, CountRollovers, Evolves;
    var a := v.autos[sid];
    var id := a.pending.value.id;
    assert AutoOk(v.store, sid, a, v.compile);
    hide Inv, AutosOk, CountedOk, BudgetOk, Distinct, Finished, RunsOk;
    assert LaterStart(w, v, sid, id);
    if IsRollover(v.store, id) {
      LaterRolloverOutgrows(w, v, sid, id);
    }
  }

  lemma SettleSince(w: Whole, v: Whole, sid: Id, minedAt: nat)
    requires sid in w.autos && sid in w.store.sessions && Since(w, v, sid) && Good(v)
             && CanMove(v, Settle(sid, minedAt))
    ensures Since(w, Make(v, Settle(sid, minedAt)), sid)
  {
    hide Good, Evolves, Apply, Counts;
    var t := Make(v, Settle(sid, minedAt));
    SettlingGrows(w, v, sid, minedAt);
    forall k ensures LaterStart(w, t, sid, k) {
      assert LaterStart(w, v, sid, k);
    }
  }

  lemma IntendSince(w: Whole, v: Whole, sid: Id, m: Move)
    requires sid in w.autos && sid in w.store.sessions && Since(w, v, sid) && m.Intend? && CanMove(v, m)
    ensures Since(w, Make(v, m), sid)
  {
    var t := Make(v, m);
    if m.session == sid {
      UnusedIsNew(w, v, m.intent.id);
    }
    hide Evolves, MayIntend, IsUsed, Apply, SettledAuto;
    forall id ensures LaterStart(w, t, sid, id) {
      assert LaterStart(w, v, sid, id);
    }
  }

  lemma OtherSince(w: Whole, v: Whole, sid: Id, m: Move)
    requires sid in w.autos && sid in w.store.sessions && Since(w, v, sid) && !m.Execute? && !m.Intend?
             && (m.session == sid ==> !m.Settle?)
    ensures Since(w, Make(v, m), sid)
  {
    hide Evolves, Apply, SettledAuto, HasResult;
    var t := Make(v, m);
    forall id ensures LaterStart(w, t, sid, id) {
      assert LaterStart(w, v, sid, id);
    }
  }

  lemma MoveSince(w: Whole, v: Whole, sid: Id, m: Move)
    requires sid in w.autos && sid in w.store.sessions && Since(w, v, sid) && Good(v)
    ensures Since(w, Make(v, m), sid)
  {
    if m.Execute? {
      ExecuteSince(w, v, sid, m.effect);
    } else if !CanMove(v, m) {
    } else if m.Intend? {
      IntendSince(w, v, sid, m);
    } else if m.Settle? && m.session == sid {
      SettleSince(w, v, sid, m.minedAt);
    } else {
      OtherSince(w, v, sid, m);
    }
    hide Since, Good, CanMove;
  }

  lemma UnusedIsNew(w: Whole, v: Whole, id: Id)
    requires Evolves(w.store, v.store) && !IsUsed(v, id)
    ensures id !in w.store.requests
  {
  }

  lemma {:induction false} PlaySince(w: Whole, v: Whole, sid: Id, moves: seq<Move>)
    requires sid in w.autos && sid in w.store.sessions && Since(w, v, sid) && Good(v)
    ensures Since(w, Play(v, moves), sid) && Good(Play(v, moves))
    decreases |moves|
  {
    hide Since, Good, Make;
    if moves == [] {
    } else {
      MoveSince(w, v, sid, moves[0]);
      MoveKeeps(v, moves[0]);
      PlaySince(w, Make(v, moves[0]), sid, moves[1..]);
    }
  }

  // In a plan without repetitions the same active strategy means the same plan.
  lemma SameActiveSamePlan(a: Plan, b: Plan)
    requires a.strategy == b.strategy && a.rebalances <= b.rebalances && NoneReturns(b)
             && ActiveOf(a).hash == ActiveOf(b).hash
    ensures |a.rebalances| == |b.rebalances|
  {
    var i, j := |a.rebalances|, |b.rebalances|;
    assert HashAt(b, i) == ActiveOf(a).hash && HashAt(b, j) == ActiveOf(b).hash;
  }

  // The session was read at w0, the autopilot's state at w1; if at w2 the active strategy is still the
  // one seen and no strategy came back, nothing was counted meanwhile, so what the proposal assumed holds.
  lemma StaleReadingsShow(w0: Whole, w1: Whole, w2: Whole, sid: Id, state: Auto, seen: Strategy, intent: Intent)
    requires Good(w0) && Leads(w0, w1) && Leads(w1, w2) && sid in w0.store.sessions
             && seen == ActiveOf(w0.store.sessions[sid].plan)
    requires sid in w1.autos && w1.autos[sid] == state && state.pending.None?
    requires intent.request.action.Rebalance?
             ==> Requests(intent, w2.compile) && Banded(intent.rolled.value, state.policy)
                 && Paced(state, intent.rolled.value.now)
    ensures sid in w2.autos && MayBind(w2, sid, intent, seen)
  {
    NothingCounted(w0, w1, w2, sid);
    hide Good, Leads, Banded, ActiveOf, NoneReturns;
  }

  lemma NothingCounted(w0: Whole, w1: Whole, w2: Whole, sid: Id)
    requires Good(w0) && Leads(w0, w1) && Leads(w1, w2) && sid in w0.store.sessions && sid in w1.autos
             && w1.autos[sid].pending.None?
    ensures sid in w2.autos && sid in w2.store.sessions && w2.autos[sid].policy == w1.autos[sid].policy
    ensures NoneReturns(w2.store.sessions[sid].plan)
            && ActiveOf(w2.store.sessions[sid].plan).hash == ActiveOf(w0.store.sessions[sid].plan).hash
            ==> w2.autos[sid].rebalances == w1.autos[sid].rebalances && w2.autos[sid].lastAt == w1.autos[sid].lastAt
  {
    hide Good, Since, Leads, Evolves, ActiveOf, NoneReturns, Continues;
    LeadsEvolves(w0, w1);
    LeadsEvolves(w1, w2);
    SessionsGrow(w0, w1, w2, sid);
    LeadsSince(w1, w2, sid);
    var p0, p2 := w0.store.sessions[sid].plan, w2.store.sessions[sid].plan;
    if NoneReturns(p2) && ActiveOf(p2).hash == ActiveOf(p0).hash {
      SameActiveSamePlan(p0, p2);
      SameCount(w1, w2, sid);
    }
    SamePolicy(w1, w2, sid);
  }

  lemma LeadsEvolves(w: Whole, v: Whole)
    requires Good(w) && Leads(w, v)
    ensures Good(v) && Evolves(w.store, v.store)
  {
    var moves :| Play(w, moves) == v;
    hide Good, Play, Evolves;
    PlayKeeps(w, moves);
    PlayEvolves(w, moves);
  }

  lemma LeadsSince(w: Whole, v: Whole, sid: Id)
    requires Good(w) && Leads(w, v) && sid in w.autos && sid in w.store.sessions && w.autos[sid].pending.None?
    ensures Since(w, v, sid)
  {
    var moves :| Play(w, moves) == v;
    hide Good, Play, Since;
    SinceItself(w, sid);
    PlaySince(w, w, sid, moves);
  }

  lemma SamePolicy(w: Whole, v: Whole, sid: Id)
    requires sid in w.autos && sid in w.store.sessions && Since(w, v, sid)
    ensures sid in v.autos && sid in v.store.sessions && v.autos[sid].policy == w.autos[sid].policy
  {
  }

  lemma SessionsGrow(w0: Whole, w1: Whole, w2: Whole, sid: Id)
    requires Evolves(w0.store, w1.store) && Evolves(w1.store, w2.store) && sid in w0.store.sessions
    ensures sid in w1.store.sessions && sid in w2.store.sessions
    ensures var a, b, c := w0.store.sessions[sid].plan, w1.store.sessions[sid].plan, w2.store.sessions[sid].plan;
            a.strategy == c.strategy && a.rebalances <= c.rebalances
                && |a.rebalances| <= |b.rebalances| <= |c.rebalances|
  {
    assert Continues(w0.store.sessions[sid], w1.store.sessions[sid])
        && Continues(w1.store.sessions[sid], w2.store.sessions[sid]);
  }

  lemma SameCount(w: Whole, v: Whole, sid: Id)
    requires sid in w.autos && sid in w.store.sessions && Since(w, v, sid) && Good(w) && Good(v)
    requires |v.store.sessions[sid].plan.rebalances| <= |w.store.sessions[sid].plan.rebalances|
    ensures v.autos[sid].rebalances == w.autos[sid].rebalances && v.autos[sid].lastAt == w.autos[sid].lastAt
            && v.autos[sid].policy == w.autos[sid].policy
  {
    hide Inv, Evolves, CountRollovers, BudgetOk, Distinct, Banded, Finished;
    assert AutoOk(w.store, sid, w.autos[sid], w.compile) && AutoOk(v.store, sid, v.autos[sid], v.compile);
    assert v.autos[sid].counted == w.autos[sid].counted;
  }

  lemma {:induction false} PlayEvolves(w: Whole, moves: seq<Move>)
    requires Good(w)
    ensures Evolves(w.store, Play(w, moves).store)
    decreases |moves|
  {
    hide Good, Make, Evolves;
    if moves == [] {
      StoreStays(w.store);
    } else {
      MoveKeeps(w, moves[0]);
      MoveEvolves(w, moves[0]);
      PlayEvolves(Make(w, moves[0]), moves[1..]);
      EvolvesChains(w.store, Make(w, moves[0]).store, Play(w, moves).store);
    }
  }

  lemma MoveEvolves(w: Whole, m: Move)
    requires Good(w)
    ensures Evolves(w.store, Make(w, m).store)
  {
    StoreStays(w.store);
    if m.Execute? {
      StepEvolves(w.store, m.effect);
    }
    hide Apply, Evolves, Inv;
  }

  // A policy once bound is the one every later visit finds.
  lemma PoliciesStay(w: Whole, v: Whole, sid: Id)
    requires Leads(w, v)
    ensures sid in w.autos ==> sid in v.autos && v.autos[sid].policy == w.autos[sid].policy
  {
    if sid in w.autos {
      var moves :| Play(w, moves) == v;
      PolicyIsBound(w, moves, sid);
    }
  }

  lemma UsedIs(w: Whole, id: Id)
    ensures IsUsed(w, id)
            <==> id in w.store.requests
                 || exists k :: k in w.autos && Knows(w.autos[k], id)
  {
  }

  // A result, once there, stays through whatever others do.
  lemma ResultsLast(w: Whole, v: Whole, id: Id)
    requires Good(w) && Leads(w, v) && id in w.store.requests && w.store.requests[id].result.Some?
    ensures id in v.store.requests && v.store.requests[id] == w.store.requests[id]
  {
    var moves :| Play(w, moves) == v;
    hide Good, Play;
    PlayKeepsResult(w, moves, id);
  }

  lemma {:induction false} PlayKeepsResult(w: Whole, moves: seq<Move>, id: Id)
    requires Good(w) && id in w.store.requests && w.store.requests[id].result.Some?
    ensures id in Play(w, moves).store.requests && Play(w, moves).store.requests[id] == w.store.requests[id]
    decreases |moves|
  {
    if moves == [] {
    } else {
      MoveKeepsResult(w, moves[0], id);
      MoveKeeps(w, moves[0]);
      hide Good, Make;
      PlayKeepsResult(Make(w, moves[0]), moves[1..], id);
    }
  }

  lemma MoveKeepsResult(w: Whole, m: Move, id: Id)
    requires Good(w) && id in w.store.requests && w.store.requests[id].result.Some?
    ensures id in Make(w, m).store.requests && Make(w, m).store.requests[id] == w.store.requests[id]
  {
    if m.Execute? {
      StepEvolves(w.store, m.effect);
      assert Lasting(w.store.requests[id], Apply(w.store, m.effect).requests[id]);
    }
    hide Inv, Apply, AutosOk, Evolves;
  }
}
