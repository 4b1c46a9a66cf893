// What holds over every run of the controller's durable effects, with crashes between any two.
module ControllerRuns {
  import opened Wrappers
  import opened Journal
  import opened Controller

  lemma Reachable(effects: seq<Effect>)
    ensures Inv(Run(EmptyStore(), effects))
  {
    hide Inv, Run;
    EmptyHolds();
    RunKeeps(EmptyStore(), effects);
  }

  // ---- one request at a time -------------------------------------------------------------------

  lemma AtMostOnePending(effects: seq<Effect>, id: Id, k: Id)
    requires var s := Run(EmptyStore(), effects); id in s.requests && k in s.requests && s.requests[id].result.None?
                                                  && s.requests[k].result.None?
    ensures id == k
  {
    hide AttemptsOk, StatusesOk, SessionsRooted, KeysKnown, PlacesDiffer, PlacesCovered, Sound, Run;
    Reachable(effects);
  }

  // ---- requests and sessions over time -----------------------------------------------------------

  // A request keeps its content for good, and its whole attempt once it has a result.
  ghost predicate Lasting(a: Attempt, b: Attempt) {
    b.request == a.request && b.before == a.before && b.beforeStatus == a.beforeStatus && (a.result.Some? ==> b == a)
  }

  // A session keeps where it came from; its plan keeps the original strategy and policy, and its
  // rebalances only grow.
  ghost predicate Continues(a: Session, b: Session) {
    b.createdBy == a.createdBy && b.plan.strategy == a.plan.strategy && b.plan.policy == a.plan.policy
        && a.plan.rebalances <= b.plan.rebalances && a.closings <= b.closings
  }

  ghost predicate Evolves(s: Store, t: Store) {
    && Extends(s.log, t.log)
    && (forall id {:trigger s.requests[id]} {:trigger t.requests[id]} ::
          id in s.requests ==> id in t.requests && Lasting(s.requests[id], t.requests[id]))
    && (forall sid {:trigger s.sessions[sid]} {:trigger t.sessions[sid]} ::
          sid in s.sessions ==> sid in t.sessions && Continues(s.sessions[sid], t.sessions[sid]))
  }

  lemma StepEvolves(s: Store, e: Effect)
    requires Inv(s)
    ensures Evolves(s, Apply(s, e))
  {
    hide AttemptsOk, StatusesOk, SessionsRooted, OnePending, KeysKnown, PlacesDiffer, PlacesCovered, Carried,
        ActiveOf, Cleared, Truthful, Sound, Extends, Write, EntryOf, Succeeded;
    LogStays(s.log);
    if e.Journaled? {
      WriteKeeps(s.log, e.entry);
    }
  }

  lemma LogStays(log: Log)
    ensures Extends(log, log)
  {
  }

  lemma EvolvesChains(a: Store, b: Store, c: Store)
    requires Evolves(a, b) && Evolves(b, c)
    ensures Evolves(a, c)
  {
    hide Extends;
    ExtendsChains(a.log, b.log, c.log);
    forall id | id in a.requests ensures id in c.requests && Lasting(a.requests[id], c.requests[id]) {
      assert Lasting(a.requests[id], b.requests[id]) && Lasting(b.requests[id], c.requests[id]);
    }
    forall sid | sid in a.sessions ensures sid in c.sessions && Continues(a.sessions[sid], c.sessions[sid]) {
      assert Continues(a.sessions[sid], b.sessions[sid]) && Continues(b.sessions[sid], c.sessions[sid]);
    }
  }

  lemma StoreStays(s: Store)
    ensures Evolves(s, s)
  {
    LogStays(s.log);
  }

  // A finished request never changes again; no request changes its content; the original strategy
  // and the risk policy of a session never change; transactions and receipts are for good.
  lemma {:induction false} RunEvolves(s: Store, effects: seq<Effect>)
    requires Inv(s)
    ensures Evolves(s, Run(s, effects))
    decreases |effects|
  {
    hide Inv, Apply, Evolves;
    StoreStays(s);
    if effects == [] {
    } else {
      StepEvolves(s, effects[0]);
      ApplyKeeps(s, effects[0]);
      RunEvolves(Apply(s, effects[0]), effects[1..]);
      EvolvesChains(s, Apply(s, effects[0]), Run(s, effects));
    }
  }

  // The session a ship request opened has its strategy and policy, whatever happened since.
  lemma SessionsKeepTheirShipment(effects: seq<Effect>, sid: Id)
    requires sid in Run(EmptyStore(), effects).sessions
    ensures Rooted(Run(EmptyStore(), effects), sid)
  {
    hide AttemptsOk, StatusesOk, Rooted, OnePending, KeysKnown, PlacesDiffer, PlacesCovered, Sound, Run;
    Reachable(effects);
  }

  // ---- each successful rebalance is in its plan once ------------------------------------------------

  // A finished rebalance whose transaction succeeded has its place in the plan; every place in a
  // plan belongs to exactly one request; and a request has no more than the one place. So under
  // any crash and resume no rebalance is lost, doubled or made up.
  lemma RebalancesAppendedOnce(effects: seq<Effect>, sid: Id, p: nat)
    requires var s := Run(EmptyStore(), effects); sid in s.sessions && p < |s.sessions[sid].plan.rebalances|
    ensures var s := Run(EmptyStore(), effects);
            && (exists id :: Accounts(s, id, sid, p))
            && (forall id, k :: Accounts(s, id, sid, p) && Accounts(s, k, sid, p) ==> id == k)
  {
    hide AttemptsOk, StatusesOk, SessionsRooted, OnePending, KeysKnown, Placed, Sound, Run;
    Reachable(effects);
    var s := Run(EmptyStore(), effects);
    assert Covered(s, sid, p);
    forall id, k | Accounts(s, id, sid, p) && Accounts(s, k, sid, p) ensures id == k {
      PlacedIsKnown(s, id);
      PlacedIsKnown(s, k);
      assert SamePlace(s, id, k);
    }
  }

  lemma FinishedRebalancesArePlaced(effects: seq<Effect>, id: Id)
    requires var s := Run(EmptyStore(), effects);
             id in s.requests && s.requests[id].result.Some? && s.requests[id].request.action.Rebalance?
                 && Succeeded(s.log, PrimaryOf(id))
    ensures Placed(Run(EmptyStore(), effects), id)
  {
    hide SessionsRooted, StatusesOk, OnePending, KeysKnown, PlacesDiffer, PlacesCovered, Sound, Run, Placed, Cleared,
        Truthful;
    Reachable(effects);
    var s := Run(EmptyStore(), effects);
    assert AttemptOk(s, id);
  }

  // ---- results tell the truth --------------------------------------------------------------------------

  // In every reachable store a stored result says what happened: shipped, rebalanced and swapped
  // only after the primary transaction succeeded, docked only with the session closed by that
  // request's own dock or on seeing it docked, and a failed trade without a risk stop traded nothing.
  lemma ResultsAreTrue(effects: seq<Effect>, id: Id)
    requires var s := Run(EmptyStore(), effects); id in s.requests && s.requests[id].result.Some?
    ensures var s := Run(EmptyStore(), effects);
            s.requests[id].request.session in s.sessions
                && Truthful(s, id, s.requests[id].result.value.outcome, s.requests[id].result.value.failed)
  {
    hide SessionsRooted, StatusesOk, OnePending, KeysKnown, PlacesDiffer, PlacesCovered, Sound, Run, Placed, Cleared,
        Truthful;
    Reachable(effects);
    var s := Run(EmptyStore(), effects);
    assert AttemptOk(s, id);
  }

  // In every reachable store an active session has its ship transaction confirmed, and a closed one
  // was closed for a cause of which the journal has the evidence.
  lemma StatusesAreEarned(effects: seq<Effect>, sid: Id)
    requires sid in Run(EmptyStore(), effects).sessions
    ensures var s := Run(EmptyStore(), effects);
            && (s.sessions[sid].status.Active? ==> Succeeded(s.log, PrimaryOf(s.sessions[sid].createdBy)))
            && (s.sessions[sid].status.Closed? ==> s.sessions[sid].closings != [])
            && forall c :: c in s.sessions[sid].closings ==> Evidence(s, sid, c)
  {
    hide AttemptsOk, SessionsRooted, OnePending, KeysKnown, PlacesDiffer, PlacesCovered, Sound, Run, Evidence;
    Reachable(effects);
    assert StatusOk(Run(EmptyStore(), effects), sid);
  }

  // ---- the journal inside the controller --------------------------------------------------------------

  lemma ControllerSendsWhatItSaved(effects: seq<Effect>, i: nat)
    requires i < |Run(EmptyStore(), effects).log.sent|
    ensures var log := Run(EmptyStore(), effects).log;
            && log.sent[i].key in log.txs && log.sent[i].raw == log.txs[log.sent[i].key].raw
               && log.txs[log.sent[i].key].hash == TxHash(log.sent[i].raw)
            && log.sent[i].key.request in Run(EmptyStore(), effects).requests
  {
    hide AttemptsOk, StatusesOk, SessionsRooted, OnePending, PlacesDiffer, PlacesCovered, Run;
    Reachable(effects);
    var log := Run(EmptyStore(), effects).log;
    assert log.txs[log.sent[i].key].raw == log.sent[i].raw;
  }

  // ---- reaching -----------------------------------------------------------------------------------------

  ghost predicate Reaches(s: Store, t: Store) {
    exists effects :: Run(s, effects) == t
  }

  lemma {:induction false} RunSplits(s: Store, a: seq<Effect>, b: seq<Effect>)
    ensures Run(s, a + b) == Run(Run(s, a), b)
    decreases |a|
  {
    hide Apply;
    if a == [] {
      assert a + b == b;
    } else {
      assert (a + b)[1..] == a[1..] + b;
      RunSplits(Apply(s, a[0]), a[1..], b);
    }
  }

  lemma ReachesItself(s: Store)
    ensures Reaches(s, s)
  {
    assert Run(s, []) == s;
  }

  lemma ReachesChains(a: Store, b: Store, c: Store)
    requires Reaches(a, b) && Reaches(b, c)
    ensures Reaches(a, c)
  {
    var x :| Run(a, x) == b;
    var y :| Run(b, y) == c;
    hide Run;
    RunSplits(a, x, y);
  }

  lemma ReachesOneStep(s: Store, e: Effect)
    ensures Reaches(s, Apply(s, e))
  {
    hide Apply;
    assert [e][1..] == [];
    assert Run(Apply(s, e), []) == Apply(s, e);
    assert Run(s, [e]) == Run(Apply(s, e), [e][1..]);
  }

  lemma ReachedKeeps(s: Store, t: Store)
    requires Inv(s) && Reaches(s, t)
    ensures Inv(t) && Evolves(s, t)
  {
    var effects :| Run(s, effects) == t;
    hide Run, Inv, Evolves;
    RunKeeps(s, effects);
    RunEvolves(s, effects);
  }

  // Journal entries of one pending request are effects of the controller.
  lemma {:induction false} EntriesAreEffects(s: Store, id: Id, entries: seq<Entry>)
    requires Inv(s) && IsPending(s, id) && forall e :: e in entries ==> e.key.request == id
    requires (exists e :: e in entries && e.Prepare? && e.key.step.Primary?)
             ==> Cleared(s.log, id, s.requests[id].request.action) && s.requests[id].riskStop.None?
    requires forall e :: e in entries && e.Prepare? ==> IsOwn(s.requests[id], e.key.step, e.tx)
    ensures Reaches(s, s.(log := WriteAll(s.log, entries)))
    decreases |entries|
  {
    hide AttemptsOk, StatusesOk, SessionsRooted, OnePending, KeysKnown, PlacesDiffer, PlacesCovered, Cleared, Write,
        Allowed, Reaches, IsOwn;
    if entries == [] {
      ReachesItself(s);
      assert s == s.(log := WriteAll(s.log, entries));
    } else {
      var e := entries[0];
      EntryIsEffect(s, id, e);
      var t := s.(log := Write(s.log, e));
      ReachesOneStep(s, Journaled(e));
      ApplyKeeps(s, Journaled(e));
      if Cleared(s.log, id, s.requests[id].request.action) {
        ClearanceLasts(s.log, e, id, s.requests[id].request.action);
      }
      EntriesAreEffects(t, id, entries[1..]);
      ReachesChains(s, t, s.(log := WriteAll(s.log, entries)));
    }
  }

  lemma EntryIsEffect(s: Store, id: Id, e: Entry)
    requires IsPending(s, id) && e.key.request == id
    requires e.Prepare? && e.key.step.Primary?
             ==> Cleared(s.log, id, s.requests[id].request.action) && s.requests[id].riskStop.None?
    requires e.Prepare? ==> IsOwn(s.requests[id], e.key.step, e.tx)
    ensures Apply(s, Journaled(e)) == s.(log := Write(s.log, e))
  {
    hide Cleared, IsOwn;
  }
}
