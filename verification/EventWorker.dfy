// The worker's source round: mark the orphaned identities, ingest the batch, then save the
// cursor. Any transaction of any other actor may come between two of these, and the process
// may stop before any of them.
module EventWorker {
  import opened Wrappers
  import opened EventTables
  import opened EventSteps
  import opened EventInvariant
  import opened EventSafety
  import opened EventRuns
  import opened LogSource
  import opened EventService

  const ACTIVATION_SUFFIX := "-activation"

  // ---- what changes the inbox flag of one event ----------------------------------------------

  predicate Canonical(s: Db, key: EventKey) {
    key in s.inbox && s.inbox[key].canonical
  }

  // The two transactions that can change the flag of an event that is already in the inbox.
  predicate Touches(a: Action, key: EventKey) {
    (a.AIngest? && a.key == key) || (a.AMarkReorg? && a.key == key)
  }

  ghost predicate FlagKept(inbox: Inbox, after: Inbox, key: EventKey) {
    key in inbox && key in after && after[key] == inbox[key]
  }

  // Whatever else happens, an event in the inbox keeps its flag.
  lemma OthersLeaveFlag(s: Db, a: Action, key: EventKey)
    requires key in s.inbox && !Touches(a, key)
    ensures FlagKept(s.inbox, Perform(s, a).inbox, key)
  {
    hide CreateDraft, EditDraft, PublishArtifact, RevokeConsent, WithdrawTemplate, Enable, Stop, Ingest, MarkReorg,
        ScheduleHealth;
    hide ClaimEvaluation, CompleteEvaluation, ClaimDelivery, CallReturns, CrashWorker, SettleCall, Reconcile;
    match a
    case ACreateDraft(draft, owner, ownedMaker, template) =>
      CatalogLeavesInbox(s, draft, owner, ownedMaker, template, "", "", false);
    case AEditDraft(owner, draft, expected) => EditLeavesInbox(s, owner, draft, expected);
    case APublishArtifact(artifact, draft, strategy, guarded) =>
      CatalogLeavesInbox(s, artifact, "", false, None, draft, strategy, guarded);
    case ARevokeConsent(owner, consent) => RevokeLeavesInbox(s, owner, consent, "", "");
    case AWithdrawTemplate(pinned) => RevokeLeavesInbox(s, "", "", pinned, "");
    case AEnable(owner, request, seen, sub, job, generation) =>
      EnableKeepsRows(s, owner, request, seen, sub, job, generation, key);
    case AStop(owner, sub) => RevokeLeavesInbox(s, owner, "", "", sub);
    case AIngest(k, body, recipients, rows) => IngestLeavesOthers(s, k, body, recipients, rows);
    case AMarkReorg(k) => MarkReorgFlags(s, k);
    case AScheduleHealth(probes) => HealthKeepsRows(s, probes, key);
    case AClaimEvaluation(job, token, leaseMs) => WorkLeavesInbox(s, job, token, leaseMs, 0, Unknown);
    case ACompleteEvaluation(job, token, e, binding, delivery) =>
      CompletionLeavesInbox(s, job, token, e, binding, delivery);
    case AClaimDelivery(delivery, seen) => ClaimLeavesInbox(s, delivery, seen);
    case ACallReturns(call, end) => WorkLeavesInbox(s, "", "", 0, call, end);
    case ACrashWorker(call) => WorkLeavesInbox(s, "", "", 0, call, Unknown);
    case ASettleCall(call) => SettleLeavesInbox(s, call);
    case AReconcile(delivery, verdict, active, job) => ReconcileKeepsRows(s, delivery, verdict, active, job, key);
  }

  lemma CatalogLeavesInbox(s: Db, id: Id, owner: Owner, ownedMaker: bool, template: Option<Id>, draft: Id,
      strategy: Hash, guarded: bool)
    ensures CreateDraft(s, id, owner, ownedMaker, template).inbox == s.inbox
            && PublishArtifact(s, id, draft, strategy, guarded).inbox == s.inbox
  {
  }

  lemma RevokeLeavesInbox(s: Db, owner: Owner, consent: Id, template: Id, sub: Id)
    ensures RevokeConsent(s, owner, consent).inbox == s.inbox && WithdrawTemplate(s, template).inbox == s.inbox
            && Stop(s, owner, sub).inbox == s.inbox
  {
    HaltLeavesInbox(s, ConsentedBy(s, owner, consent), Stopped);
    HaltLeavesInbox(s, PinnedTo(s, template), Paused);
    HaltLeavesInbox(s, {sub}, Stopped);
    hide Halt, ConsentedBy, PinnedTo;
  }

  lemma WorkLeavesInbox(s: Db, job: Id, token: Id, leaseMs: nat, i: nat, end: CallEnd)
    ensures var t := ClaimEvaluation(s, job, token, leaseMs); t == s.(jobs := t.jobs)
    ensures var t, u := CallReturns(s, i, end), CrashWorker(s, i); t == s.(calls := t.calls)
                                                                   && u == s.(calls := u.calls)
  {
    hide Claimable;
  }

  lemma MarkReorgFlags(s: Db, key: EventKey)
    ensures MarkReorg(s, key).inbox == if Canonical(s, key) then s.inbox[key := s.inbox[key].(canonical := false)]
            else s.inbox
  {
    hide ReorgedJobs, ReorgedDeliveries;
  }

  lemma HaltLeavesInbox(s: Db, ids: set<Id>, state: SubscriptionState)
    ensures Halt(s, ids, state).inbox == s.inbox
  {
  }

  lemma EditLeavesInbox(s: Db, owner: Owner, draft: Id, expected: nat)
    ensures EditDraft(s, owner, draft, expected).inbox == s.inbox
  {
    HaltLeavesInbox(s, LiveOf(s, draft, owner), Stopped);
    hide LiveOf, CancelledJobs, CancelledDeliveries, WithStates;
  }

  lemma EnableKeepsRows(s: Db, owner: Owner, q: EnableRequest, seen: Reads, sub: Id, job: Id, generation: nat,
      key: EventKey)
    requires key in s.inbox
    ensures key in Enable(s, owner, q, seen, sub, job, generation).inbox
            && Enable(s, owner, q, seen, sub, job, generation).inbox[key] == s.inbox[key]
  {
    hide EnableRefusal, AlreadyEnabled, IsNextGeneration, CancelledJobs, CancelledDeliveries, WithStates;
  }

  lemma IngestLeavesOthers(s: Db, key: EventKey, body: string, recipients: set<Id>, rows: seq<Row>)
    ensures var t := Ingest(s, key, body, recipients, rows); t.inbox == s.inbox
                                                             || t.inbox == s.inbox[key := InboxRow(body, true)]
    ensures Canonical(s, key) ==> Ingest(s, key, body, recipients, rows) == s
  {
    hide Lists, Subscribers, QueueJobs;
  }

  lemma {:induction false} QueuedHealthKeepsRows(s: Db, probes: seq<Probe>, key: EventKey)
    requires key in s.inbox
    ensures QueueHealth(s, probes).Some? ==> key in QueueHealth(s, probes).value.inbox
                                             && QueueHealth(s, probes).value.inbox[key] == s.inbox[key]
    decreases |probes|
  {
    if probes == [] {
    } else {
      var p, t := probes[0], s.(health := s.health[probes[0].sub := probes[0].pauseRequired]);
      var added := EventKey(HEALTH_SOURCE, p.event);
      if p.sub !in s.subs || !s.subs[p.sub].state.Enabled? {
        QueuedHealthKeepsRows(s, probes[1..], key);
      } else if !HealthTurned(s, p) {
        QueuedHealthKeepsRows(t, probes[1..], key);
      } else if added !in s.inbox && p.job !in s.jobs {
        QueuedHealthKeepsRows(t.(inbox := t.inbox[added := InboxRow("", true)],
            jobs := t.jobs[p.job := NewJob(t, p.sub, added, t.clock, 0)]), probes[1..], key);
      }
    }
  }

  lemma HealthKeepsRows(s: Db, probes: seq<Probe>, key: EventKey)
    requires key in s.inbox
    ensures key in ScheduleHealth(s, probes).inbox && ScheduleHealth(s, probes).inbox[key] == s.inbox[key]
  {
    QueuedHealthKeepsRows(s, probes, key);
    hide QueueHealth;
  }

  lemma CompletionLeavesInbox(s: Db, job: Id, token: Id, e: Evaluation, binding: Option<nat>, delivery: Id)
    ensures CompleteEvaluation(s, job, token, e, binding, delivery).inbox == s.inbox
  {
    CompletionIssuesOrNot(s, job, token, e, binding, delivery);
    hide CompleteEvaluation, Allocated, NextNonce, Decided;
  }

  lemma ClaimLeavesInbox(s: Db, delivery: Id, seen: Reads)
    ensures var t := ClaimDelivery(s, delivery, seen); t == s.(deliveries := t.deliveries, calls := t.calls)
  {
    hide Ready, FirstInLane;
  }

  lemma SettleLeavesInbox(s: Db, i: nat)
    ensures SettleCall(s, i).inbox == s.inbox
  {
    hide AfterCall;
  }

  lemma ReconcileKeepsRows(s: Db, delivery: Id, verdict: Verdict, active: Option<Id>, job: Id, key: EventKey)
    requires key in s.inbox
    ensures key in Reconcile(s, delivery, verdict, active, job).inbox
            && Reconcile(s, delivery, verdict, active, job).inbox[key] == s.inbox[key]
  {
    hide Reevaluates, RetryAttempt, NewJob;
  }

  lemma {:induction false} InboxNeverShrinks(s: Db, events: seq<Event>, key: EventKey)
    requires key in s.inbox
    ensures key in Run(s, events).inbox
    decreases |events|
  {
    if events == [] {
    } else {
      StepKeepsRow(Tick(s, events[0].now), events[0].action, key);
      hide Perform;
      InboxNeverShrinks(Apply(s, events[0]), events[1..], key);
    }
  }

  lemma StepKeepsRow(s: Db, a: Action, key: EventKey)
    requires key in s.inbox
    ensures key in Perform(s, a).inbox
  {
    if Touches(a, key) {
      if a.AIngest? {
        IngestLeavesOthers(s, a.key, a.body, a.recipients, a.rows);
      } else {
        MarkReorgFlags(s, a.key);
      }
      hide Ingest, MarkReorg;
    } else {
      OthersLeaveFlag(s, a, key);
      hide Perform;
    }
  }

  // ---- the last transaction on an event decides -----------------------------------------------

  // The service's own events; no other transaction than an ingest creates any but these.
  predicate Internal(key: EventKey) {
    || key.source == HEALTH_SOURCE || key.source == RETRY_SOURCE
    || (|key.id| >= |ACTIVATION_SUFFIX| && key.id[|key.id| - |ACTIVATION_SUFFIX|..] == ACTIVATION_SUFFIX)
  }

  // A row that another transaction adds is one of the service's own, and canonical.
  ghost predicate AddsOwn(inbox: Inbox, after: Inbox, key: EventKey) {
    key in after ==> after[key].canonical && Internal(key)
  }

  lemma EnableAddsOwn(s: Db, owner: Owner, q: EnableRequest, seen: Reads, sub: Id, job: Id, generation: nat,
      key: EventKey)
    requires key !in s.inbox
    ensures AddsOwn(s.inbox, Enable(s, owner, q, seen, sub, job, generation).inbox, key)
  {
    hide EnableRefusal, AlreadyEnabled, IsNextGeneration, CancelledJobs, CancelledDeliveries, WithStates;
    var id := ActivationKey(q, sub).id;
    assert id[|id| - |ACTIVATION_SUFFIX|..] == ACTIVATION_SUFFIX;
  }

  lemma {:induction false} HealthAddsOwn(s: Db, probes: seq<Probe>, key: EventKey)
    requires key in s.inbox ==> s.inbox[key].canonical && Internal(key)
    ensures QueueHealth(s, probes).Some? ==> AddsOwn(s.inbox, QueueHealth(s, probes).value.inbox, key)
    decreases |probes|
  {
    if probes == [] {
    } else {
      var p, t := probes[0], s.(health := s.health[probes[0].sub := probes[0].pauseRequired]);
      var added := EventKey(HEALTH_SOURCE, p.event);
      if p.sub !in s.subs || !s.subs[p.sub].state.Enabled? {
        HealthAddsOwn(s, probes[1..], key);
      } else if !HealthTurned(s, p) {
        HealthAddsOwn(t, probes[1..], key);
      } else if added !in s.inbox && p.job !in s.jobs {
        HealthAddsOwn(t.(inbox := t.inbox[added := InboxRow("", true)],
            jobs := t.jobs[p.job := NewJob(t, p.sub, added, t.clock, 0)]), probes[1..], key);
      }
    }
  }

  lemma ReconcileAddsOwn(s: Db, delivery: Id, verdict: Verdict, active: Option<Id>, job: Id, key: EventKey)
    requires key !in s.inbox
    ensures AddsOwn(s.inbox, Reconcile(s, delivery, verdict, active, job).inbox, key)
  {
    hide Reevaluates, RetryAttempt, NewJob;
  }

  lemma ScheduleAddsOwn(s: Db, probes: seq<Probe>, key: EventKey)
    requires key !in s.inbox
    ensures AddsOwn(s.inbox, ScheduleHealth(s, probes).inbox, key)
  {
    HealthAddsOwn(s, probes, key);
    hide QueueHealth;
  }

  lemma OthersAddOwn(s: Db, a: Action, key: EventKey)
    requires key !in s.inbox && !Touches(a, key)
    ensures AddsOwn(s.inbox, Perform(s, a).inbox, key)
  {
    hide CreateDraft, EditDraft, PublishArtifact, RevokeConsent, WithdrawTemplate, Enable, Stop, Ingest, MarkReorg,
        ScheduleHealth;
    hide ClaimEvaluation, CompleteEvaluation, ClaimDelivery, CallReturns, CrashWorker, SettleCall, Reconcile, Internal;
    match a
    case ACreateDraft(draft, owner, ownedMaker, template) =>
      CatalogLeavesInbox(s, draft, owner, ownedMaker, template, "", "", false);
    case AEditDraft(owner, draft, expected) => EditLeavesInbox(s, owner, draft, expected);
    case APublishArtifact(artifact, draft, strategy, guarded) =>
      CatalogLeavesInbox(s, artifact, "", false, None, draft, strategy, guarded);
    case ARevokeConsent(owner, consent) => RevokeLeavesInbox(s, owner, consent, "", "");
    case AWithdrawTemplate(pinned) => RevokeLeavesInbox(s, "", "", pinned, "");
    case AEnable(owner, request, seen, sub, job, generation) =>
      EnableAddsOwn(s, owner, request, seen, sub, job, generation, key);
    case AStop(owner, sub) => RevokeLeavesInbox(s, owner, "", "", sub);
    case AIngest(k, body, recipients, rows) => IngestLeavesOthers(s, k, body, recipients, rows);
    case AMarkReorg(k) => MarkReorgFlags(s, k);
    case AScheduleHealth(probes) => ScheduleAddsOwn(s, probes, key);
    case AClaimEvaluation(job, token, leaseMs) => WorkLeavesInbox(s, job, token, leaseMs, 0, Unknown);
    case ACompleteEvaluation(job, token, e, binding, delivery) =>
      CompletionLeavesInbox(s, job, token, e, binding, delivery);
    case AClaimDelivery(delivery, seen) => ClaimLeavesInbox(s, delivery, seen);
    case ACallReturns(call, end) => WorkLeavesInbox(s, "", "", 0, call, end);
    case ACrashWorker(call) => WorkLeavesInbox(s, "", "", 0, call, Unknown);
    case ASettleCall(call) => SettleLeavesInbox(s, call);
    case AReconcile(delivery, verdict, active, job) => ReconcileAddsOwn(s, delivery, verdict, active, job, key);
  }

  // An ingest takes effect unless a row id is taken or the rows are not those of the query.
  predicate TakesEffect(s: Db, a: Action)
    requires a.AIngest?
  {
    IsDuplicate(s, a.key) || (Lists(a.rows, Subscribers(s, a.key.source, a.recipients))
        && QueueJobs(Received(s, a.key, a.body), a.key, a.rows).Some?)
  }

  // What one transaction makes of an event's flag, if it makes anything of it.
  function Effect(s: Db, a: Action, key: EventKey): Option<bool> {
    if a == AMarkReorg(key) then Some(false)
    else if a.AIngest? && a.key == key then if TakesEffect(s, a) then Some(true) else None
    else if key !in s.inbox && key in Perform(s, a).inbox then Some(true)
    else None
  }

  lemma IngestDecides(s: Db, a: Action)
    requires a.AIngest?
    ensures Canonical(Ingest(s, a.key, a.body, a.recipients, a.rows), a.key) <==> TakesEffect(s, a)
  {
    hide Lists, Subscribers, QueueJobs;
  }

  lemma StepDecides(s: Db, a: Action, key: EventKey)
    ensures Canonical(Perform(s, a), key) == if Effect(s, a, key).Some? then Effect(s, a, key).value
            else Canonical(s, key)
  {
    if a == AMarkReorg(key) {
      MarkingClears(s, a, key);
    } else if a.AIngest? && a.key == key {
      IngestDecides(s, a);
      IngestingIs(s, a.key, a.body, a.recipients, a.rows);
    } else if key in s.inbox {
      OthersLeaveFlag(s, a, key);
    } else {
      OthersAddOwn(s, a, key);
    }
    hide Perform, TakesEffect, Internal;
  }

  // The last transaction of a run that makes something of the flag.
  function Verdict(s: Db, events: seq<Event>, key: EventKey): Option<bool>
    decreases |events|
  {
    if events == [] then None
    else
      var rest := Verdict(Apply(s, events[0]), events[1..], key);
      if rest.Some? then rest else Effect(Tick(s, events[0].now), events[0].action, key)
  }

  // Whoever runs whatever in whatever order: the last effective mark or ingest of an event decides
  // whether it stands.
  lemma {:induction false} LastTouchDecides(s: Db, events: seq<Event>, key: EventKey)
    ensures Canonical(Run(s, events), key) == if Verdict(s, events, key).Some? then Verdict(s, events, key).value
            else Canonical(s, key)
    decreases |events|
  {
    hide Perform, Effect, Canonical;
    if events == [] {
    } else {
      StepDecides(Tick(s, events[0].now), events[0].action, key);
      TickKeepsFlag(s, events[0].now, key);
      LastTouchDecides(Apply(s, events[0]), events[1..], key);
    }
  }

  lemma TickKeepsFlag(s: Db, now: nat, key: EventKey)
    ensures Canonical(Tick(s, now), key) == Canonical(s, key)
  {
  }

  // ---- the plan of a batch ---------------------------------------------------------------------

  datatype Op = Mark(key: EventKey) | Take(key: EventKey)

  function Marks(source: string, ids: seq<string>): (r: seq<Op>)
    ensures |r| == |ids| && forall i :: 0 <= i < |ids| ==> r[i] == Mark(EventKey(source, ids[i]))
  {
    seq(|ids|, i requires 0 <= i < |ids| => Mark(EventKey(source, ids[i])))
  }

  function Takes(source: string, events: seq<Occurrence>): (r: seq<Op>)
    ensures |r| == |events| && forall i :: 0 <= i < |events| ==> r[i] == Take(EventKey(source, events[i].id))
  {
    seq(|events|, i requires 0 <= i < |events| => Take(EventKey(source, events[i].id)))
  }

  function Plan(source: string, batch: Batch): seq<Op> {
    Marks(source, batch.reorged) + Takes(source, batch.events)
  }

  // What the last operation of a plan on an event leaves it as.
  function Final(plan: seq<Op>, key: EventKey): (r: Option<bool>)
    ensures r.Some? <==> exists i :: 0 <= i < |plan| && plan[i].key == key
    decreases |plan|
  {
    if plan == [] then None
    else
      var rest := Final(plan[1..], key);
      assert forall i :: 1 <= i < |plan| ==> plan[1..][i - 1] == plan[i];
      if rest.Some? then rest else if plan[0].key == key then Some(plan[0].Take?) else None
  }

  // The ingests and marks of this source among all transactions.
  predicate IsOfSource(a: Action, source: string) {
    (a.AIngest? || a.AMarkReorg?) && a.key.source == source
  }

  predicate Does(a: Action, op: Op) {
    match op
    case Mark(key) => a.AMarkReorg? && a.key == key
    case Take(key) => a.AIngest? && a.key == key
  }

  // From s, these transactions carry out the plan in order, with those of other actors in
  // between, but no ingest or mark of the same source by another poller. An ingest that throws
  // ends the round, so every one in the plan took effect.
  ghost predicate Carries(s: Db, events: seq<Event>, source: string, plan: seq<Op>)
    decreases |events|
  {
    if events == [] then plan == []
    else
      var t := Apply(s, events[0]);
      if IsOfSource(events[0].action, source) then
        && plan != [] && Does(events[0].action, plan[0]) && (plan[0].Take? ==> Canonical(t, plan[0].key))
        && Carries(t, events[1..], source, plan[1..])
      else Carries(t, events[1..], source, plan)
  }

  // An event that no transaction but a mark or an ingest of it can bring into the inbox meanwhile.
  predicate Foreign(s: Db, key: EventKey) {
    key in s.inbox || !Internal(key)
  }

  lemma StepKeepsForeign(s: Db, a: Action, key: EventKey)
    requires Foreign(s, key)
    ensures Foreign(Perform(s, a), key)
  {
    if key in s.inbox {
      StepKeepsRow(s, a, key);
    }
    hide Perform;
  }

  // A transaction of another kind, or an ingest or mark of another event, makes nothing of the flag.
  lemma OthersHaveNoEffect(s: Db, a: Action, key: EventKey)
    requires !Touches(a, key) && Foreign(s, key)
    ensures Effect(s, a, key) == None
  {
    if key !in s.inbox {
      OthersAddOwn(s, a, key);
    }
    hide Perform, Internal;
  }

  lemma OwnEffect(s: Db, a: Action, op: Op)
    requires Does(a, op) && (op.Take? ==> Canonical(Perform(s, a), op.key))
    ensures Effect(s, a, op.key) == Some(op.Take?)
  {
    if op.Take? {
      IngestDecides(s, a);
      IngestingIs(s, a.key, a.body, a.recipients, a.rows);
    }
    hide Perform, TakesEffect, Canonical;
  }

  // With one poller of the source, the verdict on an event is that of the plan.
  lemma {:induction false} VerdictIsFinal(s: Db, events: seq<Event>, source: string, plan: seq<Op>, key: EventKey)
    requires Carries(s, events, source, plan) && key.source == source && Foreign(s, key)
    ensures Verdict(s, events, key) == Final(plan, key)
    decreases |events|
  {
    hide Perform, Effect, Canonical, Internal;
    if events == [] {
    } else {
      var a, t, u := events[0].action, Tick(s, events[0].now), Apply(s, events[0]);
      StepKeepsForeign(t, a, key);
      if IsOfSource(a, source) {
        if plan[0].key == key {
          OwnEffect(t, a, plan[0]);
        } else {
          OthersHaveNoEffect(t, a, key);
        }
        VerdictIsFinal(u, events[1..], source, plan[1..], key);
      } else {
        OthersHaveNoEffect(t, a, key);
        VerdictIsFinal(u, events[1..], source, plan, key);
      }
    }
  }

  lemma PlanDecides(s: Db, events: seq<Event>, source: string, plan: seq<Op>, key: EventKey)
    requires Carries(s, events, source, plan) && key.source == source && Foreign(s, key)
    ensures Canonical(Run(s, events), key) == if Final(plan, key).Some? then Final(plan, key).value
            else Canonical(s, key)
  {
    hide Run, Carries, Final, Verdict, Canonical, Foreign;
    VerdictIsFinal(s, events, source, plan, key);
    LastTouchDecides(s, events, key);
  }

  lemma MarkingClears(s: Db, a: Action, key: EventKey)
    requires a == AMarkReorg(key)
    ensures !Canonical(Perform(s, a), key)
  {
    MarkReorgFlags(s, key);
    hide MarkReorg;
  }

  predicate Emits(batch: Batch, id: string) {
    exists e :: e in batch.events && e.id == id
  }

  lemma {:induction false} FinalOfTakes(marks: seq<Op>, takes: seq<Op>, key: EventKey)
    requires (forall op :: op in marks ==> op.Mark?) && (forall op :: op in takes ==> op.Take?)
    ensures Final(marks + takes, key) == if Take(key) in takes then Some(true)
            else if Mark(key) in marks then Some(false) else None
    decreases |marks| + |takes|
  {
    var plan := marks + takes;
    if marks != [] {
      assert plan[1..] == marks[1..] + takes;
      FinalOfTakes(marks[1..], takes, key);
      assert marks == [marks[0]] + marks[1..] && marks[0] in marks;
      assert plan[0] == marks[0];
    } else if takes != [] {
      assert plan == takes && plan[1..] == [] + takes[1..];
      FinalOfTakes([], takes[1..], key);
      assert takes == [takes[0]] + takes[1..] && takes[0] in takes;
    }
  }

  lemma FinalOfPlan(source: string, batch: Batch, id: string)
    ensures Final(Plan(source, batch), EventKey(source, id)) == if Emits(batch, id) then Some(true)
            else if id in batch.reorged then Some(false) else None
  {
    var key := EventKey(source, id);
    var marks, takes := Marks(source, batch.reorged), Takes(source, batch.events);
    FinalOfTakes(marks, takes, key);
    if Emits(batch, id) {
      var i :| 0 <= i < |batch.events| && batch.events[i].id == id;
      assert takes[i] == Take(key);
    }
    if id in batch.reorged {
      var i :| 0 <= i < |batch.reorged| && batch.reorged[i] == id;
      assert marks[i] == Mark(key);
    }
  }

  // ---- one round ---------------------------------------------------------------------------------

  // The exact effect of a completed round on an event: it stands afterwards just when the batch
  // emitted it, or it stood before and the batch did not report it.
  lemma RoundIsExact(s: Db, events: seq<Event>, source: string, batch: Batch, id: string)
    requires Carries(s, events, source, Plan(source, batch)) && Foreign(s, EventKey(source, id))
    ensures Canonical(Run(s, events), EventKey(source, id))
            <==> Emits(batch, id) || (id !in batch.reorged && Canonical(s, EventKey(source, id)))
  {
    hide Run, Carries, Final, Foreign, Canonical;
    FinalOfPlan(source, batch, id);
    PlanDecides(s, events, source, Plan(source, batch), EventKey(source, id));
  }

  // A block lo, ..., hi-1 of the chain has the event.
  predicate Has(chain: Chain, lo: nat, hi: int, id: string) {
    exists n :: lo <= n < hi && n < |chain| && HasLog(chain[n], id)
  }

  // Known before the poll: the blocks it is going to scan have the event.
  predicate InScan(o: Options, chain: Chain, cursor: Cursor, id: string)
    requires Valid(o) && SafeHead(o, chain) >= 0
  {
    var start := StartBlock(cursor, chain, SafeHead(o, chain));
    Has(chain, start, EndBlock(o, start, SafeHead(o, chain)), id)
  }

  // The event is on the chain at or below the safe head.
  predicate OnSafeChain(o: Options, chain: Chain, id: string) {
    Has(chain, 0, SafeHead(o, chain) + 1, id)
  }

  lemma EmitsWhatItScans(o: Options, chain: Chain, cursor: Cursor, batch: Batch, id: string)
    requires Valid(o) && chain != [] && Polls(o, chain, cursor, batch) && SafeHead(o, chain) >= 0
    ensures Emits(batch, id) <==> InScan(o, chain, cursor, id)
    ensures Emits(batch, id) ==> OnSafeChain(o, chain, id)
  {
    hide HistoryAfter;
    var start, next := StartBlock(cursor, chain, SafeHead(o, chain)), batch.cursor.nextBlock;
    forall e ensures e in batch.events <==> OnChain(chain, start, next, e) {
      ChainLogsAreOnChain(chain, start, next, e);
    }
    hide ChainLogs, StartBlock, Polls, EndBlock;
    if Emits(batch, id) {
      var e :| e in batch.events && e.id == id;
      var l := Log(e.id, e.index);
      assert l in chain[e.number].logs && l.id == id;
      assert HasLog(chain[e.number], id);
    }
    if InScan(o, chain, cursor, id) {
      var n :| start <= n < next && n < |chain| && HasLog(chain[n], id);
      var l :| l in chain[n].logs && l.id == id;
      assert Occurrence(id, n, chain[n].hash, l.index) in batch.events;
    }
  }

  ghost predicate Stray(o: Options, chain: Chain, s: Db, source: string, id: string) {
    Canonical(s, EventKey(source, id)) && !OnSafeChain(o, chain, id)
  }

  ghost predicate Missing(o: Options, chain: Chain, s: Db, source: string, id: string) {
    !Canonical(s, EventKey(source, id)) && OnSafeChain(o, chain, id)
  }

  // When the inbox mirrors the chain after a completed round, from what is known before the poll.
  // An event stands without being on the chain exactly if it stood before, no entry of a changed
  // block names it, and the chain does not have it. An event of the chain does not stand exactly if
  // it did not stand before or a changed entry names it, and none of the blocks to scan has it.
  lemma MirrorIsExact(o: Options, chain: Chain, cursor: Cursor, batch: Batch, s: Db, events: seq<Event>,
      source: string, id: string)
    requires Valid(o) && chain != [] && Polls(o, chain, cursor, batch) && SafeHead(o, chain) >= 0
    requires Carries(s, events, source, Plan(source, batch)) && Foreign(s, EventKey(source, id))
    ensures var before, gone := Canonical(s, EventKey(source, id)), Reorged(cursor, chain, SafeHead(o, chain), id);
            && (Stray(o, chain, Run(s, events), source, id) <==> before && !gone && !OnSafeChain(o, chain, id))
            && (Missing(o, chain, Run(s, events), source, id)
               <==> (!before || gone) && OnSafeChain(o, chain, id) && !InScan(o, chain, cursor, id))
  {
    RoundIsExact(s, events, source, batch, id);
    hide Run, Carries, ChainLogs, HistoryAfter, Canonical, OnSafeChain, InScan, Foreign, Emits, StartBlock, EndBlock,
        Reorged, Plan;
    EmitsWhatItScans(o, chain, cursor, batch, id);
  }

  // A reported identity stands afterwards exactly when a block the poll scans has it again.
  lemma ReorgedIdsFollowChain(o: Options, chain: Chain, cursor: Cursor, batch: Batch, s: Db, events: seq<Event>,
      source: string, id: string)
    requires Valid(o) && chain != [] && Polls(o, chain, cursor, batch) && SafeHead(o, chain) >= 0
             && Foreign(s, EventKey(source, id))
    requires Carries(s, events, source, Plan(source, batch)) && Reorged(cursor, chain, SafeHead(o, chain), id)
    ensures id in batch.reorged && (Canonical(Run(s, events), EventKey(source, id)) <==> InScan(o, chain, cursor, id))
    ensures Canonical(Run(s, events), EventKey(source, id)) ==> OnSafeChain(o, chain, id)
  {
    RoundIsExact(s, events, source, batch, id);
    hide Run, Carries, ChainLogs, HistoryAfter, Canonical, OnSafeChain, InScan, Foreign, Emits, StartBlock, EndBlock,
        Reorged, Plan;
    EmitsWhatItScans(o, chain, cursor, batch, id);
  }

  // ---- many rounds, some of them cut short -----------------------------------------------------------

  // A round polls a chain and carries out the first `done` operations of its plan; the cursor is
  // saved only at the end, so a round that stops early leaves it as it was.
  datatype SourceRound = SourceRound(chain: Chain, batch: Batch, events: seq<Event>, done: nat, saved: bool)

  ghost predicate IsRound(o: Options, source: string, s: Db, cursor: Cursor, r: SourceRound)
    requires Valid(o)
  {
    && r.chain != [] && Polls(o, r.chain, cursor, r.batch)
    && r.done <= |Plan(source, r.batch)| && (r.saved ==> r.done == |Plan(source, r.batch)|)
    && Carries(s, r.events, source, Plan(source, r.batch)[..r.done])
  }

  function StateAfter(s: Db, rounds: seq<SourceRound>): Db
    decreases |rounds|
  {
    if rounds == [] then s else Run(StateAfter(s, rounds[..|rounds| - 1]), rounds[|rounds| - 1].events)
  }

  function CursorAfter(cursor: Cursor, rounds: seq<SourceRound>): Cursor
    decreases |rounds|
  {
    if rounds == [] then cursor
    else if rounds[|rounds| - 1].saved then rounds[|rounds| - 1].batch.cursor
    else CursorAfter(cursor, rounds[..|rounds| - 1])
  }

  ghost predicate AreRounds(o: Options, source: string, s: Db, cursor: Cursor, rounds: seq<SourceRound>)
    requires Valid(o)
    decreases |rounds|
  {
    rounds != [] ==>
      var init := rounds[..|rounds| - 1];
      AreRounds(o, source, s, cursor, init) && IsRound(o, source, StateAfter(s, init), CursorAfter(cursor, init),
          rounds[|rounds| - 1])
  }

  // Whether an event stands after the rounds: the last operation carried out on it decides, of all
  // those of all rounds.
  function Standing(source: string, rounds: seq<SourceRound>, id: string, before: bool): bool
    decreases |rounds|
  {
    if rounds == [] then before
    else
      var r := rounds[|rounds| - 1];
      var plan := Plan(source, r.batch);
      var last := Final(if r.done <= |plan| then plan[..r.done] else plan, EventKey(source, id));
      if last.Some? then last.value else Standing(source, rounds[..|rounds| - 1], id, before)
  }

  lemma {:induction false} RoundsKeepForeign(s: Db, rounds: seq<SourceRound>, key: EventKey)
    requires Foreign(s, key)
    ensures Foreign(StateAfter(s, rounds), key)
    decreases |rounds|
  {
    hide Run, Internal;
    if rounds == [] {
    } else {
      var init := rounds[..|rounds| - 1];
      RoundsKeepForeign(s, init, key);
      if key in StateAfter(s, init).inbox {
        InboxNeverShrinks(StateAfter(s, init), rounds[|rounds| - 1].events, key);
      }
    }
  }

  lemma {:induction false} RoundsDecide(o: Options, source: string, s: Db, cursor: Cursor, rounds: seq<SourceRound>,
      id: string)
    requires Valid(o) && AreRounds(o, source, s, cursor, rounds) && Foreign(s, EventKey(source, id))
    ensures Canonical(StateAfter(s, rounds), EventKey(source, id))
            == Standing(source, rounds, id, Canonical(s, EventKey(source, id)))
    decreases |rounds|
  {
    hide Run, Carries, Final, Foreign, Canonical, Polls, Plan, CursorAfter;
    if rounds == [] {
    } else {
      var init, r := rounds[..|rounds| - 1], rounds[|rounds| - 1];
      RoundsDecide(o, source, s, cursor, init, id);
      RoundsKeepForeign(s, init, EventKey(source, id));
      PlanDecides(StateAfter(s, init), r.events, source, Plan(source, r.batch)[..r.done], EventKey(source, id));
    }
  }

  // The same over any rounds on any chains, with any of them cut short at any point and replayed:
  // what the rounds before left standing, and what the cursor still tracks, decide exactly which
  // events the inbox has wrong after a completed round.
  lemma EveryCompletedRoundSettles(o: Options, source: string, s: Db, cursor: Cursor, rounds: seq<SourceRound>,
      id: string)
    requires Valid(o) && AreRounds(o, source, s, cursor, rounds) && Foreign(s, EventKey(source, id))
    requires rounds != [] && var last := rounds[|rounds| - 1]; last.saved && SafeHead(o, last.chain) >= 0
    ensures var n := |rounds| - 1;
            var chain, now := rounds[n].chain, CursorAfter(cursor, rounds[..n]);
            var before := Standing(source, rounds[..n], id, Canonical(s, EventKey(source, id)));
            var gone := Reorged(now, chain, SafeHead(o, chain), id);
            && (Stray(o, chain, StateAfter(s, rounds), source, id) <==> before && !gone && !OnSafeChain(o, chain, id))
            && (Missing(o, chain, StateAfter(s, rounds), source, id)
               <==> (!before || gone) && OnSafeChain(o, chain, id) && !InScan(o, chain, now, id))
  {
    var n := |rounds| - 1;
    var init, r := rounds[..n], rounds[n];
    hide Run, Carries, Foreign, Canonical, Polls, Plan, CursorAfter, Standing, Stray, Missing, OnSafeChain, InScan,
        Reorged;
    RoundsDecide(o, source, s, cursor, init, id);
    RoundsKeepForeign(s, init, EventKey(source, id));
    assert Plan(source, r.batch)[..r.done] == Plan(source, r.batch);
    MirrorIsExact(o, r.chain, CursorAfter(cursor, init), r.batch, StateAfter(s, init), r.events, source, id);
  }

  // ---- events in reach are never stray ------------------------------------------------------------

  function ChainsOf(rounds: seq<SourceRound>): (r: seq<Chain>)
    ensures |r| == |rounds|
  {
    seq(|rounds|, i requires 0 <= i < |rounds| => rounds[i].chain)
  }

  function BatchesOf(rounds: seq<SourceRound>): (r: seq<Batch>)
    ensures |r| == |rounds|
  {
    seq(|rounds|, i requires 0 <= i < |rounds| => rounds[i].batch)
  }

  // The rounds that saved their cursor.
  function SavedRounds(rounds: seq<SourceRound>): seq<SourceRound> {
    if rounds == [] then []
    else
      var rest := SavedRounds(rounds[..|rounds| - 1]);
      if rounds[|rounds| - 1].saved then rest + [rounds[|rounds| - 1]] else rest
  }

  lemma {:induction false} CursorOfSaved(cursor: Cursor, rounds: seq<SourceRound>)
    ensures CursorAfter(cursor, rounds) == CursorAt(cursor, BatchesOf(SavedRounds(rounds)), |SavedRounds(rounds)|)
    decreases |rounds|
  {
    if rounds == [] {
    } else {
      CursorOfSaved(cursor, rounds[..|rounds| - 1]);
    }
  }

  lemma TurnsExtend(o: Options, cursor: Cursor, rounds: seq<SourceRound>, r: SourceRound)
    requires Valid(o) && PollsInTurn(o, cursor, ChainsOf(rounds), BatchesOf(rounds))
    requires r.chain != [] && Polls(o, r.chain, CursorAt(cursor, BatchesOf(rounds), |rounds|), r.batch)
    ensures PollsInTurn(o, cursor, ChainsOf(rounds + [r]), BatchesOf(rounds + [r]))
  {
    hide Polls;
    var n, chains, batches := |rounds|, ChainsOf(rounds + [r]), BatchesOf(rounds + [r]);
    forall i | 0 <= i <= n ensures chains[i] != [] && Polls(o, chains[i], CursorAt(cursor, batches, i), batches[i]) {
      assert i < n ==> BatchesOf(rounds)[i] == batches[i] && ChainsOf(rounds)[i] == chains[i];
      assert CursorAt(cursor, BatchesOf(rounds), i) == CursorAt(cursor, batches, i);
    }
  }

  // The rounds that complete poll one after another, whatever was cut short in between.
  lemma {:induction false} SavedRoundsFollow(o: Options, source: string, s: Db, cursor: Cursor,
      rounds: seq<SourceRound>)
    requires Valid(o) && AreRounds(o, source, s, cursor, rounds)
    ensures PollsInTurn(o, cursor, ChainsOf(SavedRounds(rounds)), BatchesOf(SavedRounds(rounds)))
    ensures forall m :: 0 <= m < |SavedRounds(rounds)| ==>
              SavedRounds(rounds)[m].done == |Plan(source, SavedRounds(rounds)[m].batch)|
    decreases |rounds|
  {
    hide Polls, Carries, Run, StateAfter, Plan, PollsInTurn;
    if rounds == [] {
      NoTurns(o, cursor);
    } else {
      var n := |rounds| - 1;
      SavedRoundsFollow(o, source, s, cursor, rounds[..n]);
      if rounds[n].saved {
        CursorOfSaved(cursor, rounds[..n]);
        assert IsRound(o, source, StateAfter(s, rounds[..n]), CursorAfter(cursor, rounds[..n]), rounds[n]);
        TurnsExtend(o, cursor, SavedRounds(rounds[..n]), rounds[n]);
      }
    }
  }

  lemma NoTurns(o: Options, cursor: Cursor)
    requires Valid(o)
    ensures PollsInTurn(o, cursor, ChainsOf([]), BatchesOf([]))
  {
  }

  // No round that was cut short had reached the event.
  predicate Undisturbed(source: string, rounds: seq<SourceRound>, id: string) {
    forall m {:trigger rounds[m]} :: 0 <= m < |rounds| && !rounds[m].saved ==> !Reaches(source, rounds[m], id)
  }

  predicate Reaches(source: string, r: SourceRound, id: string) {
    var plan := Plan(source, r.batch);
    r.done <= |plan| ==> Final(plan[..r.done], EventKey(source, id)).Some?
  }

  lemma StandingExtends(source: string, rounds: seq<SourceRound>, r: SourceRound, id: string, before: bool)
    ensures Standing(source, rounds + [r], id, before)
            == Standing(source, [r], id, Standing(source, rounds, id, before))
    ensures !Reaches(source, r, id) ==> Standing(source, rounds + [r], id, before)
                                        == Standing(source, rounds, id, before)
  {
    hide Plan, Final;
    var all := rounds + [r];
    assert all[..|all| - 1] == rounds && all[|all| - 1] == r && [r][..0] == [];
  }

  lemma {:induction false} SavedDecide(source: string, rounds: seq<SourceRound>, id: string, before: bool)
    requires Undisturbed(source, rounds, id)
    ensures Standing(source, rounds, id, before) == Standing(source, SavedRounds(rounds), id, before)
    decreases |rounds|
  {
    hide Standing, Reaches;
    if rounds == [] {
      assert SavedRounds(rounds) == rounds;
    } else {
      var init, r := rounds[..|rounds| - 1], rounds[|rounds| - 1];
      assert rounds == init + [r];
      assert !r.saved ==> !Reaches(source, r, id);
      SavedDecide(source, init, id, before);
      StandingExtends(source, init, r, id, before);
      StandingExtends(source, SavedRounds(init), r, id, before);
    }
  }

  // A reported event that no later round emits stays withdrawn.
  lemma {:induction false} ReportedStaysWithdrawn(source: string, rounds: seq<SourceRound>, j: nat, id: string,
      before: bool)
    requires j < |rounds| && id in rounds[j].batch.reorged
    requires forall m {:trigger rounds[m]} :: j <= m < |rounds|
                                              ==> rounds[m].done == |Plan(source, rounds[m].batch)|
                                                  && !Emits(rounds[m].batch, id)
    ensures !Standing(source, rounds, id, before)
    decreases |rounds|
  {
    hide Plan, Final, Emits;
    var n := |rounds| - 1;
    var r := rounds[n];
    assert Plan(source, r.batch)[..r.done] == Plan(source, r.batch);
    FinalOfPlan(source, r.batch, id);
    if j < n {
      ReportedStaysWithdrawn(source, rounds[..n], j, id, before);
    }
  }

  // The first of the chains i+1, ..., k-1 with another block at the height, if any.
  lemma {:induction false} FirstChange(chains: seq<Chain>, i: nat, k: nat, number: nat, hash: string) returns (j: nat)
    requires i < k <= |chains| && forall m :: i <= m < k ==> number < |chains[m]|
    ensures i < j <= k && (forall m :: i < m < j ==> chains[m][number].hash == hash)
            && (j < k ==> chains[j][number].hash != hash)
    decreases k
  {
    if k == i + 1 {
      j := k;
    } else {
      j := FirstChange(chains, i, k - 1, number, hash);
      if j == k - 1 && chains[k - 1][number].hash == hash {
        j := k;
      }
    }
  }

  // An event of round i that no later one emits again, with its block in reach of every poll since.
  ghost predicate LastSeen(o: Options, rounds: seq<SourceRound>, i: nat, e: Occurrence)
    requires Valid(o)
  {
    && i < |rounds| && e in rounds[i].batch.events
    && (forall m {:trigger rounds[m]} :: i < m < |rounds| ==> !Emits(rounds[m].batch, e.id))
    && (forall m {:trigger rounds[m]} :: i <= m < |rounds| ==> InReach(o, rounds[m].chain, rounds[m].batch, e.number))
    && LinkedRun(ChainsOf(rounds), i, |rounds|)
  }

  // Of the rounds that completed, with any in between cut short before they reached the event: if it
  // was seen last in the i-th and still stands, every chain polled since has its block, so it is on
  // the last one. While blocks stay in reach, no reorg leaves a stray event.
  lemma EventsInReachAreNeverStray(o: Options, source: string, s: Db, cursor: Cursor, rounds: seq<SourceRound>,
      i: nat, e: Occurrence)
    requires Valid(o) && AreRounds(o, source, s, cursor, rounds) && LastSeen(o, SavedRounds(rounds), i, e)
    requires Undisturbed(source, rounds, e.id) && Foreign(s, EventKey(source, e.id))
    requires Canonical(StateAfter(s, rounds), EventKey(source, e.id))
    ensures forall m :: i <= m < |SavedRounds(rounds)| ==>
              e.number < |SavedRounds(rounds)[m].chain| && SavedRounds(rounds)[m].chain[e.number].hash == e.hash
    ensures SavedRounds(rounds) != [] && OnSafeChain(o, SavedRounds(rounds)[|SavedRounds(rounds)| - 1].chain, e.id)
  {
    hide PollsInTurn, AreRounds, StateAfter, Canonical, Foreign, LastSeen, InReach, OnSafeChain, Undisturbed,
        Standing;
    SavedRoundsFollow(o, source, s, cursor, rounds);
    RoundsDecide(o, source, s, cursor, rounds, e.id);
    var before := Canonical(s, EventKey(source, e.id));
    SavedDecide(source, rounds, e.id, before);
    hide SavedRounds;
    StandingIsOnChain(o, source, cursor, SavedRounds(rounds), i, e, before);
  }

  lemma StandingIsOnChain(o: Options, source: string, cursor: Cursor, rounds: seq<SourceRound>, i: nat, e: Occurrence,
      before: bool)
    requires Valid(o) && PollsInTurn(o, cursor, ChainsOf(rounds), BatchesOf(rounds)) && LastSeen(o, rounds, i, e)
    requires forall m :: 0 <= m < |rounds| ==> rounds[m].done == |Plan(source, rounds[m].batch)|
    requires Standing(source, rounds, e.id, before)
    ensures forall m :: i <= m < |rounds| ==> e.number < |rounds[m].chain| && rounds[m].chain[e.number].hash == e.hash
    ensures rounds != [] && OnSafeChain(o, rounds[|rounds| - 1].chain, e.id)
  {
    hide PollsInTurn, LastSeen, InReach, OnSafeChain, Standing;
    var n, chains := |rounds|, ChainsOf(rounds);
    InReachThroughout(o, cursor, rounds, i, e);
    LastSeenIsRound(o, rounds, i, e);
    var j := FirstChange(chains, i, n, e.number, e.hash);
    if j < n {
      ChangeWithdraws(o, source, cursor, rounds, i, j, e, before);
    } else {
      UnchangedIsOnChain(o, cursor, rounds, i, e);
      forall m | i <= m < n ensures e.number < |rounds[m].chain| && rounds[m].chain[e.number].hash == e.hash {
        assert chains[m] == rounds[m].chain;
      }
    }
  }

  lemma LastSeenIsRound(o: Options, rounds: seq<SourceRound>, i: nat, e: Occurrence)
    requires Valid(o) && LastSeen(o, rounds, i, e)
    ensures i < |rounds|
  {
  }

  predicate SameUntil(chains: seq<Chain>, i: nat, j: nat, e: Occurrence) {
    forall m {:trigger chains[m]} :: i <= m < j && m < |chains|
                                     ==> e.number < |chains[m]| && chains[m][e.number].hash == e.hash
  }

  lemma SightUntil(o: Options, cursor: Cursor, rounds: seq<SourceRound>, i: nat, j: nat, e: Occurrence)
    requires Valid(o) && LastSeen(o, rounds, i, e) && PollsInTurn(o, cursor, ChainsOf(rounds), BatchesOf(rounds))
    requires SameUntil(ChainsOf(rounds), i, j, e) && j <= |rounds|
    ensures i < |rounds| && InSight(o, ChainsOf(rounds), BatchesOf(rounds), i, j, e)
            && LinkedRun(ChainsOf(rounds), i, j)
  {
    InReachThroughout(o, cursor, rounds, i, e);
    hide InReach, PollsInTurn, Linked, Emits;
    LinkedEarlier(ChainsOf(rounds), i, j, |rounds|);
  }

  lemma ChangeWithdraws(o: Options, source: string, cursor: Cursor, rounds: seq<SourceRound>, i: nat, j: nat,
      e: Occurrence, before: bool)
    requires Valid(o) && LastSeen(o, rounds, i, e) && PollsInTurn(o, cursor, ChainsOf(rounds), BatchesOf(rounds))
    requires forall m :: 0 <= m < |rounds| ==> rounds[m].done == |Plan(source, rounds[m].batch)|
    requires i < j < |rounds| && e.number < |rounds[j].chain|
    requires SameUntil(ChainsOf(rounds), i, j, e) && rounds[j].chain[e.number].hash != e.hash
    ensures !Standing(source, rounds, e.id, before)
  {
    var chains, batches := ChainsOf(rounds), BatchesOf(rounds);
    InReachThroughout(o, cursor, rounds, i, e);
    ReachIsBelow(o, chains[j], batches[j], e.number);
    SightUntil(o, cursor, rounds, i, j, e);
    WithdrawnWhenReported(o, source, rounds, i, j, e, before);
    LastSeenIsRound(o, rounds, i, e);
    EmittedBy(o, rounds, i, e);
    hide PollsInTurn, LastSeen, InReach, LinkedRun, InSight, SameUntil, Standing;
    ReorgIsReported(o, cursor, chains, batches, i, j, e);
  }

  lemma EmittedBy(o: Options, rounds: seq<SourceRound>, i: nat, e: Occurrence)
    requires Valid(o) && LastSeen(o, rounds, i, e)
    ensures e in BatchesOf(rounds)[i].events
  {
  }

  lemma UnchangedIsOnChain(o: Options, cursor: Cursor, rounds: seq<SourceRound>, i: nat, e: Occurrence)
    requires Valid(o) && LastSeen(o, rounds, i, e) && PollsInTurn(o, cursor, ChainsOf(rounds), BatchesOf(rounds))
    requires SameUntil(ChainsOf(rounds), i, |rounds|, e)
    ensures rounds != [] && OnSafeChain(o, rounds[|rounds| - 1].chain, e.id)
  {
    hide PollsInTurn, InReach, TracksEvent, HasLog, LinkedRun, InSight, SameUntil, LastSeen, Agrees, OnSafeChain;
    var n, chains, batches := |rounds|, ChainsOf(rounds), BatchesOf(rounds);
    SightUntil(o, cursor, rounds, i, n, e);
    LastSeenIsRound(o, rounds, i, e);
    EmittedBy(o, rounds, i, e);
    TrackedUntil(o, cursor, chains, batches, i, n - 1, n, e);
    FoundIsOnSafeChain(o, chains[n - 1], e);
    assert chains[n - 1] == rounds[n - 1].chain;
  }

  lemma FoundIsOnSafeChain(o: Options, chain: Chain, e: Occurrence)
    requires Valid(o) && Agrees(o, chain, e) && HasLog(chain[e.number], e.id)
    ensures OnSafeChain(o, chain, e.id)
  {
    hide HasLog;
  }

  lemma ReachIsBelow(o: Options, chain: Chain, batch: Batch, number: nat)
    requires Valid(o) && InReach(o, chain, batch, number)
    ensures number <= SafeHead(o, chain) && number < |chain|
  {
  }

  lemma InReachThroughout(o: Options, cursor: Cursor, rounds: seq<SourceRound>, i: nat, e: Occurrence)
    requires Valid(o) && LastSeen(o, rounds, i, e) && PollsInTurn(o, cursor, ChainsOf(rounds), BatchesOf(rounds))
    ensures forall m :: i <= m < |rounds| ==> e.number < |ChainsOf(rounds)[m]|
                                              && InReach(o, ChainsOf(rounds)[m], BatchesOf(rounds)[m], e.number)
    ensures ChainsOf(rounds)[i][e.number].hash == e.hash
  {
    hide Polls, PollsInTurn, LinkedRun, Emits, HasLog, TracksEvent;
    var chains, batches := ChainsOf(rounds), BatchesOf(rounds);
    PollAt(o, cursor, chains, batches, i);
    forall m | i <= m < |rounds| ensures e.number < |chains[m]| && InReach(o, chains[m], batches[m], e.number) {
      assert rounds[m] == rounds[m];
    }
    hide InReach;
    EmittedIsTracked(o, chains[i], CursorAt(cursor, batches, i), batches[i], e);
  }

  lemma WithdrawnWhenReported(o: Options, source: string, rounds: seq<SourceRound>, i: nat, j: nat, e: Occurrence,
      before: bool)
    requires Valid(o) && LastSeen(o, rounds, i, e) && i < j < |rounds|
    requires forall m :: 0 <= m < |rounds| ==> rounds[m].done == |Plan(source, rounds[m].batch)|
    ensures e.id in rounds[j].batch.reorged ==> !Standing(source, rounds, e.id, before)
  {
    hide Standing, LinkedRun, Plan, Emits, InReach;
    if e.id in rounds[j].batch.reorged {
      ReportedStaysWithdrawn(source, rounds, j, e.id, before);
    }
  }

  lemma LinkedEarlier(chains: seq<Chain>, i: nat, j: nat, k: nat)
    requires LinkedRun(chains, i, k) && j <= k <= |chains|
    ensures LinkedRun(chains, i, j)
  {
    hide Linked;
  }

  lemma FailedIngest(s: Db, key: EventKey, body: string, recipients: set<Id>, rows: seq<Row>)
    requires Lists(rows, Subscribers(s, key.source, recipients)) && !IsDuplicate(s, key)
             && QueueJobs(Received(s, key, body), key, rows).None?
    ensures Ingest(s, key, body, recipients, rows) == s
  {
  }

  lemma IngestMakesCanonical(s: Db, key: EventKey, body: string, recipients: set<Id>, rows: seq<Row>)
    requires Lists(rows, Subscribers(s, key.source, recipients))
    requires IsDuplicate(s, key) || QueueJobs(Received(s, key, body), key, rows).Some?
    ensures Canonical(Ingest(s, key, body, recipients, rows), key)
  {
    hide Lists, Subscribers, QueueJobs;
  }

  // ---- the loop body of runEventWorker -----------------------------------------------------------------

  // What the subscription query answers for an event: whom it concerns, and their rows in some order.
  type Query = (Db, EventKey) -> (set<Id>, seq<Row>)

  ghost predicate Answers(query: Query) {
    forall s, key {:trigger query(s, key)} :: Lists(query(s, key).1, Subscribers(s, key.source, query(s, key).0))
  }

  lemma RunOneMore(s: Db, events: seq<Event>, e: Event)
    ensures Run(s, events + [e]) == Apply(Run(s, events), e)
    decreases |events|
  {
    hide Apply;
    if events != [] {
      assert (events + [e])[1..] == events[1..] + [e];
      RunOneMore(Apply(s, events[0]), events[1..], e);
    } else {
      assert (events + [e])[1..] == [];
    }
  }

  lemma {:induction false} CarriesOneMore(s: Db, events: seq<Event>, source: string, plan: seq<Op>, e: Event, op: Op)
    requires Carries(s, events, source, plan) && Does(e.action, op) && op.key.source == source
    requires op.Take? ==> Canonical(Apply(Run(s, events), e), op.key)
    ensures Carries(s, events + [e], source, plan + [op])
    decreases |events|
  {
    hide Apply, Canonical;
    var all := events + [e];
    if events == [] {
      assert all[1..] == [] && (plan + [op])[1..] == [];
    } else {
      assert all[1..] == events[1..] + [e];
      if IsOfSource(events[0].action, source) {
        assert (plan + [op])[1..] == plan[1..] + [op];
        CarriesOneMore(Apply(s, events[0]), events[1..], source, plan[1..], e, op);
      } else {
        CarriesOneMore(Apply(s, events[0]), events[1..], source, plan, e, op);
      }
    }
  }

  // The stored cursor of a source and the process's copy of it, read at the first poll.
  datatype Tracking = Tracking(saved: Saved, memory: Option<Saved>) {
    function InUse(): Saved {
      if memory.Some? then memory.value else saved
    }
  }

  // How a round ends for the cursor. A poll that finds the process shutting down returns no cursor,
  // and the empty object is stored as that of a healthy source before the process ends. The error
  // branch stores the process's copy, or the empty object
  // when there is none; that write may fail as well. A round whose read of the stored cursor fails
  // has no copy yet.
  datatype Happening = Unread(stored: bool) | Threw(stored: bool) | Finished(cursor: Cursor) | Aborted | Died

  // A poll from the empty object always throws, so no round from it saves a cursor; the stored
  // cursor is read only while there is no copy.
  predicate Possible(t: Tracking, h: Happening) {
    (h.Finished? ==> !t.InUse().Empty?) && (h.Unread? ==> t.memory.None?)
  }

  function After(t: Tracking, h: Happening): Tracking {
    match h
    case Unread(stored) => if stored then Tracking(Empty, None) else t
    case Threw(stored) =>
      Tracking(if !stored then t.saved else if t.InUse().At? then t.InUse() else Empty, Some(t.InUse()))
    case Finished(cursor) => Tracking(At(cursor), Some(At(cursor)))
    case Aborted => Tracking(Empty, None)
    case Died => Tracking(t.saved, None)
  }

  // A round of an actual poll: a prefix of the plan was carried out, all of it if it finished.
  ghost predicate Completes(o: Options, source: string, s: Db, inUse: Saved, r: SourceRound, happened: Happening)
    requires Valid(o)
  {
    IsRound(o, source, s, CursorOf(o, inUse), r) && (happened.Finished? ==> happened.cursor == r.batch.cursor)
  }

  class Worker {
    const store: EventStore
    const source: string
    // The row of event_cursors, and sourceCursors with initializedSources.
    var saved: Saved
    var memory: Option<Saved>

    function Track(): Tracking
      reads this
    {
      Tracking(saved, memory)
    }

    constructor (store: EventStore, source: string, saved: Saved)
      ensures this.store == store && this.source == source && Track() == Tracking(saved, None)
    {
      this.store, this.source, this.saved, this.memory := store, source, saved, None;
    }

    // One operation of the plan as a transaction of the service.
    method Carry(op: Op, query: Query, ghost before: Db, ghost events: seq<Event>,
        ghost plan: seq<Op>) returns (ok: bool, ghost after: seq<Event>)
      requires Answers(query) && op.key.source == source
      requires store.State() == Run(before, events) && Carries(before, events, source, plan)
      modifies store
      ensures store.State() == Run(before, after)
      ensures ok ==> Carries(before, after, source, plan + [op])
      ensures !ok ==> after == events
    {
      hide Run, Carries;
      if op.Mark? {
        var changed := store.MarkReorg(op.key);
        ghost var e := Event(old(store.clock), AMarkReorg(op.key));
        ok, after := true, events + [e];
        RunOneMore(before, events, e);
        CarriesOneMore(before, events, source, plan, e, op);
      } else {
        var answer := query(store.State(), op.key);
        var r := store.Ingest(op.key, "", answer.0, answer.1);
        if r.Failure? {
          FailedIngest(old(store.State()), op.key, "", answer.0, answer.1);
          return false, events;
        }
        ghost var e := Event(old(store.clock), AIngest(op.key, "", answer.0, answer.1));
        ok, after := true, events + [e];
        RunOneMore(before, events, e);
        assert r == Success(r.value) && (r.value == true || r.value == false);
        IngestMakesCanonical(old(store.State()), op.key, "", answer.0, answer.1);
        CarriesOneMore(before, events, source, plan, e, op);
      }
    }

    // What the error branch leaves behind; its own write may fail.
    method Report() returns (ghost stored: bool)
      modifies this`saved
      ensures saved == if !stored then old(saved) else if memory.Some? && memory.value.At? then memory.value else Empty
    {
      stored := false;
      if * {
        stored, saved := true, if memory.Some? && memory.value.At? then memory.value else Empty;
      }
    }

    // Carry out the plan, as far as it goes: true when all of it is done. A transaction may throw,
    // and the process may stop before any of them.
    method CarryAll(batch: Batch, query: Query) returns (complete: bool, died: bool, ghost done: nat,
        ghost transcript: seq<Event>)
      requires Answers(query)
      modifies store
      ensures store.State() == Run(old(store.State()), transcript)
      ensures done <= |Plan(source, batch)| && Carries(old(store.State()), transcript, source,
              Plan(source, batch)[..done])
      ensures complete ==> done == |Plan(source, batch)|
    {
      hide Run, Carries, Answers, Plan;
      OfOneSource(source, batch);
      var plan := Plan(source, batch);
      ghost var before := store.State();
      transcript := [];
      NothingYet(before, source);
      var i := 0;
      while i < |plan|
        invariant 0 <= i <= |plan|
        invariant store.State() == Run(before, transcript) && Carries(before, transcript, source, plan[..i])
      {
        assert plan[..i + 1] == plan[..i] + [plan[i]];
        if * {
          var stops: bool := *;
          return false, stops, i, transcript;
        }
        var ok;
        ok, transcript := Carry(plan[i], query, before, transcript, plan[..i]);
        if !ok {
          return false, false, i, transcript;
        }
        i := i + 1;
      }
      complete, died, done := true, *, i;
    }

    // Read the cursor, poll, mark, ingest, save. Any call may throw and the process may stop
    // between any two.
    method Round(o: Options, chain: Chain, now: int, getLogs: (nat, nat) -> seq<Occurrence>, query: Query)
        returns (round: Result<Batch>, ghost happened: Happening, ghost done: nat, ghost transcript: seq<Event>)
      requires Valid(o) && chain != [] && WellFormed(chain) && Honest(getLogs, chain) && Answers(query)
      modifies this, store
      ensures store.State() == Run(old(store.State()), transcript)
      ensures Possible(old(Track()), happened) && Track() == After(old(Track()), happened)
      ensures round.Failure? ==> transcript == [] && !happened.Finished?
      ensures PollFails(o, chain, now, old(Track()).InUse()) ==> round.Failure?
      ensures round.Failure? ==> PollFails(o, chain, now, old(Track()).InUse()) || round.error == UNAVAILABLE
      ensures round.Success? ==> Completes(o, source, old(store.State()), old(Track()).InUse(),
                                 SourceRound(chain, round.value, transcript, done, happened.Finished?), happened)
    {
      hide Run, Carries, Polls, Honest, Answers, StaleHead, SafeHead, Plan, WellFormed;
      done, transcript := 0, [];
      NothingYet(store.State(), source);
      if memory.None? {
        if * {
          ghost var stored := Report();
          return Failure(UNAVAILABLE), Unread(stored), 0, [];
        }
        memory := Some(saved);
      }
      if * {
        saved, memory := Empty, None;
        return Failure(UNAVAILABLE), Aborted, 0, [];
      }
      if * {
        ghost var stored := Report();
        return Failure(UNAVAILABLE), Threw(stored), 0, [];
      }
      round := Poll(o, chain, now, memory.value, getLogs);
      if round.Failure? {
        ghost var stored := Report();
        happened := Threw(stored);
        return;
      }
      var complete, died;
      complete, died, done, transcript := CarryAll(round.value, query);
      var throws: bool := *;
      if died {
        memory, happened := None, Died;
      } else if !complete || throws {
        ghost var stored := Report();
        happened := Threw(stored);
      } else {
        saved, memory := At(round.value.cursor), Some(At(round.value.cursor));
        happened := Finished(round.value.cursor);
      }
    }
  }

  lemma OfOneSource(source: string, batch: Batch)
    ensures forall op :: op in Plan(source, batch) ==> op.key.source == source
  {
  }

  const UNAVAILABLE := "source-unavailable"

  lemma NothingYet(s: Db, source: string)
    ensures Run(s, []) == s && Carries(s, [], source, [])
  {
  }

  predicate PollFails(o: Options, chain: Chain, now: int, saved: Saved)
    requires Valid(o) && chain != []
  {
    saved.Empty? || (SafeHead(o, chain) >= 0 && StaleHead(o, chain[SafeHead(o, chain)], now))
  }

  // ---- where the code falls short of its promise ----------------------------------------------------------

  predicate History(t: Tracking, hs: seq<Happening>)
    decreases |hs|
  {
    hs == [] || (Possible(t, hs[0]) && History(After(t, hs[0]), hs[1..]))
  }

  predicate NeverFinishes(hs: seq<Happening>) {
    forall i :: 0 <= i < |hs| ==> !hs[i].Finished?
  }

  predicate Stuck(t: Tracking) {
    t.saved.Empty? && t.InUse().Empty?
  }

  lemma {:induction false} StuckForGood(t: Tracking, hs: seq<Happening>)
    requires Stuck(t) && History(t, hs)
    ensures NeverFinishes(hs)
    decreases |hs|
  {
    if hs == [] {
    } else {
      StuckForGood(After(t, hs[0]), hs[1..]);
      assert forall i :: 1 <= i < |hs| ==> hs[i] == hs[1..][i - 1];
    }
  }

  ghost predicate Lost(t: Tracking) {
    forall hs: seq<Happening> {:trigger History(t, hs)} :: History(t, hs) ==> NeverFinishes(hs)
  }

  lemma Recovers(t: Tracking, hs: seq<Happening>)
    requires History(t, hs) && !NeverFinishes(hs)
    ensures !Lost(t)
  {
  }

  // The source is lost for good exactly when the empty object is both stored and in use.
  lemma LostExactlyWhenStuck(t: Tracking)
    ensures Stuck(t) <==> Lost(t)
  {
    var polled := Finished(Cursor(0, []));
    if Stuck(t) {
      forall hs | History(t, hs) ensures NeverFinishes(hs) {
        StuckForGood(t, hs);
      }
    } else if t.InUse().Empty? {
      var hs := [Died, polled];
      assert hs[1..] == [polled] && hs[1..][1..] == [];
      assert History(After(t, Died), hs[1..]) && hs[1].Finished?;
      Recovers(t, hs);
    } else {
      var hs := [polled];
      assert hs[1..] == [] && hs[0].Finished?;
      Recovers(t, hs);
    }
  }

  function Finally(t: Tracking, hs: seq<Happening>): Tracking
    decreases |hs|
  {
    if hs == [] then t else Finally(After(t, hs[0]), hs[1..])
  }

  predicate NoRestart(hs: seq<Happening>) {
    forall i :: 0 <= i < |hs| ==> !hs[i].Died? && !hs[i].Aborted?
  }

  ghost predicate CanBeLost(t: Tracking, restarts: bool) {
    exists hs {:trigger History(t, hs)} :: History(t, hs) && (restarts || NoRestart(hs)) && Lost(Finally(t, hs))
  }

  lemma LostBy(t: Tracking, hs: seq<Happening>, restarts: bool)
    requires History(t, hs) && (restarts || NoRestart(hs)) && Stuck(Finally(t, hs))
    ensures CanBeLost(t, restarts)
  {
    LostExactlyWhenStuck(Finally(t, hs));
  }

  lemma {:induction false} CopyProtects(t: Tracking, hs: seq<Happening>)
    requires t.memory.Some? && !t.memory.value.Empty? && History(t, hs) && NoRestart(hs)
    ensures !Stuck(Finally(t, hs))
    decreases |hs|
  {
    if hs == [] {
    } else {
      assert !hs[0].Died? && !hs[0].Aborted?;
      assert forall i :: 0 <= i < |hs[1..]| ==> hs[1..][i] == hs[i + 1];
      CopyProtects(After(t, hs[0]), hs[1..]);
    }
  }

  lemma OneRound(t: Tracking, h: Happening)
    ensures Finally(t, [h]) == After(t, h) && (Possible(t, h) ==> History(t, [h]))
  {
    assert [h][1..] == [];
    assert Finally(After(t, h), []) == After(t, h);
    assert Finally(t, [h]) == Finally(After(t, [h][0]), [h][1..]);
  }

  // Which sources can still be lost: one whose process holds no usable copy of its cursor, by one
  // failed read or poll, however good the stored cursor is; and after a restart every one.
  lemma LosableExactly(t: Tracking)
    ensures CanBeLost(t, false) <==> t.memory.None? || t.memory.value.Empty?
    ensures CanBeLost(t, true)
  {
    var failed := if t.memory.None? then Unread(true) else Threw(true);
    var now, later := [failed], [Died, Unread(true)];
    assert later[1..] == [Unread(true)];
    OneRound(t, failed);
    OneRound(After(t, Died), Unread(true));
    assert Finally(t, later) == Finally(After(t, Died), later[1..]);
    LostBy(t, later, true);
    if t.memory.None? || t.memory.value.Empty? {
      LostBy(t, now, false);
    } else {
      forall hs | History(t, hs) && NoRestart(hs) ensures !Lost(Finally(t, hs)) {
        CopyProtects(t, hs);
        LostExactlyWhenStuck(Finally(t, hs));
      }
    }
  }

  // A cursor that the process holds is the stored one, so rounds cut short start over from it.
  predicate CopyIsStored(t: Tracking) {
    t.memory.Some? && t.memory.value.At? ==> t.saved == t.memory.value
  }

  lemma {:induction false} HeldCursorIsStored(t: Tracking, hs: seq<Happening>)
    requires CopyIsStored(t) && History(t, hs)
    ensures CopyIsStored(Finally(t, hs))
    decreases |hs|
  {
    if hs == [] {
    } else {
      HeldCursorIsStored(After(t, hs[0]), hs[1..]);
    }
  }

  // Two chains of one block: x is logged on the first and gone on the second.
  const ONE_BLOCK := Options(0, 0, 10, 10)
  const WITH_X: Chain := [Block("a", 0, [Log("x", 0)])]
  const WITHOUT_X: Chain := [Block("b", 0, [])]
  const X_KEY := EventKey("evm", "x")
  const FOUND_X := Batch([Occurrence("x", 0, "a", 0)], [], Cursor(1, [Entry(0, "a", ["x"])]))
  const FOUND_NOTHING := Batch([], [], Cursor(1, []))
  const LOST_X := Batch([], ["x"], Cursor(1, []))
  const SAW_X_AGAIN := Batch([], [], Cursor(1, [Entry(0, "a", ["x"])]))

  function IngestX(): Event {
    Event(0, AIngest(X_KEY, "", {}, []))
  }

  lemma PollsOfX()
    ensures Polls(ONE_BLOCK, WITH_X, Cursor(0, []), FOUND_X)
            && Polls(ONE_BLOCK, WITHOUT_X, Cursor(0, []), FOUND_NOTHING)
  {
    var e := Entry(0, "a", ["x"]);
    assert WITH_X[0].logs[0] == Log("x", 0) && HasLog(WITH_X[0], "x");
    assert ChainLogs(WITH_X, 0, 0) == [] && BlockLogs(WITH_X[0], 0) == [Occurrence("x", 0, "a", 0)];
    assert ChainLogs(WITH_X, 0, 1) == [Occurrence("x", 0, "a", 0)];
    assert Records(WITH_X, 0, 1, e) && HasEntry(WITH_X, 0, 1, [e], 0);
    assert ChainLogs(WITHOUT_X, 0, 0) == [] && BlockLogs(WITHOUT_X[0], 0) == [];
  }

  lemma PollsAfterX()
    ensures Polls(ONE_BLOCK, WITHOUT_X, FOUND_X.cursor, LOST_X) && Polls(ONE_BLOCK, WITH_X, FOUND_X.cursor, SAW_X_AGAIN)
  {
    var e := Entry(0, "a", ["x"]);
    assert FOUND_X.cursor.history[0] == e && Diverges(WITHOUT_X, 0, e) && !Diverges(WITH_X, 0, e);
    assert ChainLogs(WITHOUT_X, 0, 0) == [] && BlockLogs(WITHOUT_X[0], 0) == [] && ChainLogs(WITH_X, 1, 1) == [];
    assert Reorged(FOUND_X.cursor, WITHOUT_X, 0, "x");
  }

  lemma IngestingIs(s: Db, key: EventKey, body: string, recipients: set<Id>, rows: seq<Row>)
    ensures Perform(s, AIngest(key, body, recipients, rows)) == Ingest(s, key, body, recipients, rows)
  {
    hide CreateDraft, EditDraft, PublishArtifact, RevokeConsent, WithdrawTemplate, Enable, Stop, Ingest, MarkReorg,
        ScheduleHealth;
    hide ClaimEvaluation, CompleteEvaluation, ClaimDelivery, CallReturns, CrashWorker, SettleCall, Reconcile;
  }

  lemma NobodySubscribes(s: Db)
    requires s.subs == map[]
    ensures Lists([], Subscribers(s, "evm", {})) && QueueJobs(Received(s, X_KEY, ""), X_KEY, []).Some?
  {
    assert Subscribers(s, "evm", {}) == {};
  }

  lemma IngestXWorks(s: Db)
    requires s.subs == map[]
    ensures Canonical(Apply(s, IngestX()), X_KEY)
  {
    hide Ingest, Perform, Lists, Subscribers, QueueJobs, Received;
    var t := Tick(s, 0);
    NobodySubscribes(t);
    IngestMakesCanonical(t, X_KEY, "", {}, []);
    IngestingIs(t, X_KEY, "", {}, []);
  }

  lemma RoundsExtend(o: Options, source: string, s: Db, cursor: Cursor, rounds: seq<SourceRound>, r: SourceRound)
    requires Valid(o) && AreRounds(o, source, s, cursor, rounds)
    requires IsRound(o, source, StateAfter(s, rounds), CursorAfter(cursor, rounds), r)
    ensures AreRounds(o, source, s, cursor, rounds + [r])
    ensures StateAfter(s, rounds + [r]) == Run(StateAfter(s, rounds), r.events)
    ensures CursorAfter(cursor, rounds + [r]) == if r.saved then r.batch.cursor else CursorAfter(cursor, rounds)
  {
    hide IsRound, Run;
    var all := rounds + [r];
    assert all[..|all| - 1] == rounds && all[|all| - 1] == r;
  }

  lemma NoRounds(o: Options, source: string, s: Db, cursor: Cursor)
    requires Valid(o)
    ensures AreRounds(o, source, s, cursor, []) && StateAfter(s, []) == s && CursorAfter(cursor, []) == cursor
  {
  }

  lemma CarriesOneOp(s: Db, e: Event, source: string, op: Op)
    requires IsOfSource(e.action, source) && Does(e.action, op) && (op.Take? ==> Canonical(Apply(s, e), op.key))
    ensures Carries(s, [e], source, [op]) && Run(s, [e]) == Apply(s, e)
  {
    hide Apply, Canonical;
    assert [e][1..] == [] && [op][1..] == [];
    NothingYet(Apply(s, e), source);
    assert Run(s, [e]) == Run(Apply(s, e), [e][1..]);
  }

  lemma PlansOfX()
    ensures Plan("evm", FOUND_X)[..1] == [Take(X_KEY)] && |Plan("evm", FOUND_X)| == 1
            && Plan("evm", FOUND_NOTHING) == []
    ensures Plan("evm", LOST_X)[..1] == [Mark(X_KEY)] && |Plan("evm", LOST_X)| == 1 && Plan("evm", SAW_X_AGAIN) == []
  {
  }

  // A round that changes nothing: its plan is empty.
  lemma QuietRound(o: Options, source: string, s: Db, cursor: Cursor, r: SourceRound)
    requires Valid(o) && r.chain != [] && Polls(o, r.chain, cursor, r.batch)
    requires Plan(source, r.batch) == [] && r.events == [] && r.done == 0
    ensures IsRound(o, source, s, cursor, r) && Run(s, r.events) == s
  {
    hide Polls, Plan, Carries, Run;
    NothingYet(s, source);
    assert Plan(source, r.batch)[..0] == [];
  }

  // A round of one operation on x.
  lemma RoundOfOne(o: Options, s: Db, cursor: Cursor, r: SourceRound, e: Event, op: Op)
    requires Valid(o) && r.chain != [] && Polls(o, r.chain, cursor, r.batch)
    requires Plan("evm", r.batch) == [op] && r.events == [e] && r.done == 1
    requires IsOfSource(e.action, "evm") && Does(e.action, op) && (op.Take? ==> Canonical(Apply(s, e), op.key))
    ensures IsRound(o, "evm", s, cursor, r) && Run(s, r.events) == Apply(s, e)
  {
    hide Polls, Plan, Apply, Canonical, Carries, Run;
    CarriesOneOp(s, e, "evm", op);
    assert Plan("evm", r.batch)[..1] == [op];
  }

  const MARK_X := Event(0, AMarkReorg(X_KEY))

  lemma MarkXWithdraws(s: Db)
    ensures !Canonical(Apply(s, MARK_X), X_KEY)
  {
    hide Perform, Canonical;
    MarkingClears(Tick(s, 0), MARK_X.action, X_KEY);
  }

  // The first round of every run below: x is found on the chain and ingested into an empty inbox.
  lemma FirstRound(o: Options, cursor: Cursor, r: SourceRound)
    requires Valid(o) && r.chain != [] && Polls(o, r.chain, cursor, r.batch)
    requires Plan("evm", r.batch) == [Take(X_KEY)] && r.events == [IngestX()] && r.done == 1
    ensures AreRounds(o, "evm", Init(), cursor, [r]) && StateAfter(Init(), [r]) == Apply(Init(), IngestX())
    ensures Canonical(StateAfter(Init(), [r]), X_KEY)
    ensures CursorAfter(cursor, [r]) == if r.saved then r.batch.cursor else cursor
  {
    hide Polls, Plan, Apply, Canonical, Run, Carries;
    IngestXWorks(Init());
    RoundOfOne(o, Init(), cursor, r, IngestX(), Take(X_KEY));
    NoRounds(o, "evm", Init(), cursor);
    RoundsExtend(o, "evm", Init(), cursor, [], r);
    assert [] + [r] == [r];
  }

  const TAKES_X := SourceRound(WITH_X, FOUND_X, [IngestX()], 1, true)

  // A process that stops after ingesting x but before saving its cursor, and a chain that drops x
  // before the next poll: the poll completes, and x stands although no block has it.
  lemma CrashThenReorgLeavesStray(rounds: seq<SourceRound>)
    requires rounds == [TAKES_X.(saved := false), SourceRound(WITHOUT_X, FOUND_NOTHING, [], 0, true)]
    ensures AreRounds(ONE_BLOCK, "evm", Init(), Cursor(0, []), rounds)
    ensures Stray(ONE_BLOCK, WITHOUT_X, StateAfter(Init(), rounds), "evm", "x")
  {
    PollsOfX();
    PlansOfX();
    hide Polls, Apply, Carries, Run, Canonical, Plan, AreRounds, StateAfter, CursorAfter, IsRound;
    FirstRound(ONE_BLOCK, Cursor(0, []), rounds[0]);
    QuietRound(ONE_BLOCK, "evm", StateAfter(Init(), [rounds[0]]), Cursor(0, []), rounds[1]);
    RoundsExtend(ONE_BLOCK, "evm", Init(), Cursor(0, []), [rounds[0]], rounds[1]);
    assert rounds == [rounds[0]] + [rounds[1]];
  }

  lemma MarkedThenStopped(rounds: seq<SourceRound>)
    requires rounds == [TAKES_X, SourceRound(WITHOUT_X, LOST_X, [MARK_X], 1, false)]
    ensures AreRounds(ONE_BLOCK, "evm", Init(), Cursor(0, []), rounds)
    ensures !Canonical(StateAfter(Init(), rounds), X_KEY) && CursorAfter(Cursor(0, []), rounds) == FOUND_X.cursor
  {
    PollsOfX();
    PollsAfterX();
    PlansOfX();
    hide Polls, Apply, Carries, Run, Canonical, Plan, AreRounds, StateAfter, CursorAfter, IsRound;
    FirstRound(ONE_BLOCK, Cursor(0, []), rounds[0]);
    RoundOfOne(ONE_BLOCK, StateAfter(Init(), [rounds[0]]), FOUND_X.cursor, rounds[1], MARK_X, Mark(X_KEY));
    RoundsExtend(ONE_BLOCK, "evm", Init(), Cursor(0, []), [rounds[0]], rounds[1]);
    MarkXWithdraws(StateAfter(Init(), [rounds[0]]));
    assert rounds == [rounds[0]] + [rounds[1]];
  }

  lemma WithdrawnIsMissing(s: Db)
    requires !Canonical(s, X_KEY)
    ensures Missing(ONE_BLOCK, WITH_X, s, "evm", "x")
  {
    assert WITH_X[0].logs[0] == Log("x", 0) && HasLog(WITH_X[0], "x");
    hide Canonical;
  }

  // A process that stops after marking x but before saving its cursor, and a chain that takes x
  // back before the next poll: the poll sees nothing new, and x stays withdrawn.
  lemma CrashThenReturnLosesEvent(rounds: seq<SourceRound>)
    requires rounds == [TAKES_X, SourceRound(WITHOUT_X, LOST_X, [MARK_X], 1, false),
                        SourceRound(WITH_X, SAW_X_AGAIN, [], 0, true)]
    ensures AreRounds(ONE_BLOCK, "evm", Init(), Cursor(0, []), rounds)
    ensures Missing(ONE_BLOCK, WITH_X, StateAfter(Init(), rounds), "evm", "x")
  {
    PollsAfterX();
    PlansOfX();
    hide Polls, Apply, Carries, Run, Canonical, Plan, AreRounds, StateAfter, CursorAfter, IsRound, Missing;
    var two := [rounds[0], rounds[1]];
    MarkedThenStopped(two);
    QuietRound(ONE_BLOCK, "evm", StateAfter(Init(), two), FOUND_X.cursor, rounds[2]);
    RoundsExtend(ONE_BLOCK, "evm", Init(), Cursor(0, []), two, rounds[2]);
    assert rounds == two + [rounds[2]];
    WithdrawnIsMissing(StateAfter(Init(), rounds));
  }

  // x in block 1, and a node that answers with a shorter chain: the tracked block is above the safe
  // head, so x is not reported, and it stands although the chain does not have it.
  const LONG: Chain := [Block("g", 0, []), Block("a", 0, [Log("x", 0)])]
  const SHORT: Chain := [Block("g", 0, [])]
  const FOUND_ABOVE := Batch([Occurrence("x", 1, "a", 0)], [], Cursor(2, [Entry(1, "a", ["x"])]))
  const SAW_LESS := Batch([], [], Cursor(2, [Entry(1, "a", ["x"])]))

  lemma PollsOfLong()
    ensures Polls(ONE_BLOCK, LONG, Cursor(0, []), FOUND_ABOVE) && Plan("evm", FOUND_ABOVE) == [Take(X_KEY)]
  {
    var e := Entry(1, "a", ["x"]);
    assert LONG[1].logs[0] == Log("x", 0) && HasLog(LONG[1], "x");
    assert ChainLogs(LONG, 0, 0) == [] && BlockLogs(LONG[0], 0) == [] && ChainLogs(LONG, 0, 1) == [];
    assert BlockLogs(LONG[1], 1) == [Occurrence("x", 1, "a", 0)];
    assert ChainLogs(LONG, 0, 2) == [Occurrence("x", 1, "a", 0)];
    assert Records(LONG, 0, 2, e) && HasEntry(LONG, 0, 2, [e], 1);
  }

  lemma PollsOfShort()
    ensures Polls(ONE_BLOCK, SHORT, FOUND_ABOVE.cursor, SAW_LESS) && Plan("evm", SAW_LESS) == []
  {
    var e := Entry(1, "a", ["x"]);
    assert FOUND_ABOVE.cursor.history[0] == e && SAW_LESS.cursor.history == [e] && !Diverges(SHORT, 0, e);
    assert Lowest(FOUND_ABOVE.cursor.history, SHORT, 0) == None by {
      assert FOUND_ABOVE.cursor.history[..0] == [];
    }
    assert KeptEntry(FOUND_ABOVE.cursor, SHORT, 0, e) && SAW_LESS.cursor.history[0] == e;
    assert ChainLogs(SHORT, 2, 2) == [] && !Reorged(FOUND_ABOVE.cursor, SHORT, 0, "x");
  }

  lemma ShrinkingHeadLeavesStray(rounds: seq<SourceRound>)
    requires rounds == [SourceRound(LONG, FOUND_ABOVE, [IngestX()], 1, true), SourceRound(SHORT, SAW_LESS, [], 0, true)]
    ensures AreRounds(ONE_BLOCK, "evm", Init(), Cursor(0, []), rounds)
    ensures Stray(ONE_BLOCK, SHORT, StateAfter(Init(), rounds), "evm", "x")
  {
    PollsOfLong();
    PollsOfShort();
    hide Polls, Apply, Carries, Run, Canonical, Plan, AreRounds, StateAfter, CursorAfter, IsRound;
    FirstRound(ONE_BLOCK, Cursor(0, []), rounds[0]);
    QuietRound(ONE_BLOCK, "evm", StateAfter(Init(), [rounds[0]]), FOUND_ABOVE.cursor, rounds[1]);
    RoundsExtend(ONE_BLOCK, "evm", Init(), Cursor(0, []), [rounds[0]], rounds[1]);
    assert rounds == [rounds[0]] + [rounds[1]];
    assert !HasLog(SHORT[0], "x");
  }

  // x moved from block 2 to the untracked block 1 below it: the round withdraws x, scans from block 2
  // on, and so leaves x withdrawn although the chain has it.
  const HIGH: Chain := [Block("g", 0, []), Block("p", 0, []), Block("q", 0, [Log("x", 0)])]
  const MOVED: Chain := [Block("g", 0, []), Block("p'", 0, [Log("x", 0)]), Block("q'", 0, [])]
  const FOUND_HIGH := Batch([Occurrence("x", 2, "q", 0)], [], Cursor(3, [Entry(2, "q", ["x"])]))
  const LOST_HIGH := Batch([], ["x"], Cursor(3, []))

  lemma PollsOfHigh()
    ensures Polls(ONE_BLOCK, HIGH, Cursor(0, []), FOUND_HIGH) && Plan("evm", FOUND_HIGH) == [Take(X_KEY)]
  {
    var e := Entry(2, "q", ["x"]);
    assert HIGH[2].logs[0] == Log("x", 0) && HasLog(HIGH[2], "x");
    assert ChainLogs(HIGH, 0, 0) == [] && BlockLogs(HIGH[0], 0) == [] && ChainLogs(HIGH, 0, 1) == [];
    assert BlockLogs(HIGH[1], 1) == [] && ChainLogs(HIGH, 0, 2) == [];
    assert BlockLogs(HIGH[2], 2) == [Occurrence("x", 2, "q", 0)];
    assert ChainLogs(HIGH, 0, 3) == [Occurrence("x", 2, "q", 0)];
    assert Records(HIGH, 0, 3, e) && HasEntry(HIGH, 0, 3, [e], 2);
  }

  lemma PollsOfMoved()
    ensures Polls(ONE_BLOCK, MOVED, FOUND_HIGH.cursor, LOST_HIGH) && Plan("evm", LOST_HIGH) == [Mark(X_KEY)]
  {
    var e := Entry(2, "q", ["x"]);
    assert FOUND_HIGH.cursor.history[0] == e && Diverges(MOVED, 2, e);
    assert Lowest(FOUND_HIGH.cursor.history, MOVED, 2) == Some(2) by {
      assert FOUND_HIGH.cursor.history[..0] == [];
    }
    assert BlockLogs(MOVED[2], 2) == [] && ChainLogs(MOVED, 2, 2) == [] && ChainLogs(MOVED, 2, 3) == [];
    assert Reorged(FOUND_HIGH.cursor, MOVED, 2, "x");
  }

  lemma MovedLogIsLost(rounds: seq<SourceRound>)
    requires rounds == [SourceRound(HIGH, FOUND_HIGH, [IngestX()], 1, true),
             SourceRound(MOVED, LOST_HIGH, [MARK_X], 1, true)]
    ensures AreRounds(ONE_BLOCK, "evm", Init(), Cursor(0, []), rounds)
    ensures Missing(ONE_BLOCK, MOVED, StateAfter(Init(), rounds), "evm", "x")
  {
    PollsOfHigh();
    PollsOfMoved();
    assert MOVED[1].logs[0] == Log("x", 0) && HasLog(MOVED[1], "x");
    hide Polls, Apply, Carries, Run, Canonical, Plan, AreRounds, StateAfter, CursorAfter, IsRound, HasLog;
    FirstRound(ONE_BLOCK, Cursor(0, []), rounds[0]);
    RoundOfOne(ONE_BLOCK, StateAfter(Init(), [rounds[0]]), FOUND_HIGH.cursor, rounds[1], MARK_X, Mark(X_KEY));
    RoundsExtend(ONE_BLOCK, "evm", Init(), Cursor(0, []), [rounds[0]], rounds[1]);
    MarkXWithdraws(StateAfter(Init(), [rounds[0]]));
    assert rounds == [rounds[0]] + [rounds[1]];
  }

  // Two pollers of one source. Both find x; one ingests it, saves its cursor, polls again after a
  // reorg and marks x; then the other ingests x from its earlier poll. The last of these transactions
  // decides, and x stands.
  lemma SecondPollerLeavesStray()
    ensures Polls(ONE_BLOCK, WITH_X, Cursor(0, []), FOUND_X) && Polls(ONE_BLOCK, WITHOUT_X, FOUND_X.cursor, LOST_X)
    ensures Stray(ONE_BLOCK, WITHOUT_X, Run(Init(), [IngestX(), MARK_X, IngestX()]), "evm", "x")
  {
    PollsOfX();
    PollsAfterX();
    hide Polls, Perform, Canonical;
    var events := [IngestX(), MARK_X, IngestX()];
    var s := Apply(Init(), IngestX());
    var t := Apply(s, MARK_X);
    IngestLeavesSubs(Tick(Init(), 0));
    MarkLeavesSubs(Tick(s, 0));
    IngestXWorks(t);
    assert events[1..] == [MARK_X, IngestX()] && events[1..][1..] == [IngestX()] && events[1..][1..][1..] == [];
    assert Run(Init(), events) == Run(s, events[1..]) == Run(t, events[1..][1..]) == Run(Apply(t, IngestX()), []);
  }

  lemma MarkLeavesSubs(s: Db)
    ensures Perform(s, AMarkReorg(X_KEY)).subs == s.subs
  {
    hide CreateDraft, EditDraft, PublishArtifact, RevokeConsent, WithdrawTemplate, Enable, Stop, Ingest, MarkReorg;
    hide ClaimEvaluation, CompleteEvaluation, ClaimDelivery, CallReturns, CrashWorker, SettleCall, Reconcile;
    hide ScheduleHealth;
  }

  lemma IngestLeavesSubs(s: Db)
    ensures Perform(s, IngestX().action).subs == s.subs
  {
    hide CreateDraft, EditDraft, PublishArtifact, RevokeConsent, WithdrawTemplate, Enable, Stop, Ingest, MarkReorg;
    hide ClaimEvaluation, CompleteEvaluation, ClaimDelivery, CallReturns, CrashWorker, SettleCall, Reconcile;
    hide ScheduleHealth;
  }
}
