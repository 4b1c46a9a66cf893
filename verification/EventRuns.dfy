// Whole runs of the event service: any interleaving of transactions by any number of
// workers, browsers and sources, with crashes, and what holds in and across every run.
module EventRuns {
  import opened Wrappers
  import opened EventTables
  import opened EventSteps
  import opened EventInvariant
  import opened EventSafety

  datatype Action =
    | ACreateDraft(draft: Id, owner: Owner, ownedMaker: bool, template: Option<Id>)
    | AEditDraft(owner: Owner, draft: Id, expected: nat)
    | APublishArtifact(artifact: Id, draft: Id, strategy: Hash, guarded: bool)
    | ARevokeConsent(owner: Owner, consent: Id)
    | AWithdrawTemplate(pinned: Id)
    | AEnable(owner: Owner, request: EnableRequest, seen: Reads, sub: Id, job: Id, generation: nat)
    | AStop(owner: Owner, sub: Id)
    | AIngest(key: EventKey, body: string, recipients: set<Id>, rows: seq<Row>)
    | AMarkReorg(key: EventKey)
    | AScheduleHealth(probes: seq<Probe>)
    | AClaimEvaluation(job: Id, token: Id, leaseMs: nat)
    | ACompleteEvaluation(job: Id, token: Id, evaluation: Evaluation, binding: Option<nat>, delivery: Id)
    | AClaimDelivery(delivery: Id, seen: Reads)
    | ACallReturns(call: nat, end: CallEnd)
    | ACrashWorker(call: nat)
    | ASettleCall(call: nat)
    | AReconcile(delivery: Id, verdict: Verdict, active: Option<Id>, job: Id)

  datatype Event = Event(now: nat, action: Action)

  function Perform(s: Db, a: Action): Db {
    match a
    case ACreateDraft(draft, owner, ownedMaker, template) => CreateDraft(s, draft, owner, ownedMaker, template)
    case AEditDraft(owner, draft, expected) => EditDraft(s, owner, draft, expected)
    case APublishArtifact(artifact, draft, strategy, guarded) => PublishArtifact(s, artifact, draft, strategy, guarded)
    case ARevokeConsent(owner, consent) => RevokeConsent(s, owner, consent)
    case AWithdrawTemplate(template) => WithdrawTemplate(s, template)
    case AEnable(owner, request, seen, sub, job, generation) => Enable(s, owner, request, seen, sub, job, generation)
    case AStop(owner, sub) => Stop(s, owner, sub)
    case AIngest(key, body, recipients, rows) => Ingest(s, key, body, recipients, rows)
    case AMarkReorg(key) => MarkReorg(s, key)
    case AScheduleHealth(probes) => ScheduleHealth(s, probes)
    case AClaimEvaluation(job, token, leaseMs) => ClaimEvaluation(s, job, token, leaseMs)
    case ACompleteEvaluation(job, token, evaluation, binding, delivery) =>
      CompleteEvaluation(s, job, token, evaluation, binding, delivery)
    case AClaimDelivery(delivery, seen) => ClaimDelivery(s, delivery, seen)
    case ACallReturns(call, end) => CallReturns(s, call, end)
    case ACrashWorker(call) => CrashWorker(s, call)
    case ASettleCall(call) => SettleCall(s, call)
    case AReconcile(delivery, verdict, consent, job) => Reconcile(s, delivery, verdict, consent, job)
  }

  // Time never runs backwards.
  function Tick(s: Db, now: nat): Db {
    s.(clock := Max(s.clock, now))
  }

  function Apply(s: Db, e: Event): Db {
    Perform(Tick(s, e.now), e.action)
  }

  function Run(s: Db, events: seq<Event>): Db
    decreases |events|
  {
    if events == [] then s else Run(Apply(s, events[0]), events[1..])
  }

  lemma PerformKeeps(s: Db, a: Action)
    requires Inv(s)
    ensures Inv(Perform(s, a))
  {
    hide CreateDraft, EditDraft, PublishArtifact, Enable, Ingest, MarkReorg, QueueHealth, Inv, Halt;
    hide ClaimEvaluation, CompleteEvaluation, ClaimDelivery, CallReturns, CrashWorker, SettleCall, Reconcile;
    match a
    case ACreateDraft(draft, owner, ownedMaker, template) => CreateDraftKeeps(s, draft, owner, ownedMaker, template);
    case AEditDraft(owner, draft, expected) => EditDraftKeeps(s, owner, draft, expected);
    case APublishArtifact(artifact, draft, strategy, guarded) =>
      PublishArtifactKeeps(s, artifact, draft, strategy, guarded);
    case ARevokeConsent(owner, consent) => HaltKeeps(s, ConsentedBy(s, owner, consent), Stopped);
    case AWithdrawTemplate(template) => HaltKeeps(s, PinnedTo(s, template), Paused);
    case AEnable(owner, request, seen, sub, job, generation) =>
      EnableKeeps(s, owner, request, seen, sub, job, generation);
    case AStop(owner, sub) => HaltKeeps(s, {sub}, Stopped);
    case AIngest(key, body, recipients, rows) => IngestKeeps(s, key, body, recipients, rows);
    case AMarkReorg(key) => MarkReorgKeeps(s, key);
    case AScheduleHealth(probes) => QueueHealthKeeps(s, probes);
    case AClaimEvaluation(job, token, leaseMs) => ClaimEvaluationKeeps(s, job, token, leaseMs);
    case ACompleteEvaluation(job, token, evaluation, binding, delivery) =>
      CompleteEvaluationKeeps(s, job, token, evaluation, binding, delivery);
    case AClaimDelivery(delivery, seen) => ClaimDeliveryKeeps(s, delivery, seen);
    case ACallReturns(call, end) => CallReturnsKeeps(s, call, end);
    case ACrashWorker(call) => CrashWorkerKeeps(s, call);
    case ASettleCall(call) => SettleCallKeeps(s, call);
    case AReconcile(delivery, verdict, consent, job) => ReconcileKeeps(s, delivery, verdict, consent, job);
  }

  lemma {:induction false} RunKeeps(s: Db, events: seq<Event>)
    requires Inv(s)
    ensures Inv(Run(s, events))
    decreases |events|
  {
    hide Inv, Perform;
    if events == [] {
    } else {
      TickKeeps(s, Max(s.clock, events[0].now));
      PerformKeeps(Tick(s, events[0].now), events[0].action);
      RunKeeps(Apply(s, events[0]), events[1..]);
    }
  }

  // Everything the theorems below say about "every reachable state" starts here.
  lemma Reachable(events: seq<Event>)
    ensures Inv(Run(Init(), events))
  {
    hide Inv, Run;
    InitHolds();
    RunKeeps(Init(), events);
  }

  // ---- at most one effective broadcast ---------------------------------------------------

  // However workers crash, time out, retry and race with stops, edits, reorgs and the
  // reconciler: of any two calls for one report, one is known never to have been sent.
  lemma AtMostOneEffectiveCall(events: seq<Event>, i: nat, k: nat)
    requires i < k < |Run(Init(), events).calls|
    requires Run(Init(), events).calls[i].delivery == Run(Init(), events).calls[k].delivery
    ensures DefinitelyNotSent(Run(Init(), events).calls[i]) || DefinitelyNotSent(Run(Init(), events).calls[k])
  {
    hide SubsInv, JobsInv, DeliveriesRefer, DeliveriesInv, ReportsInv, Run;
    Reachable(events);
  }

  // What one step may do to one row, and which step it must be.
  ghost predicate Moves(s: Db, a: Action, id: Id, d: Delivery, e: Delivery) {
    && SameReport(d, e)
    && (!Open(d) ==> e == d)
    && (d.status.Broadcast? && e != d ==> a.ASettleCall? || a.AReconcile?)
    && (d.status.Broadcast? && e.status.Pending? ==>
          a.ASettleCall? && a.call < |s.calls| && s.calls[a.call].delivery == id
          && (s.calls[a.call].phase == Returned(NotSent) || s.calls[a.call].phase == Returned(Deferred)))
    && (d.status.Pending? && e.status.Broadcast? ==>
          a.AClaimDelivery? && a.delivery == id && Claims(s, id) && Ready(s, d.sub, a.seen) && EventStands(s, d.job)
              && !s.jobs[d.job].reorged)
    && !(d.status.Pending? && e.status.Accepted?)
  }

  ghost predicate AllMove(s: Db, a: Action, es: Deliveries) {
    forall d {:trigger s.deliveries[d]} {:trigger es[d]} :: d in s.deliveries
                                                            ==> d in es && Moves(s, a, d, s.deliveries[d], es[d])
  }

  lemma HaltMoves(s: Db, a: Action, ids: set<Id>)
    ensures AllMove(s, a, CancelledDeliveries(s.deliveries, ids))
  {
  }

  lemma ReorgMoves(s: Db, a: Action, key: EventKey)
    ensures AllMove(s, a, ReorgedDeliveries(s, key))
  {
  }

  // Rows stay as they are; a new one may appear.
  ghost predicate OnlyGrows(ds: Deliveries, es: Deliveries) {
    forall d {:trigger ds[d]} {:trigger es[d]} :: d in ds ==> d in es && es[d] == ds[d]
  }

  // Completing an evaluation either issues one report or changes nothing but its job.
  lemma CompletionIssuesOrNot(s: Db, job: Id, token: Id, e: Evaluation, binding: Option<nat>, delivery: Id)
    ensures var t, nonce := CompleteEvaluation(s, job, token, e, binding, delivery),
            Allocated(s, job, token, e, binding, delivery);
            if nonce.Some? then t == Issue(s, job, Decided(s, s.jobs[job].sub, e), binding, delivery, nonce.value)
            else t == s.(jobs := t.jobs)
  {
    hide Issue, NextNonce, Suppressed, CloseJob, RetryLater, Decided, Floor, EventStands, HoldsToken;
  }

  lemma IssueGrows(s: Db, job: Id, e: Evaluation, binding: Option<nat>, delivery: Id, nonce: nat)
    requires job in s.jobs && s.jobs[job].sub in s.subs && s.subs[s.jobs[job].sub].artifact in s.artifacts
             && e.report.Some? && delivery !in s.deliveries
    ensures OnlyGrows(s.deliveries, Issue(s, job, e, binding, delivery, nonce).deliveries)
  {
  }

  lemma NoGrowth(ds: Deliveries)
    ensures OnlyGrows(ds, ds)
  {
  }

  lemma CompletionGrows(s: Db, job: Id, token: Id, e: Evaluation, binding: Option<nat>, delivery: Id)
    ensures OnlyGrows(s.deliveries, CompleteEvaluation(s, job, token, e, binding, delivery).deliveries)
  {
    hide CompleteEvaluation, NextNonce, Suppressed, OnlyGrows, Issue;
    CompletionIssuesOrNot(s, job, token, e, binding, delivery);
    NoGrowth(s.deliveries);
    var nonce := Allocated(s, job, token, e, binding, delivery);
    if nonce.Some? {
      IssueGrows(s, job, Decided(s, s.jobs[job].sub, e), binding, delivery, nonce.value);
    }
  }

  lemma GrowthMoves(s: Db, a: Action, es: Deliveries)
    requires OnlyGrows(s.deliveries, es)
    ensures AllMove(s, a, es)
  {
    hide Claims, Ready, EventStands;
  }

  lemma OneRowMoves(s: Db, a: Action, id: Id, row: Delivery)
    requires id in s.deliveries && Moves(s, a, id, s.deliveries[id], row)
    ensures AllMove(s, a, s.deliveries[id := row])
  {
    hide Claims, Ready, EventStands;
  }

  lemma ClaimMoves(s: Db, delivery: Id, seen: Reads)
    ensures AllMove(s, AClaimDelivery(delivery, seen), ClaimDelivery(s, delivery, seen).deliveries)
  {
    hide AllMove, Ready, FirstInLane;
    var a := AClaimDelivery(delivery, seen);
    SameRowsMove(s, a);
    if delivery in s.deliveries {
      var d := s.deliveries[delivery];
      if !EventStands(s, d.job) || s.jobs[d.job].reorged {
        OneRowMoves(s, a, delivery, d.(status := if d.status.Pending? then Failed else d.status));
      } else if Claims(s, delivery) {
        OneRowMoves(s, a, delivery, d.(status := if Ready(s, d.sub, seen) then Broadcast else Failed,
            attempts := d.attempts + 1));
      }
    }
  }

  lemma SameRowsMove(s: Db, a: Action)
    ensures AllMove(s, a, s.deliveries)
  {
    hide Claims, Ready, EventStands;
  }

  lemma SettleMoves(s: Db, i: nat)
    ensures AllMove(s, ASettleCall(i), SettleCall(s, i).deliveries)
  {
    hide AllMove, Claims, Ready, EventStands;
    if i < |s.calls| && s.calls[i].phase.Returned? && s.calls[i].delivery in s.deliveries {
      var c := s.calls[i];
      OneRowMoves(s, ASettleCall(i), c.delivery, AfterCall(s.deliveries[c.delivery], c.phase.end, c.attempts, s.clock));
    } else {
      SameRowsMove(s, ASettleCall(i));
    }
  }

  lemma ReconcileMoves(s: Db, delivery: Id, verdict: Verdict, active: Option<Id>, job: Id)
    ensures AllMove(s, AReconcile(delivery, verdict, active, job),
            Reconcile(s, delivery, verdict, active, job).deliveries)
  {
    hide AllMove, Claims, Ready, EventStands, Reevaluates;
    var a := AReconcile(delivery, verdict, active, job);
    SameRowsMove(s, a);
    if delivery in s.deliveries && s.deliveries[delivery].status.Broadcast? {
      OneRowMoves(s, a, delivery, s.deliveries[delivery].(status := if verdict.Landed? then Accepted else Failed));
    }
  }

  lemma StopsMove(s: Db, a: Action, owner: Owner, draft: Id, expected: nat, consent: Id, template: Id, sub: Id)
    ensures AllMove(s, a, EditDraft(s, owner, draft, expected).deliveries)
            && AllMove(s, a, RevokeConsent(s, owner, consent).deliveries)
    ensures AllMove(s, a, WithdrawTemplate(s, template).deliveries) && AllMove(s, a, Stop(s, owner, sub).deliveries)
  {
    HaltMoves(s, a, LiveOf(s, draft, owner));
    HaltMoves(s, a, ConsentedBy(s, owner, consent));
    HaltMoves(s, a, PinnedTo(s, template));
    HaltMoves(s, a, {sub});
    SameRowsMove(s, a);
    hide AllMove, LiveOf, ConsentedBy, PinnedTo, CancelledJobs, CancelledDeliveries, WithStates;
  }

  lemma EnableMoves(s: Db, a: Action, owner: Owner, q: EnableRequest, seen: Reads, sub: Id, job: Id, generation: nat)
    ensures AllMove(s, a, Enable(s, owner, q, seen, sub, job, generation).deliveries)
  {
    HaltMoves(s, a, EnabledOf(s, owner));
    SameRowsMove(s, a);
    hide AllMove, EnabledOf, CancelledJobs, CancelledDeliveries, WithStates, EnableTakesEffect;
  }

  lemma MarkMoves(s: Db, a: Action, key: EventKey)
    ensures AllMove(s, a, MarkReorg(s, key).deliveries)
  {
    ReorgMoves(s, a, key);
    SameRowsMove(s, a);
    hide AllMove, ReorgedJobs, ReorgedDeliveries;
  }

  // Accepted and failed are absorbing; only a definitely-not-sent outcome of the report's own
  // call returns it to pending; stops, switches, edits and reorgs never touch a broadcast row.
  lemma EveryStepMoves(s: Db, a: Action)
    ensures AllMove(s, a, Perform(s, a).deliveries)
  {
    hide CreateDraft, EditDraft, PublishArtifact, RevokeConsent, WithdrawTemplate, Enable, Stop, Ingest, MarkReorg,
        ScheduleHealth, AllMove;
    hide ClaimEvaluation, CompleteEvaluation, ClaimDelivery, CallReturns, CrashWorker, SettleCall, Reconcile;
    SameRowsMove(s, a);
    match a
    case AEditDraft(owner, draft, expected) => StopsMove(s, a, owner, draft, expected, "", "", "");
    case ARevokeConsent(owner, consent) => StopsMove(s, a, owner, "", 0, consent, "", "");
    case AWithdrawTemplate(template) => StopsMove(s, a, "", "", 0, "", template, "");
    case AEnable(owner, request, seen, sub, job, generation) =>
      EnableMoves(s, a, owner, request, seen, sub, job, generation);
    case AStop(owner, sub) => StopsMove(s, a, owner, "", 0, "", "", sub);
    case AMarkReorg(key) => MarkMoves(s, a, key);
    case ACompleteEvaluation(job, token, evaluation, binding, delivery) =>
      CompletionGrows(s, job, token, evaluation, binding, delivery);
      GrowthMoves(s, a, CompleteEvaluation(s, job, token, evaluation, binding, delivery).deliveries);
    case AClaimDelivery(delivery, seen) => ClaimMoves(s, delivery, seen);
    case ASettleCall(call) => SettleMoves(s, call);
    case AReconcile(delivery, verdict, active, job) => ReconcileMoves(s, delivery, verdict, active, job);
    case _ =>
  }

  lemma {:induction false} ClosedForGood(s: Db, events: seq<Event>, id: Id)
    requires id in s.deliveries && !Open(s.deliveries[id])
    ensures id in Run(s, events).deliveries && Run(s, events).deliveries[id] == s.deliveries[id]
    decreases |events|
  {
    hide Perform;
    if events == [] {
    } else {
      var t := Tick(s, events[0].now);
      EveryStepMoves(t, events[0].action);
      assert Moves(t, events[0].action, id, t.deliveries[id], Apply(s, events[0]).deliveries[id]);
      ClosedForGood(Apply(s, events[0]), events[1..], id);
    }
  }

  // ---- one lane per Maker, one nonce line per strategy -------------------------------------

  lemma OneBroadcastPerOwner(events: seq<Event>, d: Id, e: Id)
    requires var ds := Run(Init(), events).deliveries; d in ds && e in ds && ds[d].owner == ds[e].owner
                                                       && ds[d].status.Broadcast? && Open(ds[e])
    ensures var ds := Run(Init(), events).deliveries; ds[d].seqNo <= ds[e].seqNo && (ds[e].status.Broadcast? ==> d == e)
  {
    hide SubsInv, JobsInv, DeliveriesRefer, CallsInv, ReportsInv, Run;
    Reachable(events);
  }

  // In the order in which reports of one Maker and strategy are handed to the broadcaster,
  // each next report has a higher nonce, above the floors used when it was allocated.
  lemma NoncesHandedOverIncrease(events: seq<Event>, i: nat, k: nat)
    requires var calls := Run(Init(), events).calls;
             i < k < |calls| && calls[i].owner == calls[k].owner && calls[i].strategy == calls[k].strategy
    ensures var s := Run(Init(), events);
            && s.calls[i].delivery in s.deliveries && s.calls[k].delivery in s.deliveries
            && (if s.calls[i].delivery == s.calls[k].delivery then s.calls[i].nonce == s.calls[k].nonce
               else s.calls[i].nonce < s.calls[k].nonce)
            && s.deliveries[s.calls[k].delivery].origin.floor < s.calls[k].nonce <= MAX_NONCE
            && s.deliveries[s.calls[k].delivery].origin.bound < s.calls[k].nonce
  {
    hide SubsInv, JobsInv, DeliveriesRefer, ReportsInv, Run;
    Reachable(events);
    HandoversIncrease(Run(Init(), events), i, k);
  }

  // And so is every single one, the first of its lane included.
  lemma EveryHandoverIsBounded(events: seq<Event>, k: nat)
    requires k < |Run(Init(), events).calls|
    ensures var s := Run(Init(), events);
            && s.calls[k].delivery in s.deliveries && s.calls[k].nonce == s.deliveries[s.calls[k].delivery].nonce
            && s.deliveries[s.calls[k].delivery].origin.floor < s.calls[k].nonce <= MAX_NONCE
            && s.deliveries[s.calls[k].delivery].origin.bound < s.calls[k].nonce
  {
    hide SubsInv, JobsInv, DeliveriesRefer, ReportsInv, Run;
    Reachable(events);
    HandoverIsBounded(Run(Init(), events), k);
  }

  lemma HandoverIsBounded(s: Db, k: nat)
    requires DeliveriesInv(s.deliveries, s.sequences, s.nextSeq) && CallsInv(s.calls, s.deliveries) && k < |s.calls|
    ensures && s.calls[k].delivery in s.deliveries && s.calls[k].nonce == s.deliveries[s.calls[k].delivery].nonce
            && s.deliveries[s.calls[k].delivery].origin.floor < s.calls[k].nonce <= MAX_NONCE
            && s.deliveries[s.calls[k].delivery].origin.bound < s.calls[k].nonce
  {
    assert CallRefers(s.calls[k], s.deliveries);
    assert WithinSequence(s.deliveries[s.calls[k].delivery], s.sequences);
  }

  lemma HandoversIncrease(s: Db, i: nat, k: nat)
    requires DeliveriesInv(s.deliveries, s.sequences, s.nextSeq) && CallsInv(s.calls, s.deliveries)
    requires i < k < |s.calls| && s.calls[i].owner == s.calls[k].owner && s.calls[i].strategy == s.calls[k].strategy
    ensures && s.calls[i].delivery in s.deliveries && s.calls[k].delivery in s.deliveries
            && (if s.calls[i].delivery == s.calls[k].delivery then s.calls[i].nonce == s.calls[k].nonce
               else s.calls[i].nonce < s.calls[k].nonce)
            && s.deliveries[s.calls[k].delivery].origin.floor < s.calls[k].nonce <= MAX_NONCE
            && s.deliveries[s.calls[k].delivery].origin.bound < s.calls[k].nonce
  {
    var d, e := s.calls[i].delivery, s.calls[k].delivery;
    assert CallRefers(s.calls[i], s.deliveries) && CallRefers(s.calls[k], s.deliveries);
    assert s.deliveries[d].seqNo <= s.deliveries[e].seqNo;
    assert WithinSequence(s.deliveries[e], s.sequences);
  }

  // The allocator hands out the least nonce above the floors and every nonce used before,
  // and nothing exactly when uint64 has none left.
  lemma AllocatorIsExact(s: Db, lane: (Owner, Hash), floor: nat, nonce: nat)
    requires NoncesBounded(s.deliveries, s.sequences)
    ensures NextNonce(s, lane, floor) == Some(nonce)
            <==> nonce <= MAX_NONCE && floor < nonce && (lane in s.sequences ==> s.sequences[lane] < nonce)
                 && (nonce == floor + 1 || (lane in s.sequences && nonce == s.sequences[lane] + 1))
    ensures NextNonce(s, lane, floor).None? <==> floor >= MAX_NONCE
                                                 || (lane in s.sequences && s.sequences[lane] == MAX_NONCE)
  {
  }

  // ---- where reports come from -------------------------------------------------------------

  // A report appears only when the live lease holder completes its job, with the event still
  // canonical, the subscription enabled, and a nonce to give.
  lemma ReportsComeFromLeaseHolders(s: Db, a: Action, id: Id)
    requires Inv(s) && id !in s.deliveries && id in Perform(s, a).deliveries
    ensures && a.ACompleteEvaluation? && a.delivery == id && HoldsToken(s, a.job, a.token) && EventStands(s, a.job)
            && s.jobs[a.job].sub in s.subs && s.subs[s.jobs[a.job].sub].state.Enabled?
            && Allocated(s, a.job, a.token, a.evaluation, a.binding, id) == Some(Perform(s, a).deliveries[id].nonce)
            && Perform(s, a).deliveries[id].job == a.job
  {
    hide Inv, CreateDraft, EditDraft, PublishArtifact, RevokeConsent, WithdrawTemplate, Enable, Stop, Ingest,
        MarkReorg, ScheduleHealth;
    hide ClaimEvaluation, CompleteEvaluation, ClaimDelivery, CallReturns, CrashWorker, SettleCall, Reconcile,
        NextNonce, Suppressed;
    if a.ACompleteEvaluation? {
      CompletionIssuesOrNot(s, a.job, a.token, a.evaluation, a.binding, a.delivery);
    } else {
      if a.AClaimDelivery? {
        ClaimFrame(s, a.delivery, a.seen);
      } else {
        OthersFrame(s, a);
      }
    }
  }

  // Neither a new report nor a new call.
  ghost predicate Frame(s: Db, t: Db) {
    && (forall d {:trigger t.deliveries[d]} :: d in t.deliveries ==> d in s.deliveries)
    && |t.calls| == |s.calls| && (forall i {:trigger t.calls[i]} :: 0 <= i < |s.calls|
                                                                    ==> t.calls[i].delivery == s.calls[i].delivery)
  }

  lemma HaltFrame(s: Db, ids: set<Id>, state: SubscriptionState)
    ensures Frame(s, Halt(s, ids, state))
  {
    hide CancelledJobs, WithStates;
  }

  lemma EditDraftFrame(s: Db, owner: Owner, draft: Id, expected: nat)
    ensures Frame(s, EditDraft(s, owner, draft, expected))
  {
    hide CancelledJobs, WithStates, LiveOf;
  }

  lemma EnableFrame(s: Db, owner: Owner, q: EnableRequest, seen: Reads, sub: Id, job: Id, generation: nat)
    ensures Frame(s, Enable(s, owner, q, seen, sub, job, generation))
  {
    hide CancelledJobs, WithStates, EnableTakesEffect, EnabledOf;
  }

  lemma CatalogFrame(s: Db, id: Id, owner: Owner, ownedMaker: bool, template: Option<Id>, draft: Id, strategy: Hash,
      guarded: bool)
    ensures Frame(s, CreateDraft(s, id, owner, ownedMaker, template))
            && Frame(s, PublishArtifact(s, id, draft, strategy, guarded))
  {
  }

  lemma QueueFrame(s: Db, key: EventKey, body: string, recipients: set<Id>, rows: seq<Row>, probes: seq<Probe>)
    ensures Frame(s, Ingest(s, key, body, recipients, rows)) && Frame(s, ScheduleHealth(s, probes))
  {
    hide Lists, Subscribers;
  }

  lemma WorkFrame(s: Db, key: EventKey, job: Id, token: Id, leaseMs: nat)
    ensures Frame(s, MarkReorg(s, key)) && Frame(s, ClaimEvaluation(s, job, token, leaseMs))
  {
    hide ReorgedJobs, Claimable;
  }

  lemma PhaseFrame(s: Db, i: nat, phase: CallPhase)
    requires i < |s.calls|
    ensures Frame(s, WithPhase(s, i, phase)) && Frame(s, s)
  {
  }

  lemma CallFrame(s: Db, i: nat, end: CallEnd)
    ensures Frame(s, CallReturns(s, i, end)) && Frame(s, CrashWorker(s, i))
  {
    if i < |s.calls| {
      PhaseFrame(s, i, Returned(end));
      PhaseFrame(s, i, Lost);
    }
    hide Frame, WithPhase;
  }

  lemma SettleFrame(s: Db, i: nat)
    ensures Frame(s, SettleCall(s, i))
  {
    hide AfterCall;
  }

  lemma ReconcileFrame(s: Db, delivery: Id, verdict: Verdict, active: Option<Id>, job: Id)
    ensures Frame(s, Reconcile(s, delivery, verdict, active, job))
  {
    hide Reevaluates, RetryAttempt, NewJob;
  }

  lemma OthersFrame(s: Db, a: Action)
    requires !a.ACompleteEvaluation? && !a.AClaimDelivery?
    ensures Frame(s, Perform(s, a))
  {
    hide CreateDraft, EditDraft, PublishArtifact, RevokeConsent, WithdrawTemplate, Enable, Stop, Ingest, MarkReorg,
        ScheduleHealth;
    hide ClaimEvaluation, CompleteEvaluation, ClaimDelivery, CallReturns, CrashWorker, SettleCall, Reconcile, Frame;
    HaltFrame(s, {}, Stopped);
    match a
    case ACreateDraft(draft, owner, ownedMaker, template) =>
      CatalogFrame(s, draft, owner, ownedMaker, template, "", "", false);
    case AEditDraft(owner, draft, expected) => EditDraftFrame(s, owner, draft, expected);
    case APublishArtifact(artifact, draft, strategy, guarded) =>
      CatalogFrame(s, artifact, "", false, None, draft, strategy, guarded);
    case ARevokeConsent(owner, consent) => RevokeFrame(s, owner, consent, "", "");
    case AWithdrawTemplate(template) => RevokeFrame(s, "", "", template, "");
    case AEnable(owner, request, seen, sub, job, generation) =>
      EnableFrame(s, owner, request, seen, sub, job, generation);
    case AStop(owner, sub) => RevokeFrame(s, owner, "", "", sub);
    case AIngest(key, body, recipients, rows) => QueueFrame(s, key, body, recipients, rows, []);
    case AMarkReorg(key) => WorkFrame(s, key, "", "", 0);
    case AScheduleHealth(probes) => QueueFrame(s, EventKey("", ""), "", {}, [], probes);
    case AClaimEvaluation(job, token, leaseMs) => WorkFrame(s, EventKey("", ""), job, token, leaseMs);
    case ACallReturns(call, end) => CallFrame(s, call, end);
    case ACrashWorker(call) => CallFrame(s, call, Unknown);
    case ASettleCall(call) => SettleFrame(s, call);
    case AReconcile(delivery, verdict, active, job) => ReconcileFrame(s, delivery, verdict, active, job);
  }

  lemma RevokeFrame(s: Db, owner: Owner, consent: Id, template: Id, sub: Id)
    ensures Frame(s, RevokeConsent(s, owner, consent)) && Frame(s, WithdrawTemplate(s, template))
            && Frame(s, Stop(s, owner, sub))
  {
    hide Halt, ConsentedBy, PinnedTo;
    HaltFrame(s, ConsentedBy(s, owner, consent), Stopped);
    HaltFrame(s, PinnedTo(s, template), Paused);
    HaltFrame(s, {sub}, Stopped);
  }

  ghost predicate HandsOver(s: Db, t: Db, delivery: Id) {
    && |t.calls| == |s.calls| + 1
    && (forall i {:trigger t.calls[i]} :: 0 <= i < |s.calls| ==> t.calls[i].delivery == s.calls[i].delivery)
    && t.calls[|s.calls|].delivery == delivery && delivery in s.deliveries
    && s.deliveries[delivery].job in s.jobs && !s.jobs[s.deliveries[delivery].job].reorged
    && (forall d {:trigger t.deliveries[d]} :: d in t.deliveries ==> d in s.deliveries)
  }

  lemma ClaimFrame(s: Db, delivery: Id, seen: Reads)
    ensures Frame(s, ClaimDelivery(s, delivery, seen)) || HandsOver(s, ClaimDelivery(s, delivery, seen), delivery)
  {
    hide Ready, FirstInLane;
  }

  lemma CompletionMakesNoCall(s: Db, job: Id, token: Id, e: Evaluation, binding: Option<nat>, delivery: Id)
    ensures CompleteEvaluation(s, job, token, e, binding, delivery).calls == s.calls
  {
    CompletionIssuesOrNot(s, job, token, e, binding, delivery);
    hide CompleteEvaluation, Issue, Decided, NextNonce, Floor;
  }

  // ---- reorgs are final --------------------------------------------------------------------

  // From s to t nothing happened for an orphaned job: its row stands, no report was issued for
  // it, and no report of its was handed to the broadcaster.
  ghost predicate Fenced(s: Db, t: Db, job: Id) {
    && job in s.jobs && job in t.jobs && t.jobs[job] == s.jobs[job]
    && (forall d {:trigger t.deliveries[d]} :: d in t.deliveries && t.deliveries[d].job == job
                                               ==> d in s.deliveries && s.deliveries[d].job == job)
    && (forall d {:trigger s.deliveries[d]} :: d in s.deliveries
                                               ==> d in t.deliveries && t.deliveries[d].job == s.deliveries[d].job)
    && |s.calls| <= |t.calls|
    && (forall i {:trigger s.calls[i]} {:trigger t.calls[i]} ::
          0 <= i < |s.calls| ==> t.calls[i].delivery == s.calls[i].delivery)
    && (forall i {:trigger t.calls[i]} :: |s.calls| <= i < |t.calls|
                                          ==> t.calls[i].delivery in t.deliveries
                                              && t.deliveries[t.calls[i].delivery].job != job)
  }

  ghost predicate RowStands(jobs: Jobs, after: Jobs, job: Id) {
    job in jobs && job in after && after[job] == jobs[job]
  }

  lemma UpdatesKeepOrphan(jobs: Jobs, subs: Subs, job: Id, ids: set<Id>, key: EventKey)
    requires WorkIsWanted(jobs, subs) && job in jobs && jobs[job].reorged
    ensures RowStands(jobs, CancelledJobs(jobs, ids), job) && RowStands(jobs, ReorgedJobs(jobs, key), job)
  {
    assert Wanted(jobs[job], subs);
  }

  lemma EnableKeepsOrphan(s: Db, owner: Owner, q: EnableRequest, seen: Reads, sub: Id, row: Id, generation: nat,
      job: Id)
    requires WorkIsWanted(s.jobs, s.subs) && job in s.jobs && s.jobs[job].reorged
    ensures RowStands(s.jobs, Enable(s, owner, q, seen, sub, row, generation).jobs, job)
  {
    hide EnableRefusal, AlreadyEnabled, IsNextGeneration, CancelledJobs;
    UpdatesKeepOrphan(s.jobs, s.subs, job, EnabledOf(s, owner), EventKey("", ""));
  }

  lemma IngestKeepsOrphan(s: Db, key: EventKey, body: string, recipients: set<Id>, rows: seq<Row>, job: Id)
    requires job in s.jobs
    ensures RowStands(s.jobs, Ingest(s, key, body, recipients, rows).jobs, job)
  {
    hide Lists, Subscribers;
  }

  lemma HealthKeepsOrphan(s: Db, probes: seq<Probe>, job: Id)
    requires job in s.jobs
    ensures RowStands(s.jobs, ScheduleHealth(s, probes).jobs, job)
  {
  }

  lemma CompletionKeepsOrphan(s: Db, row: Id, token: Id, e: Evaluation, binding: Option<nat>, delivery: Id, job: Id)
    requires job in s.jobs && s.jobs[job].reorged
    ensures RowStands(s.jobs, CompleteEvaluation(s, row, token, e, binding, delivery).jobs, job)
  {
    hide NextNonce, Suppressed, Decided, Floor, EventStands, Issue, CloseJob, RetryLater;
  }

  lemma ReconcileKeepsOrphan(s: Db, delivery: Id, verdict: Verdict, active: Option<Id>, row: Id, job: Id)
    requires job in s.jobs
    ensures RowStands(s.jobs, Reconcile(s, delivery, verdict, active, row).jobs, job)
  {
    hide Reevaluates;
  }

  lemma HaltKeepsOrphan(s: Db, ids: set<Id>, state: SubscriptionState, job: Id)
    requires WorkIsWanted(s.jobs, s.subs) && job in s.jobs && s.jobs[job].reorged
    ensures RowStands(s.jobs, Halt(s, ids, state).jobs, job)
  {
    UpdatesKeepOrphan(s.jobs, s.subs, job, ids, EventKey("", ""));
    hide CancelledJobs, CancelledDeliveries, WithStates;
  }

  lemma StopsKeepOrphan(s: Db, owner: Owner, draft: Id, expected: nat, consent: Id, template: Id, sub: Id, job: Id)
    requires WorkIsWanted(s.jobs, s.subs) && job in s.jobs && s.jobs[job].reorged
    ensures RowStands(s.jobs, EditDraft(s, owner, draft, expected).jobs, job)
            && RowStands(s.jobs, RevokeConsent(s, owner, consent).jobs, job)
    ensures RowStands(s.jobs, WithdrawTemplate(s, template).jobs, job)
            && RowStands(s.jobs, Stop(s, owner, sub).jobs, job)
  {
    HaltKeepsOrphan(s, LiveOf(s, draft, owner), Stopped, job);
    HaltKeepsOrphan(s, ConsentedBy(s, owner, consent), Stopped, job);
    HaltKeepsOrphan(s, PinnedTo(s, template), Paused, job);
    HaltKeepsOrphan(s, {sub}, Stopped, job);
    hide Halt, LiveOf, ConsentedBy, PinnedTo, WorkIsWanted;
  }

  lemma WorkKeepsOrphan(s: Db, row: Id, token: Id, leaseMs: nat, key: EventKey, job: Id)
    requires WorkIsWanted(s.jobs, s.subs) && job in s.jobs && s.jobs[job].reorged
    ensures RowStands(s.jobs, ClaimEvaluation(s, row, token, leaseMs).jobs, job)
            && RowStands(s.jobs, MarkReorg(s, key).jobs, job)
  {
    UpdatesKeepOrphan(s.jobs, s.subs, job, {}, key);
    hide ReorgedJobs, ReorgedDeliveries, WorkIsWanted;
  }

  lemma JobRowStands(s: Db, a: Action, job: Id)
    requires WorkIsWanted(s.jobs, s.subs) && job in s.jobs && s.jobs[job].reorged
    ensures RowStands(s.jobs, Perform(s, a).jobs, job)
  {
    hide CreateDraft, EditDraft, PublishArtifact, RevokeConsent, WithdrawTemplate, Enable, Stop, Ingest, MarkReorg,
        ScheduleHealth, WorkIsWanted;
    hide ClaimEvaluation, CompleteEvaluation, ClaimDelivery, CallReturns, CrashWorker, SettleCall, Reconcile;
    assert RowStands(s.jobs, s.jobs, job);
    hide RowStands;
    match a
    case AEditDraft(owner, draft, expected) => StopsKeepOrphan(s, owner, draft, expected, "", "", "", job);
    case ARevokeConsent(owner, consent) => StopsKeepOrphan(s, owner, "", 0, consent, "", "", job);
    case AWithdrawTemplate(template) => StopsKeepOrphan(s, "", "", 0, "", template, "", job);
    case AEnable(owner, request, seen, sub, row, generation) =>
      EnableKeepsOrphan(s, owner, request, seen, sub, row, generation, job);
    case AStop(owner, sub) => StopsKeepOrphan(s, owner, "", 0, "", "", sub, job);
    case AIngest(key, body, recipients, rows) => IngestKeepsOrphan(s, key, body, recipients, rows, job);
    case AMarkReorg(key) => WorkKeepsOrphan(s, "", "", 0, key, job);
    case AScheduleHealth(probes) => HealthKeepsOrphan(s, probes, job);
    case AClaimEvaluation(row, token, leaseMs) => WorkKeepsOrphan(s, row, token, leaseMs, EventKey("", ""), job);
    case ACompleteEvaluation(row, token, evaluation, binding, delivery) =>
      CompletionKeepsOrphan(s, row, token, evaluation, binding, delivery, job);
    case AReconcile(delivery, verdict, active, row) => ReconcileKeepsOrphan(s, delivery, verdict, active, row, job);
    case _ =>
  }

  // A step appends at most one call, and only a claim whose job is not orphaned does so.
  lemma CallsStand(s: Db, a: Action)
    ensures var t := Perform(s, a);
            && |s.calls| <= |t.calls| <= |s.calls| + 1
               && (forall i :: 0 <= i < |s.calls| ==> t.calls[i].delivery == s.calls[i].delivery)
            && (|t.calls| > |s.calls| ==>
                  && a.AClaimDelivery? && t.calls[|s.calls|].delivery == a.delivery && a.delivery in s.deliveries
                  && s.deliveries[a.delivery].job in s.jobs && !s.jobs[s.deliveries[a.delivery].job].reorged)
  {
    hide CreateDraft, EditDraft, PublishArtifact, RevokeConsent, WithdrawTemplate, Enable, Stop, Ingest, MarkReorg,
        ScheduleHealth;
    hide ClaimEvaluation, CompleteEvaluation, ClaimDelivery, CallReturns, CrashWorker, SettleCall, Reconcile;
    if a.AClaimDelivery? {
      ClaimFrame(s, a.delivery, a.seen);
    } else if a.ACompleteEvaluation? {
      CompletionMakesNoCall(s, a.job, a.token, a.evaluation, a.binding, a.delivery);
    } else {
      OthersFrame(s, a);
    }
  }

  lemma StepIsFenced(s: Db, a: Action, job: Id)
    requires Inv(s) && job in s.jobs && s.jobs[job].reorged
    ensures Fenced(s, Perform(s, a), job)
  {
    hide SubsInv, JobRefers, ReorgReachesJobs, OneLiveJob, OneLease, DeliveriesRefer, DeliveriesInv, ReportsInv,
        Perform, Allocated;
    hide OlderAreClosed, CallsInOrder, OneEffectiveCall;
    var t := Perform(s, a);
    PerformKeeps(s, a);
    JobRowStands(s, a, job);
    CallsStand(s, a);
    EveryStepMoves(s, a);
    forall d | d in s.deliveries ensures d in t.deliveries && t.deliveries[d].job == s.deliveries[d].job {
      assert Moves(s, a, d, s.deliveries[d], t.deliveries[d]);
    }
    forall d | d in t.deliveries && t.deliveries[d].job == job ensures d in s.deliveries {
      if d !in s.deliveries {
        ReportsComeFromLeaseHolders(s, a, d);
      }
    }
  }

  // Once an occurrence is orphaned nothing is ever done for it again, whatever happens next:
  // re-ingestion, a broadcast row falling back to pending, late evaluators, new workers.
  lemma {:induction false} ReorgIsFinal(s: Db, events: seq<Event>, job: Id)
    requires Inv(s) && job in s.jobs && s.jobs[job].reorged
    ensures Fenced(s, Run(s, events), job)
    decreases |events|
  {
    hide Inv, Perform, Fenced;
    if events == [] {
      FencedFromHere(s, job);
    } else {
      var t, u := Tick(s, events[0].now), Apply(s, events[0]);
      TickKeeps(s, t.clock);
      PerformKeeps(t, events[0].action);
      StepIsFenced(t, events[0].action, job);
      FenceExtends(s, t, u, job);
      ReorgIsFinal(u, events[1..], job);
      FenceChains(s, u, Run(u, events[1..]), job);
    }
  }

  lemma FencedFromHere(s: Db, job: Id)
    requires job in s.jobs
    ensures Fenced(s, s, job)
  {
  }

  lemma FenceExtends(s: Db, t: Db, u: Db, job: Id)
    requires t == s.(clock := t.clock) && Fenced(t, u, job) && job in s.jobs && s.jobs[job].reorged
    ensures Fenced(s, u, job) && job in u.jobs && u.jobs[job].reorged
  {
  }

  lemma FenceChains(s: Db, t: Db, u: Db, job: Id)
    requires Fenced(s, t, job) && Fenced(t, u, job)
    ensures Fenced(s, u, job)
  {
  }

  // markReorg orphans every job of the event and withdraws its unsent reports.
  lemma MarkingOrphans(s: Db, key: EventKey)
    requires key in s.inbox && s.inbox[key].canonical && WorkIsWanted(s.jobs, s.subs)
    ensures var t := MarkReorg(s, key);
            && !t.inbox[key].canonical
            && (forall j :: j in t.jobs && t.jobs[j].key == key ==> t.jobs[j].reorged && !t.jobs[j].state.Running?)
            && (forall d :: d in t.deliveries && t.deliveries[d].job in t.jobs && t.jobs[t.deliveries[d].job].key == key
                            ==> !t.deliveries[d].status.Pending?)
  {
    forall j | j in s.jobs ensures s.jobs[j].reorged ==> !Unfinished(s.jobs[j]) {
      assert Wanted(s.jobs[j], s.subs);
    }
  }

  // ---- what ingestion queues ---------------------------------------------------------------------

  ghost predicate QueuedFor(s: Db, t: Db, key: EventKey, rows: seq<Row>) {
    && (forall r :: 0 <= r < |rows| && rows[r].sub in s.subs ==> HasLiveJob(t, rows[r].sub, key))
    && (forall j :: j in t.jobs && j !in s.jobs ==>
          exists r :: 0 <= r < |rows| && rows[r].sub in s.subs && rows[r].job == j
                      && t.jobs[j] == NewJob(s, rows[r].sub, key, s.clock, 0))
  }

  lemma LiveJobsStay(s: Db, t: Db, sub: Id, key: EventKey)
    requires Keeps(s.jobs, t.jobs) && HasLiveJob(s, sub, key)
    ensures HasLiveJob(t, sub, key)
  {
    var j :| j in s.jobs && s.jobs[j].sub == sub && s.jobs[j].key == key && !s.jobs[j].reorged;
    assert t.jobs[j] == s.jobs[j];
  }

  lemma {:induction false} QueueReaches(s: Db, key: EventKey, rows: seq<Row>)
    requires QueueJobs(s, key, rows).Some?
    ensures QueuedFor(s, QueueJobs(s, key, rows).value, key, rows)
    decreases |rows|
  {
    hide HasLiveJob, NewJob;
    if rows == [] {
    } else {
      var t := QueueJobs(s, key, rows).value;
      if rows[0].sub !in s.subs || HasLiveJob(s, rows[0].sub, key) {
        QueueReaches(s, key, rows[1..]);
        if rows[0].sub in s.subs {
          LiveJobsStay(s, t, rows[0].sub, key);
        }
        QueuedForOneMore(s, s, t, key, rows);
      } else {
        var job := NewJob(s, rows[0].sub, key, s.clock, 0);
        var u := s.(jobs := s.jobs[rows[0].job := job]);
        NewJobIsLive(s, u, rows[0].sub, key, rows[0].job);
        QueueReaches(u, key, rows[1..]);
        LiveJobsStay(u, t, rows[0].sub, key);
        assert t == QueueJobs(u, key, rows[1..]).value && u.jobs[rows[0].job] == job;
        assert rows[0].job in t.jobs && t.jobs[rows[0].job] == job;
        QueuedForOneMore(s, u, t, key, rows);
      }
    }
  }

  lemma NewJobIsLive(s: Db, u: Db, sub: Id, key: EventKey, id: Id)
    requires sub in s.subs && u == s.(jobs := s.jobs[id := NewJob(s, sub, key, s.clock, 0)])
    ensures HasLiveJob(u, sub, key)
  {
    assert u.jobs[id].sub == sub;
  }

  // One more row in front: either it was skipped, or its job is the one that was added.
  lemma QueuedForOneMore(s: Db, u: Db, t: Db, key: EventKey, rows: seq<Row>)
    requires rows != [] && QueuedFor(u, t, key, rows[1..]) && u == s.(jobs := u.jobs)
             && (rows[0].sub in s.subs ==> HasLiveJob(t, rows[0].sub, key))
    requires u.jobs == s.jobs
             || (rows[0].sub in s.subs
                 && u.jobs == s.jobs[rows[0].job := NewJob(s, rows[0].sub, key, s.clock, 0)]
                 && rows[0].job in t.jobs && t.jobs[rows[0].job] == NewJob(s, rows[0].sub, key, s.clock, 0))
    ensures QueuedFor(s, t, key, rows)
  {
    hide HasLiveJob;
    forall r | 0 <= r < |rows| && rows[r].sub in s.subs ensures HasLiveJob(t, rows[r].sub, key) {
      assert r > 0 ==> rows[r] == rows[1..][r - 1];
    }
    forall j | j in t.jobs && j !in s.jobs
      ensures exists r :: 0 <= r < |rows| && rows[r].sub in s.subs && rows[r].job == j
                          && t.jobs[j] == NewJob(s, rows[r].sub, key, s.clock, 0) {
      if j in u.jobs {
        assert rows[0].job == j;
      } else {
        var r :| 0 <= r < |rows[1..]| && rows[1..][r].sub in u.subs && rows[1..][r].job == j
            && t.jobs[j] == NewJob(u, rows[1..][r].sub, key, u.clock, 0);
        assert rows[r + 1] == rows[1..][r];
      }
    }
  }

  // An accepted event makes its row canonical, leaves every earlier job as it was, gives each
  // subscription it concerns a live job, and adds nothing but fresh jobs for those.
  lemma IngestReachesSubscribers(s: Db, key: EventKey, body: string, recipients: set<Id>, rows: seq<Row>)
    requires !IsDuplicate(s, key) && Lists(rows, Subscribers(s, key.source, recipients))
             && QueueJobs(Received(s, key, body), key, rows).Some?
    ensures var t := Ingest(s, key, body, recipients, rows);
            && key in t.inbox && t.inbox[key] == InboxRow(body, true) && Keeps(s.jobs, t.jobs)
            && (forall i :: i in Subscribers(s, key.source, recipients) ==> HasLiveJob(t, i, key))
            && (forall j :: j in t.jobs && j !in s.jobs ==>
                  t.jobs[j].sub in Subscribers(s, key.source, recipients)
                      && t.jobs[j] == NewJob(s, t.jobs[j].sub, key, s.clock, 0))
  {
    QueueReaches(Received(s, key, body), key, rows);
    hide QueueJobs, HasLiveJob;
    var t := Ingest(s, key, body, recipients, rows);
    forall i | i in Subscribers(s, key.source, recipients) ensures HasLiveJob(t, i, key) {
      var r :| 0 <= r < |rows| && rows[r].sub == i;
    }
  }

  // ---- leases, jobs and selections in every reachable state --------------------------------

  lemma OneLeaseHolder(events: seq<Event>, j: Id, k: Id)
    requires var s := Run(Init(), events);
             j in s.jobs && k in s.jobs && s.jobs[j].sub == s.jobs[k].sub && HoldsLease(s.jobs[j], s.clock)
                 && HoldsLease(s.jobs[k], s.clock)
    ensures j == k
  {
    hide SubsInv, DeliveriesRefer, DeliveriesInv, CallsInv, ReportsInv, Run;
    Reachable(events);
  }

  lemma OneReportPerJob(events: seq<Event>, d: Id, e: Id)
    requires var ds := Run(Init(), events).deliveries; d in ds && e in ds && ds[d].job == ds[e].job
    ensures d == e
  {
    hide SubsInv, JobsInv, DeliveriesRefer, CallsInv, ReportsInv, Run;
    Reachable(events);
  }

  lemma OneLiveJobPerEvent(events: seq<Event>, j: Id, k: Id)
    requires var jobs := Run(Init(), events).jobs;
             j in jobs && k in jobs && !jobs[j].reorged && !jobs[k].reorged && jobs[j].sub == jobs[k].sub
                 && jobs[j].key == jobs[k].key
    ensures j == k
  {
    hide SubsInv, DeliveriesRefer, DeliveriesInv, CallsInv, ReportsInv, Run;
    Reachable(events);
  }

  // One strategy per Maker, at the draft's current revision, and work only for it.
  lemma SelectionIsCurrent(events: seq<Event>)
    ensures var s := Run(Init(), events);
            && (forall i, k :: i in s.subs && k in s.subs && s.subs[i].state.Enabled? && s.subs[k].state.Enabled?
                               && s.subs[i].owner == s.subs[k].owner
                               ==> i == k)
            && (forall i :: i in s.subs && s.subs[i].state.Enabled?
                            ==> s.subs[i].draft in s.drafts && s.drafts[s.subs[i].draft].revision == s.subs[i].revision)
            && (forall j :: j in s.jobs && Unfinished(s.jobs[j])
                            ==> s.jobs[j].sub in s.subs && s.subs[s.jobs[j].sub].state.Enabled?)
  {
    hide DeliveriesRefer, DeliveriesInv, CallsInv, ReportsInv, Run;
    Reachable(events);
    var s := Run(Init(), events);
    forall j | j in s.jobs ensures Wanted(s.jobs[j], s.subs) {
    }
  }

  // The same terms are reported twice in a row only after a failure, or after acceptance when
  // the evaluator saw the chain move.
  lemma RepeatsNeedACause(events: seq<Event>, d: Id, e: Id)
    requires var ds := Run(Init(), events).deliveries; Follows(ds, d, e) && ds[d].hash == ds[e].hash
    ensures var ds := Run(Init(), events).deliveries; ds[d].status.Failed?
                                                      || (ds[d].status.Accepted? && ds[e].origin.chainChanged)
  {
    hide SubsInv, JobsInv, DeliveriesRefer, DeliveriesInv, CallsInv, LastIsLatest, LastIsDelivered, Run;
    Reachable(events);
  }
}
