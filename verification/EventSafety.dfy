// Every step keeps the invariant. A lemma about one step first settles the tables it changes,
// then composes; the predicates over the other tables stay folded.
module EventSafety {
  import opened Wrappers
  import opened EventTables
  import opened EventSteps
  import opened EventInvariant

  lemma InitHolds()
    ensures Inv(Init())
  {
  }

  lemma TickKeeps(s: Db, now: nat)
    requires Inv(s) && now >= s.clock
    ensures Inv(s.(clock := now))
  {
    hide SubsInv, DeliveriesRefer, DeliveriesInv, CallsInv, ReportsInv;
  }

  // ---- halting subscriptions -----------------------------------------------------------

  lemma HaltKeepsSubs(subs: Subs, ids: set<Id>, state: SubscriptionState, artifacts: map<Id, Artifact>,
      drafts: map<Id, Draft>)
    requires SubsInv(subs, artifacts, drafts) && !state.Enabled?
    ensures var after := WithStates(subs, ids, state); SubsKept(subs, after) && SubsInv(after, artifacts, drafts)
  {
  }

  lemma HaltKeepsJobs(jobs: Jobs, subs: Subs, inbox: Inbox, ids: set<Id>, state: SubscriptionState)
    requires JobsRefer(jobs, subs, inbox) && WorkIsWanted(jobs, subs)
    ensures var after := CancelledJobs(jobs, ids);
            var held := WithStates(subs, ids, state);
            JobsAdvance(jobs, after) && JobsRefer(after, held, inbox) && WorkIsWanted(after, held)
  {
  }

  lemma CancelledAdvance(ds: Deliveries, ids: set<Id>)
    ensures DeliveriesAdvance(ds, CancelledDeliveries(ds, ids))
  {
  }

  lemma CancelledKeepsKeys(jobs: Jobs, ids: set<Id>)
    ensures CancelledJobs(jobs, ids).Keys == jobs.Keys
  {
  }

  lemma HaltKeeps(s: Db, ids: set<Id>, state: SubscriptionState)
    requires Inv(s) && !state.Enabled?
    ensures Inv(Halt(s, ids, state))
  {
    hide DeliveriesInv, CallsInv, ReportsInv, DeliveriesRefer, DeliveriesAdvance, SubsInv, JobsAdvance, SubsKept;
    hide JobsRefer, WorkIsWanted, OneLiveJob, OneLease, ReorgReachesJobs, CancelledDeliveries, WithStates,
        CancelledJobs;
    var ds, held, after := CancelledDeliveries(s.deliveries, ids), WithStates(s.subs, ids, state),
        CancelledJobs(s.jobs, ids);
    CancelledAdvance(s.deliveries, ids);
    HaltKeepsSubs(s.subs, ids, state, s.artifacts, s.drafts);
    HaltKeepsJobs(s.jobs, s.subs, s.inbox, ids, state);
    JobsAdvanceKeeps(s.jobs, after, s.subs, s.inbox, s.clock);
    AdvanceKeeps(s, ds, held);
    DeliveriesStillRefer(s.deliveries, ds, s.subs, held, s.jobs, after, s.artifacts);
  }

  // ---- drafts, artifacts and selections --------------------------------------------------

  lemma EditKeepsSubs(subs: Subs, artifacts: map<Id, Artifact>, drafts: map<Id, Draft>, draft: Id, revision: nat)
    requires SubsInv(subs, artifacts, drafts) && draft in drafts
    requires forall i {:trigger subs[i]} :: i in subs && subs[i].draft == draft ==> !subs[i].state.Enabled?
    ensures SubsInv(subs, artifacts, drafts[draft := drafts[draft].(revision := revision)])
  {
    var after := drafts[draft := drafts[draft].(revision := revision)];
    forall i | i in subs ensures SubRefers(subs[i], artifacts, after) {
      assert SubRefers(subs[i], artifacts, drafts);
    }
  }

  lemma EditDraftKeeps(s: Db, owner: Owner, draft: Id, expected: nat)
    requires Inv(s)
    ensures Inv(EditDraft(s, owner, draft, expected))
  {
    hide DeliveriesInv, CallsInv, ReportsInv, DeliveriesRefer, JobsInv;
    var ids := LiveOf(s, draft, owner);
    HaltKeeps(s, ids, Stopped);
    if EditDraft(s, owner, draft, expected) != s {
      var t := Halt(s, ids, Stopped);
      forall i | i in t.subs && t.subs[i].draft == draft ensures !t.subs[i].state.Enabled? {
        assert SubRefers(s.subs[i], s.artifacts, s.drafts);
        assert i in ids <==> !s.subs[i].state.Stopped?;
      }
      EditKeepsSubs(t.subs, t.artifacts, t.drafts, draft, expected + 1);
    }
  }

  lemma CreateDraftKeeps(s: Db, id: Id, owner: Owner, ownedMaker: bool, template: Option<Id>)
    requires Inv(s)
    ensures Inv(CreateDraft(s, id, owner, ownedMaker, template))
  {
    hide DeliveriesInv, CallsInv, ReportsInv, DeliveriesRefer, JobsInv;
  }

  lemma PublishArtifactKeeps(s: Db, id: Id, draft: Id, strategy: Hash, guarded: bool)
    requires Inv(s)
    ensures Inv(PublishArtifact(s, id, draft, strategy, guarded))
  {
    hide DeliveriesInv, CallsInv, ReportsInv, JobsInv;
    var t := PublishArtifact(s, id, draft, strategy, guarded);
    if t != s {
      forall d | d in s.deliveries ensures DeliveryRefers(t.deliveries[d], t.subs, t.jobs, t.artifacts) {
        assert DeliveryRefers(s.deliveries[d], s.subs, s.jobs, s.artifacts);
      }
    }
  }

  lemma AddSubscriptionKeepsSubs(subs: Subs, artifacts: map<Id, Artifact>, drafts: map<Id, Draft>, id: Id,
      sub: Subscription)
    requires SubsInv(subs, artifacts, drafts) && id !in subs && SubRefers(sub, artifacts, drafts)
    requires drafts[sub.draft].revision == sub.revision
    requires forall i {:trigger subs[i]} :: i in subs && subs[i].state.Enabled? ==> subs[i].owner != sub.owner
    ensures SubsInv(subs[id := sub], artifacts, drafts)
  {
  }

  lemma AddSubscriptionKeepsJobs(jobs: Jobs, subs: Subs, inbox: Inbox, now: nat, id: Id, sub: Subscription)
    requires JobsInv(jobs, subs, inbox, now) && id !in subs
    ensures JobsInv(jobs, subs[id := sub], inbox, now)
  {
    forall j | j in jobs ensures JobRefers(jobs[j], subs[id := sub], inbox) && Wanted(jobs[j], subs[id := sub]) {
      assert JobRefers(jobs[j], subs, inbox) && Wanted(jobs[j], subs);
    }
  }

  lemma AddSubscriptionKeepsReports(ds: Deliveries, subs: Subs, jobs: Jobs, artifacts: map<Id, Artifact>, id: Id,
      sub: Subscription)
    requires DeliveriesRefer(ds, subs, jobs, artifacts) && ReportsInv(ds, subs) && id !in subs && sub.last.None?
    ensures DeliveriesRefer(ds, subs[id := sub], jobs, artifacts) && ReportsInv(ds, subs[id := sub])
  {
    forall d | d in ds ensures DeliveryRefers(ds[d], subs[id := sub], jobs, artifacts) {
      assert DeliveryRefers(ds[d], subs, jobs, artifacts);
    }
  }

  lemma AddSubscriptionKeeps(s: Db, id: Id, sub: Subscription)
    requires Inv(s) && id !in s.subs && SubRefers(sub, s.artifacts, s.drafts) && sub.last.None?
    requires s.drafts[sub.draft].revision == sub.revision && EnabledOf(s, sub.owner) == {}
    ensures Inv(s.(subs := s.subs[id := sub]))
  {
    hide SubsInv, JobsInv, DeliveriesRefer, DeliveriesInv, CallsInv, ReportsInv;
    forall i | i in s.subs && s.subs[i].state.Enabled? ensures s.subs[i].owner != sub.owner {
      assert s.subs[i].owner == sub.owner ==> i in EnabledOf(s, sub.owner);
    }
    AddSubscriptionKeepsSubs(s.subs, s.artifacts, s.drafts, id, sub);
    AddSubscriptionKeepsJobs(s.jobs, s.subs, s.inbox, s.clock, id, sub);
    AddSubscriptionKeepsReports(s.deliveries, s.subs, s.jobs, s.artifacts, id, sub);
  }

  // ---- new work --------------------------------------------------------------------------

  // The inbox may gain rows, and rows may become canonical again.
  ghost predicate InboxGrows(inbox: Inbox, after: Inbox) {
    forall k {:trigger inbox[k]} {:trigger after[k]} :: k in inbox
                                                        ==> k in after && (inbox[k].canonical ==> after[k].canonical)
  }

  ghost predicate IsNewWork(j: Job, subs: Subs, inbox: Inbox) {
    && j.state.Waiting? && j.lease.None? && !j.reorged && j.sub in subs && subs[j.sub].state.Enabled?
    && j.owner == subs[j.sub].owner && j.generation == subs[j.sub].generation && j.key in inbox
       && inbox[j.key].canonical
  }

  ghost predicate NewWork(jobs: Jobs, added: Jobs, subs: Subs, inbox: Inbox) {
    && added.Keys !! jobs.Keys && OneLiveJob(added)
    && (forall f {:trigger added[f]} :: f in added ==> IsNewWork(added[f], subs, inbox))
    && (forall f, j {:trigger added[f], jobs[j]} :: f in added && j in jobs ==> !SameLiveWork(added[f], jobs[j]))
  }

  lemma AddWorkKeepsJobs(jobs: Jobs, added: Jobs, subs: Subs, inbox: Inbox, after: Inbox, now: nat)
    requires JobsInv(jobs, subs, inbox, now) && InboxGrows(inbox, after) && NewWork(jobs, added, subs, after)
    ensures JobsInv(jobs + added, subs, after, now)
  {
    var all := jobs + added;
    forall j | j in all ensures JobRefers(all[j], subs, after) && Wanted(all[j], subs) && ReorgReached(all[j], after) {
      if j in jobs {
        assert JobRefers(jobs[j], subs, inbox) && Wanted(jobs[j], subs) && ReorgReached(jobs[j], inbox);
      } else {
        assert IsNewWork(added[j], subs, after);
      }
    }
  }

  lemma DeliveriesReferToMoreJobs(ds: Deliveries, subs: Subs, jobs: Jobs, added: Jobs, artifacts: map<Id, Artifact>)
    requires DeliveriesRefer(ds, subs, jobs, artifacts) && added.Keys !! jobs.Keys
    ensures DeliveriesRefer(ds, subs, jobs + added, artifacts)
  {
    forall d | d in ds ensures DeliveryRefers(ds[d], subs, jobs + added, artifacts) {
      assert DeliveryRefers(ds[d], subs, jobs, artifacts);
    }
  }

  lemma AddWorkKeeps(s: Db, after: Inbox, added: Jobs)
    requires Inv(s) && InboxGrows(s.inbox, after) && NewWork(s.jobs, added, s.subs, after)
    ensures Inv(s.(inbox := after, jobs := s.jobs + added))
  {
    hide SubsInv, JobsInv, DeliveriesRefer, DeliveriesInv, CallsInv, ReportsInv, InboxGrows;
    AddWorkKeepsJobs(s.jobs, added, s.subs, s.inbox, after, s.clock);
    DeliveriesReferToMoreJobs(s.deliveries, s.subs, s.jobs, added, s.artifacts);
  }

  // Jobs for events that are not yet in the inbox are new work.
  lemma UnseenEventsAreNew(jobs: Jobs, added: Jobs, subs: Subs, inbox: Inbox)
    requires JobsRefer(jobs, subs, inbox)
    requires forall f {:trigger added[f]} :: f in added ==> added[f].key !in inbox
    ensures forall f, j {:trigger added[f], jobs[j]} :: f in added && j in jobs ==> !SameLiveWork(added[f], jobs[j])
  {
    forall f, j | f in added && j in jobs ensures !SameLiveWork(added[f], jobs[j]) {
      assert JobRefers(jobs[j], subs, inbox);
    }
  }

  lemma AddJobKeeps(s: Db, key: EventKey, job: Id, sub: Id, availableAt: nat, retry: nat)
    requires Inv(s) && key !in s.inbox && job !in s.jobs && sub in s.subs && s.subs[sub].state.Enabled?
    ensures Inv(s.(inbox := s.inbox[key := InboxRow("", true)],
            jobs := s.jobs[job := NewJob(s, sub, key, availableAt, retry)]))
  {
    hide SubsInv, JobsRefer, WorkIsWanted, OneLease, ReorgReachesJobs, DeliveriesRefer, DeliveriesInv, CallsInv,
        ReportsInv;
    var added := map[job := NewJob(s, sub, key, availableAt, retry)];
    UnseenEventsAreNew(s.jobs, added, s.subs, s.inbox);
    AddWorkKeeps(s, s.inbox[key := InboxRow("", true)], added);
    assert s.jobs + added == s.jobs[job := NewJob(s, sub, key, availableAt, retry)];
  }

  lemma EnableKeeps(s: Db, owner: Owner, q: EnableRequest, seen: Reads, sub: Id, job: Id, generation: nat)
    requires Inv(s)
    ensures Inv(Enable(s, owner, q, seen, sub, job, generation))
  {
    CancelledKeepsKeys(s.jobs, EnabledOf(s, owner));
    hide SubsInv, JobsInv, DeliveriesRefer, DeliveriesInv, CallsInv, ReportsInv, CancelledJobs, CancelledDeliveries;
    if EnableTakesEffect(s, owner, q, seen, sub, job, generation) {
      var ids := EnabledOf(s, owner);
      var t := Halt(s, ids, Stopped);
      HaltKeeps(s, ids, Stopped);
      assert EnabledOf(t, owner) == {};
      var row := Subscription(owner, q.draft, q.expected, q.artifact, q.consent, q.source, generation, Enabled, None);
      AddSubscriptionKeeps(t, sub, row);
      var u := t.(subs := t.subs[sub := row]);
      if seen.bindingNonce.None? {
        AddJobKeeps(u, ActivationKey(q, sub), job, sub, s.clock, 0);
      }
    }
  }

  // One more job for an event that is in the inbox and canonical.
  lemma QueueOneKeeps(s: Db, key: EventKey, job: Id, sub: Id)
    requires Inv(s) && job !in s.jobs && sub in s.subs && s.subs[sub].state.Enabled?
    requires key in s.inbox && s.inbox[key].canonical && !HasLiveJob(s, sub, key)
    ensures Inv(s.(jobs := s.jobs[job := NewJob(s, sub, key, s.clock, 0)]))
  {
    hide SubsInv, JobsInv, DeliveriesRefer, DeliveriesInv, CallsInv, ReportsInv;
    var added := map[job := NewJob(s, sub, key, s.clock, 0)];
    assert forall j :: j in s.jobs ==> !SameLiveWork(added[job], s.jobs[j]);
    AddWorkKeeps(s, s.inbox, added);
    assert s.jobs + added == s.jobs[job := NewJob(s, sub, key, s.clock, 0)];
    assert s.(inbox := s.inbox, jobs := s.jobs + added) == s.(jobs := s.jobs + added);
  }

  lemma {:induction false} QueueJobsKeeps(s: Db, key: EventKey, rows: seq<Row>)
    requires Inv(s) && key in s.inbox && s.inbox[key].canonical
    requires forall i :: 0 <= i < |rows| ==> rows[i].sub in s.subs && s.subs[rows[i].sub].state.Enabled?
    ensures QueueJobs(s, key, rows).Some? ==> Inv(QueueJobs(s, key, rows).value)
    decreases |rows|
  {
    hide Inv, HasLiveJob;
    if rows == [] {
    } else {
      if HasLiveJob(s, rows[0].sub, key) {
        QueueJobsKeeps(s, key, rows[1..]);
      } else if rows[0].job !in s.jobs {
        QueueOneKeeps(s, key, rows[0].job, rows[0].sub);
        QueueJobsKeeps(s.(jobs := s.jobs[rows[0].job := NewJob(s, rows[0].sub, key, s.clock, 0)]), key, rows[1..]);
      }
    }
  }

  lemma ReceivedKeeps(s: Db, key: EventKey, body: string)
    requires Inv(s) && !IsDuplicate(s, key)
    ensures Inv(Received(s, key, body))
  {
    hide SubsInv, JobsInv, DeliveriesRefer, DeliveriesInv, CallsInv, ReportsInv;
    AddWorkKeeps(s, s.inbox[key := InboxRow(body, true)], map[]);
    assert s.jobs + map[] == s.jobs;
  }

  lemma IngestKeeps(s: Db, key: EventKey, body: string, recipients: set<Id>, rows: seq<Row>)
    requires Inv(s)
    ensures Inv(Ingest(s, key, body, recipients, rows))
  {
    hide Inv;
    if !IsDuplicate(s, key) && Lists(rows, Subscribers(s, key.source, recipients)) {
      ReceivedKeeps(s, key, body);
      QueueJobsKeeps(Received(s, key, body), key, rows);
    }
  }

  lemma {:induction false} QueueHealthKeeps(s: Db, probes: seq<Probe>)
    requires Inv(s)
    ensures QueueHealth(s, probes).Some? ==> Inv(QueueHealth(s, probes).value)
    decreases |probes|
  {
    if probes == [] {
    } else {
      var p, t := probes[0], s.(health := s.health[probes[0].sub := probes[0].pauseRequired]);
      var key := EventKey(HEALTH_SOURCE, p.event);
      assert Inv(t);
      hide Inv;
      if p.sub !in s.subs || !s.subs[p.sub].state.Enabled? {
        QueueHealthKeeps(s, probes[1..]);
      } else if !HealthTurned(s, p) {
        QueueHealthKeeps(t, probes[1..]);
      } else if key !in s.inbox && p.job !in s.jobs {
        AddJobKeeps(t, key, p.job, p.sub, t.clock, 0);
        QueueHealthKeeps(t.(inbox := t.inbox[key := InboxRow("", true)],
            jobs := t.jobs[p.job := NewJob(t, p.sub, key, t.clock, 0)]), probes[1..]);
      }
    }
  }

  // ---- evaluation jobs -------------------------------------------------------------------

  // A job that starts to run for whoever claims it.
  lemma StartJobKeeps(jobs: Jobs, subs: Subs, inbox: Inbox, now: nat, job: Id, started: Job)
    requires JobsInv(jobs, subs, inbox, now) && job in jobs && Wanted(started, subs) && JobRefers(started, subs, inbox)
    requires started == jobs[job].(state := Running, lease := started.lease, attempts := started.attempts)
    requires forall k {:trigger jobs[k]} :: k in jobs && jobs[k].sub == started.sub ==> !HoldsLease(jobs[k], now)
    ensures JobsInv(jobs[job := started], subs, inbox, now)
  {
    var after := jobs[job := started];
    forall j | j in after ensures JobRefers(after[j], subs, inbox) && Wanted(after[j], subs)
        && ReorgReached(after[j], inbox) {
      assert JobRefers(jobs[j], subs, inbox) && Wanted(jobs[j], subs) && ReorgReached(jobs[j], inbox);
    }
  }

  lemma DeliveriesReferToUpdatedJob(ds: Deliveries, subs: Subs, jobs: Jobs, job: Id, row: Job, artifacts: map<Id,
      Artifact>)
    requires DeliveriesRefer(ds, subs, jobs, artifacts) && job in jobs && row.sub == jobs[job].sub
    requires jobs[job].state.Succeeded? ==> row.state.Succeeded?
    ensures DeliveriesRefer(ds, subs, jobs[job := row], artifacts)
  {
    forall d | d in ds ensures DeliveryRefers(ds[d], subs, jobs[job := row], artifacts) {
      assert DeliveryRefers(ds[d], subs, jobs, artifacts);
    }
  }

  lemma ClaimEvaluationKeeps(s: Db, job: Id, token: Id, leaseMs: nat)
    requires Inv(s)
    ensures Inv(ClaimEvaluation(s, job, token, leaseMs))
  {
    hide SubsInv, ReorgReachesJobs, OneLiveJob, OneLease, DeliveriesRefer, DeliveriesInv, CallsInv, ReportsInv;
    if Claimable(s, job) {
      var started := ClaimEvaluation(s, job, token, leaseMs).jobs[job];
      assert JobRefers(s.jobs[job], s.subs, s.inbox);
      forall k | k in s.jobs && s.jobs[k].sub == started.sub ensures !HoldsLease(s.jobs[k], s.clock) {
        assert JobRefers(s.jobs[k], s.subs, s.inbox);
      }
      StartJobKeeps(s.jobs, s.subs, s.inbox, s.clock, job, started);
      DeliveriesReferToUpdatedJob(s.deliveries, s.subs, s.jobs, job, started, s.artifacts);
    }
  }

  lemma NothingMoves(ds: Deliveries, subs: Subs)
    ensures DeliveriesAdvance(ds, ds) && SubsKept(subs, subs)
  {
  }

  lemma JobStepKeeps(s: Db, after: Jobs)
    requires Inv(s) && JobsAdvance(s.jobs, after)
    ensures Inv(s.(jobs := after))
  {
    NothingMoves(s.deliveries, s.subs);
    hide SubsInv, JobsInv, DeliveriesRefer, DeliveriesInv, CallsInv, ReportsInv, JobsAdvance, DeliveriesAdvance;
    JobsAdvanceKeeps(s.jobs, after, s.subs, s.inbox, s.clock);
    DeliveriesStillRefer(s.deliveries, s.deliveries, s.subs, s.subs, s.jobs, after, s.artifacts);
  }

  lemma OneJobAdvances(jobs: Jobs, subs: Subs, inbox: Inbox, job: Id, row: Job)
    requires JobsRefer(jobs, subs, inbox) && WorkIsWanted(jobs, subs) && job in jobs && JobAdvanced(jobs[job], row)
    ensures JobsAdvance(jobs, jobs[job := row])
  {
    forall j | j in jobs ensures JobAdvanced(jobs[j], jobs[job := row][j]) {
      assert JobRefers(jobs[j], subs, inbox) && Wanted(jobs[j], subs);
    }
  }

  lemma CloseJobKeeps(s: Db, job: Id, state: JobState)
    requires Inv(s) && job in s.jobs && s.jobs[job].state.Running?
             && (state.Succeeded? || state.Errored? || state.Cancelled?)
    ensures Inv(CloseJob(s, job, state)) && JobsAdvance(s.jobs, CloseJob(s, job, state).jobs)
  {
    hide SubsInv, DeliveriesRefer, DeliveriesInv, CallsInv, ReportsInv, JobsAdvance, JobsRefer, WorkIsWanted;
    OneJobAdvances(s.jobs, s.subs, s.inbox, job, s.jobs[job].(state := state, lease := None));
    JobStepKeeps(s, CloseJob(s, job, state).jobs);
  }

  lemma RetryLaterKeeps(s: Db, job: Id)
    requires Inv(s) && job in s.jobs && s.jobs[job].state.Running?
    ensures Inv(RetryLater(s, job))
  {
    hide SubsInv, DeliveriesRefer, DeliveriesInv, CallsInv, ReportsInv, JobsAdvance, OneLiveJob, OneLease;
    assert Wanted(s.jobs[job], s.subs);
    OneJobAdvances(s.jobs, s.subs, s.inbox, job, RetryLater(s, job).jobs[job]);
    JobStepKeeps(s, RetryLater(s, job).jobs);
  }

  // ---- markReorg -------------------------------------------------------------------------

  lemma ReorgAdvances(s: Db, key: EventKey)
    requires JobsRefer(s.jobs, s.subs, s.inbox) && WorkIsWanted(s.jobs, s.subs)
    ensures JobsAdvance(s.jobs, ReorgedJobs(s.jobs, key)) && DeliveriesAdvance(s.deliveries, ReorgedDeliveries(s, key))
  {
    forall j | j in s.jobs ensures JobAdvanced(s.jobs[j], ReorgedJobs(s.jobs, key)[j]) {
      assert JobRefers(s.jobs[j], s.subs, s.inbox) && Wanted(s.jobs[j], s.subs);
    }
  }

  lemma ReorgKeepsJobs(jobs: Jobs, subs: Subs, inbox: Inbox, now: nat, key: EventKey)
    requires JobsInv(jobs, subs, inbox, now) && JobsInv(ReorgedJobs(jobs, key), subs, inbox, now) && key in inbox
    ensures JobsInv(ReorgedJobs(jobs, key), subs, inbox[key := inbox[key].(canonical := false)], now)
  {
    var after, marked := ReorgedJobs(jobs, key), inbox[key := inbox[key].(canonical := false)];
    forall j | j in after ensures JobRefers(after[j], subs, marked) && ReorgReached(after[j], marked) {
      assert JobRefers(after[j], subs, inbox) && ReorgReached(after[j], inbox);
    }
  }

  lemma MarkReorgKeeps(s: Db, key: EventKey)
    requires Inv(s)
    ensures Inv(MarkReorg(s, key))
  {
    hide SubsInv, DeliveriesRefer, DeliveriesInv, CallsInv, ReportsInv, JobsAdvance, DeliveriesAdvance, SubsKept,
        ReorgedJobs, ReorgedDeliveries;
    hide JobsRefer, WorkIsWanted, ReorgReachesJobs, OneLiveJob, OneLease;
    if IsDuplicate(s, key) {
      var jobs, ds := ReorgedJobs(s.jobs, key), ReorgedDeliveries(s, key);
      ReorgAdvances(s, key);
      JobsAdvanceKeeps(s.jobs, jobs, s.subs, s.inbox, s.clock);
      ReorgKeepsJobs(s.jobs, s.subs, s.inbox, s.clock, key);
      NothingMoves(s.deliveries, s.subs);
      AdvanceKeeps(s, ds, s.subs);
      DeliveriesStillRefer(s.deliveries, ds, s.subs, s.subs, s.jobs, jobs, s.artifacts);
    }
  }

  // ---- issuing a report ------------------------------------------------------------------

  // A new row is the youngest, and its nonce is above everything its lane has used.
  ghost predicate IsNextReport(ds: Deliveries, sequences: map<(Owner, Hash), nat>, next: nat, row: Delivery) {
    && row.status.Pending? && row.seqNo == next && row.nonce <= MAX_NONCE
    && row.origin.floor < row.nonce && row.origin.bound < row.nonce
    && (Lane(row) in sequences ==> sequences[Lane(row)] < row.nonce)
    && (forall d {:trigger ds[d]} :: d in ds ==> ds[d].job != row.job)
  }

  lemma IssueKeepsDeliveries(ds: Deliveries, sequences: map<(Owner, Hash), nat>, next: nat, id: Id, row: Delivery)
    requires DeliveriesInv(ds, sequences, next) && id !in ds && IsNextReport(ds, sequences, next, row)
    ensures DeliveriesInv(ds[id := row], sequences[Lane(row) := row.nonce], next + 1)
  {
    var es, after := ds[id := row], sequences[Lane(row) := row.nonce];
    forall d | d in es ensures WithinSequence(es[d], after) {
      assert d in ds ==> WithinSequence(ds[d], sequences);
    }
    forall d, e | d in es && e in es && Lane(es[d]) == Lane(es[e])
        && es[d].seqNo < es[e].seqNo ensures es[d].nonce < es[e].nonce {
      assert d in ds ==> WithinSequence(ds[d], sequences);
    }
  }

  lemma IssueKeepsCalls(calls: seq<Call>, ds: Deliveries, sequences: map<(Owner, Hash), nat>, next: nat, id: Id,
      row: Delivery)
    requires DeliveriesInv(ds, sequences, next) && CallsInv(calls, ds) && id !in ds && row.seqNo == next
    ensures CallsInv(calls, ds[id := row])
  {
  }

  lemma OnlyTheNewReportFollows(ds: Deliveries, id: Id, row: Delivery, d: Id, e: Id)
    requires id !in ds && Follows(ds[id := row], d, e)
    requires forall f {:trigger ds[f]} :: f in ds && ds[f].sub == row.sub ==> ds[f].nonce < row.nonce
    ensures e != id ==> Follows(ds, d, e)
  {
    var es := ds[id := row];
    assert Adjacent(es, d, e);
    if e != id {
      assert d != id;
      forall f | f in ds && ds[f].sub == ds[d].sub ensures ds[f].nonce <= ds[d].nonce || ds[e].nonce <= ds[f].nonce {
        assert es[f] == ds[f];
      }
    }
  }

  lemma IssueKeepsReports(ds: Deliveries, subs: Subs, id: Id, row: Delivery)
    requires ReportsInv(ds, subs) && id !in ds && row.sub in subs
    requires forall f {:trigger ds[f]} :: f in ds && ds[f].sub == row.sub ==> ds[f].nonce < row.nonce
    requires forall d {:trigger ds[d]} :: d in ds && subs[row.sub].last == Some(LastReport(row.hash, ds[d].nonce))
                                          && ds[d].sub == row.sub
               ==> ds[d].status.Failed? || (ds[d].status.Accepted? && row.origin.chainChanged)
    ensures ReportsInv(ds[id := row], subs[row.sub := subs[row.sub].(last := Some(LastReport(row.hash, row.nonce)))])
  {
    var es, after := ds[id := row], subs[row.sub := subs[row.sub].(last := Some(LastReport(row.hash, row.nonce)))];
    forall i | i in after && after[i].last.Some? ensures HasReport(es, i, after[i].last.value.nonce) {
      if i == row.sub {
        assert IsReport(es, id, i, row.nonce);
      } else {
        assert HasReport(ds, i, subs[i].last.value.nonce);
        var d :| IsReport(ds, d, i, subs[i].last.value.nonce);
        assert IsReport(es, d, i, after[i].last.value.nonce);
      }
    }
    forall d, e | Follows(es, d, e) && es[d].hash == es[e].hash
      ensures es[d].status.Failed? || (es[d].status.Accepted? && es[e].origin.chainChanged)
    {
      OnlyTheNewReportFollows(ds, id, row, d, e);
      if e == id {
        assert d in ds && Covers(subs[row.sub].last, ds[d]);
        assert HasReport(ds, row.sub, subs[row.sub].last.value.nonce);
        var f :| IsReport(ds, f, row.sub, subs[row.sub].last.value.nonce);
        assert Adjacent(es, d, e) && es[f] == ds[f];
      }
    }
  }

  lemma IssueKeepsReferences(s: Db, job: Id, id: Id, row: Delivery)
    requires Inv(s) && job in s.jobs && s.jobs[job].state.Running? && id !in s.deliveries
    requires row.job == job && row.sub == s.jobs[job].sub && row.owner == s.subs[row.sub].owner
             && row.generation == s.subs[row.sub].generation
    requires row.origin.strategy == s.artifacts[s.subs[row.sub].artifact].strategy
    ensures var subs := s.subs[row.sub := s.subs[row.sub].(last := Some(LastReport(row.hash, row.nonce)))];
            var jobs := CloseJob(s, job, Succeeded).jobs;
            SubsInv(subs, s.artifacts, s.drafts) && JobsInv(jobs, subs, s.inbox, s.clock)
                && DeliveriesRefer(s.deliveries[id := row], subs, jobs, s.artifacts)
  {
    hide DeliveriesInv, CallsInv, ReportsInv;
    CloseJobKeeps(s, job, Succeeded);
    RememberKeeps(CloseJob(s, job, Succeeded), row.sub, Some(LastReport(row.hash, row.nonce)));
  }

  // Writing last_report_hash and last_report_nonce touches no reference.
  lemma RememberKeeps(s: Db, id: Id, last: Option<LastReport>)
    requires id in s.subs && SubsInv(s.subs, s.artifacts, s.drafts) && JobsInv(s.jobs, s.subs, s.inbox, s.clock)
    requires DeliveriesRefer(s.deliveries, s.subs, s.jobs, s.artifacts)
    ensures var subs := s.subs[id := s.subs[id].(last := last)];
            SubsInv(subs, s.artifacts, s.drafts) && JobsInv(s.jobs, subs, s.inbox, s.clock)
                && DeliveriesRefer(s.deliveries, subs, s.jobs, s.artifacts)
  {
    var subs := s.subs[id := s.subs[id].(last := last)];
    forall j | j in s.jobs ensures JobRefers(s.jobs[j], subs, s.inbox) && Wanted(s.jobs[j], subs) {
      assert JobRefers(s.jobs[j], s.subs, s.inbox) && Wanted(s.jobs[j], s.subs);
    }
    forall d | d in s.deliveries ensures DeliveryRefers(s.deliveries[d], subs, s.jobs, s.artifacts) {
      assert DeliveryRefers(s.deliveries[d], s.subs, s.jobs, s.artifacts);
    }
  }

  lemma NextNonceExceeds(s: Db, lane: (Owner, Hash), floor: nat)
    requires NoncesBounded(s.deliveries, s.sequences)
    ensures NextNonce(s, lane, floor).Some? ==>
              var nonce := NextNonce(s, lane, floor).value;
              floor < nonce <= MAX_NONCE && (lane in s.sequences ==> s.sequences[lane] < nonce)
  {
  }

  lemma IssueIsNextReport(s: Db, job: Id, e: Evaluation, binding: Option<nat>, delivery: Id, nonce: nat)
    requires Inv(s) && job in s.jobs && s.jobs[job].state.Running? && delivery !in s.deliveries && e.report.Some?
    requires s.jobs[job].sub in s.subs && s.subs[s.jobs[job].sub].artifact in s.artifacts
    requires NextNonce(s, (s.subs[s.jobs[job].sub].owner, s.artifacts[s.subs[s.jobs[job].sub].artifact].strategy),
             Floor(e, binding)) == Some(nonce)
    ensures var row := Issue(s, job, e, binding, delivery, nonce).deliveries[delivery];
            && IsNextReport(s.deliveries, s.sequences, s.nextSeq, row)
            && forall f {:trigger s.deliveries[f]} :: f in s.deliveries && s.deliveries[f].sub == row.sub
                                                      ==> s.deliveries[f].nonce < row.nonce
  {
    hide CallsInv, ReportsInv, JobsInv, SubsInv;
    var row := Issue(s, job, e, binding, delivery, nonce).deliveries[delivery];
    NextNonceExceeds(s, Lane(row), Floor(e, binding));
    forall d | d in s.deliveries ensures s.deliveries[d].job != job
        && (s.deliveries[d].sub == row.sub ==> s.deliveries[d].nonce < row.nonce) {
      assert DeliveryRefers(s.deliveries[d], s.subs, s.jobs, s.artifacts);
      assert WithinSequence(s.deliveries[d], s.sequences);
    }
  }

  lemma IssueKeeps(s: Db, job: Id, e: Evaluation, binding: Option<nat>, delivery: Id, nonce: nat)
    requires Inv(s) && job in s.jobs && s.jobs[job].state.Running? && delivery !in s.deliveries
    requires s.jobs[job].sub in s.subs && s.subs[s.jobs[job].sub].artifact in s.artifacts
    requires e.status.Changed? && e.report.Some? && !Suppressed(s, s.jobs[job].sub, e)
    requires NextNonce(s, (s.subs[s.jobs[job].sub].owner, s.artifacts[s.subs[s.jobs[job].sub].artifact].strategy),
             Floor(e, binding)) == Some(nonce)
    ensures Inv(Issue(s, job, e, binding, delivery, nonce))
  {
    hide SubsInv, JobsInv, DeliveriesRefer, DeliveriesInv, CallsInv, ReportsInv, IsNextReport;
    var row := Issue(s, job, e, binding, delivery, nonce).deliveries[delivery];
    IssueIsNextReport(s, job, e, binding, delivery, nonce);
    IssueKeepsReferences(s, job, delivery, row);
    IssueKeepsDeliveries(s.deliveries, s.sequences, s.nextSeq, delivery, row);
    IssueKeepsCalls(s.calls, s.deliveries, s.sequences, s.nextSeq, delivery, row);
    IssueKeepsReports(s.deliveries, s.subs, delivery, row);
  }

  lemma CompleteEvaluationKeeps(s: Db, job: Id, token: Id, e: Evaluation, binding: Option<nat>, delivery: Id)
    requires Inv(s)
    ensures Inv(CompleteEvaluation(s, job, token, e, binding, delivery))
  {
    hide Inv, NextNonce, Issue, Suppressed;
    if EventStands(s, job) && HoldsToken(s, job, token) && s.jobs[job].sub in s.subs {
      var sub := s.subs[s.jobs[job].sub];
      if !sub.state.Enabled? {
        CloseJobKeeps(s, job, Cancelled);
      } else {
        var a := Decided(s, s.jobs[job].sub, e);
        if a.status.Changed? {
          if sub.artifact in s.artifacts && (binding.Some? || s.artifacts[sub.artifact].guarded) {
            var nonce := NextNonce(s, (sub.owner, s.artifacts[sub.artifact].strategy), Floor(a, binding));
            if nonce.None? {
              CloseJobKeeps(s, job, Errored);
            } else if delivery !in s.deliveries {
              IssueKeeps(s, job, a, binding, delivery, nonce.value);
            }
          }
        } else if !a.status.FailedResult? {
          CloseJobKeeps(s, job, Succeeded);
        } else if s.jobs[job].attempts >= 3 {
          CloseJobKeeps(s, job, Errored);
        } else {
          RetryLaterKeeps(s, job);
        }
      }
    }
  }

  // ---- handing a report to the broadcaster -------------------------------------------------

  // Closing one row.
  lemma CloseDeliveryKeeps(s: Db, id: Id, row: Delivery)
    requires Inv(s) && id in s.deliveries && Advanced(s.deliveries[id], row)
    ensures Inv(s.(deliveries := s.deliveries[id := row]))
  {
    OneDeliveryAdvances(s.deliveries, id, row);
    JobsStand(s.jobs, s.subs, s.inbox, s.clock);
    NothingMoves(s.deliveries, s.subs);
    hide SubsInv, JobsInv, DeliveriesRefer, DeliveriesInv, CallsInv, ReportsInv, JobsAdvance, DeliveriesAdvance,
        SubsKept, Advanced;
    AdvanceKeeps(s, s.deliveries[id := row], s.subs);
    DeliveriesStillRefer(s.deliveries, s.deliveries[id := row], s.subs, s.subs, s.jobs, s.jobs, s.artifacts);
  }

  lemma OneDeliveryAdvances(ds: Deliveries, id: Id, row: Delivery)
    requires id in ds && Advanced(ds[id], row)
    ensures DeliveriesAdvance(ds, ds[id := row])
  {
  }

  lemma JobsStand(jobs: Jobs, subs: Subs, inbox: Inbox, now: nat)
    requires JobsInv(jobs, subs, inbox, now)
    ensures JobsAdvance(jobs, jobs)
  {
    forall j | j in jobs ensures JobAdvanced(jobs[j], jobs[j]) {
      assert JobRefers(jobs[j], subs, inbox) && Wanted(jobs[j], subs);
    }
  }

  // A row that changes only in its status, attempts and retry time.
  ghost predicate SameReport(d: Delivery, e: Delivery) {
    e == d.(status := e.status, attempts := e.attempts, nextAttemptAt := e.nextAttemptAt)
  }

  lemma SameReportKeepsReferences(ds: Deliveries, subs: Subs, jobs: Jobs, artifacts: map<Id, Artifact>, id: Id,
      row: Delivery)
    requires DeliveriesRefer(ds, subs, jobs, artifacts) && id in ds && SameReport(ds[id], row)
    ensures DeliveriesRefer(ds[id := row], subs, jobs, artifacts)
  {
    forall d | d in ds ensures DeliveryRefers(ds[id := row][d], subs, jobs, artifacts) {
      assert DeliveryRefers(ds[d], subs, jobs, artifacts);
    }
  }

  // Only the row at the head of its owner's lane may move between Pending and Broadcast.
  lemma SameReportKeepsOrder(ds: Deliveries, sequences: map<(Owner, Hash), nat>, next: nat, id: Id, row: Delivery)
    requires DeliveriesInv(ds, sequences, next) && id in ds && SameReport(ds[id], row) && Open(ds[id])
    requires forall e {:trigger ds[e]} :: e in ds && ds[e].owner == row.owner && Open(ds[e])
                                          ==> row.seqNo <= ds[e].seqNo
    ensures DeliveriesInv(ds[id := row], sequences, next)
  {
    var es := ds[id := row];
    assert NoncesBounded(es, sequences) by {
      forall d | d in es ensures WithinSequence(es[d], sequences) {
        assert WithinSequence(ds[d], sequences);
      }
    }
  }

  // A report that failed or was accepted is never the one that moves.
  lemma SameReportKeepsReports(ds: Deliveries, subs: Subs, id: Id, row: Delivery)
    requires ReportsInv(ds, subs) && id in ds && SameReport(ds[id], row) && Open(ds[id])
    ensures ReportsInv(ds[id := row], subs)
  {
    var es := ds[id := row];
    forall d, e | Follows(es, d, e) && es[d].hash == es[e].hash
      ensures es[d].status.Failed? || (es[d].status.Accepted? && es[e].origin.chainChanged)
    {
      forall f | f in ds && ds[f].sub == ds[d].sub ensures ds[f].nonce <= ds[d].nonce || ds[e].nonce <= ds[f].nonce {
        assert Adjacent(es, d, e) && SameReport(ds[f], es[f]);
      }
      assert Follows(ds, d, e);
    }
    forall i | i in subs && subs[i].last.Some? ensures HasReport(es, i, subs[i].last.value.nonce) {
      assert HasReport(ds, i, subs[i].last.value.nonce);
      var d :| IsReport(ds, d, i, subs[i].last.value.nonce);
      assert IsReport(es, d, i, subs[i].last.value.nonce);
    }
  }

  lemma ClaimKeepsCalls(calls: seq<Call>, ds: Deliveries, id: Id, row: Delivery, call: Call)
    requires CallsInv(calls, ds) && id in ds && SameReport(ds[id], row) && ds[id].status.Pending?
             && row.status.Broadcast?
    requires forall e {:trigger ds[e]} :: e in ds && ds[e].owner == row.owner && Open(ds[e])
                                          ==> row.seqNo <= ds[e].seqNo
    requires call.delivery == id && call.owner == row.owner && call.strategy == row.origin.strategy
             && call.nonce == row.nonce
    ensures CallsInv(calls + [call], ds[id := row])
  {
    var all, es := calls + [call], ds[id := row];
    forall i | 0 <= i < |all| ensures CallRefers(all[i], es) {
      assert i < |calls| ==> all[i] == calls[i] && CallRefers(calls[i], ds);
    }
    forall i, k | 0 <= i < k < |all| && all[i].owner == all[k].owner
      ensures es[all[i].delivery].seqNo <= es[all[k].delivery].seqNo {
      assert all[i] == calls[i] && CallRefers(calls[i], ds);
      assert k < |calls| ==> all[k] == calls[k] && CallRefers(calls[k], ds);
    }
    forall i, k | 0 <= i < k < |all| && all[i].delivery == all[k].delivery ensures DefinitelyNotSent(all[i])
        || DefinitelyNotSent(all[k]) {
      assert all[i] == calls[i] && CallRefers(calls[i], ds);
      assert k < |calls| ==> all[k] == calls[k];
    }
    forall i, d | 0 <= i < |all| && d in es && es[d].owner == all[i].owner
        && es[d].seqNo < es[all[i].delivery].seqNo ensures !Open(es[d]) {
      assert i < |calls| ==> all[i] == calls[i] && CallRefers(calls[i], ds);
    }
  }

  lemma HandOverKeeps(s: Db, id: Id, row: Delivery, call: Call)
    requires Inv(s) && id in s.deliveries && SameReport(s.deliveries[id], row) && s.deliveries[id].status.Pending?
             && row.status.Broadcast?
    requires FirstInLane(s, id)
    requires call.delivery == id && call.owner == row.owner && call.strategy == row.origin.strategy
             && call.nonce == row.nonce
    ensures Inv(s.(deliveries := s.deliveries[id := row], calls := s.calls + [call]))
  {
    hide SubsInv, JobsInv, DeliveriesRefer, DeliveriesInv, CallsInv, ReportsInv;
    SameReportKeepsReferences(s.deliveries, s.subs, s.jobs, s.artifacts, id, row);
    SameReportKeepsOrder(s.deliveries, s.sequences, s.nextSeq, id, row);
    SameReportKeepsReports(s.deliveries, s.subs, id, row);
    ClaimKeepsCalls(s.calls, s.deliveries, id, row, call);
  }

  lemma ClaimDeliveryKeeps(s: Db, delivery: Id, seen: Reads)
    requires Inv(s)
    ensures Inv(ClaimDelivery(s, delivery, seen))
  {
    hide Inv, Ready, FirstInLane;
    if delivery in s.deliveries {
      var d := s.deliveries[delivery];
      if !EventStands(s, d.job) || s.jobs[d.job].reorged {
        CloseDeliveryKeeps(s, delivery, d.(status := if d.status.Pending? then Failed else d.status));
      } else if Claims(s, delivery) {
        if Ready(s, d.sub, seen) {
          var row := d.(status := Broadcast, attempts := d.attempts + 1);
          HandOverKeeps(s, delivery, row, Call(delivery, d.owner, d.origin.strategy, d.nonce, d.attempts + 1, Flying));
        } else {
          CloseDeliveryKeeps(s, delivery, d.(status := Failed, attempts := d.attempts + 1));
        }
      }
    }
  }

  // ---- the call comes back, or does not ------------------------------------------------------

  lemma PhaseKeepsCalls(calls: seq<Call>, ds: Deliveries, i: nat, phase: CallPhase)
    requires CallsInv(calls, ds) && i < |calls| && !DefinitelyNotSent(calls[i])
    ensures CallsInv(calls[i := calls[i].(phase := phase)], ds)
  {
  }

  lemma CallReturnsKeeps(s: Db, i: nat, end: CallEnd)
    requires Inv(s)
    ensures Inv(CallReturns(s, i, end))
  {
    hide SubsInv, JobsInv, DeliveriesRefer, DeliveriesInv, CallsInv, ReportsInv;
    if i < |s.calls| && s.calls[i].phase.Flying? {
      PhaseKeepsCalls(s.calls, s.deliveries, i, Returned(end));
    }
  }

  lemma CrashWorkerKeeps(s: Db, i: nat)
    requires Inv(s)
    ensures Inv(CrashWorker(s, i))
  {
    hide SubsInv, JobsInv, DeliveriesRefer, DeliveriesInv, CallsInv, ReportsInv;
    if i < |s.calls| && !s.calls[i].phase.Settled? {
      PhaseKeepsCalls(s.calls, s.deliveries, i, Lost);
    }
  }

  // Back to Pending only with every call for this report known not to have been sent.
  lemma ReturnToPendingKeepsCalls(calls: seq<Call>, ds: Deliveries, id: Id, row: Delivery)
    requires CallsInv(calls, ds) && id in ds && SameReport(ds[id], row) && ds[id].status.Broadcast?
             && row.status.Pending?
    requires forall i {:trigger calls[i]} :: 0 <= i < |calls| && calls[i].delivery == id ==> DefinitelyNotSent(calls[i])
    ensures CallsInv(calls, ds[id := row])
  {
    forall i | 0 <= i < |calls| ensures CallRefers(calls[i], ds[id := row]) {
      assert CallRefers(calls[i], ds);
    }
  }

  lemma SettleCallKeeps(s: Db, i: nat)
    requires Inv(s)
    ensures Inv(SettleCall(s, i))
  {
    if i < |s.calls| && s.calls[i].phase.Returned? && s.calls[i].delivery in s.deliveries {
      var c := s.calls[i];
      var id, t := c.delivery, WithPhase(s, i, Settled(c.phase.end));
      var d, row := s.deliveries[id], AfterCall(s.deliveries[id], c.phase.end, c.attempts, s.clock);
      assert Inv(t) by {
        hide SubsInv, JobsInv, DeliveriesRefer, DeliveriesInv, CallsInv, ReportsInv;
        PhaseKeepsCalls(s.calls, s.deliveries, i, Settled(c.phase.end));
      }
      if d.status.Broadcast? && row.status.Pending? {
        ReturnToPendingKeeps(t, i, row);
      } else {
        CloseDeliveryKeeps(t, id, row);
      }
    }
  }

  lemma ReturnToPendingKeeps(s: Db, i: nat, row: Delivery)
    requires Inv(s) && i < |s.calls| && DefinitelyNotSent(s.calls[i]) && s.calls[i].delivery in s.deliveries
    requires s.deliveries[s.calls[i].delivery].status.Broadcast? && SameReport(s.deliveries[s.calls[i].delivery], row)
             && row.status.Pending?
    requires forall k {:trigger s.calls[k]} :: 0 <= k < |s.calls| && s.calls[k].delivery == s.calls[i].delivery
                                               ==> DefinitelyNotSent(s.calls[k])
    ensures Inv(s.(deliveries := s.deliveries[s.calls[i].delivery := row]))
  {
    var id := s.calls[i].delivery;
    forall e | e in s.deliveries && s.deliveries[e].owner == row.owner && Open(s.deliveries[e])
      ensures row.seqNo <= s.deliveries[e].seqNo
    {
      assert BroadcastIsOldest(s.deliveries);
    }
    hide SubsInv, JobsInv, DeliveriesRefer, DeliveriesInv, CallsInv, ReportsInv;
    SameReportKeepsReferences(s.deliveries, s.subs, s.jobs, s.artifacts, id, row);
    SameReportKeepsOrder(s.deliveries, s.sequences, s.nextSeq, id, row);
    SameReportKeepsReports(s.deliveries, s.subs, id, row);
    ReturnToPendingKeepsCalls(s.calls, s.deliveries, id, row);
  }

  // ---- reconcile -----------------------------------------------------------------------------

  lemma ReconcileKeeps(s: Db, delivery: Id, verdict: Verdict, consent: Option<Id>, job: Id)
    requires Inv(s)
    ensures Inv(Reconcile(s, delivery, verdict, consent, job))
  {
    hide Inv;
    if delivery in s.deliveries && s.deliveries[delivery].status.Broadcast? {
      var d := s.deliveries[delivery];
      if verdict.Landed? {
        CloseDeliveryKeeps(s, delivery, d.(status := Accepted));
      } else {
        CloseDeliveryKeeps(s, delivery, d.(status := Failed));
        var key := EventKey(RETRY_SOURCE, delivery);
        if Reevaluates(s, delivery, verdict, consent) && key !in s.inbox && job !in s.jobs {
          AddJobKeeps(WithStatus(s, delivery, Failed), key, job, d.sub, s.clock + 5000, RetryAttempt(s, d.job));
        }
      }
    }
  }
}
