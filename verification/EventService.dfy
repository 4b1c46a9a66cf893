// The event service as one object over mutable tables, the way the code writes it. Each method is one
// transaction and is proved to be exactly the step that the runs of the protocol are made of.
module EventService {
  import opened Wrappers
  import opened EventTables
  import opened EventSteps

  // How the claiming transaction of deliver ends.
  datatype Claim = AlreadyProcessing | WaitingForEarlier | Stale | Claimed

  class EventStore {
    var clock: nat
    var drafts: map<Id, Draft>
    var artifacts: map<Id, Artifact>
    var subs: map<Id, Subscription>
    var inbox: map<EventKey, InboxRow>
    var jobs: map<Id, Job>
    var deliveries: map<Id, Delivery>
    var sequences: map<(Owner, Hash), nat>
    var health: map<Id, bool>
    var nextSeq: nat
    var calls: seq<Call>

    function State(): Db
      reads this
    {
      Db(clock, drafts, artifacts, subs, inbox, jobs, deliveries, sequences, health, nextSeq, calls)
    }

    constructor ()
      ensures State() == Init()
    {
      clock, nextSeq := 0, 0;
      drafts, artifacts, subs, inbox, jobs, deliveries, sequences, health := map[], map[], map[], map[], map[], map[],
          map[], map[];
      calls := [];
    }

    // Two row updates; a row already handed to the broadcaster is left alone.
    method CancelUnsentEventWork(subscriptionIds: set<Id>)
      modifies this`jobs, this`deliveries
      ensures jobs == CancelledJobs(old(jobs), subscriptionIds)
              && deliveries == CancelledDeliveries(old(deliveries), subscriptionIds)
    {
      if subscriptionIds == {} {
        CancelNothing(jobs, deliveries);
        return;
      }
      jobs := map j | j in jobs ::
        if jobs[j].sub in subscriptionIds && (jobs[j].state.Waiting? || jobs[j].state.Running?)
        then jobs[j].(state := Cancelled, lease := None) else jobs[j];
      deliveries := map d | d in deliveries ::
        if deliveries[d].sub in subscriptionIds && deliveries[d].status.Pending? then deliveries[d].(status := Failed)
            else deliveries[d];
    }

    // The pair of statements every ending of a subscription runs in its transaction.
    method HaltRows(ids: set<Id>, state: SubscriptionState)
      modifies this`subs, this`jobs, this`deliveries
      ensures State() == Halt(old(State()), ids, state)
    {
      subs := map i | i in subs :: if i in ids then subs[i].(state := state) else subs[i];
      assert subs == WithStates(old(subs), ids, state);
      hide CancelledJobs, CancelledDeliveries, WithStates;
      CancelUnsentEventWork(ids);
    }

    method PersistDraftChange(owner: Owner, draft: Id, expected: nat) returns (r: Result<nat>)
      modifies this`drafts, this`subs, this`jobs, this`deliveries
      ensures State() == EditDraft(old(State()), owner, draft, expected)
      ensures r.Success? <==> draft in old(drafts) && old(drafts[draft]).owner == owner
                              && old(drafts[draft]).revision == expected
      ensures r.Success? ==> r.value == expected + 1
    {
      hide Halt;
      if draft !in drafts || drafts[draft].owner != owner {
        return Failure("not-found");
      }
      if drafts[draft].revision != expected {
        return Failure("conflict");
      }
      var stopped := set i | i in subs && subs[i].owner == owner && subs[i].draft == draft
          && (subs[i].state.Enabled? || subs[i].state.Paused?);
      assert stopped == LiveOf(State(), draft, owner);
      HaltRows(stopped, Stopped);
      drafts := drafts[draft := drafts[draft].(revision := expected + 1)];
      return Success(expected + 1);
    }

    method Stop(owner: Owner, sub: Id) returns (r: Result<()>)
      modifies this`subs, this`jobs, this`deliveries
      ensures State() == EventSteps.Stop(old(State()), owner, sub)
      ensures r.Success? <==> sub in old(subs) && old(subs[sub]).owner == owner
    {
      if sub !in subs || subs[sub].owner != owner {
        return Failure("not-found");
      }
      if !subs[sub].state.Stopped? {
        CancelUnsentEventWork({sub});
        subs := subs[sub := subs[sub].(state := Stopped)];
        assert subs == WithStates(old(subs), {sub}, Stopped);
      }
      return Success(());
    }

    method Enable(owner: Owner, q: EnableRequest, seen: Reads, sub: Id, job: Id) returns (r: Result<Id>,
        generation: nat)
      modifies this`subs, this`inbox, this`jobs, this`deliveries
      ensures State() == EventSteps.Enable(old(State()), owner, q, seen, sub, job, generation)
      ensures var refusal := EnableRefusal(old(State()), owner, q, seen); refusal.Some? ==> r == Failure(refusal.value)
      ensures EnableRefusal(old(State()), owner, q, seen).None? && AlreadyEnabled(old(State()), owner, q) ==>
                r.Success? && r.value in old(subs) && IsSelection(old(subs[r.value]), owner, q)
      ensures EnableTakesEffect(old(State()), owner, q, seen, sub, job, generation) ==> r == Success(sub)
      ensures r.Success? ==> r.value in subs && IsSelection(subs[r.value], owner, q)
    {
      hide WithStates, CancelledJobs, CancelledDeliveries, EnableRefusal, IsNextGeneration;
      generation := 0;
      var refusal := EnableRefusal(State(), owner, q, seen);
      if refusal.Some? {
        return Failure(refusal.value), 0;
      }
      var existing := set i | i in subs && IsSelection(subs[i], owner, q);
      if existing != {} {
        var i :| i in existing;
        return Success(i), 0;
      }
      assert forall i :: i in subs && IsSelection(subs[i], owner, q) ==> i in existing;
      var latest := LatestGeneration(owner, q.draft);
      generation := latest + 1;
      var fresh' := sub !in subs && (seen.bindingNonce.None? ==> job !in jobs && ActivationKey(q, sub) !in inbox);
      if !fresh' {
        return Failure("duplicate-key"), generation;
      }
      SwitchAway(owner);
      subs := subs[sub := Subscription(owner, q.draft, q.expected, q.artifact, q.consent, q.source, generation,
          Enabled, None)];
      if seen.bindingNonce.None? {
        var key := ActivationKey(q, sub);
        inbox := inbox[key := InboxRow("", true)];
        jobs := jobs[job := Job(sub, owner, generation, key, Waiting, 0, None, clock, false, 0)];
      }
      return Success(sub), generation;
    }

    // Stop the owner's enabled subscriptions and cancel their unsent work.
    method SwitchAway(owner: Owner)
      modifies this`subs, this`jobs, this`deliveries
      ensures State() == Halt(old(State()), EnabledOf(old(State()), owner), Stopped)
    {
      var switched := set i | i in subs && subs[i].owner == owner && subs[i].state.Enabled?;
      assert switched == EnabledOf(State(), owner);
      subs := map i | i in subs :: if i in switched then subs[i].(state := Stopped) else subs[i];
      assert subs == WithStates(old(subs), switched, Stopped);
      hide WithStates;
      CancelEach(switched);
    }

    // One cancelUnsentEventWork per switched row.
    method CancelEach(switched: set<Id>)
      modifies this`jobs, this`deliveries
      ensures jobs == CancelledJobs(old(jobs), switched) && deliveries == CancelledDeliveries(old(deliveries), switched)
    {
      CancelNothing(jobs, deliveries);
      hide CancelledJobs, CancelledDeliveries;
      var rest := switched;
      assert switched - rest == {};
      while rest != {}
        decreases |rest|
        invariant rest <= switched
        invariant jobs == CancelledJobs(old(jobs), switched - rest)
                  && deliveries == CancelledDeliveries(old(deliveries), switched - rest)
      {
        var row :| row in rest;
        CancelUnsentEventWork({row});
        CancellingOneMore(old(jobs), old(deliveries), switched - rest, row);
        assert switched - (rest - {row}) == switched - rest + {row};
        rest := rest - {row};
      }
      assert switched - rest == switched;
    }

    // COALESCE(MAX(generation), 0) over the owner's subscriptions of the draft.
    method LatestGeneration(owner: Owner, draft: Id) returns (latest: nat)
      ensures IsNextGeneration(State(), owner, draft, latest + 1)
    {
      latest := 0;
      var rest := subs.Keys;
      while rest != {}
        decreases |rest|
        invariant rest <= subs.Keys
        invariant forall i :: i in subs && i !in rest && subs[i].owner == owner && subs[i].draft == draft
                              ==> subs[i].generation <= latest
        invariant latest == 0 || exists i :: i in subs && subs[i].owner == owner && subs[i].draft == draft
                                             && subs[i].generation == latest
      {
        var i :| i in rest;
        rest := rest - {i};
        if subs[i].owner == owner && subs[i].draft == draft && subs[i].generation > latest {
          latest := subs[i].generation;
        }
      }
    }

    // ---- events ------------------------------------------------------------------------

    // `rows` is the result set of the subscription query in the order the database returns it.
    method Ingest(key: EventKey, body: string, recipients: set<Id>, rows: seq<Row>) returns (r: Result<bool>)
      requires Lists(rows, Subscribers(State(), key.source, recipients))
      modifies this`inbox, this`jobs
      ensures State() == EventSteps.Ingest(old(State()), key, body, recipients, rows)
      ensures r == Success(false) <==> IsDuplicate(old(State()), key)
      ensures r == Success(true) <==> !IsDuplicate(old(State()), key)
                                      && QueueJobs(Received(old(State()), key, body), key, rows).Some?
    {
      if key in inbox && inbox[key].canonical {
        return Success(false);
      }
      ghost var start := Received(State(), key, body);
      var staged := jobs;
      for i := 0 to |rows|
        invariant unchanged(this)
        invariant QueueJobs(start, key, rows) == QueueJobs(start.(jobs := staged), key, rows[i..])
      {
        var sub := rows[i].sub;
        assert rows[i..][0] == rows[i] && rows[i..][1..] == rows[i + 1..];
        if !(exists j :: j in staged && staged[j].sub == sub && staged[j].key == key && !staged[j].reorged) {
          if rows[i].job in staged {
            return Failure("duplicate-key");
          }
          staged := staged[rows[i].job := Job(sub, subs[sub].owner, subs[sub].generation, key, Waiting, 0, None,
              clock, false, 0)];
        }
      }
      inbox, jobs := inbox[key := InboxRow(body, true)], staged;
      return Success(true);
    }

    method ScheduleHealthEvaluations(probes: seq<Probe>) returns (r: Result<nat>)
      requires forall i :: 0 <= i < |probes| ==> probes[i].sub in subs && subs[probes[i].sub].state.Enabled?
      modifies this`health, this`inbox, this`jobs
      ensures State() == ScheduleHealth(old(State()), probes)
      ensures r.Success? <==> QueueHealth(old(State()), probes).Some?
    {
      var watched, received, staged, queued := health, inbox, jobs, 0;
      ghost var start := State();
      for i := 0 to |probes|
        invariant unchanged(this)
        invariant QueueHealth(start, probes) == QueueHealth(start.(health := watched, inbox := received,
                  jobs := staged), probes[i..])
      {
        var p := probes[i];
        assert probes[i..][0] == p && probes[i..][1..] == probes[i + 1..];
        var turned := if p.sub in watched then watched[p.sub] != p.pauseRequired else p.pauseRequired;
        watched := watched[p.sub := p.pauseRequired];
        if turned {
          var key := EventKey(HEALTH_SOURCE, p.event);
          if key in received || p.job in staged {
            return Failure("duplicate-key");
          }
          received := received[key := InboxRow("", true)];
          staged := staged[p.job := Job(p.sub, subs[p.sub].owner, subs[p.sub].generation, key, Waiting, 0, None,
              clock, false, 0)];
          queued := queued + 1;
        }
      }
      health, inbox, jobs := watched, received, staged;
      return Success(queued);
    }

    method MarkReorg(key: EventKey) returns (changed: bool)
      modifies this`inbox, this`jobs, this`deliveries
      ensures State() == EventSteps.MarkReorg(old(State()), key)
      ensures changed <==> key in old(inbox) && old(inbox[key]).canonical
    {
      if key !in inbox || !inbox[key].canonical {
        return false;
      }
      deliveries := map d | d in deliveries ::
        if deliveries[d].status.Pending? && deliveries[d].job in jobs && jobs[deliveries[d].job].key == key
        then deliveries[d].(status := Failed) else deliveries[d];
      inbox := inbox[key := inbox[key].(canonical := false)];
      jobs := map j | j in jobs ::
        if jobs[j].key == key && !jobs[j].reorged
        then jobs[j].(reorged := true, lease := None, state := if jobs[j].state.Waiting?
            || jobs[j].state.Running? then Cancelled else jobs[j].state)
        else jobs[j];
      return true;
    }

    // ---- consents and templates ----------------------------------------------------------

    method RevokeConsent(owner: Owner, consent: Id)
      modifies this`subs, this`jobs, this`deliveries
      ensures State() == EventSteps.RevokeConsent(old(State()), owner, consent)
    {
      var stopped := set i | i in subs && subs[i].owner == owner && subs[i].consent == consent
          && (subs[i].state.Enabled? || subs[i].state.Paused?);
      assert stopped == ConsentedBy(State(), owner, consent);
      hide Halt, ConsentedBy;
      HaltRows(stopped, Stopped);
    }

    method WithdrawTemplate(template: Id)
      modifies this`subs, this`jobs, this`deliveries
      ensures State() == EventSteps.WithdrawTemplate(old(State()), template)
    {
      var pinned := set i | i in subs && subs[i].state.Enabled? && subs[i].draft in drafts
          && drafts[subs[i].draft].template == Some(template);
      assert pinned == PinnedTo(State(), template);
      hide Halt, PinnedTo;
      HaltRows(pinned, Paused);
    }

    // ---- evaluation ------------------------------------------------------------------------

    // `candidate` is the row the database lets this worker have; a row that does not qualify
    // stands for an empty result.
    method ClaimEvaluation(candidate: Id, token: Id, leaseMs: nat) returns (r: Result<bool>)
      modifies this`jobs
      ensures r.Failure? <==> leaseMs < 100 || leaseMs > 300000
      ensures r.Failure? ==> State() == old(State())
      ensures r.Success? ==> State() == EventSteps.ClaimEvaluation(old(State()), candidate, token, leaseMs)
      ensures r.Success? ==> (r.value <==> Claimable(old(State()), candidate))
    {
      if leaseMs < 100 || leaseMs > 300000 {
        return Failure("invalid-request");
      }
      var s := State();
      if !Claimable(s, candidate) {
        return Success(false);
      }
      hide Claimable;
      jobs := jobs[candidate := jobs[candidate].(state := Running, lease := Some(Lease(token, clock + leaseMs)),
          attempts := jobs[candidate].attempts + 1)];
      return Success(true);
    }

    // The transaction of evaluate that records what the evaluator said.
    method CompleteEvaluation(job: Id, token: Id, e: Evaluation, binding: Option<nat>,
        delivery: Id) returns (r: Result<EvaluationStatus>)
      modifies this`jobs, this`sequences, this`deliveries, this`nextSeq, this`subs
      ensures State() == EventSteps.CompleteEvaluation(old(State()), job, token, e, binding, delivery)
      ensures r == Success(Changed) <==> Allocated(old(State()), job, token, e, binding, delivery).Some?
      ensures r == Failure("event-reorged") <==> !EventStands(old(State()), job)
      ensures r == Failure("lease-lost") <==> EventStands(old(State()), job)
                                              && (!HoldsToken(old(State()), job, token)
                                                 || old(jobs[job]).sub !in old(subs))
    {
      hide Decided, NextNonce, Floor, Issue;
      if job !in jobs || jobs[job].key !in inbox || !inbox[jobs[job].key].canonical {
        return Failure("event-reorged");
      }
      var row := jobs[job];
      if row.sub !in subs || row.reorged || !row.state.Running? || row.lease.None? || row.lease.value.token != token
          || row.lease.value.until <= clock {
        return Failure("lease-lost");
      }
      var sub := subs[row.sub];
      if !sub.state.Enabled? {
        jobs := jobs[job := row.(state := Cancelled, lease := None)];
        return Success(PausedResult);
      }
      var result := Decided(State(), row.sub, e);
      if result.status.Changed? {
        if sub.artifact !in artifacts {
          return Failure("event-subscription-integrity");
        }
        if binding.None? && !artifacts[sub.artifact].guarded {
          return Failure("authorization-binding-required");
        }
        var nonce := NextNonce(State(), (sub.owner, artifacts[sub.artifact].strategy), Floor(result, binding));
        if nonce.None? {
          jobs := jobs[job := row.(state := Errored, lease := None)];
          return Success(FailedResult);
        }
        if delivery in deliveries {
          return Failure("duplicate-key");
        }
        IssueReport(job, result, binding, delivery, nonce.value);
        return Success(Changed);
      }
      if !result.status.FailedResult? {
        jobs := jobs[job := row.(state := Succeeded, lease := None)];
      } else if row.attempts >= 3 {
        jobs := jobs[job := row.(state := Errored, lease := None)];
      } else {
        jobs := jobs[job := row.(state := Waiting, lease := None, availableAt := clock + 2000 * row.attempts)];
      }
      return Success(result.status);
    }

    // The writes that go with an allocated nonce.
    method IssueReport(job: Id, result: Evaluation, binding: Option<nat>, delivery: Id, nonce: nat)
      requires job in jobs && jobs[job].sub in subs && subs[jobs[job].sub].artifact in artifacts && result.report.Some?
      modifies this`jobs, this`sequences, this`deliveries, this`nextSeq, this`subs
      ensures State() == Issue(old(State()), job, result, binding, delivery, nonce)
    {
      var row := jobs[job];
      var sub := subs[row.sub];
      var strategy := artifacts[sub.artifact].strategy;
      sequences := sequences[(sub.owner, strategy) := nonce];
      var origin := Origin(strategy, if result.nonceFloor.Some? then result.nonceFloor.value else 0,
          if binding.Some? then binding.value else 0, result.chainChanged);
      deliveries := deliveries[delivery := Delivery(row.sub, sub.owner, sub.generation, job, result.report.value,
          nonce, nextSeq, Pending, 0, clock, origin)];
      nextSeq := nextSeq + 1;
      subs := subs[row.sub := sub.(last := Some(LastReport(result.report.value, nonce)))];
      jobs := jobs[job := row.(state := Succeeded, lease := None)];
    }

    // ---- delivery --------------------------------------------------------------------------

    // The first transaction of deliver. Its row is set to broadcast before the freshness of the
    // subscription is known, and to failed again if it is stale.
    method ClaimDelivery(delivery: Id, seen: Reads) returns (claim: Claim)
      modifies this`deliveries, this`calls
      ensures State() == EventSteps.ClaimDelivery(old(State()), delivery, seen)
      ensures claim.Claimed? <==> Claims(old(State()), delivery)
                                  && Ready(old(State()), old(deliveries[delivery]).sub, seen)
                                  && EventStands(old(State()), old(deliveries[delivery]).job)
                                     && !old(jobs[deliveries[delivery].job]).reorged
      ensures claim.Claimed? ==> |calls| == |old(calls)| + 1 && calls[..|old(calls)|] == old(calls)
      ensures !claim.Claimed? ==> calls == old(calls)
    {
      hide Ready, FirstInLane;
      if delivery !in deliveries {
        return AlreadyProcessing;
      }
      var d := deliveries[delivery];
      if !EventStands(State(), d.job) || jobs[d.job].reorged {
        if d.status.Pending? {
          deliveries := deliveries[delivery := d.(status := Failed)];
          return Stale;
        }
        return AlreadyProcessing;
      }
      var before, first := State(), FirstInLane(State(), delivery);
      if !d.status.Pending? || d.nextAttemptAt > clock || !first {
        return if d.status.Pending? then WaitingForEarlier else AlreadyProcessing;
      }
      deliveries := deliveries[delivery := d.(status := Broadcast, attempts := d.attempts + 1)];
      if !Ready(before, d.sub, seen) {
        deliveries := deliveries[delivery := deliveries[delivery].(status := Failed)];
        return Stale;
      }
      calls := calls + [Call(delivery, d.owner, d.origin.strategy, d.nonce, d.attempts + 1, Flying)];
      return Claimed;
    }

    // acceptReceipt, and the error branch of deliver, for the call at `i`.
    method SettleCall(i: nat)
      modifies this`deliveries, this`calls
      ensures State() == EventSteps.SettleCall(old(State()), i)
    {
      if i >= |calls| || !calls[i].phase.Returned? || calls[i].delivery !in deliveries {
        return;
      }
      var call := calls[i];
      var row := deliveries[call.delivery];
      calls := calls[i := call.(phase := Settled(call.phase.end))];
      if !row.status.Broadcast? {
        assert deliveries == deliveries[call.delivery := row];
        return;
      }
      if call.phase.end.Receipt? {
        deliveries := deliveries[call.delivery := row.(status := Accepted)];
      } else {
        var status := if call.phase.end.Deferred? then Pending
                      else if call.phase.end.NotSent? then if call.attempts < 3 then Pending else Failed
                      else Broadcast;
        var delay := if status.Pending? then 2000 * row.attempts else 0;
        deliveries := deliveries[call.delivery := row.(
          status := status, nextAttemptAt := clock + delay,
          attempts := if call.phase.end.Deferred? && row.attempts > 0 then row.attempts - 1 else row.attempts)];
      }
    }

    // reconcile once the reconciler has said more than "still unknown".
    method Reconcile(delivery: Id, verdict: Verdict, active: Option<Id>, job: Id) returns (r: Result<DeliveryStatus>)
      modifies this`deliveries, this`inbox, this`jobs
      ensures State() == EventSteps.Reconcile(old(State()), delivery, verdict, active, job)
      ensures r.Success? ==> delivery in deliveries && r.value == deliveries[delivery].status
      ensures r.Failure? ==> State() == old(State())
    {
      if delivery !in deliveries {
        return Failure("not-found");
      }
      var d := deliveries[delivery];
      if !d.status.Broadcast? {
        return Success(d.status);
      }
      if verdict.Landed? {
        deliveries := deliveries[delivery := d.(status := Accepted)];
        return Success(Accepted);
      }
      if verdict == NotBroadcast(true) && d.sub in subs && subs[d.sub].state.Enabled?
          && active == Some(subs[d.sub].consent) {
        var attempt := if d.job in jobs && jobs[d.job].key.source == RETRY_SOURCE then jobs[d.job].retry + 1 else 1;
        if attempt <= 3 {
          var key := EventKey(RETRY_SOURCE, delivery);
          if key in inbox || job in jobs {
            return Failure("duplicate-key");
          }
          inbox := inbox[key := InboxRow("", true)];
          jobs := jobs[job := Job(d.sub, subs[d.sub].owner, subs[d.sub].generation, key, Waiting, 0, None,
              clock + 5000, false, attempt)];
        }
      }
      deliveries := deliveries[delivery := d.(status := Failed)];
      return Success(Failed);
    }
  }

  lemma CancelNothing(jobs: map<Id, Job>, ds: map<Id, Delivery>)
    ensures CancelledJobs(jobs, {}) == jobs && CancelledDeliveries(ds, {}) == ds
  {
  }

  lemma CancellingOneMore(jobs: map<Id, Job>, ds: map<Id, Delivery>, done: set<Id>, next: Id)
    ensures CancelledJobs(CancelledJobs(jobs, done), {next}) == CancelledJobs(jobs, done + {next})
    ensures CancelledDeliveries(CancelledDeliveries(ds, done), {next}) == CancelledDeliveries(ds, done + {next})
  {
  }
}
