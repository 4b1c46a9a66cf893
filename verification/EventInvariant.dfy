// What every reachable state of the event tables satisfies. Each predicate takes just the
// tables it speaks of, so a step that leaves them alone keeps it trivially.
module EventInvariant {
  import opened Wrappers
  import opened EventTables
  import opened EventSteps

  type Subs = map<Id, Subscription>
  type Jobs = map<Id, Job>
  type Deliveries = map<Id, Delivery>
  type Inbox = map<EventKey, InboxRow>

  // ---- rows refer to rows that exist ---------------------------------------------------

  ghost predicate SubRefers(a: Subscription, artifacts: map<Id, Artifact>, drafts: map<Id, Draft>) {
    a.artifact in artifacts && a.draft in drafts && drafts[a.draft].owner == a.owner
  }

  ghost predicate SubsRefer(subs: Subs, artifacts: map<Id, Artifact>, drafts: map<Id, Draft>) {
    forall i {:trigger subs[i]} :: i in subs ==> SubRefers(subs[i], artifacts, drafts)
  }

  ghost predicate JobRefers(j: Job, subs: Subs, inbox: Inbox) {
    && j.sub in subs && j.key in inbox
    && j.owner == subs[j.sub].owner && j.generation == subs[j.sub].generation
    && (j.state.Running? <==> j.lease.Some?)
  }

  ghost predicate JobsRefer(jobs: Jobs, subs: Subs, inbox: Inbox) {
    forall j {:trigger jobs[j]} :: j in jobs ==> JobRefers(jobs[j], subs, inbox)
  }

  ghost predicate DeliveryRefers(d: Delivery, subs: Subs, jobs: Jobs, artifacts: map<Id, Artifact>) {
    && d.sub in subs && d.owner == subs[d.sub].owner && d.generation == subs[d.sub].generation
    && d.job in jobs && jobs[d.job].sub == d.sub && jobs[d.job].state.Succeeded?
    && subs[d.sub].artifact in artifacts && d.origin.strategy == artifacts[subs[d.sub].artifact].strategy
  }

  ghost predicate DeliveriesRefer(ds: Deliveries, subs: Subs, jobs: Jobs, artifacts: map<Id, Artifact>) {
    forall d {:trigger ds[d]} :: d in ds ==> DeliveryRefers(ds[d], subs, jobs, artifacts)
  }

  // ---- one selected strategy per Maker, bound to the current revision --------------------

  ghost predicate OneSelection(subs: Subs) {
    forall i, k {:trigger subs[i], subs[k]} ::
      i in subs && k in subs && subs[i].state.Enabled? && subs[k].state.Enabled? && subs[i].owner == subs[k].owner
      ==> i == k
  }

  ghost predicate CurrentRevision(subs: Subs, drafts: map<Id, Draft>) {
    forall i {:trigger subs[i]} ::
      i in subs && subs[i].state.Enabled?
      ==> subs[i].draft in drafts && drafts[subs[i].draft].revision == subs[i].revision
  }

  // ---- evaluation jobs -------------------------------------------------------------------

  ghost predicate Wanted(j: Job, subs: Subs) {
    Unfinished(j) ==> j.sub in subs && subs[j.sub].state.Enabled? && !j.reorged
  }

  ghost predicate WorkIsWanted(jobs: Jobs, subs: Subs) {
    forall j {:trigger jobs[j]} :: j in jobs ==> Wanted(jobs[j], subs)
  }

  ghost predicate ReorgReached(j: Job, inbox: Inbox) {
    j.key in inbox && !inbox[j.key].canonical ==> j.reorged
  }

  ghost predicate ReorgReachesJobs(jobs: Jobs, inbox: Inbox) {
    forall j {:trigger jobs[j]} :: j in jobs ==> ReorgReached(jobs[j], inbox)
  }

  ghost predicate SameLiveWork(a: Job, b: Job) {
    !a.reorged && !b.reorged && a.sub == b.sub && a.key == b.key
  }

  ghost predicate OneLiveJob(jobs: Jobs) {
    forall j, k {:trigger jobs[j], jobs[k]} :: j in jobs && k in jobs && SameLiveWork(jobs[j], jobs[k]) ==> j == k
  }

  ghost predicate BothHold(a: Job, b: Job, now: nat) {
    a.sub == b.sub && HoldsLease(a, now) && HoldsLease(b, now)
  }

  ghost predicate OneLease(jobs: Jobs, now: nat) {
    forall j, k {:trigger jobs[j], jobs[k]} :: j in jobs && k in jobs && BothHold(jobs[j], jobs[k], now) ==> j == k
  }

  // ---- deliveries ------------------------------------------------------------------------

  ghost predicate OneDeliveryPerJob(ds: Deliveries) {
    forall d, e {:trigger ds[d], ds[e]} :: d in ds && e in ds && ds[d].job == ds[e].job ==> d == e
  }

  ghost predicate CreationOrder(ds: Deliveries, next: nat) {
    && (forall d {:trigger ds[d]} :: d in ds ==> ds[d].seqNo < next)
    && (forall d, e {:trigger ds[d], ds[e]} :: d in ds && e in ds && ds[d].seqNo == ds[e].seqNo ==> d == e)
  }

  function Lane(d: Delivery): (Owner, Hash) {
    (d.owner, d.origin.strategy)
  }

  ghost predicate WithinSequence(d: Delivery, sequences: map<(Owner, Hash), nat>) {
    && d.origin.floor < d.nonce && d.origin.bound < d.nonce
    && Lane(d) in sequences && d.nonce <= sequences[Lane(d)]
  }

  ghost predicate NoncesBounded(ds: Deliveries, sequences: map<(Owner, Hash), nat>) {
    && (forall lane {:trigger sequences[lane]} :: lane in sequences ==> sequences[lane] <= MAX_NONCE)
    && (forall d {:trigger ds[d]} :: d in ds ==> WithinSequence(ds[d], sequences))
  }

  ghost predicate NoncesIncrease(ds: Deliveries) {
    forall d, e {:trigger ds[d], ds[e]} ::
      d in ds && e in ds && Lane(ds[d]) == Lane(ds[e]) && ds[d].seqNo < ds[e].seqNo ==> ds[d].nonce < ds[e].nonce
  }

  ghost predicate BroadcastIsOldest(ds: Deliveries) {
    forall d, e {:trigger ds[d], ds[e]} ::
      d in ds && e in ds && ds[d].owner == ds[e].owner && ds[d].status.Broadcast? && Open(ds[e])
      ==> ds[d].seqNo <= ds[e].seqNo
  }

  ghost predicate DeliveriesInv(ds: Deliveries, sequences: map<(Owner, Hash), nat>, next: nat) {
    && OneDeliveryPerJob(ds) && CreationOrder(ds, next)
    && NoncesBounded(ds, sequences) && NoncesIncrease(ds) && BroadcastIsOldest(ds)
  }

  // ---- calls to the broadcaster ----------------------------------------------------------

  ghost predicate CallRefers(c: Call, ds: Deliveries) {
    && c.delivery in ds && c.owner == ds[c.delivery].owner
    && c.strategy == ds[c.delivery].origin.strategy && c.nonce == ds[c.delivery].nonce
    && (ds[c.delivery].status.Pending? ==> DefinitelyNotSent(c))
  }

  ghost predicate CallsRefer(calls: seq<Call>, ds: Deliveries) {
    forall i {:trigger calls[i]} :: 0 <= i < |calls| ==> CallRefers(calls[i], ds)
  }

  // Everything older than a report that was handed over is closed for good.
  ghost predicate OlderAreClosed(calls: seq<Call>, ds: Deliveries) {
    forall i, d {:trigger calls[i], ds[d]} ::
      0 <= i < |calls| && d in ds && calls[i].delivery in ds && ds[d].owner == calls[i].owner
      && ds[d].seqNo < ds[calls[i].delivery].seqNo
      ==> !Open(ds[d])
  }

  ghost predicate CallsInOrder(calls: seq<Call>, ds: Deliveries) {
    forall i, k {:trigger calls[i], calls[k]} ::
      0 <= i < k < |calls| && calls[i].delivery in ds && calls[k].delivery in ds && calls[i].owner == calls[k].owner
      ==> ds[calls[i].delivery].seqNo <= ds[calls[k].delivery].seqNo
  }

  ghost predicate OneEffectiveCall(calls: seq<Call>) {
    forall i, k {:trigger calls[i], calls[k]} ::
      0 <= i < k < |calls| && calls[i].delivery == calls[k].delivery
      ==> DefinitelyNotSent(calls[i]) || DefinitelyNotSent(calls[k])
  }

  ghost predicate CallsInv(calls: seq<Call>, ds: Deliveries) {
    CallsRefer(calls, ds) && OlderAreClosed(calls, ds) && CallsInOrder(calls, ds) && OneEffectiveCall(calls)
  }

  // ---- change-only reports ---------------------------------------------------------------

  ghost predicate Covers(last: Option<LastReport>, d: Delivery) {
    last.Some? && d.nonce <= last.value.nonce && (d.nonce == last.value.nonce ==> d.hash == last.value.hash)
  }

  ghost predicate LastIsLatest(ds: Deliveries, subs: Subs) {
    forall d {:trigger ds[d]} :: d in ds ==> ds[d].sub in subs && Covers(subs[ds[d].sub].last, ds[d])
  }

  ghost predicate IsReport(ds: Deliveries, d: Id, sub: Id, nonce: nat) {
    d in ds && ds[d].sub == sub && ds[d].nonce == nonce
  }

  ghost predicate HasReport(ds: Deliveries, sub: Id, nonce: nat) {
    exists d :: IsReport(ds, d, sub, nonce)
  }

  ghost predicate LastIsDelivered(ds: Deliveries, subs: Subs) {
    forall i {:trigger subs[i]} :: i in subs && subs[i].last.Some? ==> HasReport(ds, i, subs[i].last.value.nonce)
  }

  // No other report of this subscription was issued between `d` and `e`.
  ghost predicate Adjacent(ds: Deliveries, d: Id, e: Id)
    requires d in ds && e in ds
  {
    forall f {:trigger ds[f]} :: f in ds && ds[f].sub == ds[d].sub
                                 ==> ds[f].nonce <= ds[d].nonce || ds[e].nonce <= ds[f].nonce
  }

  // `e` is the next report of the same subscription after `d`.
  ghost predicate Follows(ds: Deliveries, d: Id, e: Id) {
    d in ds && e in ds && ds[d].sub == ds[e].sub && ds[d].nonce < ds[e].nonce && Adjacent(ds, d, e)
  }

  ghost predicate RepeatsAreJustified(ds: Deliveries) {
    forall d, e {:trigger Follows(ds, d, e)} ::
      Follows(ds, d, e) && ds[d].hash == ds[e].hash
      ==> ds[d].status.Failed? || (ds[d].status.Accepted? && ds[e].origin.chainChanged)
  }

  ghost predicate ReportsInv(ds: Deliveries, subs: Subs) {
    LastIsLatest(ds, subs) && LastIsDelivered(ds, subs) && RepeatsAreJustified(ds)
  }

  // ---- all together ----------------------------------------------------------------------

  ghost predicate SubsInv(subs: Subs, artifacts: map<Id, Artifact>, drafts: map<Id, Draft>) {
    SubsRefer(subs, artifacts, drafts) && OneSelection(subs) && CurrentRevision(subs, drafts)
  }

  ghost predicate JobsInv(jobs: Jobs, subs: Subs, inbox: Inbox, now: nat) {
    JobsRefer(jobs, subs, inbox) && WorkIsWanted(jobs, subs) && ReorgReachesJobs(jobs, inbox) && OneLiveJob(jobs)
        && OneLease(jobs, now)
  }

  ghost predicate Inv(s: Db) {
    && SubsInv(s.subs, s.artifacts, s.drafts)
    && JobsInv(s.jobs, s.subs, s.inbox, s.clock)
    && DeliveriesRefer(s.deliveries, s.subs, s.jobs, s.artifacts)
    && DeliveriesInv(s.deliveries, s.sequences, s.nextSeq)
    && CallsInv(s.calls, s.deliveries)
    && ReportsInv(s.deliveries, s.subs)
  }

  // ---- steps that issue no report and make no call -------------------------------------------

  // A closed row never changes again; an open row may close; nothing falls back to Pending.
  ghost predicate Advanced(d: Delivery, e: Delivery) {
    && e == d.(status := e.status, attempts := e.attempts, nextAttemptAt := e.nextAttemptAt)
    && (e.status == d.status || (d.status.Pending? && e.status.Failed?)
       || (d.status.Broadcast? && (e.status.Accepted? || e.status.Failed?)))
  }

  ghost predicate DeliveriesAdvance(ds: Deliveries, es: Deliveries) {
    es.Keys == ds.Keys && forall d {:trigger ds[d]} {:trigger es[d]} :: d in ds ==> Advanced(ds[d], es[d])
  }

  lemma AdvanceKeepsNonces(ds: Deliveries, es: Deliveries, sequences: map<(Owner, Hash), nat>)
    requires NoncesBounded(ds, sequences) && NoncesIncrease(ds) && DeliveriesAdvance(ds, es)
    ensures NoncesBounded(es, sequences) && NoncesIncrease(es)
  {
  }

  lemma AdvanceKeepsOrder(ds: Deliveries, es: Deliveries, next: nat)
    requires OneDeliveryPerJob(ds) && CreationOrder(ds, next) && BroadcastIsOldest(ds) && DeliveriesAdvance(ds, es)
    ensures OneDeliveryPerJob(es) && CreationOrder(es, next) && BroadcastIsOldest(es)
  {
  }

  lemma AdvanceKeepsCalls(calls: seq<Call>, ds: Deliveries, es: Deliveries)
    requires CallsInv(calls, ds) && DeliveriesAdvance(ds, es)
    ensures CallsInv(calls, es)
  {
  }

  // Subscriptions keep everything but their state.
  ghost predicate SubsKept(subs: Subs, after: Subs) {
    && after.Keys == subs.Keys
    && forall i {:trigger subs[i]} {:trigger after[i]} ::
         i in subs ==> after[i] == subs[i].(state := after[i].state)
  }

  lemma AdvanceKeepsReports(ds: Deliveries, es: Deliveries, subs: Subs, after: Subs)
    requires ReportsInv(ds, subs) && DeliveriesAdvance(ds, es) && SubsKept(subs, after)
    ensures ReportsInv(es, after)
  {
    forall d, e | Follows(es, d, e) ensures Follows(ds, d, e) {
      assert Adjacent(es, d, e) && Advanced(ds[d], es[d]) && Advanced(ds[e], es[e]);
    }
    forall i | i in after && after[i].last.Some? ensures HasReport(es, i, after[i].last.value.nonce) {
      assert HasReport(ds, i, subs[i].last.value.nonce);
      var d :| IsReport(ds, d, i, subs[i].last.value.nonce);
      assert IsReport(es, d, i, after[i].last.value.nonce);
    }
  }

  lemma AdvanceKeeps(s: Db, es: Deliveries, after: Subs)
    requires Inv(s) && DeliveriesAdvance(s.deliveries, es) && SubsKept(s.subs, after)
    ensures DeliveriesInv(es, s.sequences, s.nextSeq) && CallsInv(s.calls, es) && ReportsInv(es, after)
  {
    hide SubsInv, JobsInv, DeliveriesRefer;
    AdvanceKeepsNonces(s.deliveries, es, s.sequences);
    AdvanceKeepsOrder(s.deliveries, es, s.nextSeq);
    AdvanceKeepsCalls(s.calls, s.deliveries, es);
    AdvanceKeepsReports(s.deliveries, es, s.subs, after);
  }

  // ---- steps that only end, requeue or mark jobs ----------------------------------------------

  ghost predicate JobAdvanced(a: Job, b: Job) {
    && b == a.(state := b.state, lease := b.lease, availableAt := b.availableAt, reorged := b.reorged)
    && (a.reorged ==> b.reorged) && (a.state.Succeeded? ==> b.state.Succeeded?)
    && (Unfinished(b) ==> Unfinished(a) && !b.reorged)
    && (b.state.Running? <==> b.lease.Some?) && (b.lease.Some? ==> b.lease == a.lease)
  }

  ghost predicate JobsAdvance(jobs: Jobs, after: Jobs) {
    && after.Keys == jobs.Keys
    && forall j {:trigger jobs[j]} {:trigger after[j]} :: j in jobs ==> JobAdvanced(jobs[j], after[j])
  }

  lemma JobsAdvanceKeeps(jobs: Jobs, after: Jobs, subs: Subs, inbox: Inbox, now: nat)
    requires JobsInv(jobs, subs, inbox, now) && JobsAdvance(jobs, after)
    ensures JobsInv(after, subs, inbox, now)
  {
  }

  lemma DeliveriesStillRefer(ds: Deliveries, es: Deliveries, subs: Subs, held: Subs, jobs: Jobs, after: Jobs,
      artifacts: map<Id, Artifact>)
    requires DeliveriesRefer(ds, subs, jobs, artifacts)
    requires DeliveriesAdvance(ds, es) && SubsKept(subs, held) && JobsAdvance(jobs, after)
    ensures DeliveriesRefer(es, held, after, artifacts)
  {
    forall d | d in es ensures DeliveryRefers(es[d], held, after, artifacts) {
      assert DeliveryRefers(ds[d], subs, jobs, artifacts) && Advanced(ds[d], es[d]);
      assert JobAdvanced(jobs[ds[d].job], after[ds[d].job]);
    }
  }
}
