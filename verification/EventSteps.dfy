// Every transaction of the event service as one atomic step over the tables, with the
// answers of the outside world (clock, evaluator, broadcaster, reconciler, fresh ids and
// the reads of consents and bindings) as parameters. A step whose transaction throws rolls
// back, so it leaves the tables as they were.
module EventSteps {
  import opened Wrappers
  import opened EventTables

  // What one transaction reads from tables this model does not hold.
  datatype Reads = Reads(artifactCurrent: bool, consent: Option<Id>, bindingNonce: Option<nat>, bindingMatches: bool)

  datatype EvaluationStatus = Unchanged | Changed | PausedResult | FailedResult

  datatype Evaluation = Evaluation(status: EvaluationStatus, report: Option<Hash>, nonceFloor: Option<nat>,
      chainChanged: bool)

  datatype Verdict = Landed | NotBroadcast(reevaluate: bool) | Reverted

  // ---- cancelUnsentEventWork -----------------------------------------------------------

  function CancelledJob(j: Job, ids: set<Id>): Job {
    if j.sub in ids && Unfinished(j) then j.(state := Cancelled, lease := None) else j
  }

  function CancelledDelivery(d: Delivery, ids: set<Id>): Delivery {
    if d.sub in ids && d.status.Pending? then d.(status := Failed) else d
  }

  function CancelledJobs(jobs: map<Id, Job>, ids: set<Id>): map<Id, Job> {
    map j | j in jobs :: CancelledJob(jobs[j], ids)
  }

  function CancelledDeliveries(ds: map<Id, Delivery>, ids: set<Id>): map<Id, Delivery> {
    map d | d in ds :: CancelledDelivery(ds[d], ids)
  }

  function CancelUnsent(s: Db, ids: set<Id>): (t: Db)
    ensures t == s.(jobs := t.jobs, deliveries := t.deliveries)
  {
    s.(jobs := CancelledJobs(s.jobs, ids), deliveries := CancelledDeliveries(s.deliveries, ids))
  }

  // ---- subscription state --------------------------------------------------------------

  function WithStates(subs: map<Id, Subscription>, ids: set<Id>, state: SubscriptionState): map<Id, Subscription> {
    map i | i in subs :: if i in ids then subs[i].(state := state) else subs[i]
  }

  function Halt(s: Db, ids: set<Id>, state: SubscriptionState): (t: Db)
    ensures t == s.(jobs := t.jobs, deliveries := t.deliveries, subs := t.subs)
  {
    CancelUnsent(s, ids).(subs := WithStates(s.subs, ids, state))
  }

  // ---- drafts and artifacts ------------------------------------------------------------

  function CreateDraft(s: Db, id: Id, owner: Owner, ownedMaker: bool, template: Option<Id>): (t: Db)
    ensures t == s.(drafts := t.drafts)
  {
    if id in s.drafts then s else s.(drafts := s.drafts[id := Draft(owner, 1, ownedMaker, template)])
  }

  function PublishArtifact(s: Db, id: Id, draft: Id, strategy: Hash, guarded: bool): (t: Db)
    ensures t == s.(artifacts := t.artifacts)
  {
    if id in s.artifacts || draft !in s.drafts then s
    else s.(artifacts := s.artifacts[id := Artifact(s.drafts[draft].owner, draft, s.drafts[draft].revision, strategy,
        guarded)])
  }

  function LiveOf(s: Db, draft: Id, owner: Owner): set<Id> {
    set i | i in s.subs && s.subs[i].draft == draft && s.subs[i].owner == owner && !s.subs[i].state.Stopped?
  }

  // persistDraftChange for a changed draft.
  function EditDraft(s: Db, owner: Owner, draft: Id, expected: nat): (t: Db)
    ensures t == s.(drafts := t.drafts, jobs := t.jobs, deliveries := t.deliveries, subs := t.subs)
  {
    if draft !in s.drafts || s.drafts[draft].owner != owner || s.drafts[draft].revision != expected then s
    else
      var t := Halt(s, LiveOf(s, draft, owner), Stopped);
      t.(drafts := t.drafts[draft := t.drafts[draft].(revision := expected + 1)])
  }

  function ConsentedBy(s: Db, owner: Owner, consent: Id): set<Id> {
    set i | i in s.subs && s.subs[i].owner == owner && s.subs[i].consent == consent && !s.subs[i].state.Stopped?
  }

  function RevokeConsent(s: Db, owner: Owner, consent: Id): (t: Db)
    ensures t == s.(jobs := t.jobs, deliveries := t.deliveries, subs := t.subs)
  {
    Halt(s, ConsentedBy(s, owner, consent), Stopped)
  }

  function PinnedTo(s: Db, template: Id): set<Id> {
    set i | i in s.subs && s.subs[i].state.Enabled? && s.subs[i].draft in s.drafts &&
            s.drafts[s.subs[i].draft].template == Some(template)
  }

  function WithdrawTemplate(s: Db, template: Id): (t: Db)
    ensures t == s.(jobs := t.jobs, deliveries := t.deliveries, subs := t.subs)
  {
    Halt(s, PinnedTo(s, template), Paused)
  }

  // ---- new work ------------------------------------------------------------------------

  function NewJob(s: Db, sub: Id, key: EventKey, availableAt: nat, retry: nat): Job
    requires sub in s.subs
  {
    Job(sub, s.subs[sub].owner, s.subs[sub].generation, key, Waiting, 0, None, availableAt, false, retry)
  }

  // The unique index on canonical jobs: one live job per (subscription, generation, event).
  predicate HasLiveJob(s: Db, sub: Id, key: EventKey) {
    exists j :: j in s.jobs && s.jobs[j].sub == sub && s.jobs[j].key == key && !s.jobs[j].reorged
  }

  // ---- enable --------------------------------------------------------------------------

  function EnabledOf(s: Db, owner: Owner): set<Id> {
    set i | i in s.subs && s.subs[i].owner == owner && s.subs[i].state.Enabled?
  }

  predicate IsNextGeneration(s: Db, owner: Owner, draft: Id, generation: nat) {
    && generation > 0
    && (forall i :: i in s.subs && s.subs[i].owner == owner && s.subs[i].draft == draft
                    ==> s.subs[i].generation < generation)
    && (generation == 1 || exists i :: i in s.subs && s.subs[i].owner == owner && s.subs[i].draft == draft
                                       && s.subs[i].generation == generation - 1)
  }

  datatype EnableRequest = EnableRequest(draft: Id, expected: nat, artifact: Id, consent: Id, source: string)

  // The error code of the first check that fails, in the order of the code.
  function EnableRefusal(s: Db, owner: Owner, q: EnableRequest, seen: Reads): Option<string> {
    if q.draft !in s.drafts || s.drafts[q.draft].owner != owner then Some("not-found")
    else if s.drafts[q.draft].revision != q.expected then Some("draft-changed")
    else if !s.drafts[q.draft].ownedMaker then Some("wallet-ownership-required")
    else if q.artifact !in s.artifacts || s.artifacts[q.artifact].owner != owner then Some("not-found")
    else if !seen.artifactCurrent || s.artifacts[q.artifact].draft != q.draft
        || s.artifacts[q.artifact].revision != q.expected then Some("artifact-stale")
    else if seen.consent != Some(q.consent) then Some("automation-consent-required")
    else if seen.bindingNonce.None? && s.drafts[q.draft].template.None? then Some("authorization-binding-required")
    else if seen.bindingNonce.Some? && !seen.bindingMatches then Some("authorization-binding-integrity")
    else None
  }

  predicate AlreadyEnabled(s: Db, owner: Owner, q: EnableRequest) {
    exists i :: i in s.subs && IsSelection(s.subs[i], owner, q)
  }

  predicate IsSelection(sub: Subscription, owner: Owner, q: EnableRequest) {
    && sub.owner == owner && sub.draft == q.draft && sub.revision == q.expected && sub.artifact == q.artifact
    && sub.consent == q.consent && sub.source == q.source && sub.state.Enabled?
  }

  function ActivationKey(q: EnableRequest, sub: Id): EventKey {
    EventKey(if q.source == WILDCARD then ACTIVATION_SOURCE else q.source, sub + "-activation")
  }

  // `sub` and `job` are the random ids of the transaction; a primary key that is taken throws.
  predicate EnableTakesEffect(s: Db, owner: Owner, q: EnableRequest, seen: Reads, sub: Id, job: Id, generation: nat) {
    && EnableRefusal(s, owner, q, seen).None?
    && !AlreadyEnabled(s, owner, q)
    && IsNextGeneration(s, owner, q.draft, generation)
    && sub !in s.subs
    && (seen.bindingNonce.None? ==> job !in s.jobs && ActivationKey(q, sub) !in s.inbox)
  }

  function Enable(s: Db, owner: Owner, q: EnableRequest, seen: Reads, sub: Id, job: Id, generation: nat): (t: Db)
    ensures t == s.(jobs := t.jobs, deliveries := t.deliveries, subs := t.subs, inbox := t.inbox)
  {
    if !EnableTakesEffect(s, owner, q, seen, sub, job, generation) then s
    else
      var t := Halt(s, EnabledOf(s, owner), Stopped);
      var u := t.(subs := t.subs[sub := Subscription(owner, q.draft, q.expected, q.artifact, q.consent, q.source,
          generation, Enabled, None)]);
      if seen.bindingNonce.Some? then u
      else
        var key := ActivationKey(q, sub);
        u.(inbox := u.inbox[key := InboxRow("", true)], jobs := u.jobs[job := NewJob(u, sub, key, s.clock, 0)])
  }

  // ---- stop ----------------------------------------------------------------------------

  function Stop(s: Db, owner: Owner, sub: Id): (t: Db)
    ensures t == s.(jobs := t.jobs, deliveries := t.deliveries, subs := t.subs)
  {
    if sub !in s.subs || s.subs[sub].owner != owner || s.subs[sub].state.Stopped? then s
    else Halt(s, {sub}, Stopped)
  }

  // ---- ingest --------------------------------------------------------------------------

  // A subscription returned by the query, with the random id of the job it may get.
  datatype Row = Row(sub: Id, job: Id)

  // `recipients` are the subscriptions whose consent is live and whose instance the event concerns.
  function Subscribers(s: Db, source: string, recipients: set<Id>): set<Id> {
    set i | i in s.subs && i in recipients && s.subs[i].state.Enabled? && SourceMatches(s.subs[i].source, source)
  }

  ghost predicate Keeps(jobs: map<Id, Job>, after: map<Id, Job>) {
    forall j {:trigger after[j]} {:trigger jobs[j]} :: j in jobs ==> j in after && after[j] == jobs[j]
  }

  // Rows come back in no particular order; each is skipped if its job exists already. A random
  // id that is taken violates the primary key, and the whole transaction rolls back.
  function QueueJobs(s: Db, key: EventKey, rows: seq<Row>): (r: Option<Db>)
    ensures r.Some? ==> r.value == s.(jobs := r.value.jobs) && Keeps(s.jobs, r.value.jobs)
    decreases |rows|
  {
    if rows == [] then Some(s)
    else if rows[0].sub !in s.subs || HasLiveJob(s, rows[0].sub, key) then QueueJobs(s, key, rows[1..])
    else if rows[0].job in s.jobs then None
    else
      var t := s.(jobs := s.jobs[rows[0].job := NewJob(s, rows[0].sub, key, s.clock, 0)]);
      assert Keeps(s.jobs, t.jobs);
      QueueJobs(t, key, rows[1..])
  }

  // A row that is present and canonical makes the insert a no-op.
  predicate IsDuplicate(s: Db, key: EventKey) {
    key in s.inbox && s.inbox[key].canonical
  }

  predicate Lists(rows: seq<Row>, subs: set<Id>) {
    (forall i :: 0 <= i < |rows| ==> rows[i].sub in subs)
        && (forall i :: i in subs ==> exists k :: 0 <= k < |rows| && rows[k].sub == i)
  }

  function Received(s: Db, key: EventKey, body: string): Db {
    s.(inbox := s.inbox[key := InboxRow(body, true)])
  }

  function Ingest(s: Db, key: EventKey, body: string, recipients: set<Id>, rows: seq<Row>): (t: Db)
    ensures t == s.(inbox := t.inbox, jobs := t.jobs)
  {
    if IsDuplicate(s, key) || !Lists(rows, Subscribers(s, key.source, recipients)) then s
    else
      var queued := QueueJobs(Received(s, key, body), key, rows);
      if queued.None? then s else queued.value
  }

  // ---- scheduleHealthEvaluations ---------------------------------------------------------

  // A subscription with a freshly read outage state, and the random ids of its transition.
  datatype Probe = Probe(sub: Id, pauseRequired: bool, event: Id, job: Id)

  predicate HealthTurned(s: Db, p: Probe) {
    if p.sub in s.health then s.health[p.sub] != p.pauseRequired else p.pauseRequired
  }

  function QueueHealth(s: Db, probes: seq<Probe>): (r: Option<Db>)
    ensures r.Some? ==> r.value == s.(health := r.value.health, inbox := r.value.inbox, jobs := r.value.jobs)
                        && Keeps(s.jobs, r.value.jobs)
    decreases |probes|
  {
    if probes == [] then Some(s)
    else
      var p, t := probes[0], s.(health := s.health[probes[0].sub := probes[0].pauseRequired]);
      var key := EventKey(HEALTH_SOURCE, p.event);
      if p.sub !in s.subs || !s.subs[p.sub].state.Enabled? then QueueHealth(s, probes[1..])
      else if !HealthTurned(s, p) then QueueHealth(t, probes[1..])
      else if key in s.inbox || p.job in s.jobs then None
      else
        var u := t.(inbox := t.inbox[key := InboxRow("", true)],
            jobs := t.jobs[p.job := NewJob(t, p.sub, key, t.clock, 0)]);
        assert Keeps(s.jobs, u.jobs);
        QueueHealth(u, probes[1..])
  }

  function ScheduleHealth(s: Db, probes: seq<Probe>): (t: Db)
    ensures t == s.(health := t.health, inbox := t.inbox, jobs := t.jobs)
  {
    var queued := QueueHealth(s, probes);
    if queued.None? then s else queued.value
  }

  // ---- claimEvaluation -----------------------------------------------------------------

  predicate Claimable(s: Db, job: Id) {
    && job in s.jobs
    && var j := s.jobs[job];
    && j.sub in s.subs && s.subs[j.sub].state.Enabled? && !j.reorged && j.availableAt <= s.clock
    && (j.state.Waiting? || (j.state.Running? && j.lease.Some? && j.lease.value.until < s.clock))
    && (forall k :: k in s.jobs && s.jobs[k].sub == j.sub && s.jobs[k].owner == j.owner
                    ==> !HoldsLease(s.jobs[k], s.clock))
  }

  // SKIP LOCKED lets concurrent workers pass over rows, so any claimable job may be taken.
  function ClaimEvaluation(s: Db, job: Id, token: Id, leaseMs: nat): (t: Db)
    ensures t == s.(jobs := t.jobs)
  {
    if !Claimable(s, job) then s
    else
      s.(jobs := s.jobs[job := s.jobs[job].(state := Running, lease := Some(Lease(token, s.clock + leaseMs)),
          attempts := s.jobs[job].attempts + 1)])
  }

  // ---- evaluate ------------------------------------------------------------------------

  predicate EventStands(s: Db, job: Id) {
    job in s.jobs && s.jobs[job].key in s.inbox && s.inbox[s.jobs[job].key].canonical
  }

  predicate HoldsToken(s: Db, job: Id, token: Id) {
    job in s.jobs && !s.jobs[job].reorged && HoldsLease(s.jobs[job], s.clock) && s.jobs[job].lease.value.token == token
  }

  // Malformed evaluator answers count as failures.
  function Checked(e: Evaluation): Evaluation {
    var a := if e.nonceFloor.Some? && e.nonceFloor.value > MAX_NONCE then Evaluation(FailedResult, None, None, false)
        else e;
    if a.status.Changed? && a.report.None? then Evaluation(FailedResult, None, None, false) else a
  }

  // The same terms again are a change only after a failure, or once accepted if the chain moved.
  predicate Suppressed(s: Db, sub: Id, e: Evaluation)
    requires sub in s.subs
  {
    && e.status.Changed? && s.subs[sub].last.Some? && e.report == Some(s.subs[sub].last.value.hash)
    && exists d :: d in s.deliveries && s.deliveries[d].sub == sub
                   && s.deliveries[d].nonce == s.subs[sub].last.value.nonce
                   && s.deliveries[d].status != Failed && !(e.chainChanged && s.deliveries[d].status.Accepted?)
  }

  function Decided(s: Db, sub: Id, e: Evaluation): (r: Evaluation)
    requires sub in s.subs
    ensures r.status.Changed? ==> r.report.Some?
  {
    var a := Checked(e);
    if Suppressed(s, sub, a) then a.(status := Unchanged) else a
  }

  function Max(a: nat, b: nat): nat {
    if a > b then a else b
  }

  function Floor(e: Evaluation, binding: Option<nat>): nat {
    var reported := if e.nonceFloor.Some? then e.nonceFloor.value else 0;
    var bound := if binding.Some? then binding.value else 0;
    if reported > bound then reported else bound
  }

  // INSERT ... SELECT floor+1 WHERE floor < max ON CONFLICT DO UPDATE SET greatest(next, floor)+1 WHERE next < max.
  function NextNonce(s: Db, lane: (Owner, Hash), floor: nat): Option<nat> {
    if floor >= MAX_NONCE then None
    else if lane !in s.sequences then Some(floor + 1)
    else if s.sequences[lane] >= MAX_NONCE then None
    else Some(Max(s.sequences[lane], floor) + 1)
  }

  ghost predicate KeepsOthers(jobs: map<Id, Job>, after: map<Id, Job>, job: Id) {
    forall j {:trigger after[j]} {:trigger jobs[j]} :: j in jobs && j != job ==> j in after && after[j] == jobs[j]
  }

  function CloseJob(s: Db, job: Id, state: JobState): (t: Db)
    requires job in s.jobs
    ensures t == s.(jobs := t.jobs) && KeepsOthers(s.jobs, t.jobs, job)
  {
    s.(jobs := s.jobs[job := s.jobs[job].(state := state, lease := None)])
  }

  function Issue(s: Db, job: Id, e: Evaluation, binding: Option<nat>, delivery: Id, nonce: nat): (t: Db)
    requires job in s.jobs && s.jobs[job].sub in s.subs && s.subs[s.jobs[job].sub].artifact in s.artifacts
             && e.report.Some?
    ensures t.calls == s.calls && t.inbox == s.inbox && KeepsOthers(s.jobs, t.jobs, job)
  {
    var id := s.jobs[job].sub;
    var sub := s.subs[id];
    var lane := (sub.owner, s.artifacts[sub.artifact].strategy);
    var bound := if binding.Some? then binding.value else 0;
    var row := Delivery(id, sub.owner, sub.generation, job, e.report.value, nonce, s.nextSeq, Pending, 0, s.clock,
                        Origin(lane.1, if e.nonceFloor.Some? then e.nonceFloor.value else 0, bound, e.chainChanged));
    CloseJob(s, job, Succeeded).(
      sequences := s.sequences[lane := nonce],
      deliveries := s.deliveries[delivery := row],
      nextSeq := s.nextSeq + 1,
      subs := s.subs[id := sub.(last := Some(LastReport(e.report.value, nonce)))])
  }

  function RetryLater(s: Db, job: Id): (t: Db)
    requires job in s.jobs
    ensures t == s.(jobs := t.jobs) && KeepsOthers(s.jobs, t.jobs, job)
  {
    s.(jobs := s.jobs[job := s.jobs[job].(state := Waiting, lease := None,
        availableAt := s.clock + 2000 * s.jobs[job].attempts)])
  }

  // The completing transaction of evaluate.
  function CompleteEvaluation(s: Db, job: Id, token: Id, e: Evaluation, binding: Option<nat>, delivery: Id): Db {
    if !EventStands(s, job) || !HoldsToken(s, job, token) || s.jobs[job].sub !in s.subs then s
    else
      var id := s.jobs[job].sub;
      if !s.subs[id].state.Enabled? then CloseJob(s, job, Cancelled)
      else
        var a := Decided(s, id, e);
        if a.status.Changed? then
          if s.subs[id].artifact !in s.artifacts || (binding.None? && !s.artifacts[s.subs[id].artifact].guarded) then s
          else
            var nonce := NextNonce(s, (s.subs[id].owner, s.artifacts[s.subs[id].artifact].strategy), Floor(a, binding));
            if nonce.None? then CloseJob(s, job, Errored)
            else if delivery in s.deliveries then s
            else Issue(s, job, a, binding, delivery, nonce.value)
        else if !a.status.FailedResult? then CloseJob(s, job, Succeeded)
        else if s.jobs[job].attempts >= 3 then CloseJob(s, job, Errored)
        else RetryLater(s, job)
  }

  // The nonce a completing transaction allocates, if it gets as far as issuing a report.
  function Allocated(s: Db, job: Id, token: Id, e: Evaluation, binding: Option<nat>, delivery: Id): Option<nat> {
    if EventStands(s, job) && HoldsToken(s, job, token) && delivery !in s.deliveries
       && s.jobs[job].sub in s.subs && s.subs[s.jobs[job].sub].state.Enabled?
          && Decided(s, s.jobs[job].sub, e).status.Changed?
       && s.subs[s.jobs[job].sub].artifact in s.artifacts
          && (binding.Some? || s.artifacts[s.subs[s.jobs[job].sub].artifact].guarded)
    then NextNonce(s, (s.subs[s.jobs[job].sub].owner, s.artifacts[s.subs[s.jobs[job].sub].artifact].strategy),
        Floor(Decided(s, s.jobs[job].sub, e), binding))
    else None
  }

  // ---- deliver -------------------------------------------------------------------------

  predicate FirstInLane(s: Db, delivery: Id)
    requires delivery in s.deliveries
  {
    forall e :: e in s.deliveries && s.deliveries[e].owner == s.deliveries[delivery].owner && Open(s.deliveries[e])
                ==> s.deliveries[e].seqNo >= s.deliveries[delivery].seqNo
  }

  predicate Ready(s: Db, sub: Id, seen: Reads) {
    && sub in s.subs && s.subs[sub].state.Enabled?
    && s.subs[sub].draft in s.drafts && s.drafts[s.subs[sub].draft].revision == s.subs[sub].revision
    && seen.artifactCurrent && seen.consent == Some(s.subs[sub].consent)
    && (if seen.bindingNonce.None? then s.drafts[s.subs[sub].draft].template.Some? else seen.bindingMatches)
  }

  function WithStatus(s: Db, delivery: Id, status: DeliveryStatus): (t: Db)
    requires delivery in s.deliveries
    ensures t == s.(deliveries := t.deliveries)
  {
    s.(deliveries := s.deliveries[delivery := s.deliveries[delivery].(status := status)])
  }

  predicate Claims(s: Db, delivery: Id) {
    && delivery in s.deliveries && s.deliveries[delivery].status.Pending?
    && s.deliveries[delivery].nextAttemptAt <= s.clock && FirstInLane(s, delivery)
  }

  // The claiming transaction of deliver. A successful claim hands the report to the broadcaster.
  function ClaimDelivery(s: Db, delivery: Id, seen: Reads): (t: Db)
    ensures t == s.(deliveries := t.deliveries, calls := t.calls)
  {
    if delivery !in s.deliveries then s
    else
      var d := s.deliveries[delivery];
      if !EventStands(s, d.job) || s.jobs[d.job].reorged then
        if d.status.Pending? then WithStatus(s, delivery, Failed) else s
      else if !Claims(s, delivery) then s
      else if !Ready(s, d.sub, seen) then
        s.(deliveries := s.deliveries[delivery := d.(status := Failed, attempts := d.attempts + 1)])
      else
        s.(deliveries := s.deliveries[delivery := d.(status := Broadcast, attempts := d.attempts + 1)],
           calls := s.calls + [Call(delivery, d.owner, d.origin.strategy, d.nonce, d.attempts + 1, Flying)])
  }

  function WithPhase(s: Db, i: nat, phase: CallPhase): (t: Db)
    requires i < |s.calls|
    ensures t == s.(calls := t.calls)
  {
    s.(calls := s.calls[i := s.calls[i].(phase := phase)])
  }

  // The broadcaster answers, or the request fails in some way the worker can classify.
  function CallReturns(s: Db, i: nat, end: CallEnd): (t: Db)
    ensures t == s.(calls := t.calls)
  {
    if i < |s.calls| && s.calls[i].phase.Flying? then WithPhase(s, i, Returned(end)) else s
  }

  // The worker stops before it has recorded the outcome of its call.
  function CrashWorker(s: Db, i: nat): (t: Db)
    ensures t == s.(calls := t.calls)
  {
    if i < |s.calls| && !s.calls[i].phase.Settled? then WithPhase(s, i, Lost) else s
  }

  function StatusAfter(end: CallEnd, attempts: nat): DeliveryStatus {
    match end
    case Receipt => Accepted
    case Deferred => Pending
    case NotSent => if attempts < 3 then Pending else Failed
    case Unknown => Broadcast
  }

  // acceptReceipt after a receipt, the error update otherwise; both only touch a broadcast row.
  function AfterCall(d: Delivery, end: CallEnd, attempts: nat, now: nat): Delivery {
    if !d.status.Broadcast? then d
    else
      var status := StatusAfter(end, attempts);
      d.(status := status,
         attempts := if end.Deferred? && d.attempts > 0 then d.attempts - 1 else d.attempts,
         nextAttemptAt := if end.Receipt? then d.nextAttemptAt else if status.Pending? then now + 2000 * d.attempts
             else now)
  }

  function SettleCall(s: Db, i: nat): (t: Db)
    ensures t == s.(deliveries := t.deliveries, calls := t.calls)
  {
    if i < |s.calls| && s.calls[i].phase.Returned? && s.calls[i].delivery in s.deliveries then
      var c := s.calls[i];
      WithPhase(s, i, Settled(c.phase.end)).(
        deliveries := s.deliveries[c.delivery := AfterCall(s.deliveries[c.delivery], c.phase.end, c.attempts, s.clock)])
    else s
  }

  // ---- reconcile -----------------------------------------------------------------------

  function RetryAttempt(s: Db, job: Id): nat {
    if job in s.jobs && s.jobs[job].key.source == RETRY_SOURCE then s.jobs[job].retry + 1 else 1
  }

  predicate Reevaluates(s: Db, delivery: Id, verdict: Verdict, consent: Option<Id>)
    requires delivery in s.deliveries
  {
    var d := s.deliveries[delivery];
    && verdict == NotBroadcast(true) && d.sub in s.subs && s.subs[d.sub].state.Enabled?
    && consent == Some(s.subs[d.sub].consent) && RetryAttempt(s, d.job) <= 3
  }

  // What reconcile writes once the external reconciler has given its verdict.
  function Reconcile(s: Db, delivery: Id, verdict: Verdict, consent: Option<Id>, job: Id): (t: Db)
    ensures t == s.(deliveries := t.deliveries, inbox := t.inbox, jobs := t.jobs)
  {
    if delivery !in s.deliveries || !s.deliveries[delivery].status.Broadcast? then s
    else if verdict.Landed? then WithStatus(s, delivery, Accepted)
    else if !Reevaluates(s, delivery, verdict, consent) then WithStatus(s, delivery, Failed)
    else
      var d := s.deliveries[delivery];
      var key := EventKey(RETRY_SOURCE, delivery);
      if key in s.inbox || job in s.jobs then s
      else
        WithStatus(s, delivery, Failed).(
          inbox := s.inbox[key := InboxRow("", true)],
          jobs := s.jobs[job := NewJob(s, d.sub, key, s.clock + 5000, RetryAttempt(s, d.job))])
  }

  // ---- markReorg -----------------------------------------------------------------------

  function ReorgedJob(j: Job, key: EventKey): Job {
    if j.key != key || j.reorged then j
    else j.(reorged := true, state := if Unfinished(j) then Cancelled else j.state, lease := None)
  }

  function ReorgedDelivery(jobs: map<Id, Job>, d: Delivery, key: EventKey): Delivery {
    if d.job in jobs && jobs[d.job].key == key && d.status.Pending? then d.(status := Failed) else d
  }

  function ReorgedJobs(jobs: map<Id, Job>, key: EventKey): map<Id, Job> {
    map j | j in jobs :: ReorgedJob(jobs[j], key)
  }

  function ReorgedDeliveries(s: Db, key: EventKey): map<Id, Delivery> {
    map d | d in s.deliveries :: ReorgedDelivery(s.jobs, s.deliveries[d], key)
  }

  function MarkReorg(s: Db, key: EventKey): (t: Db)
    ensures t == s.(inbox := t.inbox, jobs := t.jobs, deliveries := t.deliveries)
  {
    if !IsDuplicate(s, key) then s
    else
      s.(inbox := s.inbox[key := s.inbox[key].(canonical := false)],
         jobs := ReorgedJobs(s.jobs, key),
         deliveries := ReorgedDeliveries(s, key))
  }
}
