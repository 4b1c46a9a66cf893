// The tables of the builder service that event delivery reads and writes, one map per
// table. A row keeps the columns that some statement of the service tests or computes with.
module EventTables {
  import opened Wrappers

  type Id = string
  type Owner = string
  type Hash = string

  // Report nonces are uint64 on chain and numeric(20,0) with this bound in the schema.
  const MAX_NONCE: nat := 18446744073709551615

  const WILDCARD: string := "*"
  const ACTIVATION_SOURCE: string := "builder.activation"
  const HEALTH_SOURCE: string := "builder.health"
  const RETRY_SOURCE: string := "builder.retry"

  datatype EventKey = EventKey(source: string, id: Id)

  datatype InboxRow = InboxRow(body: string, canonical: bool)

  datatype Draft = Draft(owner: Owner, revision: nat, ownedMaker: bool, template: Option<Id>)

  // Compiled artifacts are never updated; `guarded` says that the compiled parameters name a Guard.
  datatype Artifact = Artifact(owner: Owner, draft: Id, revision: nat, strategy: Hash, guarded: bool)

  datatype SubscriptionState = Enabled | Paused | Stopped

  datatype Subscription = Subscription(
    owner: Owner, draft: Id, revision: nat, artifact: Id, consent: Id, source: string,
    generation: nat, state: SubscriptionState, last: Option<LastReport>)

  // last_report_hash and last_report_nonce, always written together.
  datatype LastReport = LastReport(hash: Hash, nonce: nat)

  datatype JobState = Waiting | Running | Succeeded | Errored | Cancelled

  datatype Lease = Lease(token: Id, until: nat)

  datatype Job = Job(
    sub: Id, owner: Owner, generation: nat, key: EventKey, state: JobState, attempts: nat,
    lease: Option<Lease>, availableAt: nat, reorged: bool, retry: nat)

  datatype DeliveryStatus = Pending | Broadcast | Accepted | Failed

  // What the allocating transaction used. The service keeps the floor and the flag in the
  // job's result and reaches the strategy through the subscription's artifact.
  datatype Origin = Origin(strategy: Hash, floor: nat, bound: nat, chainChanged: bool)

  // `seqNo` is the creation order, (created_at, id) in the schema.
  datatype Delivery = Delivery(
    sub: Id, owner: Owner, generation: nat, job: Id, hash: Hash, nonce: nat, seqNo: nat,
    status: DeliveryStatus, attempts: nat, nextAttemptAt: nat, origin: Origin)

  // How a call to the external broadcaster ended, as far as its caller could tell.
  datatype CallEnd = Receipt | NotSent | Deferred | Unknown

  // A broadcaster call is worker-local: in flight, returned but not yet recorded in the
  // tables, recorded, or lost with the worker that made it.
  datatype CallPhase = Flying | Returned(end: CallEnd) | Settled(end: CallEnd) | Lost

  datatype Call = Call(delivery: Id, owner: Owner, strategy: Hash, nonce: nat, attempts: nat, phase: CallPhase)

  datatype Db = Db(
    clock: nat,
    drafts: map<Id, Draft>,
    artifacts: map<Id, Artifact>,
    subs: map<Id, Subscription>,
    inbox: map<EventKey, InboxRow>,
    jobs: map<Id, Job>,
    deliveries: map<Id, Delivery>,
    sequences: map<(Owner, Hash), nat>,
    health: map<Id, bool>,
    nextSeq: nat,
    calls: seq<Call>)

  function Init(): Db {
    Db(0, map[], map[], map[], map[], map[], map[], map[], map[], 0, [])
  }

  predicate Unfinished(j: Job) {
    j.state.Waiting? || j.state.Running?
  }

  predicate Open(d: Delivery) {
    d.status.Pending? || d.status.Broadcast?
  }

  predicate HoldsLease(j: Job, now: nat) {
    j.state.Running? && j.lease.Some? && j.lease.value.until > now
  }

  predicate SourceMatches(filter: string, source: string) {
    filter == WILDCARD || filter == source
  }

  // Only this outcome shows that the broadcaster was never reached.
  predicate DefinitelyNotSent(c: Call) {
    c.phase == Settled(NotSent) || c.phase == Settled(Deferred)
  }
}
