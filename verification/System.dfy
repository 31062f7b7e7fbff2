/** The whole running system: tables, any number of service calls and workers in
    flight, and a history of claims and settlements.  A step is one atomic
    database interaction, or a crash, or the start of something. */
module System {
  import opened Basics
  import opened Timestamps
  import opened Domain
  import opened Transactions
  import opened Queue
  import opened Calls
  import opened Invariants
  import opened Effects
  import opened Preservation

  /** A worker executes one round at a time: claim, handle, settle. */
  datatype Worker =
    | Resting
    | Holding(job: Job, at: Instant)
    | Handling(job: Job, at: Instant, call: Call)
    | Settling(job: Job, at: Instant, error: Option<Error>)
    | Crashed

  /** `due` is when the claimed job was due, `displaced` the lease that a takeover ended. */
  datatype Event =
    | ClaimEvent(job: Id, owner: Id, attempt: int, at: Instant, due: Instant, displaced: Option<Instant>)
    | SettleEvent(job: Id, owner: Id, attempt: int)

  datatype State = State(db: Db, calls: map<Id, Call>, workers: map<Id, Worker>, log: seq<Event>)

  datatype Step =
    | AddUser(user: Id)
    | Begin(call: Id, request: Request)
    | Proceed(call: Id, fault: Fault)
    | Drop(call: Id)
    | Claim(owner: Id, job: Id, now: Instant, lease: nat, fault: Fault)
    | Handle(owner: Id, env: Env, cleanup: Option<Error>)
    | HandlerStep(owner: Id, fault: Fault)
    | Settle(owner: Id, now: Instant, fault: Fault)
    | Crash(owner: Id)
    | Cancel(job: Id, now: Instant)

  const START := State(EMPTY, map[], map[], [])

  function WorkerOf(s: State, owner: Id): Worker { if owner in s.workers then s.workers[owner] else Resting }

  function WithWorker(s: State, owner: Id, w: Worker): State { s.(workers := s.workers[owner := w]) }

  function WithJobs(s: State, jobs: Jobs): State { s.(db := s.db.(jobs := jobs)) }

  /** The aggregate a payload names, or the one in the row. */
  function Target(payload: map<string, string>, key: string, aggregate: Id): Id {
    if key in payload && payload[key] != "" then payload[key] else aggregate
  }

  /** The service call that handles a job.  A payload that cannot be decoded leads
      to none, and session cleanup and unknown kinds have none here. */
  function HandlerOp(job: Job): Option<Op> {
    match (job.payload, job.kind)
    case (Some(payload), ExpireReservationJob) => Some(Expire(Target(payload, RESERVATION_KEY, job.aggregate)))
    case (Some(payload), ActivateDeploymentJob) => Some(Activate(Target(payload, DEPLOYMENT_KEY, job.aggregate)))
    case _ => None
  }

  /** The outcome of a handler that makes no service call: that of the cleanup, or
      an error for an unreadable payload and for an unknown kind. */
  function PlainOutcome(job: Job, cleanup: Option<Error>): Option<Error> {
    if job.payload.Some? && job.kind == CleanupSessionsJob then cleanup else Some(Internal)
  }

  function ErrorOf(r: Result<Answer>): Option<Error> { if r.Ok? then None else Some(r.error) }

  function ClaimStep(s: State, owner: Id, id: Id, now: Instant, lease: nat): State
    requires id in s.db.jobs
  {
    var j := s.db.jobs[id];
    var claimed := ClaimedRow(j, owner, now, lease);
    var event := ClaimEvent(id, owner, claimed.attempts, now, j.availableAt, if j.status == JobRunning then j.leaseUntil else None);
    WithWorker(WithJobs(s, Claimed(s.db.jobs, id, owner, now, lease)), owner, Holding(claimed, now)).(log := s.log + [event])
  }

  function HandleStep(s: State, owner: Id, job: Job, at: Instant, env: Env, cleanup: Option<Error>): State {
    match HandlerOp(job)
    case Some(op) => WithWorker(s, owner, Handling(job, at, Ongoing(Request(Anonymous, op, env), NoReads)))
    case None => WithWorker(s, owner, Settling(job, at, PlainOutcome(job, cleanup)))
  }

  function StepHandler(s: State, owner: Id, job: Job, at: Instant, call: Call, fault: Fault): State {
    var (db', call') := CallStep(s.db, call, fault);
    WithWorker(s.(db := db'), owner,
               if call'.Done? then Settling(job, at, ErrorOf(call'.result)) else Handling(job, at, call'))
  }

  /** Success completes the job, failure schedules a retry or gives up; either
      way only if the worker still owns it. */
  function SettledJobs(jobs: Jobs, owner: Id, job: Job, error: Option<Error>, now: Instant): Jobs {
    match error
    case None => Completed(jobs, job.id, owner, now)
    case Some(e) => Retried(jobs, job, owner, e, now)
  }

  function SettleStep(s: State, owner: Id, job: Job, error: Option<Error>, now: Instant): State {
    var s' := WithWorker(WithJobs(s, SettledJobs(s.db.jobs, owner, job, error, now)), owner, Resting);
    if OwnedBy(s.db.jobs, job.id, owner) then s'.(log := s.log + [SettleEvent(job.id, owner, s.db.jobs[job.id].attempts)]) else s'
  }

  /** A step that is not enabled changes nothing. */
  function Next(s: State, step: Step): State {
    match step
    case AddUser(user) => s.(db := s.db.(users := s.db.users + {user}))
    case Begin(id, request) => if id in s.calls then s else s.(calls := s.calls[id := Ongoing(request, NoReads)])
    case Proceed(id, fault) =>
      if id in s.calls then
        var (db', call') := CallStep(s.db, s.calls[id], fault);
        s.(db := db', calls := s.calls[id := call'])
      else s
    case Drop(id) => s.(calls := s.calls - {id})
    case Claim(owner, id, now, lease, fault) =>
      if WorkerOf(s, owner).Resting? && fault == NoFault && IsNext(s.db.jobs, now, id)
      then ClaimStep(s, owner, id, now, lease) else s
    case Handle(owner, env, cleanup) =>
      var w := WorkerOf(s, owner);
      if w.Holding? then HandleStep(s, owner, w.job, w.at, env, cleanup) else s
    case HandlerStep(owner, fault) =>
      var w := WorkerOf(s, owner);
      if w.Handling? then StepHandler(s, owner, w.job, w.at, w.call, fault) else s
    case Settle(owner, now, fault) =>
      var w := WorkerOf(s, owner);
      if w.Settling? then
        if fault == NoFault then SettleStep(s, owner, w.job, w.error, now) else WithWorker(s, owner, Resting)
      else s
    case Crash(owner) => WithWorker(s, owner, Crashed)
    case Cancel(id, now) => WithJobs(s, Cancelled(s.db.jobs, id, now))
  }

  function Run(s: State, steps: seq<Step>): State
    decreases |steps|
  {
    if steps == [] then s else Run(Next(s, steps[0]), steps[1..])
  }

  /** What one round of a worker takes from its surroundings: clock readings, generated
      ids, the outcome of a session cleanup, and storage errors. */
  datatype Draw = Draw(now: Instant, env: Env, cleanup: Option<Error>, settledAt: Instant,
                       claimFault: Fault, first: Fault, second: Fault, settleFault: Fault)

  /** The steps of a round on a claimed job: an expiry takes two interactions, an
      activation at most three, and those that find nothing to do change nothing. */
  function StepsOf(owner: Id, lease: nat, id: Id, draw: Draw): seq<Step> {
    [Claim(owner, id, draw.now, lease, NoFault), Handle(owner, draw.env, draw.cleanup),
     HandlerStep(owner, NoFault), HandlerStep(owner, draw.first), HandlerStep(owner, draw.second),
     Settle(owner, draw.settledAt, draw.settleFault)]
  }

  // ------------------------------------------------------ reading the history

  function ClaimsOf(log: seq<Event>, job: Id): nat {
    if log == [] then 0
    else ClaimsOf(log[..|log| - 1], job) + if log[|log| - 1].ClaimEvent? && log[|log| - 1].job == job then 1 else 0
  }

  function TakeoversOf(log: seq<Event>, job: Id): nat {
    if log == [] then 0
    else
      var e := log[|log| - 1];
      TakeoversOf(log[..|log| - 1], job) + if e.ClaimEvent? && e.job == job && e.displaced.Some? then 1 else 0
  }

  function LastClaim(log: seq<Event>, job: Id): Option<Event> {
    if log == [] then None
    else
      var e := log[|log| - 1];
      if e.ClaimEvent? && e.job == job then Some(e) else LastClaim(log[..|log| - 1], job)
  }

  // --------------------------------------------------------------- invariant

  /** The claimed row a busy worker carries: still the stored row for as long as
      the worker owns the job. */
  predicate HoldsJob(jobs: Jobs, owner: Id, job: Job) {
    && job.id in jobs && SameDuty(job, jobs[job.id])
    && job.status == JobRunning && job.leaseOwner == Some(owner)
    && job.attempts <= jobs[job.id].attempts
    && (OwnedBy(jobs, job.id, owner) ==> jobs[job.id] == job)
  }

  predicate WorkerOk(db: Db, owner: Id, w: Worker) {
    match w
    case Resting => true
    case Crashed => true
    case Holding(job, _) => HoldsJob(db.jobs, owner, job)
    case Handling(job, _, call) =>
      HoldsJob(db.jobs, owner, job) && CallOk(db, call) && HandlerOp(job) == Some(call.request.op)
    case Settling(job, _, error) =>
      HoldsJob(db.jobs, owner, job)
      && (error.None? && HandlerOp(job).Some? ==> Achieved(db, HandlerOp(job).value))
  }

  /** A running job is leased to whoever claimed it last, under that claim's number. */
  predicate HeldByLastClaimant(j: Job, last: Option<Event>) {
    last.Some? && last.value.ClaimEvent? && j.leaseOwner == Some(last.value.owner) && j.attempts == last.value.attempt
  }

  ghost predicate Counted(jobs: Jobs, log: seq<Event>) {
    && (forall i :: 0 <= i < |log| ==> log[i].job in jobs)
    && (forall k :: k in jobs ==>
         && jobs[k].attempts == ClaimsOf(log, k)
         && jobs[k].attempts <= jobs[k].maxAttempts + TakeoversOf(log, k)
         && (jobs[k].status == JobRunning ==> HeldByLastClaimant(jobs[k], LastClaim(log, k))))
  }

  /** Every settlement ends the latest claim, for good. */
  ghost predicate Fenced(jobs: Jobs, log: seq<Event>) {
    && (forall i :: 0 <= i < |log| ==> log[i].job in jobs && log[i].attempt <= jobs[log[i].job].attempts)
    && (forall i :: 0 <= i < |log| && log[i].SettleEvent? && log[i].attempt == jobs[log[i].job].attempts
         ==> jobs[log[i].job].status != JobRunning)
    && SettledOnce(log)
    && ClaimedOnce(log)
    && SettlesAClaim(log)
  }

  /** A settlement is made by the owner of an earlier claim with the same number. */
  ghost predicate SettlesAClaim(log: seq<Event>) {
    forall k :: 0 <= k < |log| && log[k].SettleEvent? ==> exists i :: 0 <= i < k && SettlesClaim(log[i], log[k])
  }

  predicate SettlesClaim(c: Event, s: Event) {
    c.ClaimEvent? && s.SettleEvent? && c.job == s.job && c.owner == s.owner && c.attempt == s.attempt
  }

  /** No claim is settled twice. */
  ghost predicate SettledOnce(log: seq<Event>) {
    forall i, k :: 0 <= i < k < |log| && log[i].SettleEvent? && log[k].SettleEvent? && log[i].job == log[k].job
      ==> log[i].attempt < log[k].attempt
  }

  /** Claims of a job are numbered apart. */
  ghost predicate ClaimedOnce(log: seq<Event>) {
    forall i, k :: 0 <= i < k < |log| && log[i].ClaimEvent? && log[k].ClaimEvent? && log[i].job == log[k].job
      ==> log[i].attempt < log[k].attempt
  }

  /** No job is claimed before it is due, and no lease ended before it runs out,
      but for inverted texts. */
  ghost predicate LeasesRespected(log: seq<Event>) {
    forall i :: 0 <= i < |log| ==> LeaseRespected(log[i])
  }

  /** A claim comes before a time that it had to wait for exactly when the two are
      inverted as texts. */
  predicate WaitedFor(at: Instant, time: Instant) {
    InRange(at) && InRange(time) ==> (at < time <==> Inverted(time, at))
  }

  predicate LeaseRespected(e: Event) {
    e.ClaimEvent? ==> WaitedFor(e.at, e.due) && (e.displaced.Some? ==> WaitedFor(e.at, e.displaced.value))
  }

  ghost predicate Inv(s: State) {
    && DbInv(s.db)
    && (forall c :: c in s.calls ==> CallOk(s.db, s.calls[c]))
    && (forall w :: w in s.workers ==> WorkerOk(s.db, w, s.workers[w]))
    && Counted(s.db.jobs, s.log)
    && Fenced(s.db.jobs, s.log)
    && LeasesRespected(s.log)
  }
}
