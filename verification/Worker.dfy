/** internal/worker as an object: claim a job, run its handler, settle.  A round is
    proved to be a run of the state machine of `System`. */
module Workers {
  import opened Basics
  import opened Timestamps
  import opened Domain
  import opened Transactions
  import opened Queue
  import opened Calls
  import opened System
  import opened Reachable
  import opened Serializability
  import opened Outcomes
  import opened Invariants
  import opened Effects
  import opened Preservation
  import opened Storage
  import opened Services
  import opened Ticks
  import Drain = Convergence

  // ---------------------------------------------- rounds as runs of the system

  /** What the handler of a job makes of the tables, and its error. */
  function HandledTo(db: Db, job: Job, draw: Draw): (Db, Option<Error>) {
    match HandlerOp(job)
    case None => (db, PlainOutcome(job, draw.cleanup))
    case Some(op) =>
      var (db', call') := ToEnd(db, Request(Anonymous, op, draw.env), draw.first, draw.second);
      (db', if call'.Done? then ErrorOf(call'.result) else None)
  }

  /** The tables after a round that claimed the job `id`. */
  function AfterRound(db: Db, owner: Id, lease: nat, id: Id, draw: Draw): Db
    requires id in db.jobs
  {
    var job := ClaimedRow(db.jobs[id], owner, draw.now, lease);
    var (handled, error) := HandledTo(db.(jobs := Claimed(db.jobs, id, owner, draw.now, lease)), job, draw);
    if draw.settleFault == NoFault
    then handled.(jobs := SettledJobs(handled.jobs, owner, job, error, draw.settledAt)) else handled
  }

  /** A handler reads once and commits once, except that an activation may commit twice. */
  lemma CommitsTwiceAtMost(db: Db, req: Request, seen: Reads, first: Fault, second: Fault)
    requires (req.op.Expire? && seen.ReservationRead?) || (req.op.Activate? && seen.DeploymentRead?)
    ensures var (db', call') := CommitStep(db, req, seen, first);
      && CallStep(db, Ongoing(req, seen), first) == (db', call')
      && (call'.Ongoing? ==> CallStep(db', call', second) == CommitStep(db', req, call'.seen, second)
                             && CommitStep(db', req, call'.seen, second).1.Done?)
  {
    hide Refusal, Written;
  }

  lemma ReadsOnce(db: Db, req: Request, first: Fault)
    requires req.op.Expire? || req.op.Activate?
    ensures match Fetch(db, req.op, NoReads)
      case Missing => CallStep(db, Ongoing(req, NoReads), NoFault) == (db, Done(req, Err(NotFound)))
                      && Alone(db, req, first) == (db, Done(req, Err(NotFound)))
      case Found(seen) => CallStep(db, Ongoing(req, NoReads), NoFault) == (db, Ongoing(req, seen))
                          && ((req.op.Expire? && seen.ReservationRead?) || (req.op.Activate? && seen.DeploymentRead?))
                          && Alone(db, req, first) == CommitStep(db, req, seen, first)
      case Complete => false
  {
    hide CommitStep;
    if Fetch(db, req.op, NoReads).Found? {
      assert ReadAll(db, req, NoReads) == ReadAll(db, req, Fetch(db, req.op, NoReads).seen);
    }
  }

  /** Three interactions of the handler are its call run to the end. */
  lemma HandlerRuns(s: State, owner: Id, job: Job, at: Instant, req: Request, first: Fault, second: Fault)
    requires WorkerOf(s, owner) == Handling(job, at, Ongoing(req, NoReads)) && (req.op.Expire? || req.op.Activate?)
    ensures var s' := Next(Next(Next(s, HandlerStep(owner, NoFault)), HandlerStep(owner, first)), HandlerStep(owner, second));
      var (db', call') := ToEnd(s.db, req, first, second);
      call'.Done? && s'.db == db' && WorkerOf(s', owner) == Settling(job, at, ErrorOf(call'.result))
  {
    hide Next, CallStep, CommitStep, Fetch, Alone;
    ReadsOnce(s.db, req, first);
    HandlerUnfolds(s, owner, NoFault);
    var s1 := Next(s, HandlerStep(owner, NoFault));
    HandlerUnfolds(s1, owner, first);
    HandlerUnfolds(Next(s1, HandlerStep(owner, first)), owner, second);
    if Fetch(s.db, req.op, NoReads).Found? {
      CommitsTwiceAtMost(s.db, req, Fetch(s.db, req.op, NoReads).seen, first, second);
    }
  }

  /** The handler's part of a round, whatever the kind of job. */
  lemma HandlingRuns(s: State, owner: Id, job: Job, at: Instant, draw: Draw)
    requires WorkerOf(s, owner) == Holding(job, at)
    ensures var s' := Next(Next(Next(Next(s, Handle(owner, draw.env, draw.cleanup)),
                 HandlerStep(owner, NoFault)), HandlerStep(owner, draw.first)), HandlerStep(owner, draw.second));
      var (db', error) := HandledTo(s.db, job, draw);
      s'.db == db' && WorkerOf(s', owner) == Settling(job, at, error)
  {
    hide CallStep, ToEnd;
    match HandlerOp(job)
    case None =>
    case Some(op) =>
      var s1 := Next(s, Handle(owner, draw.env, draw.cleanup));
      HandlerRuns(s1, owner, job, at, Request(Anonymous, op, draw.env), draw.first, draw.second);
  }

  lemma ClaimRuns(s: State, owner: Id, id: Id, now: Instant, lease: nat)
    requires WorkerOf(s, owner).Resting? && id in s.db.jobs && IsNext(s.db.jobs, now, id)
    ensures var s' := Next(s, Claim(owner, id, now, lease, NoFault));
      s'.db == s.db.(jobs := Claimed(s.db.jobs, id, owner, now, lease))
      && WorkerOf(s', owner) == Holding(ClaimedRow(s.db.jobs[id], owner, now, lease), now)
  {
    hide CallStep, IsNext;
  }

  lemma SettleRuns(s: State, owner: Id, job: Job, at: Instant, error: Option<Error>, now: Instant, fault: Fault)
    requires WorkerOf(s, owner) == Settling(job, at, error)
    ensures var s' := Next(s, Settle(owner, now, fault));
      && s'.db == (if fault == NoFault then s.db.(jobs := SettledJobs(s.db.jobs, owner, job, error, now)) else s.db)
      && WorkerOf(s', owner).Resting?
  {
    hide CallStep, IsNext, SettledJobs;
  }

  /** A round of the worker is a run of the system, step by step, whatever else is
      in flight, and leaves the worker resting. */
  lemma RoundIsRun(s: State, owner: Id, lease: nat, id: Id, draw: Draw)
    requires WorkerOf(s, owner).Resting? && id in s.db.jobs && IsNext(s.db.jobs, draw.now, id)
    ensures var s' := Run(s, StepsOf(owner, lease, id, draw));
      s'.db == AfterRound(s.db, owner, lease, id, draw) && WorkerOf(s', owner).Resting?
  {
    hide CallStep, HandledTo, IsNext, Next, Run, SettledJobs, Claimed;
    var steps := StepsOf(owner, lease, id, draw);
    SixSteps(s, steps[0], steps[1], steps[2], steps[3], steps[4], steps[5]);
    ClaimRuns(s, owner, id, draw.now, lease);
    var job := ClaimedRow(s.db.jobs[id], owner, draw.now, lease);
    var s1 := Next(s, steps[0]);
    HandlingRuns(s1, owner, job, draw.now, draw);
    var s5 := Next(Next(Next(Next(s1, steps[1]), steps[2]), steps[3]), steps[4]);
    SettleRuns(s5, owner, job, draw.now, HandledTo(s1.db, job, draw).1, draw.settledAt, draw.settleFault);
  }

  // ------------------------------------------------------ what handlers come to

  /** By itself and without storage errors a handler does what the rules say of the
      aggregate of its job; an unreadable payload and an unknown kind are errors. */
  lemma HandlerFollowsRule(db: Db, job: Job, draw: Draw)
    requires job.id in db.jobs && SameDuty(job, db.jobs[job.id]) && draw.first == draw.second == NoFault
    requires Prepared(db, Request(Anonymous, Activate(job.aggregate), draw.env))
    requires DbInv(db)
    ensures HandledTo(db, job, draw) ==
      match job.kind
      case ExpireReservationJob => var (db', r) := ExpireRule(db, job.aggregate, draw.env); (db', ErrorOf(r))
      case ActivateDeploymentJob => var (db', r) := ActivateRule(db, job.aggregate, draw.env); (db', ErrorOf(r))
      case CleanupSessionsJob => (db, if job.payload.Some? then draw.cleanup else Some(Internal))
      case OtherJob(_) => (db, Some(Internal))
  {
    hide ToEnd, ExpireRule, ActivateRule, Alone, DbInv;
    match job.kind
    case ExpireReservationJob =>
      TargetOf(db, job);
      var req := Request(Anonymous, Expire(job.aggregate), draw.env);
      OneCommit(db, req, NoFault, NoFault);
      ExpireOutcome(db, Anonymous, job.aggregate, draw.env);
    case ActivateDeploymentJob =>
      TargetOf(db, job);
      ActivateOutcome(db, job.aggregate, draw.env);
    case _ =>
  }

  /** A missing field reads as empty, and an empty one stands for the row's aggregate. */
  lemma HandlerNames(job: Job)
    requires job.payload.Some?
    ensures var p := job.payload.value;
      var reservation := if "reservation_id" in p then p["reservation_id"] else "";
      var deployment := if "deployment_id" in p then p["deployment_id"] else "";
      && (job.kind == ExpireReservationJob ==> HandlerOp(job) == Some(Expire(if reservation == "" then job.aggregate else reservation)))
      && (job.kind == ActivateDeploymentJob ==> HandlerOp(job) == Some(Activate(if deployment == "" then job.aggregate else deployment)))
  {
  }

  lemma TargetOf(db: Db, job: Job)
    requires job.id in db.jobs && SameDuty(job, db.jobs[job.id])
    requires DbInv(db)
    ensures job.kind == ExpireReservationJob ==> HandlerOp(job) == Some(Expire(job.aggregate))
    ensures job.kind == ActivateDeploymentJob ==> HandlerOp(job) == Some(Activate(job.aggregate)) && job.aggregate in db.deployments
  {
    hide HandlerOp, CapacityInv, QualificationInv, DeploymentsOk, LedgerInv, JobsOk, ExpiryOutbox, ActivationOutbox;
    TargetIsAggregate(db, job);
  }

  /** A round on an activation job leaves the job succeeded and the deployment running,
      unless the deployment has gone beyond running; then the job fails, for now or,
      at its limit, for good. */
  lemma ActivationRound(s: State, owner: Id, lease: nat, id: Id, draw: Draw)
    requires WorkerOf(s, owner).Resting? && id in s.db.jobs && IsNext(s.db.jobs, draw.now, id)
    requires s.db.jobs[id].kind == ActivateDeploymentJob && draw.first == draw.second == draw.settleFault == NoFault
    requires Prepared(s.db, Request(Anonymous, Activate(s.db.jobs[id].aggregate), draw.env))
    requires Inv(s)
    ensures var d := s.db.jobs[id].aggregate; var db := AfterRound(s.db, owner, lease, id, draw);
      && d in s.db.deployments && d in db.deployments && id in db.jobs
      && if s.db.deployments[d].status in {Queued, Activating, Running}
         then db.jobs[id].status == JobSucceeded && db.deployments[d].status == Running
         else db.deployments == s.db.deployments
              && db.jobs[id].status == if s.db.jobs[id].attempts + 1 < s.db.jobs[id].maxAttempts then JobPending else JobFailed
  {
    hide Inv, DbInv, HandledTo, IsNext, Next, ActivateRule, Backoff;
    var job := ClaimedRow(s.db.jobs[id], owner, draw.now, lease);
    NextKeeps(s, Claim(owner, id, draw.now, lease, NoFault));
    ClaimRuns(s, owner, id, draw.now, lease);
    var s1 := Next(s, Claim(owner, id, draw.now, lease, NoFault));
    Drain.InvIsDbInv(s1);
    JobIds(s, id);
    TargetOf(s1.db, job);
    HandlerFollowsRule(s1.db, job, draw);
    HandlerLeavesJobs(s1.db, job, draw);
    Activates(s1.db, job.aggregate, draw.env);
  }

  lemma JobIds(s: State, id: Id)
    requires id in s.db.jobs
    requires Inv(s)
    ensures s.db.jobs[id].id == id
  {
    hide CapacityInv, QualificationInv, DeploymentsOk, LedgerInv, ExpiryOutbox, ActivationOutbox, CallOk, WorkerOk, Counted, Fenced, LeasesRespected;
  }

  lemma Activates(db: Db, id: Id, env: Env)
    requires id in db.deployments
    ensures var (db', r) := ActivateRule(db, id, env);
      && id in db'.deployments
      && if db.deployments[id].status in {Queued, Activating, Running} then r.Ok? && db'.deployments[id].status == Running
         else r.Err? && db' == db
  {
  }

  // ------------------------------------------------- job rows keep their ids

  predicate Keyed(jobs: Jobs) { forall k | k in jobs :: jobs[k].id == k }

  lemma CommitLeavesJobs(db: Db, req: Request, seen: Reads, fault: Fault)
    requires (req.op.Expire? && seen.ReservationRead?) || (req.op.Activate? && seen.DeploymentRead?)
    ensures var (db', call') := CommitStep(db, req, seen, fault);
      db'.jobs == db.jobs && (call'.Ongoing? ==> req.op.Activate? && call'.seen.DeploymentRead?)
  {
    hide PlanOf, DemandsOf, Written;
    var plan := PlanOf(req, seen);
    if plan.Submit? {
      HandlerSubmits(req, seen);
      if Refusal(db, plan.tx, fault).None? {
        Drain.HandlerTxLeavesJobs(db, plan.tx);
      }
    }
  }

  lemma HandlerSubmits(req: Request, seen: Reads)
    requires (req.op.Expire? && seen.ReservationRead?) || (req.op.Activate? && seen.DeploymentRead?)
    requires PlanOf(req, seen).Submit?
    ensures var plan := PlanOf(req, seen);
      && (plan.tx.ReturnTx? || plan.tx.TransitionDeploymentTx?)
      && (plan.again.Some? ==> req.op.Activate? && plan.again.value.DeploymentRead?)
  {
  }

  lemma HandlerLeavesJobs(db: Db, job: Job, draw: Draw)
    ensures HandledTo(db, job, draw).0.jobs == db.jobs
  {
    hide CommitStep, Alone;
    if HandlerOp(job).Some? {
      var req := Request(Anonymous, HandlerOp(job).value, draw.env);
      ReadsOnce(db, req, draw.first);
      if Fetch(db, req.op, NoReads).Found? {
        var seen := Fetch(db, req.op, NoReads).seen;
        CommitLeavesJobs(db, req, seen, draw.first);
        var (db', call') := CommitStep(db, req, seen, draw.first);
        if call'.Ongoing? {
          CommitLeavesJobs(db', req, call'.seen, draw.second);
          AgainSameRequest(db, req, seen, draw.first);
        }
      }
    }
  }

  lemma AgainSameRequest(db: Db, req: Request, seen: Reads, fault: Fault)
    ensures CommitStep(db, req, seen, fault).1.request == req
  {
    hide Refusal, Written, PlanOf;
  }

  lemma RoundKeepsKeys(db: Db, owner: Id, lease: nat, id: Id, draw: Draw)
    requires Keyed(db.jobs) && id in db.jobs
    ensures Keyed(AfterRound(db, owner, lease, id, draw).jobs)
  {
    var job := ClaimedRow(db.jobs[id], owner, draw.now, lease);
    HandlerLeavesJobs(db.(jobs := Claimed(db.jobs, id, owner, draw.now, lease)), job, draw);
    hide HandledTo, Backoff;
  }

  // --------------------------------------------------- a job that always fails

  /** Round after round the job is claimed when it is due, and its handler fails. */
  ghost predicate FailsThrough(s: State, owner: Id, lease: nat, id: Id, error: Error, draws: seq<Draw>)
    decreases |draws|
  {
    draws == []
    || (FailsOnce(s, owner, lease, id, error, draws[0])
        && FailsThrough(Run(s, StepsOf(owner, lease, id, draws[0])), owner, lease, id, error, draws[1..]))
  }

  predicate FailsOnce(s: State, owner: Id, lease: nat, id: Id, error: Error, draw: Draw) {
    && id in s.db.jobs && IsNext(s.db.jobs, draw.now, id) && draw.now == s.db.jobs[id].availableAt
    && draw.settledAt >= draw.now && draw.settleFault == NoFault
    && HandledTo(s.db.(jobs := Claimed(s.db.jobs, id, owner, draw.now, lease)),
                 ClaimedRow(s.db.jobs[id], owner, draw.now, lease), draw).1 == Some(error)
  }

  function AllSteps(owner: Id, lease: nat, id: Id, draws: seq<Draw>): seq<Step>
    decreases |draws|
  {
    if draws == [] then [] else StepsOf(owner, lease, id, draws[0]) + AllSteps(owner, lease, id, draws[1..])
  }

  /** How long each attempt worked. */
  function Work(draws: seq<Draw>): (w: seq<nat>)
    requires forall d :: d in draws ==> d.settledAt >= d.now
    ensures |w| == |draws|
    decreases |draws|
  {
    if draws == [] then [] else [draws[0].settledAt - draws[0].now] + Work(draws[1..])
  }

  lemma FailedRound(s: State, owner: Id, lease: nat, id: Id, error: Error, draw: Draw)
    requires WorkerOf(s, owner).Resting? && Keyed(s.db.jobs) && FailsOnce(s, owner, lease, id, error, draw)
    ensures draw.now == s.db.jobs[id].availableAt
    ensures var s' := Run(s, StepsOf(owner, lease, id, draw)); var j := s.db.jobs[id];
      var claimed := ClaimedRow(j, owner, j.availableAt, lease);
      && WorkerOf(s', owner).Resting? && Keyed(s'.db.jobs)
      && id in s'.db.jobs && s'.db.jobs[id] == RetriedRow(claimed, claimed, error, draw.settledAt)
  {
    hide Run, HandledTo, IsNext, Backoff;
    RoundIsRun(s, owner, lease, id, draw);
    RoundKeepsKeys(s.db, owner, lease, id, draw);
    HandlerLeavesJobs(s.db.(jobs := Claimed(s.db.jobs, id, owner, draw.now, lease)), ClaimedRow(s.db.jobs[id], owner, draw.now, lease), draw);
  }

  /** The row of `FailingLife` is the row that the system has after those rounds. */
  lemma {:induction false} FailingRuns(s: State, owner: Id, lease: nat, id: Id, error: Error, draws: seq<Draw>)
    requires WorkerOf(s, owner).Resting? && Keyed(s.db.jobs) && id in s.db.jobs
    requires FailsThrough(s, owner, lease, id, error, draws) && forall d :: d in draws ==> d.settledAt >= d.now
    ensures var s' := Run(s, AllSteps(owner, lease, id, draws));
      id in s'.db.jobs && s'.db.jobs[id] == FailingLife(s.db.jobs[id], Work(draws), owner, lease, error)
    decreases |draws|
  {
    hide FailsOnce, RetriedRow, StepsOf;
    if draws == [] {
      RunNothing(s);
      hide Run;
    } else {
      FailedRound(s, owner, lease, id, error, draws[0]);
      var next := Run(s, StepsOf(owner, lease, id, draws[0]));
      RunConcat(s, StepsOf(owner, lease, id, draws[0]), AllSteps(owner, lease, id, draws[1..]));
      hide Run;
      FailingRuns(next, owner, lease, id, error, draws[1..]);
      FailingUnfolds(s, owner, lease, id, error, draws);
    }
  }

  lemma FailingUnfolds(s: State, owner: Id, lease: nat, id: Id, error: Error, draws: seq<Draw>)
    requires draws != [] && id in s.db.jobs && draws[0].now == s.db.jobs[id].availableAt
    requires forall d :: d in draws ==> d.settledAt >= d.now
    ensures var j := s.db.jobs[id]; var claimed := ClaimedRow(j, owner, j.availableAt, lease);
      FailingLife(j, Work(draws), owner, lease, error)
        == FailingLife(RetriedRow(claimed, claimed, error, draws[0].settledAt), Work(draws[1..]), owner, lease, error)
  {
    assert Work(draws)[1..] == Work(draws[1..]);
  }

  /** A job of the service that fails at every attempt is failed for good after five
      rounds, with 15 seconds of delay besides the work. */
  lemma ServiceJobFails(s: State, owner: Id, lease: nat, id: Id, error: Error, draws: seq<Draw>)
    requires WorkerOf(s, owner).Resting? && Keyed(s.db.jobs) && id in s.db.jobs
    requires s.db.jobs[id].attempts == 0 && s.db.jobs[id].maxAttempts == 5 && |draws| == 5
    requires FailsThrough(s, owner, lease, id, error, draws) && forall d :: d in draws ==> d.settledAt >= d.now
    ensures var s' := Run(s, AllSteps(owner, lease, id, draws));
      && id in s'.db.jobs && s'.db.jobs[id].status == JobFailed && s'.db.jobs[id].attempts == 5
      && s'.db.jobs[id].availableAt == s.db.jobs[id].availableAt + Sum(Work(draws)) + Seconds(15)
  {
    hide Run, FailsThrough, AllSteps, FailingLife, Work, Sum;
    FailingRuns(s, owner, lease, id, error, draws);
    FailingLifeSchedule(s.db.jobs[id], Work(draws), owner, lease, error);
    ServiceJobDelay(s.db.jobs[id], Work(draws), owner, lease, error);
  }

  // -------------------------------------------------------------- the object

  /** There are as many ticks as jobs, without storage errors and all at one instant. */
  ghost predicate StandsLongEnough(ticks: seq<Draw>, s: State) {
    ticks != [] && |s.db.jobs| <= |ticks| && Standing(ticks, ticks[0].now) && Drain.ClockInRange(ticks[0].now) && Inv(s)
  }

  class Worker {
    const store: Store
    const tasks: Service
    const owner: Id
    const poll: int
    const lease: int

    constructor (store: Store, tasks: Service, owner: Id, poll: int, lease: int)
      requires tasks.store == store
      ensures this.store == store && this.tasks == tasks && this.owner == owner && this.poll == poll && this.lease == lease
    {
      this.store, this.tasks, this.owner, this.poll, this.lease := store, tasks, owner, poll, lease;
    }

    method RunHandler(job: Job, draw: Draw) returns (err: Option<Error>)
      requires tasks.store == store
      modifies store
      ensures HandledTo(old(store.db), job, draw) == (store.db, err)
    {
      if job.payload.None? { return Some(Internal); }
      var payload := job.payload.value;
      match job.kind
      case ExpireReservationJob =>
        var id := Target(payload, RESERVATION_KEY, job.aggregate);
        OneCommit(store.db, Request(Anonymous, Expire(id), draw.env), draw.first, draw.second);
        var r := tasks.ExpireReservation(Anonymous, id, draw.env, draw.first);
        return if r.Ok? then None else Some(r.error);
      case ActivateDeploymentJob =>
        var r := tasks.ActivateDeploymentJob(Target(payload, DEPLOYMENT_KEY, job.aggregate), draw.env, draw.first, draw.second);
        return if r.Ok? then None else Some(r.error);
      case CleanupSessionsJob => return draw.cleanup;
      case OtherJob(_) => return Some(Internal);
    }

    /** One round: nothing changes unless a job was claimed, and then the round is
        the one on the first due job. */
    method RunOne(draw: Draw) returns (ghost claimed: Option<Id>)
      requires tasks.store == store && lease >= 0 && Keyed(store.db.jobs)
      modifies store
      ensures claimed.None? ==> store.db == old(store.db) && (draw.claimFault == NoFault ==> Idle(store.db.jobs, draw.now))
      ensures claimed.Some? ==> claimed.value in old(store.db).jobs && IsNext(old(store.db).jobs, draw.now, claimed.value)
      ensures claimed.Some? ==> store.db == AfterRound(old(store.db), owner, lease, claimed.value, draw)
    {
      hide HandledTo, IsNext, Claimed;
      var r := store.ClaimJob(owner, draw.now, lease, draw.claimFault);
      if r.Err? { return None; }
      var job := r.value;
      var err := RunHandler(job, draw);
      if err.None? {
        var _ := store.CompleteJob(job.id, owner, draw.settledAt, draw.settleFault);
      } else {
        var _ := store.RetryJob(job, err.value, draw.settledAt, draw.settleFault);
      }
      return Some(job.id);
    }

    /** A round for every tick before the context ends, each on the first due job if
        there is one.  All of it together is one run of the system, whatever that held
        besides this worker; and at a standing clock as many ticks as there are jobs
        leave nothing due. */
    method Run(ticks: seq<Draw>, ghost s: State)
      returns (err: Option<Error>, ghost states: seq<State>, ghost claims: seq<Option<Id>>, ghost steps: seq<Step>)
      requires tasks.store == store && Keyed(store.db.jobs)
      requires s.db == store.db && WorkerOf(s, owner).Resting?
      modifies store
      ensures err.Some? <==> owner == "" || poll <= 0 || lease <= poll
      ensures err.Some? ==> store.db == old(store.db)
      ensures err.None? ==> Lives(states, owner, lease, ticks, claims) && states[0] == s && store.db == states[|ticks|].db
      ensures err.None? ==> states[|ticks|] == System.Run(s, steps)
      ensures err.None? ==> forall i :: 0 <= i < |ticks| && ticks[i].claimFault == NoFault ==>
        (claims[i].Some? <==> !Idle(states[i].db.jobs, ticks[i].now))
      ensures err.None? ==> ClaimsBy(states[|ticks|].log, owner) == ClaimsBy(s.log, owner) + Claims(claims)
      ensures err.None? && StandsLongEnough(ticks, s) ==> Idle(store.db.jobs, ticks[0].now)
    {
      states, claims, steps := [s], [], [];
      if owner == "" || poll <= 0 || lease <= poll { return Some(Internal), [], [], []; }
      hide AfterRound, IsNext, System.Run, Inv, Drain.ClockInRange, Standing;
      RunNothing(s);
      for i := 0 to |ticks|
        invariant Lives(states, owner, lease, ticks[..i], claims) && states[0] == s && store.db == states[i].db
        invariant states[i] == System.Run(s, steps)
        invariant Keyed(store.db.jobs)
      {
        ghost var before := states[i];
        ghost var claimed := RunOne(ticks[i]);
        ghost var after := before;
        if claimed.Some? {
          after := System.Run(before, StepsOf(owner, lease, claimed.value, ticks[i]));
          RoundIsRun(before, owner, lease, claimed.value, ticks[i]);
          RoundKeepsKeys(before.db, owner, lease, claimed.value, ticks[i]);
          RunConcat(s, steps, StepsOf(owner, lease, claimed.value, ticks[i]));
          steps := steps + StepsOf(owner, lease, claimed.value, ticks[i]);
        }
        LivesOn(states, owner, lease, ticks, i, claims, claimed, after);
        states, claims := states + [after], claims + [claimed];
      }
      assert ticks[..|ticks|] == ticks;
      ClaimsExactly(states, owner, lease, ticks, claims);
      ClaimsAreCounted(states, owner, lease, ticks, claims);
      if StandsLongEnough(ticks, s) {
        EnoughTicks(states, owner, lease, ticks, claims, ticks[0].now);
      }
      return None, states, claims, steps;
    }
  }

  lemma LivesOn(states: seq<State>, owner: Id, lease: nat, ticks: seq<Draw>, i: nat, claims: seq<Option<Id>>, claimed: Option<Id>, after: State)
    requires i < |ticks| && Lives(states, owner, lease, ticks[..i], claims)
    requires WorkerOf(after, owner).Resting? && Ticked(states[i], owner, lease, ticks[i], claimed, after)
    ensures Lives(states + [after], owner, lease, ticks[..i + 1], claims + [claimed])
  {
    hide Ticked;
  }

  lemma ClaimsExactly(states: seq<State>, owner: Id, lease: nat, ticks: seq<Draw>, claims: seq<Option<Id>>)
    requires Lives(states, owner, lease, ticks, claims)
    ensures forall i :: 0 <= i < |ticks| && ticks[i].claimFault == NoFault ==>
      (claims[i].Some? <==> !Idle(states[i].db.jobs, ticks[i].now))
  {
    forall i | 0 <= i < |ticks| && ticks[i].claimFault == NoFault ensures claims[i].Some? <==> !Idle(states[i].db.jobs, ticks[i].now) {
      assert Ticked(states[i], owner, lease, ticks[i], claims[i], states[i + 1]);
    }
  }

  lemma OneCommit(db: Db, req: Request, first: Fault, second: Fault)
    requires req.op.Expire?
    ensures ToEnd(db, req, first, second) == Alone(db, req, first) && Alone(db, req, first).1.Done?
  {
    hide CallStep, Refusal, Written;
    ReadsOnce(db, req, first);
    if Fetch(db, req.op, NoReads).Found? {
      CommitsTwiceAtMost(db, req, Fetch(db, req.op, NoReads).seen, first, second);
    }
  }
}
