/** Clocks and due times: with a clock that does not run backwards during a
    worker's round, an expiry job is never due before its reservation, and the
    early-expiry conflict is met only through an inverted text comparison. */
module Timeliness {
  import opened Basics
  import opened Timestamps
  import opened Domain
  import opened Transactions
  import opened Queue
  import opened Calls
  import opened Invariants
  import opened Effects
  import opened Preservation
  import opened System
  import opened Reachable
  import opened Theorems

  /** A live expiry job waits at least until its reservation expires. */
  predicate Timely(db: Db, j: Job) {
    j.kind == ExpireReservationJob && Live(j) ==>
      j.aggregate in db.reservations && db.reservations[j.aggregate].expiresAt <= j.availableAt
  }

  predicate ClaimedInTime(db: Db, job: Job, at: Instant) {
    Timely(db, job) && InRange(job.availableAt) && InRange(at) && SqlLe(job.availableAt, at)
  }

  predicate WorkerTimely(db: Db, w: Worker) {
    match w
    case Holding(job, at) => ClaimedInTime(db, job, at)
    case Handling(job, at, call) => ClaimedInTime(db, job, at) && at <= call.request.env.now
    case Settling(job, at, _) => ClaimedInTime(db, job, at)
    case _ => true
  }

  ghost predicate AllTimely(s: State) {
    && (forall k :: k in s.db.jobs ==> Timely(s.db, s.db.jobs[k]))
    && (forall w :: w in s.workers ==> WorkerTimely(s.db, s.workers[w]))
  }

  /** What is asked of the clock: four-digit years, and within a worker's round no
      reading before the one at which the job was claimed. */
  predicate ClockRespected(s: State, step: Step) {
    match step
    case Claim(_, id, now, _, _) => InRange(now) && (id in s.db.jobs ==> InRange(s.db.jobs[id].availableAt))
    case Handle(owner, env, _) => var w := WorkerOf(s, owner); w.Holding? ==> w.at <= env.now
    case Settle(owner, now, _) => var w := WorkerOf(s, owner); w.Settling? ==> w.at <= now
    case _ => true
  }

  predicate ClocksRespected(s: State, steps: seq<Step>)
    decreases |steps|
  {
    steps == [] || (ClockRespected(s, steps[0]) && ClocksRespected(Next(s, steps[0]), steps[1..]))
  }

  /** A retry is scheduled at least one second after the claim, which was in the
      second of the previous due time or later. */
  lemma RetryStaysTimely(db: Db, j: Job, job: Job, error: Error, at: Instant, now: Instant)
    requires ClaimedInTime(db, job, at) && at <= now && SameDuty(job, j) && job.status == JobRunning
    ensures Timely(db, RetriedRow(j, job, error, now))
  {
    SqlLeAcrossSeconds(job.availableAt, at);
    hide SqlLe, InRange;
  }

  lemma TimelySurvives(a: Db, b: Db, j: Job)
    requires DbPast(a, b) && Timely(a, j)
    ensures Timely(b, j)
  {
    if j.kind == ExpireReservationJob && Live(j) {
      assert ReservationPast(a.reservations[j.aggregate], b.reservations[j.aggregate]);
    }
  }

  lemma WorkerTimelySurvives(a: Db, b: Db, w: Worker)
    requires DbPast(a, b) && WorkerTimely(a, w)
    ensures WorkerTimely(b, w)
  {
    hide SqlLe, InRange, DbPast, Timely;
    if w.Holding? || w.Handling? || w.Settling? {
      TimelySurvives(a, b, w.job);
    }
  }

  lemma PlannedExpiryJob(req: Request, seen: Reads)
    requires PlanOf(req, seen).Submit?
    ensures var tx := PlanOf(req, seen).tx;
      && (tx.CreateReservationTx? ==> tx.job.aggregate == tx.reservation.id && tx.job.availableAt == tx.reservation.expiresAt)
      && (tx.CreateDeploymentTx? ==> tx.job.kind == ActivateDeploymentJob)
  {
  }

  lemma WrittenTimely(db: Db, tx: Tx, k: Id)
    requires DemandsOf(db, tx).Met() && k in Written(db, tx).jobs && k !in db.jobs
    requires tx.CreateReservationTx? ==> tx.job.aggregate == tx.reservation.id && tx.job.availableAt == tx.reservation.expiresAt
    requires tx.CreateDeploymentTx? ==> tx.job.kind == ActivateDeploymentJob
    ensures Timely(Written(db, tx), Written(db, tx).jobs[k])
  {
  }

  /** Jobs that a service call adds are timely. */
  lemma NewJobsTimely(db: Db, call: Call, fault: Fault)
    ensures var db' := CallStep(db, call, fault).0; forall k :: k in db'.jobs && k !in db.jobs ==> Timely(db', db'.jobs[k])
  {
    var db' := CallStep(db, call, fault).0;
    forall k | k in db'.jobs && k !in db.jobs ensures Timely(db', db'.jobs[k]) {
      var req, seen := call.request, call.seen;
      PlannedExpiryJob(req, seen);
      var tx := PlanOf(req, seen).tx;
      hide PlanOf, DemandsOf, Written, Timely;
      WrittenTimely(db, tx, k);
    }
  }

  lemma CallStepTimely(s: State, call: Call, fault: Fault)
    requires CallOk(s.db, call) && AllTimely(s) && DbInv(s.db)
    ensures var db' := CallStep(s.db, call, fault).0;
      (forall k :: k in db'.jobs ==> Timely(db', db'.jobs[k])) && (forall w :: w in s.workers ==> WorkerTimely(db', s.workers[w]))
  {
    hide DbInv, CallOk, CallStep, TxStep, DbPast, Timely, WorkerTimely;
    var db' := CallStep(s.db, call, fault).0;
    CallStepKeeps(s.db, call, fault);
    StepIsPast(s.db, db');
    CallStepJobs(s.db, call, fault);
    NewJobsTimely(s.db, call, fault);
    forall k | k in db'.jobs ensures Timely(db', db'.jobs[k]) {
      if k in s.db.jobs { TimelySurvives(s.db, db', s.db.jobs[k]); }
    }
    forall w | w in s.workers ensures WorkerTimely(db', s.workers[w]) { WorkerTimelySurvives(s.db, db', s.workers[w]); }
  }

  /** Writing one job row of a timely system. */
  lemma JobWriteTimely(s: State, j: Job)
    requires AllTimely(s) && Timely(s.db, j)
    ensures var db' := s.db.(jobs := s.db.jobs[j.id := j]);
      (forall k :: k in db'.jobs ==> Timely(db', db'.jobs[k])) && (forall w :: w in s.workers ==> WorkerTimely(db', s.workers[w]))
  {
    hide SqlLe, InRange;
  }

  lemma ClaimTimely(s: State, owner: Id, id: Id, now: Instant, lease: nat)
    requires id in s.db.jobs && s.db.jobs[id].id == id && Claimable(s.db.jobs[id], now)
    requires InRange(now) && InRange(s.db.jobs[id].availableAt) && AllTimely(s)
    ensures AllTimely(ClaimStep(s, owner, id, now, lease))
  {
    var j := ClaimedRow(s.db.jobs[id], owner, now, lease);
    hide SqlLe, InRange;
    assert Timely(s.db, s.db.jobs[id]);
    JobWriteTimely(s, j);
    hide WorkerTimely, AllTimely;
    var s' := ClaimStep(s, owner, id, now, lease);
    ClaimedWorkerTimely(s'.db, s.db.jobs[id], owner, now, lease);
    assert AllTimely(s') by { AllTimelyFrom(s', s, owner); }
  }

  lemma ClaimedWorkerTimely(db: Db, j: Job, owner: Id, now: Instant, lease: nat)
    requires Timely(db, j) && Claimable(j, now) && InRange(now) && InRange(j.availableAt)
    ensures WorkerTimely(db, Holding(ClaimedRow(j, owner, now, lease), now))
  {
    hide SqlLe, InRange;
  }

  /** All that can be new is one worker. */
  lemma AllTimelyFrom(b: State, a: State, owner: Id)
    requires forall k :: k in b.db.jobs ==> Timely(b.db, b.db.jobs[k])
    requires forall w :: w in a.workers ==> WorkerTimely(b.db, a.workers[w])
    requires owner in b.workers && b.workers == a.workers[owner := b.workers[owner]] && WorkerTimely(b.db, b.workers[owner])
    ensures AllTimely(b)
  {
    hide WorkerTimely, Timely;
  }

  lemma SettledRowTimely(db: Db, owner: Id, job: Job, at: Instant, error: Option<Error>, now: Instant)
    requires ClaimedInTime(db, job, at) && at <= now
    requires HoldsJob(db.jobs, owner, job) && OwnedBy(db.jobs, job.id, owner)
    ensures var j := SettledJobs(db.jobs, owner, job, error, now)[job.id];
      SettledJobs(db.jobs, owner, job, error, now) == db.jobs[job.id := j] && j.id == job.id && Timely(db, j)
  {
    hide SqlLe, InRange;
    if error.Some? {
      RetryStaysTimely(db, db.jobs[job.id], job, error.value, at, now);
    }
  }

  lemma SettleTimely(s: State, owner: Id, job: Job, at: Instant, error: Option<Error>, now: Instant)
    requires owner in s.workers && s.workers[owner] == Settling(job, at, error) && at <= now
    requires HoldsJob(s.db.jobs, owner, job)
    requires AllTimely(s)
    ensures AllTimely(SettleStep(s, owner, job, error, now))
  {
    SettlingInTime(s, owner, job, at, error);
    NotOwnedNotSettled(s.db.jobs, owner, job, error, now);
    hide ClaimedInTime, SettledJobs, HoldsJob, WorkerTimely, Timely, OwnedBy;
    if OwnedBy(s.db.jobs, job.id, owner) {
      SettledRowTimely(s.db, owner, job, at, error, now);
      JobWriteTimely(s, SettledJobs(s.db.jobs, owner, job, error, now)[job.id]);
    }
    RestingTimely(SettleStep(s, owner, job, error, now).db);
    hide AllTimely;
    AllTimelyFrom(SettleStep(s, owner, job, error, now), s, owner);
  }

  lemma SettlingInTime(s: State, owner: Id, job: Job, at: Instant, error: Option<Error>)
    requires owner in s.workers && s.workers[owner] == Settling(job, at, error) && AllTimely(s)
    ensures ClaimedInTime(s.db, job, at)
  {
    hide ClaimedInTime;
    assert WorkerTimely(s.db, s.workers[owner]);
  }

  lemma NotOwnedNotSettled(jobs: Jobs, owner: Id, job: Job, error: Option<Error>, now: Instant)
    ensures !OwnedBy(jobs, job.id, owner) ==> SettledJobs(jobs, owner, job, error, now) == jobs
  {
  }

  lemma RestingTimely(db: Db)
    ensures WorkerTimely(db, Resting)
  {
  }

  lemma HandlerTimely(s: State, owner: Id, fault: Fault)
    requires WorkerOf(s, owner).Handling? && AllTimely(s) && Inv(s)
    ensures AllTimely(Next(s, HandlerStep(owner, fault)))
  {
    hide Inv, CallStep, AllTimely, ClaimedInTime, Timely;
    var w := s.workers[owner];
    CallStepJobsOk(s, owner, fault);
    CallStepTimely(s, w.call, fault);
    var (db', call') := CallStep(s.db, w.call, fault);
    WorkerIsTimely(s, owner, db');
    AfterHandlerTimely(db', w.job, w.at, call', w.call);
    hide WorkerTimely;
    AllTimelyFrom(StepHandler(s, owner, w.job, w.at, w.call, fault), s, owner);
  }

  lemma WorkerIsTimely(s: State, owner: Id, db: Db)
    requires WorkerOf(s, owner).Handling? && forall w :: w in s.workers ==> WorkerTimely(db, s.workers[w])
    ensures WorkerTimely(db, s.workers[owner])
  {
  }

  lemma CallStepJobsOk(s: State, owner: Id, fault: Fault)
    requires WorkerOf(s, owner).Handling? && Inv(s)
    ensures CallStep(s.db, s.workers[owner].call, fault).1.request == s.workers[owner].call.request
    ensures CallOk(s.db, s.workers[owner].call) && DbInv(s.db)
  {
    assert WorkerOk(s.db, owner, s.workers[owner]);
    hide DbInv, CallStep, CallOk, TxStep;
    CallStepKeeps(s.db, s.workers[owner].call, fault);
  }

  lemma AfterHandlerTimely(db: Db, job: Job, at: Instant, call: Call, before: Call)
    requires WorkerTimely(db, Handling(job, at, before)) && call.request == before.request
    ensures WorkerTimely(db, AfterHandler(job, at, call))
  {
    hide ClaimedInTime;
  }

  lemma ClaimStepTimely(s: State, owner: Id, id: Id, now: Instant, lease: nat, fault: Fault)
    requires AllTimely(s) && Inv(s)
    requires ClockRespected(s, Claim(owner, id, now, lease, fault))
    ensures AllTimely(Next(s, Claim(owner, id, now, lease, fault)))
  {
    if WorkerOf(s, owner).Resting? && fault == NoFault && IsNext(s.db.jobs, now, id) {
      NextFacts(s.db.jobs, now, id);
      hide Inv, IsNext, Claimable, InRange, AllTimely;
      ClaimTimely(s, owner, id, now, lease);
    }
  }

  lemma SettleStepTimely(s: State, owner: Id, now: Instant, fault: Fault)
    requires AllTimely(s) && Inv(s)
    requires ClockRespected(s, Settle(owner, now, fault))
    ensures AllTimely(Next(s, Settle(owner, now, fault)))
  {
    hide Inv, AllTimely, SettledJobs, HoldsJob, SettleStep, CallStep, IsNext;
    var w := WorkerOf(s, owner);
    if w.Settling? {
      SettlingHolds(s, owner);
      SettleUnfolds(s, owner, now, fault);
      if fault == NoFault {
        SettleTimely(s, owner, w.job, w.at, w.error, now);
      } else {
        GivesUpTimely(s, owner);
      }
    }
  }

  lemma GivesUpTimely(s: State, owner: Id)
    requires AllTimely(s)
    ensures AllTimely(WithWorker(s, owner, Resting))
  {
    RestingTimely(s.db);
    hide WorkerTimely, Timely;
    AllTimelyFrom(WithWorker(s, owner, Resting), s, owner);
  }

  lemma SettlingHolds(s: State, owner: Id)
    requires Inv(s) && WorkerOf(s, owner).Settling?
    ensures HoldsJob(s.db.jobs, owner, WorkerOf(s, owner).job)
  {
    hide DbInv, CallOk, Counted, Fenced, LeasesRespected, HoldsJob, Achieved, HandlerOp;
    assert WorkerOk(s.db, owner, s.workers[owner]);
  }

  lemma SettleUnfolds(s: State, owner: Id, now: Instant, fault: Fault)
    requires WorkerOf(s, owner).Settling?
    ensures var w := WorkerOf(s, owner);
      Next(s, Settle(owner, now, fault))
        == if fault == NoFault then SettleStep(s, owner, w.job, w.error, now) else WithWorker(s, owner, Resting)
  {
    hide CallStep, IsNext, SettledJobs;
  }

  lemma ProceedStepTimely(s: State, id: Id, fault: Fault)
    requires AllTimely(s) && Inv(s)
    ensures AllTimely(Next(s, Proceed(id, fault)))
  {
    hide CallStep, DbInv, CallOk, Timely, WorkerTimely, WorkerOk, Counted, Fenced, LeasesRespected, IsNext;
    if id in s.calls {
      CallStepTimely(s, s.calls[id], fault);
    }
  }

  /** The due times stay right over every step that respects the clock. */
  lemma NextTimely(s: State, step: Step)
    requires ClockRespected(s, step) && AllTimely(s) && Inv(s)
    ensures AllTimely(Next(s, step))
  {
    hide Inv, AllTimely, Next;
    match step
    case Proceed(id, fault) => ProceedStepTimely(s, id, fault);
    case Claim(owner, id, now, lease, fault) => ClaimStepTimely(s, owner, id, now, lease, fault);
    case Handle(owner, env, cleanup) => HandleTimely(s, owner, env, cleanup);
    case HandlerStep(owner, fault) => HandlerStepTimely(s, owner, fault);
    case Settle(owner, now, fault) => SettleStepTimely(s, owner, now, fault);
    case Cancel(id, now) => CancelTimely(s, id, now);
    case _ => QuietTimely(s, step);
  }

  lemma HandlerStepTimely(s: State, owner: Id, fault: Fault)
    requires AllTimely(s) && Inv(s)
    ensures AllTimely(Next(s, HandlerStep(owner, fault)))
  {
    hide Inv, AllTimely, CallStep, IsNext;
    if WorkerOf(s, owner).Handling? {
      HandlerTimely(s, owner, fault);
    }
  }

  lemma NextFacts(jobs: Jobs, now: Instant, id: Id)
    requires IsNext(jobs, now, id) && JobsOk(jobs)
    ensures id in jobs && jobs[id].id == id && Claimable(jobs[id], now)
  {
    hide Claimable;
  }

  lemma HandleTimely(s: State, owner: Id, env: Env, cleanup: Option<Error>)
    requires ClockRespected(s, Handle(owner, env, cleanup)) && AllTimely(s)
    ensures AllTimely(Next(s, Handle(owner, env, cleanup)))
  {
    hide Timely, ClaimedInTime, HandlerOp;
    if WorkerOf(s, owner).Holding? {
      assert WorkerTimely(s.db, s.workers[owner]);
    }
  }

  lemma CancelTimely(s: State, id: Id, now: Instant)
    requires AllTimely(s)
    ensures AllTimely(Next(s, Cancel(id, now)))
  {
    hide SqlLe, InRange;
  }

  lemma QuietTimely(s: State, step: Step)
    requires step.AddUser? || step.Begin? || step.Drop? || step.Crash?
    requires AllTimely(s)
    ensures AllTimely(Next(s, step))
  {
    hide CallStep, SqlLe, InRange;
  }

  lemma {:induction false} RunTimely(s: State, steps: seq<Step>)
    requires ClocksRespected(s, steps) && AllTimely(s) && Inv(s)
    ensures AllTimely(Run(s, steps))
    decreases |steps|
  {
    if steps != [] {
      hide Inv, AllTimely, ClockRespected, Next;
      NextTimely(s, steps[0]);
      NextKeeps(s, steps[0]);
      RunTimely(Next(s, steps[0]), steps[1..]);
    }
  }

  /** Over every run that respects the clock no expiry job is due before its
      reservation expires. */
  lemma ExpiryJobsAreTimely(steps: seq<Step>, k: Id)
    requires ClocksRespected(START, steps) && k in Run(START, steps).db.jobs
    ensures Timely(Run(START, steps).db, Run(START, steps).db.jobs[k])
  {
    StartOk();
    RunTimely(START, steps);
  }

  /** A worker handling an expiry job before the reservation expires can only have
      claimed it at an instant whose text wrongly compares with the due time: the
      two lie in one second and one fraction is a proper prefix of the other. */
  lemma EarlyOnlyIfInverted(steps: seq<Step>, owner: Id)
    requires ClocksRespected(START, steps)
    ensures var s := Run(START, steps); var w := WorkerOf(s, owner);
      w.Handling? && w.job.kind == ExpireReservationJob && w.job.aggregate in s.db.reservations
      && w.call.request.env.now < s.db.reservations[w.job.aggregate].expiresAt
      ==> Inverted(w.job.availableAt, w.at)
  {
    StartOk();
    RunTimely(START, steps);
    EveryRunIsSafe(steps);
    hide Run, Inverted, AllTimely, Inv;
    var s := Run(START, steps);
    if WorkerOf(s, owner).Handling? {
      HandledIsRunning(s, owner);
      EarlyIsInverted(s, owner);
    }
  }

  lemma HandledIsRunning(s: State, owner: Id)
    requires WorkerOf(s, owner).Handling? && Inv(s)
    ensures WorkerOf(s, owner).job.status == JobRunning
  {
    assert WorkerOk(s.db, owner, s.workers[owner]);
  }

  lemma EarlyIsInverted(s: State, owner: Id)
    requires AllTimely(s)
    ensures var w := WorkerOf(s, owner);
      w.Handling? && w.job.kind == ExpireReservationJob && w.job.status == JobRunning && w.job.aggregate in s.db.reservations
      && w.call.request.env.now < s.db.reservations[w.job.aggregate].expiresAt
      ==> Inverted(w.job.availableAt, w.at)
  {
    var w := WorkerOf(s, owner);
    if w.Handling? {
      assert WorkerTimely(s.db, s.workers[owner]);
      hide InRange, SqlLe, Inverted;
      SqlLeAcrossSeconds(w.job.availableAt, w.at);
    }
  }
}
