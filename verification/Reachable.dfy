/** Every reachable state satisfies the invariant. */
module Reachable {
  import opened Basics
  import opened Timestamps
  import opened Domain
  import opened Transactions
  import opened Queue
  import opened Calls
  import opened Invariants
  import opened Effects
  import opened Preservation
  import opened System

  // -------------------------------------------- service calls and the queue

  /** Service calls only add jobs that nobody has claimed. */
  ghost predicate JobsGrow(a: Jobs, b: Jobs) {
    && (forall k :: k in a ==> k in b && b[k] == a[k])
    && (forall k :: k in b && k !in a ==> b[k].attempts == 0 && b[k].status == JobPending && 0 < b[k].maxAttempts)
  }

  predicate Unclaimed(j: Job) { j.attempts == 0 && j.status == JobPending && 0 < j.maxAttempts }

  lemma PlannedJobs(req: Request, seen: Reads)
    requires PlanOf(req, seen).Submit?
    ensures var tx := PlanOf(req, seen).tx;
      (tx.CreateReservationTx? || tx.CreateDeploymentTx?) ==> Unclaimed(tx.job)
  {
  }

  lemma OneMoreJob(jobs: Jobs, j: Job)
    requires j.id !in jobs && Unclaimed(j)
    ensures JobsGrow(jobs, jobs[j.id := j])
  {
  }

  lemma WrittenJobs(db: Db, tx: Tx)
    requires DemandsOf(db, tx).Met()
    requires (tx.CreateReservationTx? || tx.CreateDeploymentTx?) ==> Unclaimed(tx.job)
    ensures JobsGrow(db.jobs, Written(db, tx).jobs)
  {
    if tx.CreateReservationTx? || tx.CreateDeploymentTx? {
      var j := tx.job;
      assert j.id !in db.jobs && Written(db, tx).jobs == db.jobs[j.id := j];
      hide DemandsOf, Written;
      OneMoreJob(db.jobs, j);
    } else {
      hide DemandsOf, JobsGrow;
      assert Written(db, tx).jobs == db.jobs;
      SameJobs(db.jobs);
    }
  }

  lemma CallStepJobs(db: Db, call: Call, fault: Fault)
    ensures JobsGrow(db.jobs, CallStep(db, call, fault).0.jobs)
  {
    if call.Ongoing? {
      var req, seen := call.request, call.seen;
      if PlanOf(req, seen).Submit? {
        PlannedJobs(req, seen);
        var tx := PlanOf(req, seen).tx;
        hide PlanOf, DemandsOf, Written, JobsGrow;
        if DemandsOf(db, tx).Met() {
          WrittenJobs(db, tx);
        }
        SameJobs(db.jobs);
      }
    }
  }

  lemma SameJobs(jobs: Jobs)
    ensures JobsGrow(jobs, jobs)
  {
  }

  lemma JobsGrowKeepsHeld(a: Jobs, b: Jobs, owner: Id, job: Job)
    requires JobsGrow(a, b) && HoldsJob(a, owner, job)
    ensures HoldsJob(b, owner, job)
  {
  }

  lemma WorkerSurvives(a: Db, b: Db, owner: Id, w: Worker)
    requires TxStep(a, b) && JobsGrow(a.jobs, b.jobs) && WorkerOk(a, owner, w)
    ensures WorkerOk(b, owner, w)
  {
    hide TxStep, JobsGrow, HoldsJob, CallOk, Achieved;
    match w
    case Holding(job, _) => JobsGrowKeepsHeld(a.jobs, b.jobs, owner, job);
    case Handling(job, _, call) => JobsGrowKeepsHeld(a.jobs, b.jobs, owner, job); CallSurvives(a, b, call);
    case Settling(job, _, error) =>
      JobsGrowKeepsHeld(a.jobs, b.jobs, owner, job);
      if error.None? && HandlerOp(job).Some? {
        AchievedSurvives(a, b, HandlerOp(job).value);
      }
    case _ =>
  }

  lemma AchievedSurvives(a: Db, b: Db, op: Op)
    requires TxStep(a, b) && Achieved(a, op)
    ensures Achieved(b, op)
  {
    match op
    case Expire(id) => assert ReservationMove(a.reservations[id], b.reservations[id]);
    case Activate(id) => assert DeploymentMove(a.deployments[id], b.deployments[id]);
    case _ =>
  }

  // ----------------------------------------------------------- the history

  lemma {:induction false} NoHistory(log: seq<Event>, job: Id)
    requires forall i :: 0 <= i < |log| ==> log[i].job != job
    ensures ClaimsOf(log, job) == 0 && TakeoversOf(log, job) == 0 && LastClaim(log, job) == None
  {
    if log != [] {
      NoHistory(log[..|log| - 1], job);
    }
  }

  lemma {:induction false} LastClaimIsThere(log: seq<Event>, job: Id)
    requires LastClaim(log, job).Some?
    ensures exists i :: 0 <= i < |log| && log[i] == LastClaim(log, job).value && log[i].ClaimEvent? && log[i].job == job
  {
    var e := log[|log| - 1];
    if !(e.ClaimEvent? && e.job == job) {
      LastClaimIsThere(log[..|log| - 1], job);
      var i :| 0 <= i < |log| - 1 && log[..|log| - 1][i] == LastClaim(log, job).value
               && log[i].ClaimEvent? && log[i].job == job;
      assert log[i] == LastClaim(log, job).value;
    }
  }

  function Takes(e: Event, job: Id): nat { if e.ClaimEvent? && e.job == job && e.displaced.Some? then 1 else 0 }

  lemma Appended(log: seq<Event>, e: Event)
    ensures (log + [e])[..|log|] == log
    ensures forall job :: ClaimsOf(log + [e], job) == ClaimsOf(log, job) + if e.ClaimEvent? && e.job == job then 1 else 0
    ensures forall job :: TakeoversOf(log + [e], job) == TakeoversOf(log, job) + Takes(e, job)
    ensures forall job :: LastClaim(log + [e], job) == if e.ClaimEvent? && e.job == job then Some(e) else LastClaim(log, job)
  {
    assert (log + [e])[..|log|] == log;
  }

  lemma GrowthCounted(a: Jobs, b: Jobs, log: seq<Event>)
    requires JobsGrow(a, b) && Counted(a, log)
    ensures Counted(b, log)
  {
    forall k | k in b && k !in a ensures ClaimsOf(log, k) == 0 && TakeoversOf(log, k) == 0 {
      NoHistory(log, k);
    }
  }

  lemma GrowthFenced(a: Jobs, b: Jobs, log: seq<Event>)
    requires JobsGrow(a, b) && Fenced(a, log)
    ensures Fenced(b, log)
  {
  }

  /** What a claim does to one row. */
  predicate IsClaimOf(a: Job, b: Job, e: Event) {
    && Live(a) && b.status == JobRunning && b.attempts == a.attempts + 1 && SameDuty(a, b)
    && e.ClaimEvent? && e.job == a.id && b.leaseOwner == Some(e.owner) && e.attempt == b.attempts
    && (e.displaced.Some? <==> a.status == JobRunning)
  }

  lemma ClaimCounted(jobs: Jobs, j: Job, log: seq<Event>, e: Event)
    requires JobsOk(jobs) && Counted(jobs, log) && j.id in jobs && IsClaimOf(jobs[j.id], j, e)
    ensures Counted(jobs[j.id := j], log + [e])
  {
    Appended(log, e);
    assert JobShape(jobs[j.id]);
  }

  lemma ClaimFenced(jobs: Jobs, j: Job, log: seq<Event>, e: Event)
    requires Fenced(jobs, log) && j.id in jobs && jobs[j.id].id == j.id && IsClaimOf(jobs[j.id], j, e)
    ensures Fenced(jobs[j.id := j], log + [e])
  {
    var log' := log + [e];
    forall k | 0 <= k < |log'| && log'[k].SettleEvent? ensures exists i :: 0 <= i < k && SettlesClaim(log'[i], log'[k]) {
      var i :| 0 <= i < k && SettlesClaim(log[i], log[k]);
      assert SettlesClaim(log'[i], log'[k]);
    }
  }

  /** What any settlement or cancellation does to one row. */
  predicate EndsLease(a: Job, b: Job) {
    Live(a) && b.status != JobRunning && b.attempts == a.attempts && SameDuty(a, b)
  }

  lemma EndCounted(jobs: Jobs, j: Job, log: seq<Event>)
    requires Counted(jobs, log) && j.id in jobs && EndsLease(jobs[j.id], j)
    ensures Counted(jobs[j.id := j], log)
  {
  }

  lemma EndFenced(jobs: Jobs, j: Job, log: seq<Event>)
    requires Fenced(jobs, log) && j.id in jobs && EndsLease(jobs[j.id], j)
    ensures Fenced(jobs[j.id := j], log)
  {
  }

  lemma SettleCounted(jobs: Jobs, log: seq<Event>, e: Event)
    requires Counted(jobs, log) && e.SettleEvent? && e.job in jobs
    ensures Counted(jobs, log + [e])
  {
    Appended(log, e);
  }

  /** The settlement of a running job by its owner is its claim's first. */
  lemma SettleFenced(jobs: Jobs, j: Job, log: seq<Event>, e: Event)
    requires Fenced(jobs, log) && j.id in jobs && jobs[j.id].status == JobRunning && EndsLease(jobs[j.id], j)
    requires HeldByLastClaimant(jobs[j.id], LastClaim(log, j.id))
    requires e == SettleEvent(j.id, jobs[j.id].leaseOwner.value, jobs[j.id].attempts)
    ensures Fenced(jobs[j.id := j], log + [e])
  {
    var log' := log + [e];
    LastClaimIsThere(log, j.id);
    forall k | 0 <= k < |log'| && log'[k].SettleEvent? ensures exists i :: 0 <= i < k && SettlesClaim(log'[i], log'[k]) {
      if k < |log| {
        var i :| 0 <= i < k && SettlesClaim(log[i], log[k]);
        assert SettlesClaim(log'[i], log'[k]);
      } else {
        var i :| 0 <= i < |log| && log[i] == LastClaim(log, j.id).value && log[i].ClaimEvent? && log[i].job == j.id;
        assert SettlesClaim(log'[i], log'[k]);
      }
    }
    SettledOnceMore(jobs, j.id, log, e);
  }

  lemma SettledOnceMore(jobs: Jobs, id: Id, log: seq<Event>, e: Event)
    requires Fenced(jobs, log) && id in jobs && jobs[id].status == JobRunning
    requires e.SettleEvent? && e.job == id && e.attempt == jobs[id].attempts
    ensures SettledOnce(log + [e]) && ClaimedOnce(log + [e])
  {
  }

  // ------------------------------------------------- job rows and the outbox

  /** A job row may change while it keeps its duty, as long as success is earned. */
  lemma JobRowKeeps(db: Db, j: Job)
    requires JobsOk(db.jobs) && j.id in db.jobs && SameDuty(db.jobs[j.id], j) && JobShape(j)
    ensures JobsOk(db.jobs[j.id := j])
  {
  }

  predicate Earned(db: Db, j: Job) {
    j.status == JobSucceeded ==>
      && (j.kind == ExpireReservationJob ==> j.aggregate in db.reservations && !Held(db.reservations[j.aggregate]))
      && (j.kind == ActivateDeploymentJob ==> j.aggregate in db.deployments && db.deployments[j.aggregate].startedAt.Some?)
  }

  lemma ExpiryRowKeeps(db: Db, j: Job)
    requires ExpiryOutbox(db.jobs, db.reservations) && j.id in db.jobs && SameDuty(db.jobs[j.id], j) && Earned(db, j)
    ensures ExpiryOutbox(db.jobs[j.id := j], db.reservations)
  {
    var jobs' := db.jobs[j.id := j];
    forall r | r in db.reservations ensures HasExpiryJob(jobs', r) { ExpiryJobKept(db.jobs, jobs', r); }
    hide HasExpiryJob;
  }

  lemma ActivationRowKeeps(db: Db, j: Job)
    requires ActivationOutbox(db.jobs, db.deployments) && j.id in db.jobs && SameDuty(db.jobs[j.id], j) && Earned(db, j)
    ensures ActivationOutbox(db.jobs[j.id := j], db.deployments)
  {
    var jobs' := db.jobs[j.id := j];
    forall d | d in db.deployments ensures HasActivationJob(jobs', d) { ActivationJobKept(db.jobs, jobs', d); }
    hide HasActivationJob;
  }

  lemma JobWriteKeeps(db: Db, j: Job)
    requires j.id in db.jobs && SameDuty(db.jobs[j.id], j) && JobShape(j) && Earned(db, j)
    requires DbInv(db)
    ensures DbInv(db.(jobs := db.jobs[j.id := j])) && TxStep(db, db.(jobs := db.jobs[j.id := j]))
  {
    hide SitesOk, Conserved, Accounted, OnKnownSites, ScenariosOk, ReviewsOk, Qualified, DeploymentsOk, JobsOk, ExpiryOutbox, ActivationOutbox, Paired, Balanced, Metered;
    JobRowKeeps(db, j);
    ExpiryRowKeeps(db, j);
    ActivationRowKeeps(db, j);
  }

  /** Jobs are worth what they carry: the payload names the aggregate. */
  lemma TargetIsAggregate(db: Db, job: Job)
    requires OutboxInv(db) && job.id in db.jobs && SameDuty(job, db.jobs[job.id])
    ensures job.kind == ExpireReservationJob ==> HandlerOp(job) == Some(Expire(job.aggregate)) && job.aggregate in db.reservations
    ensures job.kind == ActivateDeploymentJob ==> HandlerOp(job) == Some(Activate(job.aggregate)) && job.aggregate in db.deployments
  {
  }

  // --------------------------------------------------------- preserving steps

  /** Everyone else keeps what they have when one job row changes hands, provided
      no busy worker other than `owner` owned it before or owns it after. */
  lemma HeldAfterWrite(jobs: Jobs, j: Job, owner: Id, job: Job)
    requires HoldsJob(jobs, owner, job) && j.id in jobs && SameDuty(jobs[j.id], j) && jobs[j.id].attempts <= j.attempts
    requires j.status == JobRunning ==> j.leaseOwner != Some(owner)
    ensures HoldsJob(jobs[j.id := j], owner, job)
  {
  }

  lemma WorkersAfterWrite(s: State, j: Job, busy: Id)
    requires forall w :: w in s.workers ==> WorkerOk(s.db, w, s.workers[w])
    requires j.id in s.db.jobs && SameDuty(s.db.jobs[j.id], j) && s.db.jobs[j.id].attempts <= j.attempts
    requires j.status == JobRunning ==> j.leaseOwner == Some(busy)
    ensures var db' := s.db.(jobs := s.db.jobs[j.id := j]);
      forall w :: w in s.workers && w != busy ==> WorkerOk(db', w, s.workers[w])
  {
    var db' := s.db.(jobs := s.db.jobs[j.id := j]);
    forall w | w in s.workers && w != busy ensures WorkerOk(db', w, s.workers[w]) {
      WorkerAfterWrite(s.db, j, w, s.workers[w]);
    }
  }

  lemma WorkerAfterWrite(db: Db, j: Job, owner: Id, w: Worker)
    requires WorkerOk(db, owner, w) && j.id in db.jobs && SameDuty(db.jobs[j.id], j) && db.jobs[j.id].attempts <= j.attempts
    requires j.status == JobRunning ==> j.leaseOwner != Some(owner)
    ensures WorkerOk(db.(jobs := db.jobs[j.id := j]), owner, w)
  {
    var db' := db.(jobs := db.jobs[j.id := j]);
    StayingPutExceptJobs(db, db');
    if w.Holding? || w.Handling? || w.Settling? {
      HeldAfterWrite(db.jobs, j, owner, w.job);
    }
    if w.Handling? {
      CallSurvives(db, db', w.call);
    }
    if w.Settling? && w.error.None? && HandlerOp(w.job).Some? {
      AchievedSurvives(db, db', HandlerOp(w.job).value);
    }
  }

  lemma StayingPutExceptJobs(a: Db, b: Db)
    requires b == a.(jobs := b.jobs)
    ensures TxStep(a, b)
  {
  }

  lemma CallsAfterJobs(s: State, jobs: Jobs)
    requires forall c :: c in s.calls ==> CallOk(s.db, s.calls[c])
    ensures forall c :: c in s.calls ==> CallOk(s.db.(jobs := jobs), s.calls[c])
  {
    StayingPutExceptJobs(s.db, s.db.(jobs := jobs));
    forall c | c in s.calls ensures CallOk(s.db.(jobs := jobs), s.calls[c]) {
      CallSurvives(s.db, s.db.(jobs := jobs), s.calls[c]);
    }
  }

  /** Tables moved by a service call: every other call and worker keeps its footing. */
  lemma OthersSurvive(s: State, db': Db)
    requires Inv(s) && TxStep(s.db, db') && JobsGrow(s.db.jobs, db'.jobs)
    ensures forall c :: c in s.calls ==> CallOk(db', s.calls[c])
    ensures forall w :: w in s.workers ==> WorkerOk(db', w, s.workers[w])
    ensures Counted(db'.jobs, s.log) && Fenced(db'.jobs, s.log)
  {
    hide DbInv, TxStep, JobsGrow, CallOk, WorkerOk, Counted, Fenced, LeasesRespected;
    forall c | c in s.calls ensures CallOk(db', s.calls[c]) { CallSurvives(s.db, db', s.calls[c]); }
    forall w | w in s.workers ensures WorkerOk(db', w, s.workers[w]) { WorkerSurvives(s.db, db', w, s.workers[w]); }
    GrowthCounted(s.db.jobs, db'.jobs, s.log);
    GrowthFenced(s.db.jobs, db'.jobs, s.log);
  }

  lemma ProceedUnfolds(s: State, id: Id, fault: Fault)
    requires id in s.calls
    ensures var (db', call') := CallStep(s.db, s.calls[id], fault);
      Next(s, Proceed(id, fault)) == s.(db := db', calls := s.calls[id := call'])
  {
    hide CallStep, IsNext;
  }

  lemma CallReplaced(s: State, db': Db, id: Id, call: Call)
    requires DbInv(db') && TxStep(s.db, db') && JobsGrow(s.db.jobs, db'.jobs) && CallOk(db', call)
    requires Inv(s)
    ensures Inv(s.(db := db', calls := s.calls[id := call]))
  {
    hide DbInv, TxStep, JobsGrow, CallOk, WorkerOk, Counted, Fenced, LeasesRespected;
    OthersSurvive(s, db');
  }

  lemma InvParts(s: State)
    requires Inv(s)
    ensures DbInv(s.db) && forall c :: c in s.calls ==> CallOk(s.db, s.calls[c])
  {
    hide DbInv, CallOk, WorkerOk, Counted, Fenced, LeasesRespected;
  }

  lemma ProceedKeeps(s: State, id: Id, fault: Fault)
    requires Inv(s) && id in s.calls
    ensures Inv(Next(s, Proceed(id, fault)))
  {
    hide Inv, Next, CallStep, DbInv, TxStep, JobsGrow, CallOk;
    InvParts(s);
    CallStepKeeps(s.db, s.calls[id], fault);
    CallStepJobs(s.db, s.calls[id], fault);
    ProceedUnfolds(s, id, fault);
    var (db', call') := CallStep(s.db, s.calls[id], fault);
    CallReplaced(s, db', id, call');
  }

  function AfterHandler(job: Job, at: Instant, call: Call): Worker {
    if call.Done? then Settling(job, at, ErrorOf(call.result)) else Handling(job, at, call)
  }

  lemma HandlerOutcome(db: Db, owner: Id, job: Job, at: Instant, call: Call)
    requires HoldsJob(db.jobs, owner, job) && CallOk(db, call) && HandlerOp(job) == Some(call.request.op)
    ensures WorkerOk(db, owner, AfterHandler(job, at, call))
  {
    hide HoldsJob, SnapsOk, HandlerOp;
  }

  lemma WorkerReplaced(s: State, owner: Id, w: Worker)
    requires Inv(s) && WorkerOk(s.db, owner, w)
    ensures Inv(WithWorker(s, owner, w))
  {
    hide DbInv, CallOk, WorkerOk, Counted, Fenced, LeasesRespected;
  }

  lemma HandlerStepKeeps(s: State, owner: Id, job: Job, at: Instant, call: Call, fault: Fault)
    requires owner in s.workers && s.workers[owner] == Handling(job, at, call)
    requires Inv(s)
    ensures Inv(StepHandler(s, owner, job, at, call, fault))
  {
    hide DbInv, TxStep, JobsGrow, Counted, Fenced, LeasesRespected, HoldsJob, CallOk, HandlerOp, CallStep;
    assert WorkerOk(s.db, owner, s.workers[owner]);
    CallStepKeeps(s.db, call, fault);
    CallStepJobs(s.db, call, fault);
    var (db', call') := CallStep(s.db, call, fault);
    hide WorkerOk;
    OthersSurvive(s, db');
    JobsGrowKeepsHeld(s.db.jobs, db'.jobs, owner, job);
    HandlerOutcome(db', owner, job, at, call');
    WorkerReplaced(s.(db := db'), owner, AfterHandler(job, at, call'));
  }

  lemma HandlerUnfolds(s: State, owner: Id, fault: Fault)
    ensures var w := WorkerOf(s, owner);
      Next(s, HandlerStep(owner, fault)) == if w.Handling? then StepHandler(s, owner, w.job, w.at, w.call, fault) else s
  {
    hide CallStep, IsNext, SettledJobs, Claimed;
  }

  /** A worker that turns from its claim to its handler. */
  function Handed(job: Job, at: Instant, env: Env, cleanup: Option<Error>): Worker {
    match HandlerOp(job)
    case Some(op) => Handling(job, at, Ongoing(Request(Anonymous, op, env), NoReads))
    case None => Settling(job, at, PlainOutcome(job, cleanup))
  }

  lemma HandIsStep(s: State, owner: Id, env: Env, cleanup: Option<Error>)
    requires owner in s.workers && s.workers[owner].Holding?
    ensures Next(s, Handle(owner, env, cleanup))
         == WithWorker(s, owner, Handed(s.workers[owner].job, s.workers[owner].at, env, cleanup))
  {
    hide CallStep, IsNext;
  }

  lemma HandedIsOk(db: Db, owner: Id, job: Job, at: Instant, env: Env, cleanup: Option<Error>)
    requires HoldsJob(db.jobs, owner, job)
    ensures WorkerOk(db, owner, Handed(job, at, env, cleanup))
  {
    hide HoldsJob;
  }

  lemma HandleKeeps(s: State, owner: Id, env: Env, cleanup: Option<Error>)
    requires Inv(s) && owner in s.workers && s.workers[owner].Holding?
    ensures Inv(Next(s, Handle(owner, env, cleanup)))
  {
    var w := s.workers[owner];
    assert WorkerOk(s.db, owner, w);
    var w' := Handed(w.job, w.at, env, cleanup);
    HandedIsOk(s.db, owner, w.job, w.at, env, cleanup);
    hide Inv, WorkerOk, HandlerOp, CallStep, IsNext;
    WorkerReplaced(s, owner, w');
    assert Next(s, Handle(owner, env, cleanup)) == WithWorker(s, owner, w') by { HandIsStep(s, owner, env, cleanup); }
  }

  // --------------------------------------------------- claims and settlements

  lemma ClaimWrites(jobs: Jobs, id: Id, owner: Id, now: Instant, lease: nat)
    requires JobsOk(jobs) && IsNext(jobs, now, id)
    ensures var j := ClaimedRow(jobs[id], owner, now, lease);
      j.id == id && SameDuty(jobs[id], j) && JobShape(j) && Live(jobs[id]) && HoldsJob(Claimed(jobs, id, owner, now, lease), owner, j)
    ensures SqlLe(jobs[id].availableAt, now)
    ensures jobs[id].status == JobRunning ==> jobs[id].leaseUntil.Some? && SqlLe(jobs[id].leaseUntil.value, now)
  {
    hide SqlLe, Before;
    assert JobShape(jobs[id]);
  }

  lemma PassedTest(at: Instant, time: Instant)
    requires SqlLe(time, at)
    ensures WaitedFor(at, time)
  {
    if InRange(at) && InRange(time) {
      TextOrderIsTimeOrder(at, time);
    }
  }

  lemma TakeoverTime(e: Event)
    requires e.ClaimEvent? && SqlLe(e.due, e.at) && (e.displaced.Some? ==> SqlLe(e.displaced.value, e.at))
    ensures LeaseRespected(e)
  {
    hide SqlLe, WaitedFor;
    PassedTest(e.at, e.due);
    if e.displaced.Some? {
      PassedTest(e.at, e.displaced.value);
    }
  }

  /** One job row is written, one worker moves on, and the history says so. */
  lemma JobStepKeeps(s: State, j: Job, busy: Id, w: Worker, log: seq<Event>)
    requires j.id in s.db.jobs && SameDuty(s.db.jobs[j.id], j) && JobShape(j) && Earned(s.db, j)
    requires s.db.jobs[j.id].attempts <= j.attempts && (j.status == JobRunning ==> j.leaseOwner == Some(busy))
    requires WorkerOk(s.db.(jobs := s.db.jobs[j.id := j]), busy, w)
    requires Counted(s.db.jobs[j.id := j], log) && Fenced(s.db.jobs[j.id := j], log) && LeasesRespected(log)
    requires Inv(s)
    ensures Inv(State(s.db.(jobs := s.db.jobs[j.id := j]), s.calls, s.workers[busy := w], log))
  {
    hide SameDuty, JobShape, Earned, LeasesRespected, Counted, Fenced, CallOk, DbInv, WorkerOk, TxStep;
    JobWriteKeeps(s.db, j);
    CallsAfterJobs(s, s.db.jobs[j.id := j]);
    WorkersAfterWrite(s, j, busy);
  }

  function ClaimEntry(j: Job, claimed: Job, owner: Id, now: Instant): Event {
    ClaimEvent(j.id, owner, claimed.attempts, now, j.availableAt, if j.status == JobRunning then j.leaseUntil else None)
  }

  lemma ClaimIsEntered(jobs: Jobs, id: Id, owner: Id, now: Instant, lease: nat)
    requires JobsOk(jobs) && IsNext(jobs, now, id)
    ensures var j := ClaimedRow(jobs[id], owner, now, lease);
      IsClaimOf(jobs[id], j, ClaimEntry(jobs[id], j, owner, now)) && LeaseRespected(ClaimEntry(jobs[id], j, owner, now))
  {
    ClaimWrites(jobs, id, owner, now, lease);
    hide SqlLe, Before, HoldsJob, LeaseRespected;
    assert JobShape(jobs[id]);
    TakeoverTime(ClaimEntry(jobs[id], ClaimedRow(jobs[id], owner, now, lease), owner, now));
  }

  /** The history after a claim. */
  lemma ClaimHistory(jobs: Jobs, log: seq<Event>, id: Id, owner: Id, now: Instant, lease: nat)
    requires JobsOk(jobs) && IsNext(jobs, now, id)
    requires Counted(jobs, log) && Fenced(jobs, log) && LeasesRespected(log)
    ensures var e := ClaimEntry(jobs[id], ClaimedRow(jobs[id], owner, now, lease), owner, now);
      && Counted(Claimed(jobs, id, owner, now, lease), log + [e])
      && Fenced(Claimed(jobs, id, owner, now, lease), log + [e])
      && LeasesRespected(log + [e])
  {
    ClaimIsEntered(jobs, id, owner, now, lease);
    assert jobs[id].id == id;
    hide JobsOk, IsNext, IsClaimOf, Counted, Fenced, LeaseRespected;
    var j := ClaimedRow(jobs[id], owner, now, lease);
    ClaimCounted(jobs, j, log, ClaimEntry(jobs[id], j, owner, now));
    ClaimFenced(jobs, j, log, ClaimEntry(jobs[id], j, owner, now));
  }

  lemma ClaimKeeps(s: State, owner: Id, id: Id, now: Instant, lease: nat)
    requires IsNext(s.db.jobs, now, id) && s.db.jobs[id].id == id
    requires Inv(s)
    ensures Inv(ClaimStep(s, owner, id, now, lease))
  {
    ClaimWrites(s.db.jobs, id, owner, now, lease);
    ClaimHistory(s.db.jobs, s.log, id, owner, now, lease);
    hide SqlLe, IsNext, SameDuty, JobShape, HoldsJob, LeasesRespected, Counted, Fenced, CallOk, JobsOk, DbInv;
    var j := ClaimedRow(s.db.jobs[id], owner, now, lease);
    JobStepKeeps(s, j, owner, Holding(j, now), s.log + [ClaimEntry(s.db.jobs[id], j, owner, now)]);
  }

  /** A settled row, or the row as it was if the worker no longer owns it. */
  lemma SettleWrites(db: Db, owner: Id, job: Job, at: Instant, error: Option<Error>, now: Instant)
    requires OutboxInv(db) && WorkerOk(db, owner, Settling(job, at, error)) && OwnedBy(db.jobs, job.id, owner)
    ensures var j := SettledJobs(db.jobs, owner, job, error, now)[job.id];
      && SettledJobs(db.jobs, owner, job, error, now) == db.jobs[j.id := j]
      && j.id == job.id && EndsLease(db.jobs[j.id], j) && JobShape(j) && Earned(db, j)
  {
    TargetIsAggregate(db, job);
    assert db.jobs[job.id] == job && JobShape(job);
  }

  lemma SettleHistory(jobs: Jobs, j: Job, log: seq<Event>)
    requires j.id in jobs && jobs[j.id].status == JobRunning && EndsLease(jobs[j.id], j)
    requires Counted(jobs, log) && Fenced(jobs, log) && LeasesRespected(log)
    ensures HeldByLastClaimant(jobs[j.id], LastClaim(log, j.id))
    ensures var e := SettleEvent(j.id, jobs[j.id].leaseOwner.value, jobs[j.id].attempts);
      Counted(jobs[j.id := j], log + [e]) && Fenced(jobs[j.id := j], log + [e]) && LeasesRespected(log + [e])
  {
    var e := SettleEvent(j.id, jobs[j.id].leaseOwner.value, jobs[j.id].attempts);
    EndCounted(jobs, j, log);
    SettleCounted(jobs[j.id := j], log, e);
    SettleFenced(jobs, j, log, e);
  }

  lemma SettleKeeps(s: State, owner: Id, job: Job, at: Instant, error: Option<Error>, now: Instant)
    requires owner in s.workers && s.workers[owner] == Settling(job, at, error)
    requires Inv(s)
    ensures Inv(SettleStep(s, owner, job, error, now))
  {
    assert WorkerOk(s.db, owner, s.workers[owner]);
    if OwnedBy(s.db.jobs, job.id, owner) {
      SettleWrites(s.db, owner, job, at, error, now);
      var j := SettledJobs(s.db.jobs, owner, job, error, now)[job.id];
      hide DbInv, HoldsJob, HandlerOp, Achieved, SettledJobs, LeasesRespected, Counted, Fenced, CallOk, JobShape, Earned;
      SettleHistory(s.db.jobs, j, s.log);
      var e := SettleEvent(j.id, owner, s.db.jobs[j.id].attempts);
      JobStepKeeps(s, j, owner, Resting, s.log + [e]);
    } else {
      assert SettledJobs(s.db.jobs, owner, job, error, now) == s.db.jobs;
      hide DbInv, HoldsJob, HandlerOp, Achieved, SettledJobs, LeasesRespected, Counted, Fenced, CallOk;
      WorkerReplaced(s, owner, Resting);
    }
  }

  lemma InvHasJobs(s: State)
    requires Inv(s)
    ensures JobsOk(s.db.jobs)
  {
    hide JobsOk, CapacityInv, QualificationInv, DeploymentsOk, LedgerInv, ExpiryOutbox, ActivationOutbox, CallOk, WorkerOk, Counted, Fenced;
  }

  lemma CancelEndsLease(db: Db, id: Id, now: Instant)
    requires JobsOk(db.jobs) && id in db.jobs && Live(db.jobs[id])
    ensures id in Cancelled(db.jobs, id, now)
    ensures var j := Cancelled(db.jobs, id, now)[id];
      j.id == id && EndsLease(db.jobs[id], j) && SameDuty(db.jobs[id], j) && JobShape(j) && Earned(db, j)
      && Cancelled(db.jobs, id, now) == db.jobs[id := j]
  {
    assert db.jobs[id].id == id && JobShape(db.jobs[id]);
  }

  lemma CancelKeeps(s: State, id: Id, now: Instant)
    requires id in s.db.jobs && Live(s.db.jobs[id])
    requires Inv(s)
    ensures Inv(WithJobs(s, Cancelled(s.db.jobs, id, now)))
  {
    hide JobsOk, DbInv, LeasesRespected, Counted, Fenced, CallOk, WorkerOk, EndsLease, SameDuty, Earned, JobShape, Cancelled;
    InvHasJobs(s);
    CancelEndsLease(s.db, id, now);
    var j := Cancelled(s.db.jobs, id, now)[id];
    EndCounted(s.db.jobs, j, s.log);
    EndFenced(s.db.jobs, j, s.log);
    JobWriteKeeps(s.db, j);
    CallsAfterJobs(s, s.db.jobs[id := j]);
    forall w | w in s.workers ensures WorkerOk(s.db.(jobs := s.db.jobs[id := j]), w, s.workers[w]) {
      WorkerAfterWrite(s.db, j, w, s.workers[w]);
    }
  }

  // ------------------------------------------------------------ every run

  lemma QuietStepKeeps(s: State, step: Step)
    requires step.AddUser? || step.Begin? || step.Drop? || step.Crash?
    requires Inv(s)
    ensures Inv(Next(s, step))
  {
    hide LeasesRespected, Counted, Fenced;
    if step.AddUser? {
      var db' := s.db.(users := s.db.users + {step.user});
      StayingPutExceptUsers(s.db, db');
      assert DbInv(db');
      SameJobs(s.db.jobs);
      hide DbInv, CallOk, WorkerOk, TxStep, JobsGrow;
      forall c | c in s.calls ensures CallOk(db', s.calls[c]) { CallSurvives(s.db, db', s.calls[c]); }
      forall w | w in s.workers ensures WorkerOk(db', w, s.workers[w]) { WorkerSurvives(s.db, db', w, s.workers[w]); }
    } else {
      hide DbInv, WorkerOk;
      if step.Crash? {
        WorkerReplaced(s, step.owner, Crashed) by { assert WorkerOk(s.db, step.owner, Crashed) by { CrashedIsOk(s.db, step.owner); } }
      }
    }
  }

  lemma CrashedIsOk(db: Db, owner: Id)
    ensures WorkerOk(db, owner, Crashed) && WorkerOk(db, owner, Resting)
  {
  }

  lemma StayingPutExceptUsers(a: Db, b: Db)
    requires b == a.(users := b.users)
    ensures TxStep(a, b)
  {
  }

  /** The invariant is inductive. */
  lemma NextKeeps(s: State, step: Step)
    requires Inv(s)
    ensures Inv(Next(s, step))
  {
    assert JobsOk(s.db.jobs);
    hide Inv;
    match step
    case Proceed(id, fault) => if id in s.calls { ProceedKeeps(s, id, fault); }
    case Claim(owner, id, now, lease, fault) =>
      hide IsNext;
      if WorkerOf(s, owner).Resting? && fault == NoFault && IsNext(s.db.jobs, now, id) {
        NextIsThere(s.db.jobs, now, id);
        ClaimKeeps(s, owner, id, now, lease);
      }
    case Handle(owner, env, cleanup) => if WorkerOf(s, owner).Holding? { HandleKeeps(s, owner, env, cleanup); }
    case HandlerStep(owner, fault) =>
      var w := WorkerOf(s, owner);
      if w.Handling? { HandlerStepKeeps(s, owner, w.job, w.at, w.call, fault); }
    case Settle(owner, now, fault) =>
      var w := WorkerOf(s, owner);
      if w.Settling? {
        if fault == NoFault { SettleKeeps(s, owner, w.job, w.at, w.error, now); }
        else { CrashedIsOk(s.db, owner); WorkerReplaced(s, owner, Resting); }
      }
    case Cancel(id, now) =>
      if id in s.db.jobs && Live(s.db.jobs[id]) { CancelKeeps(s, id, now); }
    case _ => QuietStepKeeps(s, step);
  }

  lemma RunNothing(s: State)
    ensures Run(s, []) == s
  {
  }

  lemma {:induction false} RunConcat(s: State, a: seq<Step>, b: seq<Step>)
    ensures Run(s, a + b) == Run(Run(s, a), b)
    decreases |a|
  {
    hide Next;
    if a == [] {
      assert a + b == b;
    } else {
      assert (a + b)[0] == a[0] && (a + b)[1..] == a[1..] + b;
      RunConcat(Next(s, a[0]), a[1..], b);
    }
  }

  lemma NextIsThere(jobs: Jobs, now: Instant, id: Id)
    requires JobsOk(jobs) && IsNext(jobs, now, id)
    ensures id in jobs && jobs[id].id == id
  {
  }

  lemma StartOk()
    ensures Inv(START)
  {
    assert Balanced(EMPTY.usage, EMPTY.settlements) by {
      forall p: Id ensures MapSum(EMPTY.settlements, AmountOf(p)) == 17 * MapSum(EMPTY.usage, SecondsOf(p)) {
        MapSumZero(EMPTY.settlements, AmountOf(p));
        MapSumZero(EMPTY.usage, SecondsOf(p));
      }
    }
  }

  lemma {:induction false} RunKeeps(s: State, steps: seq<Step>)
    requires Inv(s)
    ensures Inv(Run(s, steps))
    decreases |steps|
  {
    if steps != [] {
      NextKeeps(s, steps[0]);
      RunKeeps(Next(s, steps[0]), steps[1..]);
    }
  }

  /** Every state of every interleaved run from empty tables satisfies the invariant. */
  lemma EveryRunIsSafe(steps: seq<Step>)
    ensures Inv(Run(START, steps))
  {
    StartOk();
    RunKeeps(START, steps);
  }
}
