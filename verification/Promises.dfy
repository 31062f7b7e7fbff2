/** What a partner is promised by a successful reservation, in every later state of
    every run: the units and the time that were asked for, and a job that will expire
    the reservation at that time. */
module Promises {
  import opened Basics
  import opened Timestamps
  import opened Domain
  import opened Transactions
  import opened Queue
  import opened Calls
  import opened Invariants
  import opened Effects
  import opened Preservation
  import opened System
  import opened Reachable
  import opened Theorems
  import opened Outcomes

  /** The job that expires `r`: it names the reservation and its expiry, and is due then
      until it is first claimed. */
  predicate WillExpire(j: Job, r: Reservation) {
    && j.kind == ExpireReservationJob && j.aggregate == r.id && j.maxAttempts == 5
    && j.payload == Some(map["reservation_id" := r.id, "expires_at" := Timestamp(r.expiresAt)])
    && (j.attempts == 0 ==> j.availableAt == r.expiresAt)
  }

  ghost predicate JobPromised(jobs: Jobs, r: Reservation) { exists k :: k in jobs && WillExpire(jobs[k], r) }

  /** The answer is what was asked for, and the tables hold it. */
  ghost predicate AsAsked(db: Db, req: Request, r: Reservation)
    requires req.op.Reserve?
  {
    && 60 * 1_000_000_000 <= req.op.ttl <= 7 * 86_400 * 1_000_000_000
    && r == AskedFor(UserOf(req.actor), req.env, req.op.scenario, req.op.site, r.units, req.op.ttl)
    && req.op.scenario in db.scenarios && db.scenarios[req.op.scenario].requested == r.units
    && r.id in db.reservations && SameReservation(r, db.reservations[r.id])
    && JobPromised(db.jobs, r)
  }

  ghost predicate PromiseKept(db: Db, call: Call) {
    call.Done? && call.request.op.Reserve? && call.result.Ok? ==>
      call.result.value.ReservationAnswer? && AsAsked(db, call.request, call.result.value.reservation)
  }

  // ------------------------------------------------------------ jobs over a run

  /** Jobs stay what they are for, and until they are claimed when they are due. */
  ghost predicate JobsLater(a: Jobs, b: Jobs) {
    forall k :: k in a ==>
      k in b && SameDuty(a[k], b[k]) && (b[k].attempts == 0 ==> a[k].attempts == 0 && b[k].availableAt == a[k].availableAt)
  }

  lemma PromisedLater(a: Jobs, b: Jobs, r: Reservation)
    requires JobsLater(a, b) && JobPromised(a, r)
    ensures JobPromised(b, r)
  {
    var k :| k in a && WillExpire(a[k], r);
    assert WillExpire(b[k], r);
  }

  lemma RowLater(jobs: Jobs, id: Id, j: Job)
    requires id in jobs && SameDuty(jobs[id], j)
    requires j.attempts == 0 ==> jobs[id].attempts == 0 && j.availableAt == jobs[id].availableAt
    ensures JobsLater(jobs, jobs[id := j])
  {
  }

  lemma SettledLater(jobs: Jobs, owner: Id, job: Job, error: Option<Error>, now: Instant)
    requires JobsOk(jobs)
    ensures JobsLater(jobs, SettledJobs(jobs, owner, job, error, now))
  {
    if OwnedBy(jobs, job.id, owner) {
      assert JobShape(jobs[job.id]);
    }
    hide Backoff;
  }

  lemma CancelledLater(jobs: Jobs, id: Id, now: Instant)
    ensures JobsLater(jobs, Cancelled(jobs, id, now))
  {
  }

  lemma CallLater(db: Db, call: Call, fault: Fault)
    ensures JobsLater(db.jobs, CallStep(db, call, fault).0.jobs)
  {
    hide CallStep;
    CallStepJobs(db, call, fault);
  }

  lemma StepLater(s: State, step: Step)
    requires Inv(s)
    ensures JobsLater(s.db.jobs, Next(s, step).db.jobs)
  {
    hide CallStep, IsNext, SettledJobs, Cancelled, JobsLater, HandlerOp, Inv;
    match step
    case Proceed(id, fault) => if id in s.calls { CallLater(s.db, s.calls[id], fault); } else { NothingLater(s.db.jobs); }
    case HandlerStep(owner, fault) =>
      var w := WorkerOf(s, owner);
      if w.Handling? { CallLater(s.db, w.call, fault); } else { NothingLater(s.db.jobs); }
    case Settle(owner, now, _) =>
      var w := WorkerOf(s, owner);
      JobsInInv(s);
      NothingLater(s.db.jobs);
      if w.Settling? { SettledLater(s.db.jobs, owner, w.job, w.error, now); }
    case Cancel(id, now) => CancelledLater(s.db.jobs, id, now);
    case Claim(owner, id, now, lease, _) =>
      JobsInInv(s);
      ClaimLater(s, owner, id, now, lease, step);
    case _ => NothingLater(s.db.jobs);
  }

  lemma ClaimLater(s: State, owner: Id, id: Id, now: Instant, lease: nat, step: Step)
    requires step.Claim? && step.owner == owner && step.job == id && step.now == now && step.lease == lease
    requires JobsOk(s.db.jobs)
    ensures JobsLater(s.db.jobs, Next(s, step).db.jobs)
  {
    NothingLater(s.db.jobs);
    if id in s.db.jobs {
      ClaimedLater(s.db.jobs, id, owner, now, lease);
    }
    hide CallStep, JobsLater, Before, Claimable, JobsOk, Claimed;
  }

  lemma ClaimedLater(jobs: Jobs, id: Id, owner: Id, now: Instant, lease: nat)
    requires JobsOk(jobs) && id in jobs
    ensures JobsLater(jobs, Claimed(jobs, id, owner, now, lease))
  {
    assert JobShape(jobs[id]);
    RowLater(jobs, id, ClaimedRow(jobs[id], owner, now, lease));
    hide JobsLater;
  }

  lemma JobsInInv(s: State)
    requires Inv(s)
    ensures JobsOk(s.db.jobs)
  {
    hide CapacityInv, QualificationInv, DeploymentsOk, LedgerInv, ExpiryOutbox, ActivationOutbox, CallOk, WorkerOk, Counted, Fenced, LeasesRespected;
  }

  lemma NothingLater(jobs: Jobs)
    ensures JobsLater(jobs, jobs)
  {
  }

  // --------------------------------------------------------- the promise lasts

  lemma PromiseLasts(a: Db, b: Db, call: Call)
    requires TxStep(a, b) && JobsLater(a.jobs, b.jobs) && PromiseKept(a, call)
    ensures PromiseKept(b, call)
  {
    if call.Done? && call.request.op.Reserve? && call.result.Ok? {
      var r := call.result.value.reservation;
      assert ReservationMove(a.reservations[r.id], b.reservations[r.id]);
      assert ScenarioMove(a.scenarios[call.request.op.scenario], b.scenarios[call.request.op.scenario]);
      hide TxStep, JobsLater, WillExpire;
      PromisedLater(a.jobs, b.jobs, r);
    }
  }

  /** The commit of a reservation, from whatever snapshots, makes the promise. */
  lemma CommitPromises(db: Db, call: Call, fault: Fault)
    requires call.Ongoing? && CallOk(db, call)
    ensures PromiseKept(CallStep(db, call, fault).0, CallStep(db, call, fault).1)
  {
    hide PromiseKept;
    var (db', call') := CallStep(db, call, fault);
    if call.request.op.Reserve? && call'.Done? && call'.result.Ok? {
      ReservePromises(db, call.request, call.seen, fault);
    } else {
      OtherwiseKept(db, call, fault);
    }
  }

  lemma OtherwiseKept(db: Db, call: Call, fault: Fault)
    requires call.Ongoing?
    requires var call' := CallStep(db, call, fault).1; !(call.request.op.Reserve? && call'.Done? && call'.result.Ok?)
    ensures PromiseKept(CallStep(db, call, fault).0, CallStep(db, call, fault).1)
  {
    hide PlanOf, Refusal, Written, AsAsked;
  }

  lemma ReservePromises(db: Db, req: Request, seen: Reads, fault: Fault)
    requires req.op.Reserve? && CallOk(db, Ongoing(req, seen))
    requires var call' := CallStep(db, Ongoing(req, seen), fault).1; call'.Done? && call'.result.Ok?
    ensures PromiseKept(CallStep(db, Ongoing(req, seen), fault).0, CallStep(db, Ongoing(req, seen), fault).1)
  {
    hide Refusal, Written, PromiseKept, PlanOf, AsAsked, DemandsOf;
    ReadsBoth(db, req, seen, fault);
    ReservePlan(req, seen.scenario, seen.site);
    var plan := PlanOf(req, seen);
    ReserveKept(db, req, seen.scenario, seen.site, plan.tx);
    assert CallStep(db, Ongoing(req, seen), fault) == (Written(db, plan.tx), Done(req, Ok(plan.answer)));
    PromiseUnfolds(Written(db, plan.tx), req, plan.tx.reservation);
  }

  lemma PromiseUnfolds(db: Db, req: Request, r: Reservation)
    requires req.op.Reserve? && AsAsked(db, req, r)
    ensures PromiseKept(db, Done(req, Ok(ReservationAnswer(r))))
  {
    hide AsAsked;
  }

  lemma ReadsBoth(db: Db, req: Request, seen: Reads, fault: Fault)
    requires req.op.Reserve? && SnapsOk(db, req.op, seen)
    requires var call' := CallStep(db, Ongoing(req, seen), fault).1; call'.Done? && call'.result.Ok?
    ensures seen.ScenarioSiteRead? && PlanOf(req, seen).Submit? && PlanOf(req, seen).again.None?
    ensures DemandsOf(db, PlanOf(req, seen).tx).Met()
    ensures CallStep(db, Ongoing(req, seen), fault) == (Written(db, PlanOf(req, seen).tx), Done(req, Ok(PlanOf(req, seen).answer)))
    ensures var c := seen.scenario; c.id == req.op.scenario && c.id in db.scenarios && c.requested == db.scenarios[c.id].requested
    ensures seen.site.id == req.op.site
  {
    hide DemandsOf, Written;
  }

  lemma ReservePlan(req: Request, c: Scenario, s: Site)
    requires req.op.Reserve? && PlanOf(req, ScenarioSiteRead(c, s)).Submit?
    ensures 60 * 1_000_000_000 <= req.op.ttl <= 7 * 86_400 * 1_000_000_000
    ensures var plan := PlanOf(req, ScenarioSiteRead(c, s)); var r := AskedFor(UserOf(req.actor), req.env, c.id, s.id, c.requested, req.op.ttl);
      plan == Submit(CreateReservationTx(r, ExpiryOf(req.env, r), Audit(req.env.eventId, UserOf(req.actor), ReservationCreated, r.id)), ReservationAnswer(r), None)
  {
    hide Timestamp;
  }

  lemma ReserveKept(db: Db, req: Request, c: Scenario, s: Site, tx: Tx)
    requires req.op.Reserve? && 60 * 1_000_000_000 <= req.op.ttl <= 7 * 86_400 * 1_000_000_000
    requires c.id == req.op.scenario && c.id in db.scenarios && c.requested == db.scenarios[c.id].requested && s.id == req.op.site
    requires var r := AskedFor(UserOf(req.actor), req.env, c.id, s.id, c.requested, req.op.ttl);
      tx == CreateReservationTx(r, ExpiryOf(req.env, r), Audit(req.env.eventId, UserOf(req.actor), ReservationCreated, r.id))
    requires DemandsOf(db, tx).Met()
    ensures AsAsked(Written(db, tx), req, tx.reservation)
  {
    hide Timestamp;
    var r := tx.reservation;
    assert WillExpire(tx.job, r);
    var db' := Written(db, tx);
    assert tx.job.id in db'.jobs && db'.jobs[tx.job.id] == tx.job;
  }

  // -------------------------------------------------------------- over every run

  ghost predicate AllKept(s: State) { forall c :: c in s.calls ==> PromiseKept(s.db, s.calls[c]) }

  lemma KeptNext(s: State, step: Step)
    requires AllKept(s)
    requires Inv(s)
    ensures AllKept(Next(s, step))
  {
    StepsAreLegal(s, step);
    StepLater(s, step);
    var s' := Next(s, step);
    forall c | c in s'.calls ensures PromiseKept(s'.db, s'.calls[c]) {
      hide Inv, TxStep, JobsLater, PromiseKept, Next;
      if c in s.calls && s.calls[c] == s'.calls[c] {
        PromiseLasts(s.db, s'.db, s.calls[c]);
      } else {
        NewlyDone(s, step, c);
      }
    }
  }

  lemma NewlyDone(s: State, step: Step, c: Id)
    requires c in Next(s, step).calls && !(c in s.calls && s.calls[c] == Next(s, step).calls[c])
    requires Inv(s)
    ensures PromiseKept(Next(s, step).db, Next(s, step).calls[c])
  {
    hide DbInv, WorkerOk, CallOk, Counted, Fenced, LeasesRespected, CallStep, IsNext, AsAsked, SettledJobs, HandlerOp;
    match step
    case Proceed(id, fault) =>
      assert c == id && CallOk(s.db, s.calls[id]);
      if s.calls[id].Ongoing? {
        hide PromiseKept;
        CommitPromises(s.db, s.calls[id], fault);
      } else {
        DoneStays(s.db, s.calls[id], fault);
      }
    case _ =>
  }

  lemma DoneStays(db: Db, call: Call, fault: Fault)
    requires call.Done?
    ensures CallStep(db, call, fault) == (db, call)
  {
  }

  lemma {:induction false} KeptOverRun(s: State, steps: seq<Step>)
    requires AllKept(s)
    requires Inv(s)
    ensures AllKept(Run(s, steps))
    decreases |steps|
  {
    hide Inv, Next, AllKept;
    if steps != [] {
      KeptNext(s, steps[0]);
      NextKeeps(s, steps[0]);
      KeptOverRun(Next(s, steps[0]), steps[1..]);
    }
  }

  /** In every reachable state every reservation that was answered lasts for the time
      that was asked for, from the reading of the clock at its request, in the amount of
      its scenario; its row says so, and its expiry job names that time and is due then. */
  lemma ReservationsAreAsAsked(steps: seq<Step>, id: Id)
    requires var s := Run(START, steps); id in s.calls && s.calls[id].Done? && s.calls[id].result.Ok? && s.calls[id].request.op.Reserve?
    ensures var s := Run(START, steps); var req := s.calls[id].request;
      && s.calls[id].result.value.ReservationAnswer?
      && var r := s.calls[id].result.value.reservation;
        && r.expiresAt == req.env.now + req.op.ttl && r.createdAt == req.env.now && r.status == Confirmed && r.version == 1
        && AsAsked(s.db, req, r)
  {
    StartOk();
    hide Inv, Run, AsAsked;
    KeptOverRun(START, steps);
    assert PromiseKept(Run(START, steps).db, Run(START, steps).calls[id]);
    AskedUnfolds(Run(START, steps).db, Run(START, steps).calls[id].request, Run(START, steps).calls[id].result.value.reservation);
  }

  lemma AskedUnfolds(db: Db, req: Request, r: Reservation)
    requires req.op.Reserve? && AsAsked(db, req, r)
    ensures r.expiresAt == req.env.now + req.op.ttl && r.createdAt == req.env.now && r.status == Confirmed && r.version == 1
  {
  }
}
