/** Draining the queue: one worker, nothing else in flight, a clock that stands
    still.  Repeating claim, handle, settle ends after at most one round per job,
    and then every reservation has ended and every site has all its units. */
module Convergence {
  import opened Basics
  import opened Timestamps
  import opened Domain
  import opened Transactions
  import opened Queue
  import opened Calls
  import opened Invariants
  import opened Effects
  import opened Preservation
  import opened System
  import opened Reachable
  import opened Theorems

  // ---------------------------------------------------- one expiry, alone

  lemma RowFacts(db: Db, id: Id)
    requires Qualified(db.reservations, db.scenarios) && id in db.reservations
    ensures db.reservations[id].id == id && (Held(db.reservations[id]) ==> db.reservations[id].status == Confirmed)
  {
    assert ReservationShape(db.reservations[id]);
  }

  lemma ExpiryFinishes(db: Db, req: Request, r: Reservation)
    requires req.op.Expire? && !Held(r)
    ensures CommitStep(db, req, ReservationRead(r), NoFault).1 == Done(req, Ok(Nothing))
  {
  }

  /** A due expiry that runs by itself succeeds. */
  lemma ExpiryAlone(db: Db, req: Request)
    requires req.op.Expire? && req.op.reservation in db.reservations
    requires db.reservations[req.op.reservation].expiresAt <= req.env.now && req.env.eventId !in db.audit
    requires DbInv(db)
    ensures CommitStep(db, req, ReservationRead(db.reservations[req.op.reservation]), NoFault).1 == Done(req, Ok(Nothing))
  {
    hide CommitStep, SitesOk, Conserved, Accounted, OnKnownSites, DeploymentsOk, OutboxInv, LedgerInv, ScenariosOk, ReviewsOk, Qualified;
    var r := db.reservations[req.op.reservation];
    RowFacts(db, req.op.reservation);
    if Held(r) {
      ReturnNeverConflicts(db, r);
      ExpiryCommits(db, req, r, r.(status := Lapsed, version := r.version + 1, updatedAt := req.env.now));
    } else {
      ExpiryFinishes(db, req, r);
    }
  }

  lemma ExpiryCommits(db: Db, req: Request, r: Reservation, moved: Reservation)
    requires req.op.Expire? && r.id in db.reservations && db.reservations[r.id] == r && r.status == Confirmed
    requires r.expiresAt <= req.env.now && req.env.eventId !in db.audit
    requires moved == r.(status := Lapsed, version := r.version + 1, updatedAt := req.env.now)
    requires ReturnCapacityCheck(db, r) == None
    ensures CommitStep(db, req, ReservationRead(r), NoFault).1 == Done(req, Ok(Nothing))
  {
    var tx := ReturnTx(moved, Audit(req.env.eventId, "", ReservationExpired, r.id));
    assert PlanOf(req, ReservationRead(r)) == Submit(tx, Nothing, None);
    assert ReturnCapacityCheck(db, moved) == ReturnCapacityCheck(db, r);
    assert Refusal(db, tx, NoFault) == None;
  }

  // ------------------------------------------------------- rounds of a worker

  /** The inputs of one round: the job the queue offers and what is drawn for it. */
  datatype RoundInput = RoundInput(job: Id, lease: nat, env: Env, cleanup: Option<Error>)

  /** The steps of a round without errors, at one clock reading. */
  function RoundSteps(owner: Id, now: Instant, r: RoundInput): seq<Step> {
    StepsOf(owner, r.lease, r.job, Draw(now, r.env, r.cleanup, now, NoFault, NoFault, NoFault, NoFault))
  }

  function Round(s: State, owner: Id, now: Instant, r: RoundInput): State { Run(s, RoundSteps(owner, now, r)) }

  /** The queue offers this job, the clock stands at `now`, and the event id is new. */
  predicate Enabled(s: State, now: Instant, r: RoundInput) {
    && IsNext(s.db.jobs, now, r.job)
    && r.env.now == now && r.env.later == now
    && r.env.eventId !in s.db.audit
  }

  // the states inside a round

  function AfterClaim(s: State, owner: Id, now: Instant, r: RoundInput): State { Next(s, Claim(owner, r.job, now, r.lease, NoFault)) }

  function AfterHandle(s: State, owner: Id, now: Instant, r: RoundInput): State {
    Next(AfterClaim(s, owner, now, r), Handle(owner, r.env, r.cleanup))
  }

  function Stepped(s: State, owner: Id): State { Next(s, HandlerStep(owner, NoFault)) }

  lemma RoundUnfolds(s: State, owner: Id, now: Instant, r: RoundInput)
    ensures Round(s, owner, now, r)
         == Next(Stepped(Stepped(Stepped(AfterHandle(s, owner, now, r), owner), owner), owner), Settle(owner, now, NoFault))
  {
    var steps := RoundSteps(owner, now, r);
    assert steps[1..][0] == steps[1] && steps[1..][1..] == steps[2..];
    assert steps[2..][0] == steps[2] && steps[2..][1..] == steps[3..];
    assert steps[3..][0] == steps[3] && steps[3..][1..] == steps[4..];
    assert steps[4..][0] == steps[4] && steps[4..][1..] == steps[5..];
    assert steps[5..][0] == steps[5] && steps[5..][1..] == [];
    hide Next;
    var s1 := Next(s, steps[0]);
    var s2 := Next(s1, steps[1]);
    var s3 := Next(s2, steps[2]);
    var s4 := Next(s3, steps[3]);
    var s5 := Next(s4, steps[4]);
    var s6 := Next(s5, steps[5]);
    assert Run(s, steps) == Run(s1, steps[1..]);
    assert Run(s1, steps[1..]) == Run(s2, steps[2..]);
    assert Run(s2, steps[2..]) == Run(s3, steps[3..]);
    assert Run(s3, steps[3..]) == Run(s4, steps[4..]);
    assert Run(s4, steps[4..]) == Run(s5, steps[5..]);
    assert Run(s5, steps[5..]) == Run(s6, []) == s6;
  }

  /** Where a worker stands inside a round: how many interactions its call still needs. */
  predicate Within(s: State, owner: Id, job: Job, now: Instant, left: nat) {
    && OwnedBy(s.db.jobs, job.id, owner) && s.db.jobs[job.id] == job
    && match WorkerOf(s, owner)
       case Settling(j, at, _) => j == job && at == now
       case Handling(j, at, call) =>
         j == job && at == now && call.Ongoing? && HandlerCall(call.request) && InteractionsLeft(call.request, call.seen) <= left
       case _ => false
  }

  function InteractionsLeft(req: Request, seen: Reads): nat {
    match req.op
    case Expire(_) => if seen.NoReads? then 2 else 1
    case Activate(_) => if seen.NoReads? then 3 else if seen.DeploymentRead? && seen.deployment.status == Queued then 2 else 1
    case _ => 4
  }

  predicate HandlerCall(req: Request) { req.op.Expire? || req.op.Activate? }

  /** Expiry and activation never change the job table. */
  lemma HandlerTxLeavesJobs(db: Db, tx: Tx)
    requires tx.ReturnTx? || tx.TransitionDeploymentTx?
    requires DemandsOf(db, tx).Met()
    ensures Written(db, tx).jobs == db.jobs
  {
  }

  lemma HandlerPlans(req: Request, seen: Reads)
    requires HandlerCall(req) && PlanOf(req, seen).Submit?
    ensures PlanOf(req, seen).tx.ReturnTx? || PlanOf(req, seen).tx.TransitionDeploymentTx?
    ensures PlanOf(req, seen).again.Some? ==>
      InteractionsLeft(req, PlanOf(req, seen).again.value) < InteractionsLeft(req, seen)
  {
  }

  lemma HandlerStepProgress(db: Db, req: Request, seen: Reads)
    requires HandlerCall(req)
    ensures var (db', call') := CallStep(db, Ongoing(req, seen), NoFault);
      db'.jobs == db.jobs && call'.request == req
      && (call'.Ongoing? ==> InteractionsLeft(req, call'.seen) < InteractionsLeft(req, seen))
  {
    if PlanOf(req, seen).Submit? {
      HandlerPlans(req, seen);
      var tx := PlanOf(req, seen).tx;
      hide PlanOf, DemandsOf, Written;
      if DemandsOf(db, tx).Met() {
        HandlerTxLeavesJobs(db, tx);
      }
    } else {
      hide DemandsOf, Written, PlanOf;
    }
  }

  lemma SteppedWithin(s: State, owner: Id, job: Job, now: Instant, left: nat)
    requires Within(s, owner, job, now, left) && left <= 3
    ensures Within(Stepped(s, owner), owner, job, now, if left > 0 then left - 1 else 0)
    ensures left == 0 ==> WorkerOf(s, owner).Settling?
  {
    var w := WorkerOf(s, owner);
    if w.Handling? {
      HandlerStepProgress(s.db, w.call.request, w.call.seen);
      hide CallStep;
    }
  }

  lemma ClaimedWithin(s: State, owner: Id, now: Instant, r: RoundInput)
    requires JobsOk(s.db.jobs) && WorkerOf(s, owner).Resting? && IsNext(s.db.jobs, now, r.job)
    ensures var job := ClaimedRow(s.db.jobs[r.job], owner, now, r.lease);
      && Within(AfterHandle(s, owner, now, r), owner, job, now, 3)
      && AfterHandle(s, owner, now, r).db == s.db.(jobs := s.db.jobs[r.job := job])
  {
    hide IsNext, CallStep, SettledJobs, Cancelled, JobsOk;
    NextIsThere(s.db.jobs, now, r.job);
  }

  /** The row that the round leaves: succeeded, failed, or pending in a later second. */
  lemma SettledRowIsDone(jobs: Jobs, owner: Id, job: Job, error: Option<Error>, now: Instant)
    requires OwnedBy(jobs, job.id, owner) && jobs[job.id] == job
    requires InRange(now) && InRange(now + Backoff(job.attempts))
    ensures var j := SettledJobs(jobs, owner, job, error, now)[job.id];
      && SettledJobs(jobs, owner, job, error, now) == jobs[job.id := j]
      && SameDuty(job, j) && !Claimable(j, now) && (error.None? ==> j.status == JobSucceeded)
  {
    if error.Some? && job.attempts < job.maxAttempts {
      RetryIsLater(job, job, error.value, now);
    }
    hide SqlLe;
  }

  lemma SteppedJobs(s: State, owner: Id, job: Job, now: Instant, left: nat)
    requires Within(s, owner, job, now, left)
    ensures Stepped(s, owner).db.jobs == s.db.jobs
  {
    var w := WorkerOf(s, owner);
    if w.Handling? {
      HandlerStepProgress(s.db, w.call.request, w.call.seen);
      hide CallStep;
    }
  }

  function BeforeSettle(s: State, owner: Id, now: Instant, r: RoundInput): State {
    Stepped(Stepped(Stepped(AfterHandle(s, owner, now, r), owner), owner), owner)
  }

  /** Three interactions are enough for every handler, and leave the queue alone. */
  lemma ReachesSettle(s: State, owner: Id, now: Instant, r: RoundInput)
    requires JobsOk(s.db.jobs) && WorkerOf(s, owner).Resting? && IsNext(s.db.jobs, now, r.job)
    ensures var job := ClaimedRow(s.db.jobs[r.job], owner, now, r.lease); var s' := BeforeSettle(s, owner, now, r);
      WorkerOf(s', owner).Settling? && WorkerOf(s', owner).job == job
      && OwnedBy(s'.db.jobs, job.id, owner) && s'.db.jobs == s.db.jobs[r.job := job]
  {
    var job := ClaimedRow(s.db.jobs[r.job], owner, now, r.lease);
    NextIsThere(s.db.jobs, now, r.job);
    ClaimedWithin(s, owner, now, r);
    hide JobsOk, IsNext, AfterHandle, InteractionsLeft;
    var s2 := AfterHandle(s, owner, now, r);
    SteppedJobs(s2, owner, job, now, 3);
    SteppedWithin(s2, owner, job, now, 3);
    hide Within, Stepped;
    var s3 := Stepped(s2, owner);
    SteppedJobs(s3, owner, job, now, 2);
    SteppedWithin(s3, owner, job, now, 2);
    var s4 := Stepped(s3, owner);
    SteppedJobs(s4, owner, job, now, 1);
    SteppedWithin(s4, owner, job, now, 1);
    WithinZero(Stepped(s4, owner), owner, job, now);
  }

  lemma WithinZero(s: State, owner: Id, job: Job, now: Instant)
    requires Within(s, owner, job, now, 0)
    ensures WorkerOf(s, owner).Settling? && WorkerOf(s, owner).job == job && OwnedBy(s.db.jobs, job.id, owner)
  {
  }

  /** The handler of this round reports success. */
  predicate Succeeds(s: State, owner: Id, now: Instant, r: RoundInput) {
    var w := WorkerOf(BeforeSettle(s, owner, now, r), owner);
    w.Settling? && w.error.None?
  }

  /** The round has replaced exactly the claimed row, by one that is no longer due. */
  predicate RoundDone(a: Jobs, b: Jobs, id: Id, now: Instant) {
    id in a && id in b && b == a[id := b[id]] && SameDuty(a[id], b[id]) && !Claimable(b[id], now)
  }

  lemma SettleIsLast(s: State, owner: Id, now: Instant, r: RoundInput)
    requires WorkerOf(BeforeSettle(s, owner, now, r), owner).Settling?
    ensures var s5 := BeforeSettle(s, owner, now, r); var w := WorkerOf(s5, owner);
      && Round(s, owner, now, r).db.jobs == SettledJobs(s5.db.jobs, owner, w.job, w.error, now)
      && WorkerOf(Round(s, owner, now, r), owner).Resting?
  {
    RoundUnfolds(s, owner, now, r);
    hide AfterHandle, Stepped, SettledJobs, Round;
  }

  /** A round settles the job it claims and touches no other. */
  lemma RoundEffect(s: State, owner: Id, now: Instant, r: RoundInput)
    requires r.job in s.db.jobs && InRange(now) && InRange(now + Backoff(s.db.jobs[r.job].attempts + 1))
    requires JobsOk(s.db.jobs) && WorkerOf(s, owner).Resting? && IsNext(s.db.jobs, now, r.job)
    ensures var s' := Round(s, owner, now, r);
      && WorkerOf(s', owner).Resting? && RoundDone(s.db.jobs, s'.db.jobs, r.job, now)
      && (Succeeds(s, owner, now, r) ==> s'.db.jobs[r.job].status == JobSucceeded)
  {
    hide JobsOk, IsNext, Claimable, BeforeSettle, Round, InRange, SettledJobs;
    NextIsThere(s.db.jobs, now, r.job);
    ReachesSettle(s, owner, now, r);
    SettleIsLast(s, owner, now, r);
    var job := ClaimedRow(s.db.jobs[r.job], owner, now, r.lease);
    var s5 := BeforeSettle(s, owner, now, r);
    SettledRowIsDone(s5.db.jobs, owner, job, WorkerOf(s5, owner).error, now);
    hide OwnedBy, WorkerOf;
    RowReplaced(s.db.jobs, r.job, job, SettledJobs(s5.db.jobs, owner, job, WorkerOf(s5, owner).error, now)[r.job], now);
  }

  lemma RowReplaced(jobs: Jobs, id: Id, mid: Job, end: Job, now: Instant)
    requires id in jobs && SameDuty(jobs[id], mid) && SameDuty(mid, end) && !Claimable(end, now)
    ensures RoundDone(jobs, jobs[id := mid][id := end], id, now)
    ensures jobs[id := mid][id := end] == jobs[id := end]
  {
    hide Claimable;
  }

  // ------------------------------------------------------------ expiry rounds

  /** The expiry job of a reservation that is due. */
  predicate DueExpiry(db: Db, id: Id, now: Instant) {
    && id in db.jobs && db.jobs[id].kind == ExpireReservationJob
    && db.jobs[id].aggregate in db.reservations && db.reservations[db.jobs[id].aggregate].expiresAt <= now
  }

  lemma HandleFollowsClaim(s: State, owner: Id, now: Instant, r: RoundInput)
    requires WorkerOf(s, owner).Resting? && r.job in s.db.jobs && IsNext(s.db.jobs, now, r.job)
    ensures AfterClaim(s, owner, now, r) == ClaimStep(s, owner, r.job, now, r.lease)
    ensures var job := ClaimedRow(s.db.jobs[r.job], owner, now, r.lease);
      AfterHandle(s, owner, now, r) == HandleStep(AfterClaim(s, owner, now, r), owner, job, now, r.env, r.cleanup)
  {
    hide IsNext, CallStep, SettledJobs, Cancelled, HandlerOp;
  }

  lemma ExpiryIsHandled(s: State, owner: Id, now: Instant, r: RoundInput)
    requires r.job in s.db.jobs && s.db.jobs[r.job].kind == ExpireReservationJob && OutboxInv(s.db)
    requires WorkerOf(s, owner).Resting? && IsNext(s.db.jobs, now, r.job)
    ensures WorkerOf(AfterHandle(s, owner, now, r), owner)
         == Handling(ClaimedRow(s.db.jobs[r.job], owner, now, r.lease), now,
                     Ongoing(Request(Anonymous, Expire(s.db.jobs[r.job].aggregate), r.env), NoReads))
    ensures AfterHandle(s, owner, now, r).db == AfterClaim(s, owner, now, r).db
         == s.db.(jobs := Claimed(s.db.jobs, r.job, owner, now, r.lease))
  {
    var job := ClaimedRow(s.db.jobs[r.job], owner, now, r.lease);
    TargetIsAggregate(s.db, s.db.jobs[r.job]);
    assert HandlerOp(job) == Some(Expire(s.db.jobs[r.job].aggregate));
    hide OutboxInv, HandlerOp;
    HandleFollowsClaim(s, owner, now, r);
  }

  lemma ExpiryInteractions(db: Db, req: Request)
    requires req.op.Expire? && req.op.reservation in db.reservations
    ensures var row := db.reservations[req.op.reservation];
      && CallStep(db, Ongoing(req, NoReads), NoFault) == (db, Ongoing(req, ReservationRead(row)))
      && CallStep(db, Ongoing(req, ReservationRead(row)), NoFault) == CommitStep(db, req, ReservationRead(row), NoFault)
  {
    hide CommitStep;
  }

  /** The two interactions of an expiry. */
  lemma ExpirySteps(s: State, owner: Id, job: Job, now: Instant, req: Request)
    requires req.op.Expire? && req.op.reservation in s.db.reservations
    requires s.db.reservations[req.op.reservation].expiresAt <= req.env.now && req.env.eventId !in s.db.audit
    requires WorkerOf(s, owner) == Handling(job, now, Ongoing(req, NoReads))
    requires DbInv(s.db)
    ensures var w := WorkerOf(Stepped(Stepped(Stepped(s, owner), owner), owner), owner);
      w.Settling? && w.error.None?
  {
    hide DbInv, CallStep, CommitStep;
    var row := s.db.reservations[req.op.reservation];
    ExpiryAlone(s.db, req);
    ExpiryInteractions(s.db, req);
    var s3 := Stepped(s, owner);
    assert WorkerOf(s3, owner) == Handling(job, now, Ongoing(req, ReservationRead(row))) && s3.db == s.db;
    var s4 := Stepped(s3, owner);
    assert WorkerOf(s4, owner).Settling?;
    assert Stepped(s4, owner) == s4;
  }

  /** An expiry job whose reservation is due succeeds in its round. */
  lemma ExpiryRound(s: State, owner: Id, now: Instant, r: RoundInput)
    requires DueExpiry(s.db, r.job, now) && WorkerOf(s, owner).Resting? && Enabled(s, now, r)
    requires Inv(s)
    ensures Succeeds(s, owner, now, r)
  {
    NextKeeps(s, Claim(owner, r.job, now, r.lease, NoFault));
    assert OutboxInv(s.db);
    hide Inv, OutboxInv, IsNext, AfterHandle, AfterClaim;
    ExpiryIsHandled(s, owner, now, r);
    assert Inv(AfterClaim(s, owner, now, r)) by { ClaimIsFirst(s, owner, now, r); }
    var s2 := AfterHandle(s, owner, now, r);
    InvIsDbInv(AfterClaim(s, owner, now, r));
    hide Stepped, DbInv;
    ExpirySteps(s2, owner, WorkerOf(s2, owner).job, now, WorkerOf(s2, owner).call.request);
  }

  lemma ClaimIsFirst(s: State, owner: Id, now: Instant, r: RoundInput)
    ensures AfterClaim(s, owner, now, r) == Next(s, Claim(owner, r.job, now, r.lease, NoFault))
  {
  }

  lemma InvIsDbInv(s: State)
    requires Inv(s)
    ensures DbInv(s.db)
  {
  }

  // ------------------------------------------------------------------ draining

  /** Rounds one after another. */
  function Rounds(s: State, owner: Id, now: Instant, inputs: seq<RoundInput>): State
    decreases |inputs|
  {
    if inputs == [] then s else Rounds(Round(s, owner, now, inputs[0]), owner, now, inputs[1..])
  }

  predicate AllEnabled(s: State, owner: Id, now: Instant, inputs: seq<RoundInput>)
    decreases |inputs|
  {
    inputs == [] || (Enabled(s, now, inputs[0]) && AllEnabled(Round(s, owner, now, inputs[0]), owner, now, inputs[1..]))
  }

  function DueJobs(jobs: Jobs, now: Instant): set<Id> { set k | k in jobs && Claimable(jobs[k], now) }

  /** Every expiry job that is not settled for good is due with its reservation:
      none is still leased or backing off. */
  predicate ExpiriesDue(db: Db, now: Instant) {
    forall k | k in db.jobs && db.jobs[k].kind == ExpireReservationJob ::
      Live(db.jobs[k]) ==> Claimable(db.jobs[k], now) && DueExpiry(db, k, now)
  }

  /** Times of the next two minutes or so still have four-digit years. */
  predicate ClockInRange(now: Instant) { InRange(now + 128 * NANOS) }

  lemma RoundFitsClock(now: Instant, attempts: int)
    requires ClockInRange(now)
    ensures InRange(now) && InRange(now + Backoff(attempts))
  {
    InRangeBelow(now, now + 128 * NANOS);
    InRangeBelow(now + Backoff(attempts), now + 128 * NANOS);
  }

  lemma RoundShrinks(a: Jobs, b: Jobs, id: Id, now: Instant)
    requires RoundDone(a, b, id, now) && Claimable(a[id], now)
    ensures DueJobs(b, now) == DueJobs(a, now) - {id} && id in DueJobs(a, now)
    ensures |DueJobs(b, now)| == |DueJobs(a, now)| - 1
  {
    hide Claimable;
    assert DueJobs(b, now) == DueJobs(a, now) - {id};
  }

  lemma RoundKeepsExpiries(a: Db, b: Db, id: Id, now: Instant)
    requires ExpiriesDue(a, now) && RoundDone(a.jobs, b.jobs, id, now) && SameExpiries(a, b)
    requires a.jobs[id].kind == ExpireReservationJob ==> b.jobs[id].status == JobSucceeded
    ensures ExpiriesDue(b, now)
  {
    hide Claimable;
    forall k | k in b.jobs && b.jobs[k].kind == ExpireReservationJob
      ensures Live(b.jobs[k]) ==> Claimable(b.jobs[k], now) && DueExpiry(b, k, now)
    {
      if k != id {
        assert k in a.jobs && b.jobs[k] == a.jobs[k];
      }
    }
  }

  /** Reservations stay, with the expiry they were made with. */
  ghost predicate SameExpiries(a: Db, b: Db) {
    forall k :: k in a.reservations ==> k in b.reservations && b.reservations[k].expiresAt == a.reservations[k].expiresAt
  }

  lemma PastHasExpiries(a: Db, b: Db)
    requires DbPast(a, b)
    ensures SameExpiries(a, b)
  {
    forall k | k in a.reservations ensures k in b.reservations && b.reservations[k].expiresAt == a.reservations[k].expiresAt {
      assert ReservationPast(a.reservations[k], b.reservations[k]);
    }
  }

  /** The queue after a round of a drain. */
  lemma DrainRoundJobs(s: State, owner: Id, now: Instant, r: RoundInput)
    requires r.job in s.db.jobs && Claimable(s.db.jobs[r.job], now) && JobsOk(s.db.jobs)
    requires WorkerOf(s, owner).Resting? && ClockInRange(now) && IsNext(s.db.jobs, now, r.job)
    ensures var s' := Round(s, owner, now, r);
      && WorkerOf(s', owner).Resting? && RoundDone(s.db.jobs, s'.db.jobs, r.job, now)
      && (Succeeds(s, owner, now, r) ==> s'.db.jobs[r.job].status == JobSucceeded)
      && |DueJobs(s'.db.jobs, now)| == |DueJobs(s.db.jobs, now)| - 1
      && s'.db.jobs.Keys == s.db.jobs.Keys
  {
    hide JobsOk, Claimable, ClockInRange, InRange, Round, IsNext, Succeeds, DueJobs;
    RoundFitsClock(now, s.db.jobs[r.job].attempts + 1);
    RoundEffect(s, owner, now, r);
    RoundShrinks(s.db.jobs, Round(s, owner, now, r).db.jobs, r.job, now);
  }

  /** The tables after a round of a drain. */
  lemma DrainRoundTables(s: State, owner: Id, now: Instant, r: RoundInput)
    requires Inv(s)
    ensures var s' := Round(s, owner, now, r); Inv(s') && SameExpiries(s.db, s'.db)
  {
    hide Inv, Run, DbPast, SameExpiries;
    RoundIsRun(s, owner, now, r);
    hide Round;
    RunKeeps(s, RoundSteps(owner, now, r));
    RunIsPast(s, RoundSteps(owner, now, r));
    PastHasExpiries(s.db, Round(s, owner, now, r).db);
  }

  lemma NextIsDue(s: State, now: Instant, id: Id)
    requires IsNext(s.db.jobs, now, id) && Inv(s)
    ensures id in s.db.jobs && Claimable(s.db.jobs[id], now) && JobsOk(s.db.jobs)
  {
    hide Claimable;
  }

  /** One round of a drain. */
  lemma DrainRound(s: State, owner: Id, now: Instant, r: RoundInput)
    requires WorkerOf(s, owner).Resting? && ClockInRange(now) && Enabled(s, now, r) && ExpiriesDue(s.db, now)
    requires Inv(s)
    ensures var s' := Round(s, owner, now, r);
      && Inv(s') && WorkerOf(s', owner).Resting? && ExpiriesDue(s'.db, now)
      && |DueJobs(s'.db.jobs, now)| == |DueJobs(s.db.jobs, now)| - 1
      && s'.db.jobs.Keys == s.db.jobs.Keys
  {
    hide Inv, JobsOk, Claimable, ExpiriesDue, ClockInRange, Round, IsNext, DueJobs, Succeeds, DueExpiry, SameExpiries;
    var s' := Round(s, owner, now, r);
    NextIsDue(s, now, r.job);
    DrainRoundJobs(s, owner, now, r);
    DrainRoundTables(s, owner, now, r);
    if s.db.jobs[r.job].kind == ExpireReservationJob {
      NotYetSucceeded(s.db, r.job, now);
      ExpiryRound(s, owner, now, r);
    }
    hide Enabled, RoundDone;
    RoundKeepsExpiries(s.db, s'.db, r.job, now);
  }

  lemma RoundIsRun(s: State, owner: Id, now: Instant, r: RoundInput)
    ensures Round(s, owner, now, r) == Run(s, RoundSteps(owner, now, r))
  {
  }

  lemma NotYetSucceeded(db: Db, id: Id, now: Instant)
    requires ExpiriesDue(db, now) && id in db.jobs && db.jobs[id].kind == ExpireReservationJob && Claimable(db.jobs[id], now)
    ensures DueExpiry(db, id, now)
  {
    hide SqlLe;
  }

  /** Every round uses up one due job. */
  lemma {:induction false} DrainCounts(s: State, owner: Id, now: Instant, inputs: seq<RoundInput>)
    requires WorkerOf(s, owner).Resting? && ClockInRange(now) && ExpiriesDue(s.db, now)
    requires AllEnabled(s, owner, now, inputs)
    requires Inv(s)
    ensures var s' := Rounds(s, owner, now, inputs);
      && Inv(s') && ExpiriesDue(s'.db, now)
      && |inputs| + |DueJobs(s'.db.jobs, now)| == |DueJobs(s.db.jobs, now)|
      && s'.db.jobs.Keys == s.db.jobs.Keys
    decreases |inputs|
  {
    hide Inv, ExpiriesDue, ClockInRange, Enabled, DueJobs, Round;
    if inputs != [] {
      DrainRound(s, owner, now, inputs[0]);
      DrainCounts(Round(s, owner, now, inputs[0]), owner, now, inputs[1..]);
    }
  }

  lemma {:induction false} SubsetSize(a: set<Id>, b: set<Id>)
    requires a <= b
    ensures |a| <= |b|
  {
    if a != {} {
      var x :| x in a;
      SubsetSize(a - {x}, b - {x});
    }
  }

  /** The reservation is held, and its expiry job has failed for good or was cancelled. */
  predicate GivenUp(db: Db, r: Id) {
    && r in db.reservations && Held(db.reservations[r])
    && exists k | k in db.jobs :: Abandons(db.jobs[k], r)
  }

  predicate Abandons(j: Job, r: Id) {
    j.kind == ExpireReservationJob && j.aggregate == r && (j.status == JobFailed || j.status == JobCancelled)
  }

  /** Nothing is held any more, and every site has all its units. */
  ghost predicate WholeAgain(db: Db) {
    && (forall r :: r in db.reservations ==> !Held(db.reservations[r]))
    && (forall k :: k in db.sites ==> db.sites[k].available == db.sites[k].total)
  }

  /** When nothing is due any more, exactly the reservations are held whose expiry
      jobs were given up. */
  lemma IdleMeansReturned(s: State, now: Instant)
    requires Idle(s.db.jobs, now) && ExpiriesDue(s.db, now)
    requires Inv(s)
    ensures forall r :: r in s.db.reservations ==> (Held(s.db.reservations[r]) <==> GivenUp(s.db, r))
    ensures WholeAgain(s.db) <==> forall r :: r in s.db.reservations ==> !GivenUp(s.db, r)
  {
    InvIsDbInv(s);
    hide Inv, DbInv, GivenUp, Idle, ExpiriesDue;
    forall r | r in s.db.reservations ensures Held(s.db.reservations[r]) <==> GivenUp(s.db, r) {
      HeldIffGivenUp(s.db, r, now);
    }
    if forall r :: r in s.db.reservations ==> !GivenUp(s.db, r) {
      EndedIsWhole(s.db);
    }
  }

  lemma HeldIffGivenUp(db: Db, r: Id, now: Instant)
    requires Idle(db.jobs, now) && ExpiriesDue(db, now) && r in db.reservations && DbInv(db)
    ensures Held(db.reservations[r]) <==> GivenUp(db, r)
  {
    hide Claimable;
    assert HasExpiryJob(db.jobs, r);
    var k :| k in db.jobs && ExpiryJobFor(db.jobs[k], r);
    assert !Live(db.jobs[k]);
    assert db.jobs[k].status == JobSucceeded || Abandons(db.jobs[k], r);
  }

  lemma EndedIsWhole(db: Db)
    requires DbInv(db) && forall r :: r in db.reservations ==> !Held(db.reservations[r])
    ensures WholeAgain(db)
  {
    forall k | k in db.sites ensures db.sites[k].available == db.sites[k].total {
      MapSumZero(db.reservations, HeldBy(k));
    }
  }

  /** Draining converges.  From any state in which the live expiry jobs are due, at
      most one round per job can run, and when no more can, exactly the reservations
      are held whose expiry jobs were given up: all capacity is back if there are none. */
  lemma DrainConverges(s: State, owner: Id, now: Instant, inputs: seq<RoundInput>)
    requires WorkerOf(s, owner).Resting? && ClockInRange(now) && ExpiriesDue(s.db, now)
    requires AllEnabled(s, owner, now, inputs)
    requires Inv(s)
    ensures var s' := Rounds(s, owner, now, inputs);
      && |inputs| <= |s.db.jobs|
      && (Idle(s'.db.jobs, now) ==>
           (forall r :: r in s'.db.reservations ==> (Held(s'.db.reservations[r]) <==> GivenUp(s'.db, r)))
           && (WholeAgain(s'.db) <==> forall r :: r in s'.db.reservations ==> !GivenUp(s'.db, r)))
  {
    hide Inv, ExpiriesDue, ClockInRange, AllEnabled, Rounds, Idle, Claimable, GivenUp, WholeAgain;
    DrainCounts(s, owner, now, inputs);
    var s' := Rounds(s, owner, now, inputs);
    SubsetSize(DueJobs(s.db.jobs, now), s.db.jobs.Keys);
    if Idle(s'.db.jobs, now) {
      IdleMeansReturned(s', now);
    }
  }

  // --------------------------------------------------- a drain can always go on

  lemma {:induction false} LongerThanAll(ids: set<Id>) returns (n: nat)
    ensures forall k :: k in ids ==> |k| < n
  {
    n := 0;
    if ids != {} {
      var x :| x in ids;
      n := LongerThanAll(ids - {x});
      n := if |x| < n then n else |x| + 1;
    }
  }

  lemma FreshId(ids: set<Id>) returns (id: Id)
    ensures id !in ids
  {
    var n := LongerThanAll(ids);
    id := seq(n, i => 'e');
    assert |id| == n;
  }

  /** While anything is due, some round is enabled. */
  lemma DrainNeverStalls(s: State, now: Instant, lease: nat) returns (r: RoundInput)
    requires !Idle(s.db.jobs, now)
    ensures Enabled(s, now, r)
  {
    NextExists(s.db.jobs, now);
    hide Idle, IsNext;
    var id :| IsNext(s.db.jobs, now, id);
    var event := FreshId(s.db.audit.Keys);
    r := RoundInput(id, lease, Env(now, now, now, now, "", "", "", event, "", ""), None);
  }
}
