/** Draining to the end: from any reachable state whose expiry jobs are due, one
    worker can always finish, in at most one round per job, and every way of
    finishing gives all capacity back but what jobs given up before hold. */
module Completion {
  import opened Basics
  import opened Timestamps
  import opened Domain
  import opened Transactions
  import opened Queue
  import opened Calls
  import opened Invariants
  import opened Preservation
  import opened System
  import opened Reachable
  import opened Timeliness
  import opened Convergence

  /** The clock is at or past the time, and the stored texts agree. */
  predicate Passed(time: Instant, now: Instant) { InRange(time) && InRange(now) && time <= now && !Inverted(time, now) }

  /** The clock has passed the due time and the lease of each expiry job that is
      not settled for good. */
  predicate QueueDue(jobs: Jobs, now: Instant) {
    forall k | k in jobs && jobs[k].kind == ExpireReservationJob && Live(jobs[k]) ::
      Passed(jobs[k].availableAt, now) && (jobs[k].leaseUntil.Some? ==> Passed(jobs[k].leaseUntil.value, now))
  }

  lemma PassedIsDue(time: Instant, now: Instant)
    requires Passed(time, now)
    ensures SqlLe(time, now)
  {
    TextOrderIsTimeOrder(now, time);
  }

  lemma DueIsClaimable(j: Job, now: Instant)
    requires Live(j) && Passed(j.availableAt, now) && (j.leaseUntil.Some? ==> Passed(j.leaseUntil.value, now))
    ensures Claimable(j, now)
  {
    hide SqlLe, Passed;
    PassedIsDue(j.availableAt, now);
    if j.leaseUntil.Some? {
      PassedIsDue(j.leaseUntil.value, now);
    }
  }

  /** Timely jobs that are due have reservations that are due. */
  lemma DueQueueIsDue(s: State, now: Instant)
    requires AllTimely(s) && QueueDue(s.db.jobs, now)
    ensures ExpiriesDue(s.db, now)
  {
    hide SqlLe, InRange, Inverted, Claimable;
    forall k | k in s.db.jobs && s.db.jobs[k].kind == ExpireReservationJob
      ensures Live(s.db.jobs[k]) ==> Claimable(s.db.jobs[k], now) && DueExpiry(s.db, k, now)
    {
      assert Timely(s.db, s.db.jobs[k]);
      if Live(s.db.jobs[k]) {
        DueIsClaimable(s.db.jobs[k], now);
      }
    }
  }

  lemma {:induction false} EnabledConcat(s: State, owner: Id, now: Instant, a: seq<RoundInput>, b: seq<RoundInput>)
    requires AllEnabled(s, owner, now, a) && AllEnabled(Rounds(s, owner, now, a), owner, now, b)
    ensures AllEnabled(s, owner, now, a + b) && Rounds(s, owner, now, a + b) == Rounds(Rounds(s, owner, now, a), owner, now, b)
    decreases |a|
  {
    hide Enabled, Round;
    if a == [] {
      assert a + b == b;
    } else {
      assert (a + b)[0] == a[0] && (a + b)[1..] == a[1..] + b;
      EnabledConcat(Round(s, owner, now, a[0]), owner, now, a[1..], b);
    }
  }

  /** Rounds until nothing is due. */
  lemma {:induction false} DrainOn(s: State, owner: Id, now: Instant, lease: nat) returns (more: seq<RoundInput>)
    requires WorkerOf(s, owner).Resting? && ClockInRange(now) && ExpiriesDue(s.db, now)
    requires Inv(s)
    ensures AllEnabled(s, owner, now, more) && Idle(Rounds(s, owner, now, more).db.jobs, now)
    decreases |DueJobs(s.db.jobs, now)|
  {
    hide Inv, ExpiriesDue, ClockInRange, Enabled, DueJobs, Round, Idle;
    if Idle(s.db.jobs, now) {
      more := [];
    } else {
      var r := DrainNeverStalls(s, now, lease);
      DrainRound(s, owner, now, r);
      var rest := DrainOn(Round(s, owner, now, r), owner, now, lease);
      more := [r] + rest;
      assert more[0] == r && more[1..] == rest;
    }
  }

  // -------------------------------------------- a drain gives nothing up, or back up

  /** The row of `r` is the same. */
  predicate SameAt(a: Db, b: Db, r: Id) {
    (r in a.reservations <==> r in b.reservations) && (r in a.reservations ==> b.reservations[r] == a.reservations[r])
  }

  /** The worker is not on its way to end `r`. */
  predicate NotEnding(w: Worker, r: Id) { w.Handling? ==> HandlerCall(w.call.request) && w.call.request.op != Expire(r) }

  lemma ExpiryWritesItsOwn(req: Request, seen: Reads)
    requires PlanOf(req, seen).Submit? && HandlerCall(req)
    ensures var tx := PlanOf(req, seen).tx;
      tx.TransitionDeploymentTx? || (tx.ReturnTx? && seen.ReservationRead? && tx.reservation.id == seen.reservation.id && req.op.Expire?)
  {
  }

  lemma WritesElsewhere(db: Db, tx: Tx, r: Id)
    requires tx.TransitionDeploymentTx? || (tx.ReturnTx? && tx.reservation.id != r)
    requires DemandsOf(db, tx).Met()
    ensures SameAt(db, Written(db, tx), r)
  {
  }

  lemma CallLeaves(db: Db, call: Call, r: Id)
    requires HandlerCall(call.request) && call.request.op != Expire(r) && CallOk(db, call)
    ensures var (db', call') := CallStep(db, call, NoFault); SameAt(db, db', r) && call'.request == call.request
  {
    if call.Ongoing? {
      if PlanOf(call.request, call.seen).Submit? {
        ExpiryWritesItsOwn(call.request, call.seen);
        var tx := PlanOf(call.request, call.seen).tx;
        hide PlanOf, DemandsOf, Written;
        if DemandsOf(db, tx).Met() {
          WritesElsewhere(db, tx, r);
        }
      } else {
        hide PlanOf, DemandsOf, Written;
      }
    }
  }

  lemma SteppedLeaves(s: State, owner: Id, r: Id)
    requires NotEnding(WorkerOf(s, owner), r) && Inv(s)
    ensures var s' := Stepped(s, owner); SameAt(s.db, s'.db, r) && NotEnding(WorkerOf(s', owner), r) && Inv(s')
  {
    var w := WorkerOf(s, owner);
    NextKeeps(s, HandlerStep(owner, NoFault));
    HandlerUnfolds(s, owner, NoFault);
    if w.Handling? {
      HandledCallIsOk(s, owner);
      hide Inv, CallStep, CallOk, Next;
      CallLeaves(s.db, w.call, r);
    } else {
      hide Inv, Next;
    }
  }

  lemma HandledCallIsOk(s: State, owner: Id)
    requires Inv(s) && WorkerOf(s, owner).Handling?
    ensures CallOk(s.db, WorkerOf(s, owner).call)
  {
    hide DbInv, CallOk, Counted, Fenced, LeasesRespected, HoldsJob, Achieved, HandlerOp;
    assert WorkerOk(s.db, owner, s.workers[owner]);
  }

  /** A round on the job of another reservation, or on another kind of job. */
  lemma RoundLeaves(s: State, owner: Id, now: Instant, input: RoundInput, r: Id)
    requires WorkerOf(s, owner).Resting? && Enabled(s, now, input) && input.job in s.db.jobs
    requires !(s.db.jobs[input.job].kind == ExpireReservationJob && s.db.jobs[input.job].aggregate == r)
    requires Inv(s)
    ensures SameAt(s.db, Round(s, owner, now, input).db, r)
  {
    var s2 := AfterHandle(s, owner, now, input);
    HandedElsewhere(s, owner, now, input, r);
    hide Inv, Stepped, AfterHandle, SameAt, NotEnding, Enabled;
    var s3 := Stepped(s2, owner);
    SteppedLeaves(s2, owner, r);
    var s4 := Stepped(s3, owner);
    SteppedLeaves(s3, owner, r);
    SteppedLeaves(s4, owner, r);
    var s5 := Stepped(s4, owner);
    RoundUnfolds(s, owner, now, input);
    hide Round;
    SettleLeaves(s5, owner, now, r);
    SameAtFive(s.db, s2.db, s3.db, s4.db, s5.db, Next(s5, Settle(owner, now, NoFault)).db, r);
  }

  lemma SameAtFive(a: Db, b: Db, c: Db, d: Db, e: Db, f: Db, r: Id)
    requires SameAt(a, b, r) && SameAt(b, c, r) && SameAt(c, d, r) && SameAt(d, e, r) && SameAt(e, f, r)
    ensures SameAt(a, f, r)
  {
  }

  lemma SettleLeaves(s: State, owner: Id, now: Instant, r: Id)
    ensures SameAt(s.db, Next(s, Settle(owner, now, NoFault)).db, r)
  {
    hide SettledJobs, CallStep, IsNext;
  }

  lemma HandedElsewhere(s: State, owner: Id, now: Instant, input: RoundInput, r: Id)
    requires WorkerOf(s, owner).Resting? && Enabled(s, now, input) && input.job in s.db.jobs
    requires !(s.db.jobs[input.job].kind == ExpireReservationJob && s.db.jobs[input.job].aggregate == r)
    requires Inv(s)
    ensures var s2 := AfterHandle(s, owner, now, input);
      SameAt(s.db, s2.db, r) && NotEnding(WorkerOf(s2, owner), r) && Inv(s2)
  {
    var s1 := AfterClaim(s, owner, now, input);
    hide Inv, IsNext, AfterHandle, Next, HandlerOp, NotEnding;
    NextKeeps(s, Claim(owner, input.job, now, input.lease, NoFault));
    HandlesElsewhere(s, input.job, r);
    ClaimedOp(s.db.jobs[input.job], owner, now, input.lease);
    HandleFollowsClaim(s, owner, now, input);
    AfterHandleIsOk(s1, owner, now, input, s);
    HandStepElsewhere(s1, owner, ClaimedRow(s.db.jobs[input.job], owner, now, input.lease), now, input.env, input.cleanup, r);
  }

  lemma AfterHandleIsOk(s1: State, owner: Id, now: Instant, input: RoundInput, s: State)
    requires s1 == AfterClaim(s, owner, now, input)
    requires Inv(s1)
    ensures Inv(AfterHandle(s, owner, now, input))
  {
    hide Inv, Next;
    NextKeeps(s1, Handle(owner, input.env, input.cleanup));
  }

  /** The job of another reservation, or another kind of job, does not end `r`. */
  predicate OpElsewhere(op: Option<Op>, r: Id) { op.Some? ==> (op.value.Expire? || op.value.Activate?) && op.value != Expire(r) }

  lemma HandlesElsewhere(s: State, id: Id, r: Id)
    requires id in s.db.jobs && !(s.db.jobs[id].kind == ExpireReservationJob && s.db.jobs[id].aggregate == r)
    requires Inv(s)
    ensures OpElsewhere(HandlerOp(s.db.jobs[id]), r)
  {
    InvIsDbInv(s);
    hide Inv, DbInv, Target;
    OpOfKind(s.db.jobs[id]);
    if s.db.jobs[id].kind == ExpireReservationJob { RowTarget(s.db, id); }
    hide HandlerOp;
  }

  lemma RowTarget(db: Db, id: Id)
    requires id in db.jobs && db.jobs[id].kind == ExpireReservationJob && DbInv(db)
    ensures HandlerOp(db.jobs[id]) == Some(Expire(db.jobs[id].aggregate))
  {
    hide HandlerOp, SitesOk, Conserved, Accounted, OnKnownSites, ScenariosOk, ReviewsOk, Qualified, DeploymentsOk, Paired, Balanced, Metered;
    TargetIsAggregate(db, db.jobs[id]);
  }

  lemma OpOfKind(job: Job)
    ensures var op := HandlerOp(job);
      op.Some? ==> (op.value.Expire? && job.kind == ExpireReservationJob) || (op.value.Activate? && job.kind == ActivateDeploymentJob)
  {
  }

  lemma ClaimedOp(job: Job, owner: Id, now: Instant, lease: nat)
    ensures HandlerOp(ClaimedRow(job, owner, now, lease)) == HandlerOp(job)
  {
  }

  lemma HandStepElsewhere(s: State, owner: Id, job: Job, at: Instant, env: Env, cleanup: Option<Error>, r: Id)
    requires OpElsewhere(HandlerOp(job), r)
    ensures var s' := HandleStep(s, owner, job, at, env, cleanup); s'.db == s.db && NotEnding(WorkerOf(s', owner), r)
  {
    hide HandlerOp;
  }

  ghost predicate SameGivenUp(a: Db, b: Db) { forall r :: GivenUp(a, r) <==> GivenUp(b, r) }

  lemma GivenUpElsewhere(a: Db, b: Db, id: Id, now: Instant, r: Id)
    requires RoundDone(a.jobs, b.jobs, id, now) && SameAt(a, b, r)
    requires !(a.jobs[id].kind == ExpireReservationJob && a.jobs[id].aggregate == r)
    ensures GivenUp(a, r) <==> GivenUp(b, r)
  {
    hide Claimable;
    forall k | k in a.jobs ensures k in b.jobs && (Abandons(a.jobs[k], r) <==> Abandons(b.jobs[k], r)) {
    }
  }

  lemma OneExpiryJob(db: Db, id: Id)
    requires JobsOk(db.jobs) && id in db.jobs && db.jobs[id].kind == ExpireReservationJob
    requires db.jobs[id].status != JobFailed && db.jobs[id].status != JobCancelled
    ensures !GivenUp(db, db.jobs[id].aggregate)
  {
    forall k | k in db.jobs ensures !Abandons(db.jobs[k], db.jobs[id].aggregate) {
      assert k == id || db.jobs[k].kind != db.jobs[id].kind || db.jobs[k].aggregate != db.jobs[id].aggregate;
    }
  }

  lemma RoundGivesUpNothing(s: State, owner: Id, now: Instant, input: RoundInput)
    requires WorkerOf(s, owner).Resting? && ClockInRange(now) && Enabled(s, now, input) && ExpiriesDue(s.db, now)
    requires Inv(s)
    ensures SameGivenUp(s.db, Round(s, owner, now, input).db)
  {
    hide Inv, JobsOk, Claimable, ClockInRange, ExpiriesDue, Round, IsNext, DueJobs, Succeeds, DueExpiry, SameAt, SameExpiries, RoundDone, GivenUp;
    var s' := Round(s, owner, now, input);
    NextIsDue(s, now, input.job);
    DrainRoundJobs(s, owner, now, input);
    DrainRoundTables(s, owner, now, input);
    JobsAreOk(s');
    RoundKeepsDuty(s.db.jobs, s'.db.jobs, input.job, now);
    forall r ensures GivenUp(s.db, r) <==> GivenUp(s'.db, r) {
      if s.db.jobs[input.job].kind == ExpireReservationJob && s.db.jobs[input.job].aggregate == r {
        NotYetSucceeded(s.db, input.job, now);
        ExpiryRound(s, owner, now, input);
        OneExpiryJob(s.db, input.job);
        OneExpiryJob(s'.db, input.job);
      } else {
        RoundLeaves(s, owner, now, input, r);
        GivenUpElsewhere(s.db, s'.db, input.job, now, r);
      }
    }
  }

  lemma JobsAreOk(s: State)
    requires Inv(s)
    ensures JobsOk(s.db.jobs)
  {
  }

  lemma RoundKeepsDuty(a: Jobs, b: Jobs, id: Id, now: Instant)
    requires RoundDone(a, b, id, now) && id in a && Claimable(a[id], now)
    ensures id in b && b[id].kind == a[id].kind && b[id].aggregate == a[id].aggregate
    ensures a[id].status == JobPending || a[id].status == JobRunning
  {
    hide SqlLe;
  }

  lemma {:induction false} DrainGivesUpNothing(s: State, owner: Id, now: Instant, rounds: seq<RoundInput>)
    requires WorkerOf(s, owner).Resting? && ClockInRange(now) && ExpiriesDue(s.db, now) && AllEnabled(s, owner, now, rounds)
    requires Inv(s)
    ensures SameGivenUp(s.db, Rounds(s, owner, now, rounds).db)
    decreases |rounds|
  {
    hide Inv, ExpiriesDue, ClockInRange, Enabled, Round, GivenUp, DueJobs;
    if rounds != [] {
      DrainRound(s, owner, now, rounds[0]);
      RoundGivesUpNothing(s, owner, now, rounds[0]);
      DrainGivesUpNothing(Round(s, owner, now, rounds[0]), owner, now, rounds[1..]);
    }
  }

  /** Exactly what was given up at `a` is held at `b`; if that is nothing, and only
      then, all capacity is back. */
  ghost predicate ReturnedBut(a: Db, b: Db) {
    && (forall r :: r in b.reservations ==> (Held(b.reservations[r]) <==> GivenUp(a, r)))
    && (WholeAgain(b) <==> forall r :: r in a.reservations ==> !GivenUp(a, r))
  }

  /** Every sequence of rounds is at most one for each job, and if it leaves nothing
      due it leaves held exactly what had been given up. */
  ghost predicate AllEndsReturn(s: State, owner: Id, now: Instant) {
    forall rounds :: AllEnabled(s, owner, now, rounds) ==>
      |rounds| <= |s.db.jobs|
      && (Idle(Rounds(s, owner, now, rounds).db.jobs, now) ==> ReturnedBut(s.db, Rounds(s, owner, now, rounds).db))
  }

  lemma EveryDrainEnds(s: State, owner: Id, now: Instant)
    requires WorkerOf(s, owner).Resting? && ClockInRange(now) && ExpiriesDue(s.db, now)
    requires Inv(s)
    ensures AllEndsReturn(s, owner, now)
  {
    forall rounds | AllEnabled(s, owner, now, rounds)
      ensures |rounds| <= |s.db.jobs|
      ensures Idle(Rounds(s, owner, now, rounds).db.jobs, now) ==> ReturnedBut(s.db, Rounds(s, owner, now, rounds).db)
    {
      hide Inv, ExpiriesDue, ClockInRange, AllEnabled, Rounds, Idle, WholeAgain, GivenUp, ReturnedBut, SameGivenUp;
      DrainConverges(s, owner, now, rounds);
      DrainGivesUpNothing(s, owner, now, rounds);
      if Idle(Rounds(s, owner, now, rounds).db.jobs, now) {
        ReturnedFrom(s.db, Rounds(s, owner, now, rounds).db);
      }
    }
  }

  lemma ReturnedFrom(a: Db, b: Db)
    requires SameGivenUp(a, b)
    requires forall r :: r in b.reservations ==> (Held(b.reservations[r]) <==> GivenUp(b, r))
    requires WholeAgain(b) <==> forall r :: r in b.reservations ==> !GivenUp(b, r)
    ensures ReturnedBut(a, b)
  {
    hide WholeAgain;
    forall r | r in a.reservations && GivenUp(a, r) ensures r in b.reservations && GivenUp(b, r) {
    }
    forall r | r in b.reservations && GivenUp(b, r) ensures r in a.reservations && GivenUp(a, r) {
    }
  }

  lemma DrainFrom(s: State, owner: Id, now: Instant, lease: nat, done: seq<RoundInput>) returns (more: seq<RoundInput>)
    requires WorkerOf(s, owner).Resting? && ClockInRange(now) && ExpiriesDue(s.db, now)
    requires AllEnabled(s, owner, now, done)
    requires Inv(s)
    ensures AllEnabled(s, owner, now, done + more) && Idle(Rounds(s, owner, now, done + more).db.jobs, now)
    ensures AllEndsReturn(s, owner, now)
  {
    hide Inv, ExpiriesDue, ClockInRange, AllEnabled, Rounds, Idle, ReturnedBut;
    EveryDrainEnds(s, owner, now);
    DrainedRests(s, owner, now, done);
    more := DrainOn(Rounds(s, owner, now, done), owner, now, lease);
    EnabledConcat(s, owner, now, done, more);
  }

  /** Convergence.  After any run that respects the clock, with the clock standing
      still past every due time and lease of the expiry jobs: whatever rounds a worker
      has done can be carried on until nothing is due, all of them are at most one for
      each job, and at every end exactly those reservations are held whose expiry job
      had failed or been cancelled before.  If there were none, and only then, all
      sites are whole. */
  lemma DrainCompletes(steps: seq<Step>, owner: Id, now: Instant, lease: nat, done: seq<RoundInput>)
    returns (more: seq<RoundInput>)
    requires ClocksRespected(START, steps) && ClockInRange(now)
    requires WorkerOf(Run(START, steps), owner).Resting? && QueueDue(Run(START, steps).db.jobs, now)
    requires AllEnabled(Run(START, steps), owner, now, done)
    ensures var s := Run(START, steps); var all := done + more; var end := Rounds(s, owner, now, all);
      AllEnabled(s, owner, now, all) && |all| <= |s.db.jobs| && Idle(end.db.jobs, now) && ReturnedBut(s.db, end.db)
    ensures AllEndsReturn(Run(START, steps), owner, now)
  {
    hide Inv, AllTimely, ExpiriesDue, ClockInRange, QueueDue, AllEnabled, Rounds, Idle, Run, ClocksRespected, ReturnedBut;
    RunTimelyFromStart(steps);
    DueQueueIsDue(Run(START, steps), now);
    more := DrainFrom(Run(START, steps), owner, now, lease, done);
  }

  lemma RunTimelyFromStart(steps: seq<Step>)
    requires ClocksRespected(START, steps)
    ensures Inv(Run(START, steps)) && AllTimely(Run(START, steps))
  {
    StartOk();
    hide Inv, Run, ClocksRespected;
    RunKeeps(START, steps);
    RunTimely(START, steps);
  }

  lemma {:induction false} DrainedRests(s: State, owner: Id, now: Instant, rounds: seq<RoundInput>)
    requires WorkerOf(s, owner).Resting? && ClockInRange(now) && ExpiriesDue(s.db, now) && AllEnabled(s, owner, now, rounds)
    requires Inv(s)
    ensures var end := Rounds(s, owner, now, rounds);
      WorkerOf(end, owner).Resting? && ExpiriesDue(end.db, now) && Inv(end)
    decreases |rounds|
  {
    hide Inv, ExpiriesDue, ClockInRange, Enabled, Round;
    if rounds != [] {
      DrainRound(s, owner, now, rounds[0]);
      DrainedRests(Round(s, owner, now, rounds[0]), owner, now, rounds[1..]);
    }
  }
}
