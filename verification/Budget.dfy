/** How often jobs can be claimed: the attempts that live jobs have left bound the
    claims of any run, but for takeovers. */
module Budget {
  import opened Basics
  import opened Timestamps
  import opened Domain
  import opened Transactions
  import opened Queue
  import opened Calls
  import opened Invariants
  import opened Preservation
  import opened System
  import opened Reachable

  function Left(j: Job): int { if Live(j) && j.attempts < j.maxAttempts then j.maxAttempts - j.attempts else 0 }

  function LeftOf(): Job -> int { (j: Job) => Left(j) }

  /** The attempts that all live jobs together have left. */
  ghost function AttemptsLeft(jobs: Jobs): int { MapSum(jobs, LeftOf()) }

  function Claims(log: seq<Event>): nat {
    if log == [] then 0 else Claims(log[..|log| - 1]) + if log[|log| - 1].ClaimEvent? then 1 else 0
  }

  function Takeovers(log: seq<Event>): nat {
    if log == [] then 0
    else
      var e := log[|log| - 1];
      Takeovers(log[..|log| - 1]) + if e.ClaimEvent? && e.displaced.Some? then 1 else 0
  }

  lemma Logged(log: seq<Event>, e: Event)
    ensures Claims(log + [e]) == Claims(log) + if e.ClaimEvent? then 1 else 0
    ensures Takeovers(log + [e]) == Takeovers(log) + if e.ClaimEvent? && e.displaced.Some? then 1 else 0
  {
    assert (log + [e])[..|log|] == log;
  }

  /** From `a` to `b` every claim that displaced no lease has used up an attempt. */
  ghost predicate Spends(a: State, b: State) {
    Claims(b.log) + AttemptsLeft(b.db.jobs) - Takeovers(b.log) <= Claims(a.log) + AttemptsLeft(a.db.jobs) - Takeovers(a.log)
  }

  lemma NoJobSpends(a: State, b: State)
    requires b.log == a.log && b.db.jobs == a.db.jobs
    ensures Spends(a, b)
  {
  }

  lemma RowSpends(a: State, b: State, id: Id, j: Job)
    requires id in a.db.jobs && b.db.jobs == a.db.jobs[id := j]
    requires Claims(b.log) - Takeovers(b.log) - Claims(a.log) + Takeovers(a.log) <= Left(a.db.jobs[id]) - Left(j)
    ensures Spends(a, b)
  {
    MapSumPut(a.db.jobs, LeftOf(), id, j);
  }

  lemma ClaimSpends(s: State, owner: Id, id: Id, now: Instant, lease: nat)
    requires JobsOk(s.db.jobs) && id in s.db.jobs && Claimable(s.db.jobs[id], now)
    ensures Spends(s, ClaimStep(s, owner, id, now, lease))
  {
    hide SqlLe;
    var s' := ClaimStep(s, owner, id, now, lease);
    assert JobShape(s.db.jobs[id]);
    Logged(s.log, s'.log[|s.log|]);
    RowSpends(s, s', id, ClaimedRow(s.db.jobs[id], owner, now, lease));
  }

  lemma SettleSpends(s: State, owner: Id, job: Job, error: Option<Error>, now: Instant)
    requires JobsOk(s.db.jobs) && HoldsJob(s.db.jobs, owner, job)
    ensures Spends(s, SettleStep(s, owner, job, error, now))
  {
    var s' := SettleStep(s, owner, job, error, now);
    if OwnedBy(s.db.jobs, job.id, owner) {
      Logged(s.log, s'.log[|s.log|]);
      RowSpends(s, s', job.id, s'.db.jobs[job.id]);
    } else {
      NoJobSpends(s, s');
    }
  }

  lemma CancelSpends(s: State, id: Id, now: Instant)
    ensures Spends(s, WithJobs(s, Cancelled(s.db.jobs, id, now)))
  {
    if id in s.db.jobs && Live(s.db.jobs[id]) {
      RowSpends(s, WithJobs(s, Cancelled(s.db.jobs, id, now)), id, Cancelled(s.db.jobs, id, now)[id]);
    }
  }

  lemma CallSpends(s: State, call: Call, fault: Fault)
    requires CallStep(s.db, call, fault).0.jobs.Keys == s.db.jobs.Keys
    ensures CallStep(s.db, call, fault).0.jobs == s.db.jobs
  {
    CallStepJobs(s.db, call, fault);
    hide CallStep;
  }

  lemma WorkerStepSpends(s: State, step: Step)
    requires step.Claim? || step.Settle?
    requires Inv(s)
    ensures Spends(s, Next(s, step))
  {
    InvHasJobs(s);
    hide CallStep, Spends, JobsOk, DbInv, CallOk, Counted, Fenced, LeasesRespected, SettledJobs, Claimed, HoldsJob, Claimable, ClaimStep, SettleStep;
    var w := WorkerOf(s, step.owner);
    if step.Claim? && w.Resting? && step.fault == NoFault && IsNext(s.db.jobs, step.now, step.job) {
      ClaimSpends(s, step.owner, step.job, step.now, step.lease);
    } else if step.Settle? && w.Settling? && step.fault == NoFault {
      assert WorkerOk(s.db, step.owner, s.workers[step.owner]);
      SettleSpends(s, step.owner, w.job, w.error, step.now);
    } else {
      NoJobSpends(s, Next(s, step));
    }
  }

  /** Every step that adds no job spends an attempt for every claim it makes, unless
      the claim is a takeover. */
  lemma StepSpends(s: State, step: Step)
    requires Next(s, step).db.jobs.Keys == s.db.jobs.Keys
    requires Inv(s)
    ensures Spends(s, Next(s, step))
  {
    hide Inv, CallStep, Spends, SettledJobs, Cancelled, Claimed, IsNext, HandlerOp;
    match step
    case Proceed(id, fault) =>
      if id in s.calls { CallSpends(s, s.calls[id], fault); }
      NoJobSpends(s, Next(s, step));
    case HandlerStep(owner, fault) =>
      var w := WorkerOf(s, owner);
      if w.Handling? { CallSpends(s, w.call, fault); }
      NoJobSpends(s, Next(s, step));
    case Cancel(id, now) => CancelSpends(s, id, now);
    case Claim(_, _, _, _, _) => WorkerStepSpends(s, step);
    case Settle(_, _, _) => WorkerStepSpends(s, step);
    case _ => NoJobSpends(s, Next(s, step));
  }

  lemma JobsStay(s: State, step: Step)
    requires JobsOk(s.db.jobs)
    ensures s.db.jobs.Keys <= Next(s, step).db.jobs.Keys
  {
    hide CallStep, IsNext, HandlerOp, JobsOk, Claimable;
    match step
    case Proceed(id, fault) => if id in s.calls { CallStepJobs(s.db, s.calls[id], fault); }
    case HandlerStep(owner, fault) => if WorkerOf(s, owner).Handling? { CallStepJobs(s.db, WorkerOf(s, owner).call, fault); }
    case _ =>
  }

  lemma {:induction false} JobsStayOverRun(s: State, steps: seq<Step>)
    requires Inv(s)
    ensures s.db.jobs.Keys <= Run(s, steps).db.jobs.Keys
    decreases |steps|
  {
    hide Next, Inv, JobsOk;
    if steps != [] {
      InvHasJobs(s);
      JobsStay(s, steps[0]);
      NextKeeps(s, steps[0]);
      JobsStayOverRun(Next(s, steps[0]), steps[1..]);
    }
  }

  /** In any run that adds no job, from any reachable state, the claims number at
      most the attempts left at its start plus the takeovers in it.  Without
      takeovers the attempts left are a measure that every claim decreases. */
  lemma {:induction false} ClaimsAreBounded(s: State, steps: seq<Step>)
    requires Run(s, steps).db.jobs.Keys == s.db.jobs.Keys
    requires Inv(s)
    ensures Spends(s, Run(s, steps))
    ensures var e := Run(s, steps);
      Claims(e.log) - Claims(s.log) <= AttemptsLeft(s.db.jobs) + Takeovers(e.log) - Takeovers(s.log)
    decreases |steps|
  {
    hide Next, Inv, JobsOk, MapSum;
    if steps != [] {
      var next := Next(s, steps[0]);
      InvHasJobs(s);
      JobsStay(s, steps[0]);
      NextKeeps(s, steps[0]);
      JobsStayOverRun(next, steps[1..]);
      assert next.db.jobs.Keys == s.db.jobs.Keys;
      StepSpends(s, steps[0]);
      ClaimsAreBounded(next, steps[1..]);
    }
    AttemptsAreLeft(Run(s, steps).db.jobs);
  }

  lemma AttemptsAreLeft(jobs: Jobs)
    ensures AttemptsLeft(jobs) >= 0
  {
    MapSumBounds(jobs, LeftOf());
  }
}
