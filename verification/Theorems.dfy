/** What the invariant means for a reader: consequences over every run. */
module Theorems {
  import opened Basics
  import opened Timestamps
  import opened Domain
  import opened Transactions
  import opened Queue
  import opened Calls
  import opened Invariants
  import opened Preservation
  import opened System
  import opened Reachable

  // ------------------------------------------------------ rows over a run

  /** Every row of `a` is an earlier state of the same row of `b`. */
  ghost predicate DbPast(a: Db, b: Db) {
    && (forall k :: k in a.sites ==> k in b.sites && SitePast(a.sites[k], b.sites[k]))
    && (forall k :: k in a.scenarios ==> k in b.scenarios && ScenarioPast(a.scenarios[k], b.scenarios[k]))
    && (forall k :: k in a.reservations ==> k in b.reservations && ReservationPast(a.reservations[k], b.reservations[k]))
    && (forall k :: k in a.deployments ==> k in b.deployments && DeploymentPast(a.deployments[k], b.deployments[k]))
  }

  lemma StepIsPast(a: Db, b: Db)
    requires TxStep(a, b)
    ensures DbPast(a, b)
  {
    forall k | k in a.sites ensures k in b.sites && SitePast(a.sites[k], b.sites[k]) { assert SiteMove(a.sites[k], b.sites[k]); }
    forall k | k in a.scenarios ensures k in b.scenarios && ScenarioPast(a.scenarios[k], b.scenarios[k]) {
      assert ScenarioMove(a.scenarios[k], b.scenarios[k]);
    }
    forall k | k in a.reservations ensures k in b.reservations && ReservationPast(a.reservations[k], b.reservations[k]) {
      assert ReservationMove(a.reservations[k], b.reservations[k]);
    }
    forall k | k in a.deployments ensures k in b.deployments && DeploymentPast(a.deployments[k], b.deployments[k]) {
      assert DeploymentMove(a.deployments[k], b.deployments[k]);
    }
  }

  lemma PastIsTransitive(a: Db, b: Db, c: Db)
    requires DbPast(a, b) && DbPast(b, c)
    ensures DbPast(a, c)
  {
  }

  /** Every step, whatever is in flight, moves each row by at most one version and
      only along its state machine. */
  lemma StepsAreLegal(s: State, step: Step)
    requires Inv(s)
    ensures TxStep(s.db, Next(s, step).db)
  {
    StayingPut(s.db);
    match step
    case Proceed(id, fault) =>
      hide DbInv, TxStep, CallStep, CallOk;
      if id in s.calls { CallStepKeeps(s.db, s.calls[id], fault); }
    case HandlerStep(owner, fault) =>
      hide DbInv, TxStep, CallStep, CallOk, HoldsJob, HandlerOp;
      var w := WorkerOf(s, owner);
      if w.Handling? {
        assert WorkerOk(s.db, owner, s.workers[owner]);
        CallStepKeeps(s.db, w.call, fault);
      }
    case _ =>
      hide Inv, CallStep, IsNext;
      NoRowsTouched(s, step);
  }

  lemma NoRowsTouched(s: State, step: Step)
    requires !step.Proceed? && !step.HandlerStep?
    requires step.Claim? && IsNext(s.db.jobs, step.now, step.job) ==> step.job in s.db.jobs
    ensures TxStep(s.db, Next(s, step).db)
  {
    hide TxStep, CallStep, IsNext, SettledJobs, Cancelled, Claimed, HandlerOp, CommitStep, Claimable, OwnedBy;
    match step
    case Claim(_, _, _, _, _) => SameRowsStep(s.db, Next(s, step).db);
    case Settle(_, _, _) => SameRowsStep(s.db, Next(s, step).db);
    case Handle(_, _, _) => SameRowsStep(s.db, Next(s, step).db);
    case _ => SameRowsStep(s.db, Next(s, step).db);
  }

  lemma SameRowsStep(a: Db, b: Db)
    requires a.sites == b.sites && a.scenarios == b.scenarios && a.reservations == b.reservations && a.deployments == b.deployments
    ensures TxStep(a, b)
  {
  }

  lemma {:induction false} RunIsPast(s: State, steps: seq<Step>)
    requires Inv(s)
    ensures DbPast(s.db, Run(s, steps).db)
    decreases |steps|
  {
    if steps == [] {
      StayingPut(s.db);
      StepIsPast(s.db, s.db);
    } else {
      StepsAreLegal(s, steps[0]);
      StepIsPast(s.db, Next(s, steps[0]).db);
      NextKeeps(s, steps[0]);
      hide Inv, DbPast, Next;
      RunIsPast(Next(s, steps[0]), steps[1..]);
      PastIsTransitive(s.db, Next(s, steps[0]).db, Run(Next(s, steps[0]), steps[1..]).db);
    }
  }

  // ------------------------------------------------------------- life cycles

  /** Where a status stands on the way from creation; a site that has left review
      alternates between active and suspended. */
  function SiteStage(s: SiteStatus): nat { match s case Draft => 0 case Verified => 1 case _ => 2 }

  function ScenarioStage(s: ScenarioStatus): nat { match s case Submitted => 0 case Reviewing => 1 case _ => 2 }

  function ReservationStage(s: ReservationStatus): nat { match s case Pending => 0 case Confirmed => 1 case _ => 2 }

  function DeploymentStage(s: DeploymentStatus): nat {
    match s case Queued => 0 case Activating => 1 case Running => 2 case Stopping => 3 case _ => 4
  }

  predicate ScenarioAdvanced(a: Scenario, b: Scenario) {
    ScenarioStage(a.status) <= ScenarioStage(b.status) && (ScenarioStage(a.status) == 2 ==> b == a)
  }

  predicate ReservationAdvanced(a: Reservation, b: Reservation) {
    ReservationStage(a.status) <= ReservationStage(b.status) && (ReservationStage(a.status) == 2 ==> b == a)
  }

  predicate DeploymentAdvanced(a: Deployment, b: Deployment) {
    DeploymentStage(a.status) <= DeploymentStage(b.status) && (DeploymentStage(a.status) == 4 ==> b == a)
  }

  /** No row has gone back, and what had reached its last stage has stayed as it was. */
  ghost predicate Advanced(a: Db, b: Db) {
    && (forall k :: k in a.sites ==> k in b.sites && SiteStage(a.sites[k].status) <= SiteStage(b.sites[k].status))
    && (forall k :: k in a.scenarios ==> k in b.scenarios && ScenarioAdvanced(a.scenarios[k], b.scenarios[k]))
    && (forall k :: k in a.reservations ==> k in b.reservations && ReservationAdvanced(a.reservations[k], b.reservations[k]))
    && (forall k :: k in a.deployments ==> k in b.deployments && DeploymentAdvanced(a.deployments[k], b.deployments[k]))
  }

  lemma StepAdvances(a: Db, b: Db)
    requires TxStep(a, b)
    ensures Advanced(a, b)
  {
    forall k | k in a.sites ensures k in b.sites && SiteStage(a.sites[k].status) <= SiteStage(b.sites[k].status) {
      assert SiteMove(a.sites[k], b.sites[k]);
    }
    forall k | k in a.scenarios ensures k in b.scenarios && ScenarioAdvanced(a.scenarios[k], b.scenarios[k]) {
      assert ScenarioMove(a.scenarios[k], b.scenarios[k]);
    }
    forall k | k in a.reservations ensures k in b.reservations && ReservationAdvanced(a.reservations[k], b.reservations[k]) {
      assert ReservationMove(a.reservations[k], b.reservations[k]);
    }
    forall k | k in a.deployments ensures k in b.deployments && DeploymentAdvanced(a.deployments[k], b.deployments[k]) {
      assert DeploymentMove(a.deployments[k], b.deployments[k]);
    }
  }

  lemma AdvancedTwice(a: Db, b: Db, c: Db)
    requires Advanced(a, b) && Advanced(b, c)
    ensures Advanced(a, c)
  {
  }

  /** Over every run, whatever is in flight, no status goes back, and decided
      scenarios, ended reservations and finished deployments never change again. */
  lemma {:induction false} StatusesOnlyAdvance(s: State, steps: seq<Step>)
    requires Inv(s)
    ensures Advanced(s.db, Run(s, steps).db)
    decreases |steps|
  {
    hide Inv, Advanced, Next, TxStep;
    if steps == [] {
      StayingPut(s.db);
      StepAdvances(s.db, s.db);
    } else {
      StepsAreLegal(s, steps[0]);
      StepAdvances(s.db, Next(s, steps[0]).db);
      NextKeeps(s, steps[0]);
      StatusesOnlyAdvance(Next(s, steps[0]), steps[1..]);
      AdvancedTwice(s.db, Next(s, steps[0]).db, Run(Next(s, steps[0]), steps[1..]).db);
    }
  }

  // -------------------------------------------------------------- capacity

  ghost function HeldUnits(db: Db, site: Id): int { MapSum(db.reservations, HeldBy(site)) }

  /** In every state of every concurrent run a site's units are either available
      or held by a live reservation, never both and never neither. */
  lemma CapacityIsConserved(steps: seq<Step>, site: Id)
    requires site in Run(START, steps).db.sites
    ensures var db := Run(START, steps).db;
      db.sites[site].available + HeldUnits(db, site) == db.sites[site].total
      && 0 <= db.sites[site].available && 0 <= HeldUnits(db, site) <= db.sites[site].total
  {
    EveryRunIsSafe(steps);
  }

  lemma UnitsFit(sites: map<Id, Site>, reservations: map<Id, Reservation>, r: Reservation)
    requires r.site in sites && sites[r.site].available + MapSum(reservations, HeldBy(r.site)) == sites[r.site].total
    requires r.id in reservations && SameReservation(r, reservations[r.id]) && Held(reservations[r.id])
    requires forall k :: k in reservations ==> reservations[k].units > 0
    ensures sites[r.site].available + r.units <= sites[r.site].total
  {
    forall k | k in reservations ensures HeldBy(r.site)(reservations[k]) >= 0 {
    }
    MapSumBounds(reservations, HeldBy(r.site));
    assert HeldBy(r.site)(reservations[r.id]) == r.units;
  }

  lemma UnitsPositive(db: Db)
    requires Qualified(db.reservations, db.scenarios)
    ensures forall k :: k in db.reservations ==> db.reservations[k].units > 0
  {
    forall k | k in db.reservations ensures db.reservations[k].units > 0 {
      assert ReservationShape(db.reservations[k]);
    }
  }

  /** A held reservation's units fit back into its site: the conflict branches of
      the capacity returns cannot be taken. */
  lemma ReturnNeverConflicts(db: Db, r: Reservation)
    requires DbInv(db) && r.id in db.reservations && SameReservation(r, db.reservations[r.id]) && Held(db.reservations[r.id])
    ensures ReturnCapacityCheck(db, r) == None
  {
    hide ScenariosOk, ReviewsOk, DeploymentsOk, OutboxInv, LedgerInv, Accounted, Qualified, MapSum;
    UnitsPositive(db);
    assert SiteCheck(db.sites[r.site].total, db.sites[r.site].available);
    UnitsFit(db.sites, db.reservations, r);
  }

  /** An ended reservation refuses every release, expiry and stop, planned from
      whatever snapshot. */
  lemma EndedIsRefused(db: Db, r: Reservation, d: Deployment, e: Audit, fault: Fault)
    requires r.id in db.reservations && !Held(db.reservations[r.id])
    ensures Refusal(db, ReturnTx(r, e), fault).Some? && Refusal(db, StopReleaseTx(d, r, e), fault).Some?
  {
    assert EndReservationCheck(db, r).Some? && EndConfirmedCheck(db, r).Some?;
  }

  lemma LastVersion(a: Db, b: Db, id: Id)
    requires DbPast(a, b) && Qualified(a.reservations, a.scenarios) && Qualified(b.reservations, b.scenarios)
    requires id in a.reservations && !Held(a.reservations[id])
    ensures id in b.reservations && b.reservations[id] == a.reservations[id]
  {
    assert ReservationPast(a.reservations[id], b.reservations[id]);
    assert ReservationShape(a.reservations[id]) && ReservationShape(b.reservations[id]);
  }

  /** Whoever ends a reservation first ends it for good: in every later state of
      every continuation its row is the same and no other return commits. */
  lemma ReturnedAtMostOnce(s: State, steps: seq<Step>, r: Reservation, d: Deployment, e: Audit, fault: Fault)
    requires r.id in s.db.reservations && !Held(s.db.reservations[r.id])
    requires Inv(s)
    ensures var db := Run(s, steps).db;
      r.id in db.reservations && db.reservations[r.id] == s.db.reservations[r.id]
      && Refusal(db, ReturnTx(r, e), fault).Some? && Refusal(db, StopReleaseTx(d, r, e), fault).Some?
  {
    hide Next;
    RunIsPast(s, steps);
    RunKeeps(s, steps);
    hide Refusal, DbPast, Qualified, Conserved, Accounted, SitesOk, OnKnownSites, DeploymentsOk, LedgerInv, OutboxInv, CallOk, WorkerOk, Counted, Fenced;
    LastVersion(s.db, Run(s, steps).db, r.id);
    EndedIsRefused(Run(s, steps).db, r, d, e, fault);
  }

  /** A site's version is one more than its reviews and transitions and all the
      writes to its reservations. */
  lemma VersionsAreAccounted(steps: seq<Step>, site: Id)
    requires site in Run(START, steps).db.sites
    ensures var db := Run(START, steps).db;
      db.sites[site].version == 1 + MapSum(db.audit, SiteEvent(site)) + MapSum(db.reservations, VersionAt(site))
  {
    EveryRunIsSafe(steps);
  }

  // --------------------------------------------------------- qualification

  /** A scenario is decided exactly when it has exactly one review row, and then
      its version is 3 and the row says how. */
  lemma QualificationChain(steps: seq<Step>, k: Id)
    requires k in Run(START, steps).db.scenarios
    ensures var db := Run(START, steps).db; var s := db.scenarios[k];
      && (Decided(s) <==> MapSum(db.scenarioReviews, ReviewOf(k)) == 1)
      && (Decided(s) <==> s.version == 3)
      && (forall r :: r in db.scenarioReviews && db.scenarioReviews[r].subject == k
           ==> s.status == VerdictOf(db.scenarioReviews[r]))
  {
    EveryRunIsSafe(steps);
  }

  /** Every reservation ever made is for an approved scenario of the same partner, in
      exactly the requested amount, and for one minute to seven days. */
  lemma ReservationsAreQualified(steps: seq<Step>, k: Id)
    requires k in Run(START, steps).db.reservations
    ensures var db := Run(START, steps).db; var r := db.reservations[k];
      r.scenario in db.scenarios && db.scenarios[r.scenario].status == Approved
      && db.scenarios[r.scenario].partner == r.partner && db.scenarios[r.scenario].requested == r.units
      && Seconds(60) <= r.expiresAt - r.createdAt <= Seconds(7 * 86_400)
  {
    EveryRunIsSafe(steps);
    assert ReservationShape(Run(START, steps).db.reservations[k]);
  }

  // ------------------------------------------------------------ deployments

  /** However operators and activation jobs interleave: one deployment per
      reservation, versions count the way from queued, and an endpoint and a start
      time appear together when running is reached. */
  lemma DeploymentRunShape(steps: seq<Step>, k: Id)
    requires k in Run(START, steps).db.deployments
    ensures var db := Run(START, steps).db; var d := db.deployments[k];
      DeploymentShape(d)
      && forall m :: m in db.deployments && db.deployments[m].reservation == d.reservation ==> m == k
  {
    EveryRunIsSafe(steps);
  }

  /** Start time and endpoint are set once and never change. */
  lemma StartedForGood(s: State, steps: seq<Step>, k: Id)
    requires k in s.db.deployments && s.db.deployments[k].startedAt.Some?
    requires Inv(s)
    ensures var d := Run(s, steps).db.deployments;
      k in d && d[k].startedAt == s.db.deployments[k].startedAt && d[k].endpoint == s.db.deployments[k].endpoint
  {
    RunIsPast(s, steps);
    hide Inv, Run;
    assert DeploymentPast(s.db.deployments[k], Run(s, steps).db.deployments[k]);
  }

  // ------------------------------------------------------------------ queue

  /** Every reservation has exactly one expiry job, and once that job has
      succeeded the reservation has ended. */
  lemma ExactlyOneExpiryJob(steps: seq<Step>, r: Id)
    requires r in Run(START, steps).db.reservations
    ensures var db := Run(START, steps).db;
      exists k :: k in db.jobs && ExpiryJobFor(db.jobs[k], r)
        && (db.jobs[k].status == JobSucceeded ==> !Held(db.reservations[r]))
        && forall m :: m in db.jobs && db.jobs[m].kind == ExpireReservationJob && db.jobs[m].aggregate == r ==> m == k
  {
    EveryRunIsSafe(steps);
    hide Run, CapacityInv, QualificationInv, LedgerInv, DeploymentsOk, ActivationOutbox, Counted, Fenced, LeasesRespected, CallOk, WorkerOk;
    var db := Run(START, steps).db;
    assert HasExpiryJob(db.jobs, r);
    var k :| k in db.jobs && ExpiryJobFor(db.jobs[k], r);
  }

  /** Every deployment has exactly one activation job, and once that job has
      succeeded the deployment has run. */
  lemma ExactlyOneActivationJob(steps: seq<Step>, d: Id)
    requires d in Run(START, steps).db.deployments
    ensures var db := Run(START, steps).db;
      exists k :: k in db.jobs && ActivationJobFor(db.jobs[k], d)
        && (db.jobs[k].status == JobSucceeded ==> db.deployments[d].startedAt.Some?)
        && forall m :: m in db.jobs && db.jobs[m].kind == ActivateDeploymentJob && db.jobs[m].aggregate == d ==> m == k
  {
    EveryRunIsSafe(steps);
    hide Run, CapacityInv, QualificationInv, LedgerInv, DeploymentsOk, ExpiryOutbox, Counted, Fenced, LeasesRespected, CallOk, WorkerOk;
    var db := Run(START, steps).db;
    assert HasActivationJob(db.jobs, d);
    var k :| k in db.jobs && ActivationJobFor(db.jobs[k], d);
  }

  /** Attempts count claims; only takeovers can push them past the limit, and a
      job at its limit is never pending again. */
  lemma AttemptBudget(steps: seq<Step>, k: Id)
    requires k in Run(START, steps).db.jobs
    ensures var s := Run(START, steps); var j := s.db.jobs[k];
      && j.attempts == ClaimsOf(s.log, k)
      && ClaimsOf(s.log, k) <= j.maxAttempts + TakeoversOf(s.log, k)
      && (j.attempts >= j.maxAttempts ==> j.status != JobPending)
  {
    EveryRunIsSafe(steps);
    assert JobShape(Run(START, steps).db.jobs[k]);
  }

  /** The lease of a running job is its last claimant's; each claim is settled at
      most once, by its own claimant; and a claim comes before the due time of its
      job, or before the end of the lease that it takes over, exactly when the two
      times are inverted as texts, which never reaches into an earlier second. */
  lemma LeasesAreFenced(steps: seq<Step>)
    ensures var s := Run(START, steps);
      && (forall k :: k in s.db.jobs && s.db.jobs[k].status == JobRunning ==> HeldByLastClaimant(s.db.jobs[k], LastClaim(s.log, k)))
      && SettledOnce(s.log) && ClaimedOnce(s.log) && SettlesAClaim(s.log)
    ensures forall e :: e in Run(START, steps).log ==> ClaimWaited(e)
  {
    EveryRunIsSafe(steps);
    hide Run;
    forall e | e in Run(START, steps).log ensures ClaimWaited(e) {
      assert LeaseRespected(e);
    }
  }

  predicate ClaimWaited(e: Event) {
    e.ClaimEvent? ==>
      NeverASecondEarly(e.at, e.due) && (e.displaced.Some? ==> NeverASecondEarly(e.at, e.displaced.value))
  }

  predicate NeverASecondEarly(at: Instant, time: Instant) {
    WaitedFor(at, time) && (InRange(at) && InRange(time) ==> Sec(time) <= Sec(at))
  }

  /** In every reachable state the settlement that a worker has coming changes the
      tables if and only if the worker still owns the job. */
  lemma SettlesIffOwned(steps: seq<Step>, owner: Id, now: Instant)
    requires WorkerOf(Run(START, steps), owner).Settling?
    ensures var s := Run(START, steps);
      Next(s, Settle(owner, now, NoFault)).db != s.db <==> OwnedBy(s.db.jobs, WorkerOf(s, owner).job.id, owner)
  {
    EveryRunIsSafe(steps);
    hide Run, DbInv, CallOk, Counted, Fenced, LeasesRespected, Achieved, HandlerOp, CallStep, IsNext, Backoff;
    var s := Run(START, steps);
    var job := WorkerOf(s, owner).job;
    if OwnedBy(s.db.jobs, job.id, owner) {
      assert Next(s, Settle(owner, now, NoFault)).db.jobs[job.id].status != JobRunning;
    }
  }

  // ----------------------------------------------------------------- ledger

  /** Partner by partner the settlements are the metered unit-seconds at the rate,
      and every usage row has its one settlement. */
  lemma LedgerBalances(steps: seq<Step>, partner: Id)
    ensures var db := Run(START, steps).db;
      MapSum(db.settlements, AmountOf(partner)) == RATE * MapSum(db.usage, SecondsOf(partner))
      && Paired(db.usage, db.settlements) && Metered(db.usage, db.deployments, db.reservations)
  {
    EveryRunIsSafe(steps);
  }

  /** Of the well-formed meter readings exactly those are refused whose amount a
      64-bit integer cannot hold; the others are settled at the rate. */
  lemma OverflowGuardIsExact(req: Request, partner: Id, start: Instant, end: Instant, unitSeconds: int, currency: string,
                             d: Deployment, r: Reservation)
    requires r.partner == partner && NewUsage(req.env.itemId, d.id, partner, start, end, unitSeconds).Ok?
    ensures var plan := PlanRecordUsage(req, partner, start, end, unitSeconds, currency, d, r);
      && (plan == Refuse(Invalid) <==> unitSeconds * 17 > 0x7fff_ffff_ffff_ffff)
      && (plan.Submit? ==> plan.tx.RecordUsageTx? && plan.tx.settlement.amount == unitSeconds * 17
                           && plan.tx.settlement.usage == plan.tx.usage.id && plan.tx.settlement.partner == partner)
  {
  }

  /** The trigger on usage rows compares texts.  Of the readings that the service lets
      through, whose periods all end after they start, it refuses exactly those whose
      two times are inverted, with an internal error. */
  lemma InvertedPeriodIsRefused(db: Db, req: Request, d: Deployment, r: Reservation)
    requires req.op.RecordUsage? && PlanOf(req, DeploymentReservationRead(d, r)).Submit? && InRange(req.op.end)
    ensures req.op.start < req.op.end
    ensures CommitStep(db, req, DeploymentReservationRead(d, r), NoFault) == (db, Done(req, Err(Internal)))
      <==> Inverted(req.op.start, req.op.end)
  {
    var tx := PlanOf(req, DeploymentReservationRead(d, r)).tx;
    PeriodIsPlanned(req, d, r);
    hide InRange, Inverted, TextLess, Timestamp, PlanOf, Written, Refusal;
    InRangeBelow(req.op.start, req.op.end);
    TextOrderIsTimeOrder(req.op.start, req.op.end);
    UsageTxRefusal(db, tx);
  }

  lemma PeriodIsPlanned(req: Request, d: Deployment, r: Reservation)
    requires req.op.RecordUsage? && PlanOf(req, DeploymentReservationRead(d, r)).Submit?
    ensures var tx := PlanOf(req, DeploymentReservationRead(d, r)).tx;
      tx.RecordUsageTx? && tx.usage.start == req.op.start < tx.usage.end == req.op.end
  {
  }

  lemma UsageTxRefusal(db: Db, tx: Tx)
    requires tx.RecordUsageTx?
    ensures Refusal(db, tx, NoFault) == Some(Internal) <==> SqlLe(tx.usage.end, tx.usage.start)
  {
    hide TextLess, Timestamp, SqlLe;
  }

  // ------------------------------------------------------------ calls that succeed

  /** A call that has succeeded has brought about what it is for, in every later
      state of every run: an expiry has ended its reservation, and an activation has
      started its deployment. */
  lemma SuccessLasts(steps: seq<Step>, more: seq<Step>, id: Id)
    requires var s := Run(START, steps); id in s.calls && s.calls[id].Done? && s.calls[id].result.Ok?
    ensures var op := Run(START, steps).calls[id].request.op; var db := Run(Run(START, steps), more).db;
      && (op.Expire? ==> op.reservation in db.reservations && !Held(db.reservations[op.reservation]))
      && (op.Activate? ==> op.deployment in db.deployments && db.deployments[op.deployment].startedAt.Some?)
  {
    EveryRunIsSafe(steps);
    hide Run;
    var s := Run(START, steps);
    assert CallOk(s.db, s.calls[id]);
    hide Inv;
    AchievedLasts(s, more, s.calls[id].request.op);
  }

  lemma {:induction false} AchievedLasts(s: State, steps: seq<Step>, op: Op)
    requires Achieved(s.db, op) && Inv(s)
    ensures Achieved(Run(s, steps).db, op)
    decreases |steps|
  {
    hide Inv, Next, TxStep, Achieved;
    if steps != [] {
      StepsAreLegal(s, steps[0]);
      AchievedSurvives(s.db, Next(s, steps[0]).db, op);
      NextKeeps(s, steps[0]);
      AchievedLasts(Next(s, steps[0]), steps[1..], op);
    }
  }
}
