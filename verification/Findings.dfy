/** The three places where a call does not look again, each shown by a run from the
    empty tables, and the replay of an interrupted activation. */
module Findings {
  import opened Basics
  import opened Timestamps
  import opened Domain
  import opened Transactions
  import opened Calls
  import opened Invariants
  import opened System
  import opened Serializability
  import opened Services
  import opened Examples

  const T1: Instant := 1_000_000_000
  const T2: Instant := 2_000_000_000
  const T3: Instant := 3_000_000_000

  // ------------------------------------------ a deployment for what has ended

  const CREATE := Request(PARTNER, CreateDeployment("r"), At(T1, "d", "k", "", "e6"))
  const RELEASE := Request(PARTNER, Release("r", 1), At(T3, "", "", "", "e7"))

  const RELEASED := RESERVATION.(status := Released, version := 2, updatedAt := T3)
  const FREE_SITE := FULL_SITE.(available := 4, version := 5, updatedAt := T3)
  const QUEUED := Deployment("d", "r", Queued, "", 1, None, None, T1, T1)
  const ACTIVATION_JOB := Job("k", ActivateDeploymentJob, "d", Some(map[DEPLOYMENT_KEY := "d"]), JobPending, 0, 5, T1, None, None, None, T1, T1)

  /** What a release makes of tables in which the reservation is held. */
  function Freed(db: Db): Db {
    db.(reservations := db.reservations["r" := RELEASED], sites := db.sites["s" := FREE_SITE],
        audit := db.audit["e7" := Audit("e7", "p", ReservationReleased, "r")])
  }

  function WithDeployment(db: Db): Db {
    db.(deployments := db.deployments["d" := QUEUED], jobs := db.jobs["k" := ACTIVATION_JOB],
        audit := db.audit["e6" := Audit("e6", "p", DeploymentCreated, "d")])
  }

  /** The reservation is held and takes all of its site. */
  predicate FullyHeld(db: Db) {
    && "r" in db.reservations && db.reservations["r"] == RESERVATION
    && "s" in db.sites && db.sites["s"] == FULL_SITE && "e7" !in db.audit
  }

  /** The release of the reservation, alone, on any tables that hold it. */
  lemma ReleasedAlone(db: Db)
    requires FullyHeld(db)
    ensures Alone(db, RELEASE, NoFault).0 == Freed(db)
  {
    FromReads(db, RELEASE, NoReads, NoFault);
    hide From, Alone;
    SubmittedAlone(db, RELEASE, ReservationRead(RESERVATION), ReturnTx(RELEASED, Audit("e7", "p", ReservationReleased, "r")),
      ReservationAnswer(RELEASED));
  }

  /** A partner's call reads its confirmed reservation; the partner releases it; the
      call commits. */
  const ORPHAN := SETUP + [Begin("late", CREATE)] + [Proceed("late", NoFault)] + WholeCall(RELEASE) + [Proceed("late", NoFault)]

  /** Tables without a deployment, in which the reservation's row is `r`. */
  predicate Undeployed(db: Db, r: Reservation) {
    && db.deployments == map[] && db.jobs == map["j" := EXPIRY_JOB] && "e6" !in db.audit
    && "r" in db.reservations && db.reservations["r"] == r
  }

  lemma HistoryIsUndeployed()
    ensures Undeployed(DB7, RESERVATION) && FullyHeld(DB7)
  {
    hide Timestamp;
  }

  /** The create path does not look at the reservation again: in this run a deployment
      is created for a released reservation, where the same call run alone at its
      commit refuses. */
  lemma DeploymentForReleasedReservation()
    ensures var s := Run(START, ORPHAN);
      && "late" in s.calls && s.calls["late"] == Done(CREATE, Ok(DeploymentAnswer(QUEUED)))
      && "d" in s.db.deployments && s.db.deployments["d"] == QUEUED
      && "r" in s.db.reservations && s.db.reservations["r"] == RELEASED
    ensures Alone(Freed(DB7), CREATE, NoFault) == (Freed(DB7), Done(CREATE, Err(IllegalState)))
  {
    hide Run, WholeCall, CallStep, Alone;
    SetupRuns();
    HistoryIsUndeployed();
    OrphanRuns(SETUP, DB7);
  }

  lemma FreedIsUndeployed(db: Db)
    requires Undeployed(db, RESERVATION)
    ensures Undeployed(Freed(db), RELEASED)
  {
  }

  lemma OrphanRuns(steps: seq<Step>, db: Db)
    requires Run(START, steps) == Quiet(db) && Undeployed(db, RESERVATION) && FullyHeld(db)
    ensures Run(START, steps + [Begin("late", CREATE)] + [Proceed("late", NoFault)] + WholeCall(RELEASE) + [Proceed("late", NoFault)])
         == Quiet(WithDeployment(Freed(db))).(calls := map["late" := Done(CREATE, Ok(DeploymentAnswer(QUEUED)))])
    ensures Alone(Freed(db), CREATE, NoFault) == (Freed(db), Done(CREATE, Err(IllegalState)))
  {
    hide Run, WholeCall, CallStep, Alone, WithDeployment, Undeployed, FullyHeld;
    CreateReads(db);
    ReleasedAlone(db);
    FreedIsUndeployed(db);
    hide Freed;
    CreateCommitsLate(Freed(db));
    CreateRefuses(Freed(db));
    var reading := steps + [Begin("late", CREATE)] + [Proceed("late", NoFault)];
    BeginsReading(steps, Quiet(db), CREATE, ReservationRead(RESERVATION));
    var waiting := Quiet(db).(calls := map["late" := Ongoing(CREATE, ReservationRead(RESERVATION))]);
    OneMoreCall(reading, waiting, RELEASE, Freed(db));
    GoesOn(reading + WholeCall(RELEASE), waiting.(db := Freed(db)), Ongoing(CREATE, ReservationRead(RESERVATION)),
      WithDeployment(Freed(db)), Done(CREATE, Ok(DeploymentAnswer(QUEUED))));
  }

  lemma CreateReads(db: Db)
    requires Undeployed(db, RESERVATION)
    ensures CallStep(db, Ongoing(CREATE, NoReads), NoFault) == (db, Ongoing(CREATE, ReservationRead(RESERVATION)))
  {
    hide CommitStep;
  }

  lemma CreatePlans()
    ensures PlanOf(CREATE, ReservationRead(RESERVATION))
         == Submit(CreateDeploymentTx(QUEUED, ACTIVATION_JOB, Audit("e6", "p", DeploymentCreated, "d")), DeploymentAnswer(QUEUED), None)
    ensures PlanOf(CREATE, ReservationRead(RELEASED)) == Refuse(IllegalState)
  {
  }

  /** The transaction asks nothing of the reservation but that it is there. */
  lemma CreateMeets(db: Db, r: Reservation)
    requires Undeployed(db, r)
    ensures var tx := CreateDeploymentTx(QUEUED, ACTIVATION_JOB, Audit("e6", "p", DeploymentCreated, "d"));
      DemandsOf(db, tx).Met() && Written(db, tx) == WithDeployment(db)
  {
    hide Timestamp;
  }

  lemma CreateCommitsLate(db: Db)
    requires Undeployed(db, RELEASED)
    ensures CallStep(db, Ongoing(CREATE, ReservationRead(RESERVATION)), NoFault)
         == (WithDeployment(db), Done(CREATE, Ok(DeploymentAnswer(QUEUED))))
  {
    CreatePlans();
    CreateMeets(db, RELEASED);
    hide PlanOf, DemandsOf, Written, WithDeployment;
  }

  /** The reads of the call: the reservation, whatever became of it, and no more. */
  lemma CreateFetches(db: Db, r: Reservation)
    requires "r" in db.reservations && db.reservations["r"] == r && r.partner == RESERVATION.partner
    ensures Screen(CREATE, NoReads).None? && Fetch(db, CREATE.op, NoReads) == Found(ReservationRead(r))
    ensures Screen(CREATE, ReservationRead(r)).None? && Fetch(db, CREATE.op, ReservationRead(r)).Complete?
  {
  }

  lemma CreateRefuses(db: Db)
    requires Undeployed(db, RELEASED)
    ensures Alone(db, CREATE, NoFault) == (db, Done(CREATE, Err(IllegalState)))
  {
    CreatePlans();
    CreateFetches(db, RELEASED);
    hide Screen, Fetch, PlanOf, Alone, From;
    AloneReads(db, CREATE, NoFault);
    FromReads(db, CREATE, NoReads, NoFault);
    FromReads(db, CREATE, ReservationRead(RELEASED), NoFault);
  }

  // ------------------------------------------------ a deployment that is running

  const TO_ACTIVATING := Request(OPERATOR, Advance("d", Activating, "", 1), At(T2, "", "", "", "e8"))
  const TO_RUNNING := Request(OPERATOR, Advance("d", Running, "https://site", 2), At(T2, "", "", "", "e9"))
  const TO_FAILED := Request(OPERATOR, Advance("d", Failed, "", 3), At(T3, "", "", "", "e10"))

  const ACTIVATING := QUEUED.(status := Activating, version := 2, updatedAt := T2)
  const RUNNING := QUEUED.(status := Running, version := 3, endpoint := "https://site", startedAt := Some(T2), updatedAt := T2)
  const FAILED := RUNNING.(status := Failed, version := 4, updatedAt := T3)
  const STOPPING := RUNNING.(status := Stopping, version := 4, updatedAt := T3)

  function MoveEvent(id: Id): Audit { Audit(id, "o", DeploymentTransitioned, "d") }

  /** What a move of the deployment makes of the tables. */
  function Moved(db: Db, d: Deployment, e: Audit): Db {
    db.(deployments := db.deployments["d" := d], audit := db.audit[e.id := e])
  }

  const DB_CREATED := WithDeployment(DB7)
  const DB_RUNNING := RunningTables(DB7)

  const CREATED_RUN := SETUP + WholeCall(CREATE)
  const RUNNING_RUN := CREATED_RUN + WholeCall(TO_ACTIVATING) + WholeCall(TO_RUNNING)

  lemma CreatedAlone(db: Db)
    requires Undeployed(db, RESERVATION)
    ensures Alone(db, CREATE, NoFault).0 == WithDeployment(db)
  {
    CreatePlans();
    CreateMeets(db, RESERVATION);
    FromReads(db, CREATE, NoReads, NoFault);
    hide From, Alone, PlanOf, DemandsOf, Written, WithDeployment;
    SubmittedAlone(db, CREATE, ReservationRead(RESERVATION),
      CreateDeploymentTx(QUEUED, ACTIVATION_JOB, Audit("e6", "p", DeploymentCreated, "d")), DeploymentAnswer(QUEUED));
  }

  lemma AdvancedAlone(db: Db, req: Request, d: Deployment, moved: Deployment, e: Audit)
    requires req.op.Advance? && req.op.deployment == "d" && RoleCheck(req.actor, req.op).None?
    requires "d" in db.deployments && db.deployments["d"] == d && e.id !in db.audit
    requires moved.id == d.id == "d" && moved.reservation == d.reservation && moved.createdAt == d.createdAt && moved.version == d.version + 1
    requires PlanOf(req, DeploymentRead(d)) == Submit(TransitionDeploymentTx(moved, e), DeploymentAnswer(moved), None)
    ensures Alone(db, req, NoFault).0 == Moved(db, moved, e)
  {
    MoveCommits(db, d, moved, e);
    MoveWrites(db, d, moved, e);
    FromReads(db, req, NoReads, NoFault);
    hide From, Alone, PlanOf, DemandsOf, Written;
    SubmittedAlone(db, req, DeploymentRead(d), TransitionDeploymentTx(moved, e), DeploymentAnswer(moved));
  }

  lemma MoveWrites(db: Db, d: Deployment, moved: Deployment, e: Audit)
    requires "d" in db.deployments && db.deployments["d"] == d && e.id !in db.audit
    requires moved.id == d.id == "d" && moved.reservation == d.reservation && moved.createdAt == d.createdAt && moved.version == d.version + 1
    ensures DemandsOf(db, TransitionDeploymentTx(moved, e)).Met() && Written(db, TransitionDeploymentTx(moved, e)) == Moved(db, moved, e)
  {
  }

  lemma AdvancePlans()
    ensures PlanOf(TO_ACTIVATING, DeploymentRead(QUEUED))
         == Submit(TransitionDeploymentTx(ACTIVATING, MoveEvent("e8")), DeploymentAnswer(ACTIVATING), None)
    ensures PlanOf(TO_RUNNING, DeploymentRead(ACTIVATING))
         == Submit(TransitionDeploymentTx(RUNNING, MoveEvent("e9")), DeploymentAnswer(RUNNING), None)
    ensures PlanOf(TO_FAILED, DeploymentRead(RUNNING))
         == Submit(TransitionDeploymentTx(FAILED, MoveEvent("e10")), DeploymentAnswer(FAILED), None)
  {
  }

  /** Tables in which the rest of the history has room. */
  predicate Fresh(db: Db) {
    && Undeployed(db, RESERVATION) && FullyHeld(db)
    && db.usage == map[] && db.settlements == map[] && "p" in db.users
    && "e8" !in db.audit && "e9" !in db.audit && "e10" !in db.audit && "e11" !in db.audit
  }

  /** The deployment runs, its reservation is held, nothing is metered yet. */
  predicate Up(db: Db) {
    && db.deployments == map["d" := RUNNING] && FullyHeld(db)
    && db.usage == map[] && db.settlements == map[] && "p" in db.users && "e10" !in db.audit && "e11" !in db.audit
  }

  lemma HistoryAudit(id: Id)
    requires id != "e1" && id != "e2" && id != "e3" && id != "e4" && id != "e5"
    ensures id !in DB7.audit
  {
    hide Timestamp;
  }

  lemma HistoryLedger()
    ensures DB7.usage == map[] && DB7.settlements == map[] && "p" in DB7.users
  {
    hide Timestamp;
  }

  lemma HistoryIsFresh()
    ensures Fresh(DB7)
  {
    HistoryIsUndeployed();
    HistoryLedger();
    HistoryAudit("e8");
    HistoryAudit("e9");
    HistoryAudit("e10");
    HistoryAudit("e11");
    hide Undeployed, FullyHeld;
  }

  function RunningTables(db: Db): Db { Moved(Moved(WithDeployment(db), ACTIVATING, MoveEvent("e8")), RUNNING, MoveEvent("e9")) }

  lemma CreatedHasRoom(db: Db)
    requires Fresh(db)
    ensures var created := WithDeployment(db);
      && created.deployments == map["d" := QUEUED] && FullyHeld(created)
      && created.usage == map[] && created.settlements == map[] && "p" in created.users
      && "e8" !in created.audit && "e9" !in created.audit && "e10" !in created.audit && "e11" !in created.audit
  {
  }

  lemma ActivatingHasRoom(db: Db)
    requires db.deployments == map["d" := QUEUED] && FullyHeld(db)
    requires db.usage == map[] && db.settlements == map[] && "p" in db.users
    requires "e8" !in db.audit && "e9" !in db.audit && "e10" !in db.audit && "e11" !in db.audit
    ensures var activating := Moved(db, ACTIVATING, MoveEvent("e8"));
      && activating.deployments == map["d" := ACTIVATING] && "e9" !in activating.audit
      && Up(Moved(activating, RUNNING, MoveEvent("e9")))
  {
    assert map["d" := QUEUED]["d" := ACTIVATING] == map["d" := ACTIVATING];
    assert map["d" := ACTIVATING]["d" := RUNNING] == map["d" := RUNNING];
  }

  lemma HasRoom(db: Db)
    requires Fresh(db)
    ensures var created := WithDeployment(db); var activating := Moved(created, ACTIVATING, MoveEvent("e8"));
      && "d" in created.deployments && created.deployments["d"] == QUEUED && "e8" !in created.audit
      && "d" in activating.deployments && activating.deployments["d"] == ACTIVATING && "e9" !in activating.audit
      && Up(RunningTables(db))
  {
    hide WithDeployment, Moved, Up, Fresh;
    CreatedHasRoom(db);
    ActivatingHasRoom(WithDeployment(db));
  }

  lemma DeploymentRunsFrom(steps: seq<Step>, db: Db)
    requires Run(START, steps) == Quiet(db) && Fresh(db)
    ensures Run(START, steps + WholeCall(CREATE)) == Quiet(WithDeployment(db))
    ensures Run(START, steps + WholeCall(CREATE) + WholeCall(TO_ACTIVATING) + WholeCall(TO_RUNNING)) == Quiet(RunningTables(db))
  {
    hide Run, WholeCall, Alone, PlanOf, Moved, WithDeployment, Undeployed, FullyHeld;
    HasRoom(db);
    CreatedAlone(db);
    AdvancePlans();
    hide Fresh;
    var created := WithDeployment(db);
    var activating := Moved(created, ACTIVATING, MoveEvent("e8"));
    OneMoreCall(steps, Quiet(db), CREATE, created);
    AdvancedAlone(created, TO_ACTIVATING, QUEUED, ACTIVATING, MoveEvent("e8"));
    OneMoreCall(steps + WholeCall(CREATE), Quiet(created), TO_ACTIVATING, activating);
    AdvancedAlone(activating, TO_RUNNING, ACTIVATING, RUNNING, MoveEvent("e9"));
    OneMoreCall(steps + WholeCall(CREATE) + WholeCall(TO_ACTIVATING), Quiet(activating), TO_RUNNING, RunningTables(db));
  }

  /** A partner has a deployment, and an operator has it running. */
  lemma DeploymentRuns()
    ensures Run(START, CREATED_RUN) == Quiet(DB_CREATED) && Run(START, RUNNING_RUN) == Quiet(DB_RUNNING) && Up(DB_RUNNING)
  {
    hide Run, WholeCall, Fresh, Up;
    SetupRuns();
    HistoryIsFresh();
    HasRoom(DB7);
    DeploymentRunsFrom(SETUP, DB7);
  }

  /** A call that reads a deployment and its reservation and commits after another
      call has run. */
  function Overtaken(req: Request, other: Request): seq<Step> {
    [Begin("late", req)] + [Proceed("late", NoFault)] + [Proceed("late", NoFault)] + WholeCall(other) + [Proceed("late", NoFault)]
  }

  lemma OvertakenRuns(steps: seq<Step>, db: Db, req: Request, other: Request, db': Db, db'': Db, answer: Answer)
    requires Run(START, steps) == Quiet(db) && Up(db) && !other.op.Activate?
    requires CallStep(db, Ongoing(req, NoReads), NoFault) == (db, Ongoing(req, DeploymentRead(RUNNING)))
    requires CallStep(db, Ongoing(req, DeploymentRead(RUNNING)), NoFault)
          == (db, Ongoing(req, DeploymentReservationRead(RUNNING, RESERVATION)))
    requires Alone(db, other, NoFault).0 == db'
    requires CallStep(db', Ongoing(req, DeploymentReservationRead(RUNNING, RESERVATION)), NoFault) == (db'', Done(req, Ok(answer)))
    ensures Run(START, steps + Overtaken(req, other)) == Quiet(db'').(calls := map["late" := Done(req, Ok(answer))])
  {
    hide Run, WholeCall, CallStep, Alone, Up;
    var late := Ongoing(req, DeploymentReservationRead(RUNNING, RESERVATION));
    var once := steps + [Begin("late", req)] + [Proceed("late", NoFault)];
    BeginsReading(steps, Quiet(db), req, DeploymentRead(RUNNING));
    GoesOn(once, Quiet(db).(calls := map["late" := Ongoing(req, DeploymentRead(RUNNING))]), Ongoing(req, DeploymentRead(RUNNING)), db, late);
    var twice := once + [Proceed("late", NoFault)];
    var waiting := Quiet(db).(calls := map["late" := late]);
    assert Run(START, twice) == waiting;
    OneMoreCall(twice, waiting, other, db');
    GoesOn(twice + WholeCall(other), waiting.(db := db'), late, db'', Done(req, Ok(answer)));
    assert steps + Overtaken(req, other) == twice + WholeCall(other) + [Proceed("late", NoFault)];
  }

  // ------------------------------------------- usage of a failed deployment

  const METER := Request(OPERATOR, RecordUsage("d", "p", T1, T2, 100, "EUR"), At(T3, "u", "", "", "e11"))
  const USAGE := Usage("u", "d", "p", T1, T2, 100)
  const SETTLEMENT := Settlement("settlement", "u", "p", 1700, "EUR")

  function Billed(db: Db): Db {
    db.(usage := db.usage["u" := USAGE], settlements := db.settlements["settlement" := SETTLEMENT],
        audit := db.audit["e11" := Audit("e11", "o", UsageRecorded, "d")])
  }

  lemma MeterReads(db: Db)
    requires Up(db)
    ensures CallStep(db, Ongoing(METER, NoReads), NoFault) == (db, Ongoing(METER, DeploymentRead(RUNNING)))
    ensures CallStep(db, Ongoing(METER, DeploymentRead(RUNNING)), NoFault)
         == (db, Ongoing(METER, DeploymentReservationRead(RUNNING, RESERVATION)))
  {
    hide CommitStep;
  }

  lemma MeterPlans()
    ensures PlanOf(METER, DeploymentReservationRead(RUNNING, RESERVATION))
         == Submit(RecordUsageTx(USAGE, SETTLEMENT, Audit("e11", "o", UsageRecorded, "d")), UsageAnswer(USAGE, SETTLEMENT), None)
  {
  }

  lemma PeriodIsOrdered()
    ensures !SqlLe(T2, T1)
  {
    assert Sec(T1) == 1 && Sec(T2) == 2 && CivilOf(1).year == 0 && CivilOf(2).year == 0;
    hide SqlLe, CivilOf;
    SqlLeAcrossSeconds(T1, T2);
  }

  /** The transaction asks nothing of the deployment but that it is there. */
  lemma MeterMeets(db: Db)
    requires "d" in db.deployments && db.usage == map[] && db.settlements == map[] && "p" in db.users && "e11" !in db.audit
    ensures var tx := RecordUsageTx(USAGE, SETTLEMENT, Audit("e11", "o", UsageRecorded, "d"));
      DemandsOf(db, tx).Met() && Written(db, tx) == Billed(db)
  {
    PeriodIsOrdered();
    hide SqlLe;
  }

  lemma MeterCommits(db: Db)
    requires "d" in db.deployments && db.usage == map[] && db.settlements == map[] && "p" in db.users && "e11" !in db.audit
    ensures CallStep(db, Ongoing(METER, DeploymentReservationRead(RUNNING, RESERVATION)), NoFault)
         == (Billed(db), Done(METER, Ok(UsageAnswer(USAGE, SETTLEMENT))))
  {
    MeterPlans();
    MeterMeets(db);
    hide PlanOf, DemandsOf, Written, Billed;
  }

  lemma MeterRefuses(db: Db)
    requires "d" in db.deployments && db.deployments["d"] == FAILED
    ensures Alone(db, METER, NoFault) == (db, Done(METER, Err(IllegalState)))
  {
    AloneReads(db, METER, NoFault);
    FromReads(db, METER, NoReads, NoFault);
    FromReads(db, METER, DeploymentRead(FAILED), NoFault);
    hide Alone, From;
  }

  lemma FailedAlone(db: Db)
    requires Up(db)
    ensures Alone(db, TO_FAILED, NoFault).0 == Moved(db, FAILED, MoveEvent("e10"))
    ensures var failed := Moved(db, FAILED, MoveEvent("e10"));
      "d" in failed.deployments && failed.deployments["d"] == FAILED && failed.usage == map[] && failed.settlements == map[]
      && "p" in failed.users && "e11" !in failed.audit
  {
    AdvancePlans();
    hide PlanOf, Alone;
    AdvancedAlone(db, TO_FAILED, RUNNING, FAILED, MoveEvent("e10"));
  }

  /** The metering path does not look at the deployment again: in this run usage is
      recorded for a failed deployment, where the same call run alone at its commit
      refuses. */
  lemma UsageOfFailedDeployment()
    ensures var s := Run(START, RUNNING_RUN + Overtaken(METER, TO_FAILED));
      && "late" in s.calls && s.calls["late"] == Done(METER, Ok(UsageAnswer(USAGE, SETTLEMENT)))
      && "u" in s.db.usage && s.db.usage["u"] == USAGE
      && "d" in s.db.deployments && s.db.deployments["d"] == FAILED
    ensures var db := Moved(DB_RUNNING, FAILED, MoveEvent("e10")); Alone(db, METER, NoFault) == (db, Done(METER, Err(IllegalState)))
  {
    DeploymentRuns();
    hide Run, Alone, CallStep, Up, Overtaken, RunningTables;
    MeterReads(DB_RUNNING);
    FailedAlone(DB_RUNNING);
    var db := Moved(DB_RUNNING, FAILED, MoveEvent("e10"));
    MeterCommits(db);
    MeterRefuses(db);
    OvertakenRuns(RUNNING_RUN, DB_RUNNING, METER, TO_FAILED, db, Billed(db), UsageAnswer(USAGE, SETTLEMENT));
  }

  // ----------------------------------- a stop that misses a changed reservation

  const STOP := Request(OPERATOR, Stop("d", 3, 1), At(T3, "", "", "", "e11"))

  lemma StopReads(db: Db)
    requires Up(db)
    ensures CallStep(db, Ongoing(STOP, NoReads), NoFault) == (db, Ongoing(STOP, DeploymentRead(RUNNING)))
    ensures CallStep(db, Ongoing(STOP, DeploymentRead(RUNNING)), NoFault)
         == (db, Ongoing(STOP, DeploymentReservationRead(RUNNING, RESERVATION)))
  {
    hide CommitStep;
  }

  lemma StopPlans()
    ensures PlanOf(STOP, DeploymentReservationRead(RUNNING, RESERVATION))
         == Submit(TransitionDeploymentTx(STOPPING, Audit("e11", "o", DeploymentStopStarted, "d")), DeploymentAnswer(STOPPING), None)
    ensures PlanOf(STOP, DeploymentReservationRead(RUNNING, RELEASED)) == Refuse(StaleVersion)
  {
  }

  lemma StopCommits(db: Db)
    requires "d" in db.deployments && db.deployments["d"] == RUNNING && "e11" !in db.audit
    ensures CallStep(db, Ongoing(STOP, DeploymentReservationRead(RUNNING, RESERVATION)), NoFault)
         == (Moved(db, STOPPING, Audit("e11", "o", DeploymentStopStarted, "d")), Done(STOP, Ok(DeploymentAnswer(STOPPING))))
  {
    StopPlans();
    MoveWrites(db, RUNNING, STOPPING, Audit("e11", "o", DeploymentStopStarted, "d"));
    hide PlanOf, DemandsOf, Written, Moved;
  }

  lemma StopRefuses(db: Db)
    requires "d" in db.deployments && db.deployments["d"] == RUNNING && "r" in db.reservations && db.reservations["r"] == RELEASED
    ensures Alone(db, STOP, NoFault) == (db, Done(STOP, Err(StaleVersion)))
  {
    StopPlans();
    AloneReads(db, STOP, NoFault);
    FromReads(db, STOP, NoReads, NoFault);
    FromReads(db, STOP, DeploymentRead(RUNNING), NoFault);
    FromReads(db, STOP, DeploymentReservationRead(RUNNING, RELEASED), NoFault);
    hide Alone, From, PlanOf;
  }

  lemma FreedKeepsRunning(db: Db)
    requires Up(db)
    ensures var freed := Freed(db);
      "d" in freed.deployments && freed.deployments["d"] == RUNNING && "r" in freed.reservations
      && freed.reservations["r"] == RELEASED && "e11" !in freed.audit
  {
  }

  /** The first phase of a stop does not look at the reservation again: in this run it
      commits for a reservation of another version than was asked for, where the same
      call run alone at its commit refuses. */
  lemma StopOfReleasedReservation()
    ensures var s := Run(START, RUNNING_RUN + Overtaken(STOP, RELEASE));
      && "late" in s.calls && s.calls["late"] == Done(STOP, Ok(DeploymentAnswer(STOPPING)))
      && "d" in s.db.deployments && s.db.deployments["d"] == STOPPING
      && "r" in s.db.reservations && s.db.reservations["r"] == RELEASED && RELEASED.version != STOP.op.reservationVersion
    ensures Alone(Freed(DB_RUNNING), STOP, NoFault) == (Freed(DB_RUNNING), Done(STOP, Err(StaleVersion)))
  {
    DeploymentRuns();
    hide Run, Alone, CallStep, Up, Overtaken, RunningTables;
    StopReads(DB_RUNNING);
    UpIsHeld(DB_RUNNING);
    ReleasedAlone(DB_RUNNING);
    FreedKeepsRunning(DB_RUNNING);
    var db := Freed(DB_RUNNING);
    StopCommits(db);
    StopRefuses(db);
    OvertakenRuns(RUNNING_RUN, DB_RUNNING, STOP, RELEASE, db, Moved(db, STOPPING, Audit("e11", "o", DeploymentStopStarted, "d")),
      DeploymentAnswer(STOPPING));
  }

  lemma UpIsHeld(db: Db)
    requires Up(db)
    ensures FullyHeld(db)
  {
  }

  // ------------------------------------------------- replaying an activation

  lemma ActivationMoves(db: Db, req: Request, d: Deployment)
    requires req.op == Activate(d.id) && d.id in db.deployments && db.deployments[d.id] == d
    requires d.status == Queued || d.status == Activating
    requires (if d.status == Queued then req.env.eventId else req.env.secondEventId) !in db.audit
    ensures var (db', call') := CommitStep(db, req, DeploymentRead(d), NoFault);
      var moved := MovedDeployment(d, if d.status == Queued then Activating else Running,
                                   if d.status == Queued then "" else RuntimeEndpoint(d.id),
                                   if d.status == Queued then req.env.now else req.env.later).value;
      && db'.deployments == db.deployments[d.id := moved]
      && db'.audit.Keys == db.audit.Keys + {if d.status == Queued then req.env.eventId else req.env.secondEventId}
      && call' == if d.status == Queued then Ongoing(req, DeploymentRead(moved)) else Done(req, Ok(Nothing))
  {
    var moved := MovedDeployment(d, if d.status == Queued then Activating else Running,
                                 if d.status == Queued then "" else RuntimeEndpoint(d.id),
                                 if d.status == Queued then req.env.now else req.env.later).value;
    var event := if d.status == Queued then Audit(req.env.eventId, "", ActivationStarted, d.id)
                 else Audit(req.env.secondEventId, "", ActivationCompleted, d.id);
    assert PlanOf(req, DeploymentRead(d)) == Submit(TransitionDeploymentTx(moved, event), Nothing,
      if d.status == Queued then Some(DeploymentRead(moved)) else None);
    MoveCommits(db, d, moved, event);
    hide PlanOf, Refusal, Written;
  }

  lemma MoveCommits(db: Db, d: Deployment, moved: Deployment, e: Audit)
    requires d.id in db.deployments && db.deployments[d.id] == d && e.id !in db.audit
    requires moved.id == d.id && moved.reservation == d.reservation && moved.createdAt == d.createdAt && moved.version == d.version + 1
    ensures Refusal(db, TransitionDeploymentTx(moved, e), NoFault) == None
    ensures var db' := Written(db, TransitionDeploymentTx(moved, e));
      db'.deployments == db.deployments[d.id := moved] && db'.audit == db.audit[e.id := e]
  {
  }

  lemma ActivationAlone(db: Db, req: Request)
    requires req.op.Activate? && req.op.deployment in db.deployments
    ensures Alone(db, req, NoFault) == CommitStep(db, req, DeploymentRead(db.deployments[req.op.deployment]), NoFault)
  {
    hide CommitStep;
    var seen := DeploymentRead(db.deployments[req.op.deployment]);
    assert ReadAll(db, req, seen) == Ongoing(req, seen);
  }

  /** Wherever an earlier activation was interrupted, running it again takes the
      deployment to running, with the runtime endpoint and a start time. */
  lemma ActivationReplays(db: Db, req: Request)
    requires req.op.Activate? && req.op.deployment in db.deployments
    requires DeploymentsOk(db.deployments, db.reservations)
    requires var d := db.deployments[req.op.deployment]; d.status == Queued || d.status == Activating || d.status == Running
    requires req.env.eventId !in db.audit && req.env.secondEventId !in db.audit && req.env.eventId != req.env.secondEventId
    ensures var (db', call') := ToEnd(db, req, NoFault, NoFault); var id := req.op.deployment;
      && call' == Done(req, Ok(Nothing)) && id in db'.deployments && db'.deployments[id].status == Running
      && db'.deployments[id].startedAt.Some? && db'.deployments[id].endpoint != ""
  {
    var d := db.deployments[req.op.deployment];
    assert d.id == req.op.deployment && DeploymentShape(d);
    ActivationAlone(db, req);
    hide CommitStep, DeploymentsOk, Alone;
    if d.status == Running {
      RunningFinishes(db, req, d);
    } else {
      ActivationMoves(db, req, d);
      if d.status == Queued {
        var (db', call') := CommitStep(db, req, DeploymentRead(d), NoFault);
        ActivationMoves(db', req, call'.seen.deployment);
      }
    }
  }

  lemma RunningFinishes(db: Db, req: Request, d: Deployment)
    requires req.op.Activate? && d.status == Running
    ensures CommitStep(db, req, DeploymentRead(d), NoFault) == (db, Done(req, Ok(Nothing)))
  {
  }
}
