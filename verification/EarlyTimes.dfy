/** Inverted text comparisons let a worker act up to a second early.  A claim of an
    expiry job leads to the conflict of an early expiry exactly when the texts are
    inverted, and in two concrete runs a lease is taken over before it runs out and an
    expiry is tried before its reservation expires. */
module EarlyTimes {
  import opened Basics
  import opened Timestamps
  import opened Domain
  import opened Transactions
  import opened Queue
  import opened Calls
  import opened System
  import opened Reachable
  import opened Examples
  import opened Findings
  import opened Invariants
  import opened Theorems
  import opened Convergence

  // ---------------------------------------------- exactly when a claim is too early

  /** Of an expiry that commits alone on a held reservation: it meets the conflict
      exactly when its clock is before the expiry, and then the tables stay. */
  lemma ExpiryConflictsIfEarly(db: Db, req: Request)
    requires req.op.Expire? && req.op.reservation in db.reservations && Held(db.reservations[req.op.reservation])
    requires DbInv(db)
    ensures var (db', call') := CommitStep(db, req, ReservationRead(db.reservations[req.op.reservation]), NoFault);
      call'.Done? && (call'.result == Err(Conflict) <==> req.env.now < db.reservations[req.op.reservation].expiresAt)
  {
    hide CommitStep, SitesOk, Conserved, Accounted, OnKnownSites, DeploymentsOk, OutboxInv, LedgerInv, ScenariosOk, ReviewsOk, Qualified;
    var r := db.reservations[req.op.reservation];
    RowFacts(db, req.op.reservation);
    ReturnNeverConflicts(db, r);
    hide DbInv;
    if req.env.now < r.expiresAt {
      EarlyExpiryConflicts(db, req, r);
    } else {
      DueExpiryNeverConflicts(db, req, r, r.(status := Lapsed, version := r.version + 1, updatedAt := req.env.now));
    }
  }

  lemma EarlyExpiryConflicts(db: Db, req: Request, r: Reservation)
    requires req.op.Expire? && Held(r) && req.env.now < r.expiresAt
    ensures CommitStep(db, req, ReservationRead(r), NoFault) == (db, Done(req, Err(Conflict)))
  {
    assert PlanOf(req, ReservationRead(r)) == Refuse(Conflict);
    hide Refusal, Written;
  }

  lemma DueExpiryNeverConflicts(db: Db, req: Request, r: Reservation, moved: Reservation)
    requires req.op.Expire? && r.id in db.reservations && db.reservations[r.id] == r && r.status == Confirmed
    requires r.expiresAt <= req.env.now && ReturnCapacityCheck(db, r) == None
    requires moved == r.(status := Lapsed, version := r.version + 1, updatedAt := req.env.now)
    ensures var call' := CommitStep(db, req, ReservationRead(r), NoFault).1; call'.Done? && call'.result != Err(Conflict)
  {
    var tx := ReturnTx(moved, Audit(req.env.eventId, "", ReservationExpired, r.id));
    assert PlanOf(req, ReservationRead(r)) == Submit(tx, Nothing, None);
    assert ReturnCapacityCheck(db, moved) == ReturnCapacityCheck(db, r);
    hide PlanOf;
    assert Refusal(db, tx, NoFault) == InsertAuditCheck(db, tx.event);
  }

  /** The two interactions of an expiry. */
  lemma ExpiryEnds(s: State, owner: Id, job: Job, at: Instant, req: Request)
    requires req.op.Expire? && req.op.reservation in s.db.reservations && Held(s.db.reservations[req.op.reservation])
    requires WorkerOf(s, owner) == Handling(job, at, Ongoing(req, NoReads))
    requires DbInv(s.db)
    ensures var w := WorkerOf(Stepped(Stepped(s, owner), owner), owner);
      w.Settling? && w.error == Some(Conflict) <==> req.env.now < s.db.reservations[req.op.reservation].expiresAt
  {
    hide DbInv, CallStep, CommitStep, Next;
    var row := s.db.reservations[req.op.reservation];
    ExpiryConflictsIfEarly(s.db, req);
    ExpiryInteractions(s.db, req);
    HandlerUnfolds(s, owner, NoFault);
    var s1 := Stepped(s, owner);
    assert WorkerOf(s1, owner) == Handling(job, at, Ongoing(req, ReservationRead(row))) && s1.db == s.db;
    HandlerUnfolds(s1, owner, NoFault);
  }

  /** A claim at `at`, and the handling of the job with this environment. */
  function Handled(owner: Id, id: Id, at: Instant, lease: nat, env: Env): seq<Step> {
    [Claim(owner, id, at, lease, NoFault), Handle(owner, env, None), HandlerStep(owner, NoFault), HandlerStep(owner, NoFault)]
  }

  lemma HandledUnfolds(s: State, owner: Id, id: Id, at: Instant, lease: nat, env: Env)
    ensures Run(s, Handled(owner, id, at, lease, env))
         == Stepped(Stepped(AfterHandle(s, owner, at, RoundInput(id, lease, env, None)), owner), owner)
  {
    hide Next;
    var steps := Handled(owner, id, at, lease, env);
    assert steps[1..][1..] == steps[2..] && steps[2..][1..] == steps[3..] && steps[3..][1..] == [];
    var s1 := Next(s, steps[0]);
    var s2 := Next(s1, steps[1]);
    var s3 := Next(s2, steps[2]);
    assert Run(s, steps) == Run(s1, steps[1..]);
    assert Run(s1, steps[1..]) == Run(s2, steps[2..]);
    assert Run(s2, steps[2..]) == Run(s3, steps[3..]);
    assert Run(s3, steps[3..]) == Run(Next(s3, steps[3]), []);
  }

  /** The worker meets the conflict of an early expiry. */
  predicate MeetsConflict(s: State, owner: Id, id: Id, at: Instant, lease: nat, env: Env) {
    var w := WorkerOf(Run(s, Handled(owner, id, at, lease, env)), owner);
    w.Settling? && w.error == Some(Conflict)
  }

  lemma MeetsIfEarly(s: State, owner: Id, id: Id, at: Instant, lease: nat, env: Env)
    requires WorkerOf(s, owner).Resting? && IsNext(s.db.jobs, at, id) && id in s.db.jobs && s.db.jobs[id].kind == ExpireReservationJob
    requires var r := s.db.jobs[id].aggregate; r in s.db.reservations && Held(s.db.reservations[r])
    requires Inv(s)
    ensures MeetsConflict(s, owner, id, at, lease, env) <==> env.now < s.db.reservations[s.db.jobs[id].aggregate].expiresAt
  {
    var input := RoundInput(id, lease, env, None);
    ClaimedIsOk(s, owner, id, at, lease, input);
    hide Inv, DbInv, OutboxInv, IsNext, AfterHandle, AfterClaim, Run, Stepped, HandlerOp, Claimed;
    HandledUnfolds(s, owner, id, at, lease, env);
    ExpiryIsHandled(s, owner, at, input);
    var s2 := AfterHandle(s, owner, at, input);
    ExpiryEnds(s2, owner, ClaimedRow(s.db.jobs[id], owner, at, lease), at, WorkerOf(s2, owner).call.request);
  }

  lemma ClaimedIsOk(s: State, owner: Id, id: Id, at: Instant, lease: nat, input: RoundInput)
    requires input.job == id && input.lease == lease
    requires Inv(s)
    ensures OutboxInv(s.db) && DbInv(AfterClaim(s, owner, at, input).db)
  {
    NextKeeps(s, Claim(owner, id, at, lease, NoFault));
    InvIsDbInv(s);
    InvIsDbInv(Next(s, Claim(owner, id, at, lease, NoFault)));
    hide Inv, Next, OutboxInv, SitesOk, Conserved, Accounted, OnKnownSites, ScenariosOk, ReviewsOk, Qualified, DeploymentsOk, LedgerInv;
  }

  /** An expiry job that is due when its reservation expires, which is so until a retry
      puts it off, and the next in the queue: a claim can lead to the conflict of an
      early expiry, whatever later reading of the clock the handler takes, if and only
      if the due time and the time of the claim are inverted as texts. */
  lemma EarlyConflictExactly(s: State, owner: Id, id: Id, at: Instant, lease: nat)
    requires WorkerOf(s, owner).Resting? && IsNext(s.db.jobs, at, id) && id in s.db.jobs && s.db.jobs[id].kind == ExpireReservationJob
    requires var r := s.db.jobs[id].aggregate;
      r in s.db.reservations && Held(s.db.reservations[r]) && s.db.jobs[id].availableAt == s.db.reservations[r].expiresAt
    requires InRange(at) && InRange(s.db.jobs[id].availableAt)
    requires Inv(s)
    ensures (exists env: Env :: at <= env.now && MeetsConflict(s, owner, id, at, lease, env)) <==> Inverted(s.db.jobs[id].availableAt, at)
  {
    var due := s.db.jobs[id].availableAt;
    NextIsDue(s, at, id);
    hide Inv, IsNext, MeetsConflict, InRange, Inverted, SqlLe, Run, Next;
    PassedTest(at, due);
    forall env: Env | at <= env.now ensures MeetsConflict(s, owner, id, at, lease, env) <==> env.now < due {
      MeetsIfEarly(s, owner, id, at, lease, env);
    }
    if at < due {
      var env := Env(at, at, at, at, "", "", "", "", "", "");
      assert MeetsConflict(s, owner, id, at, lease, env);
    }
  }

  // --------------------------------------------------- a claim before its time

  const HALF_SECOND: nat := 500_000_000

  lemma SmallTimes()
    ensures InRange(T1) && InRange(Seconds(60)) && InRange(EXPIRY) && T1 == Seconds(1)
    ensures SqlLe(EXPIRY, Seconds(60)) && Inverted(EXPIRY, Seconds(60)) && !SqlLe(EXPIRY, T1)
    ensures SqlLe(T1, T1) && SqlLe(T1 + HALF_SECOND, T1) && Inverted(T1 + HALF_SECOND, T1)
  {
    assert Sec(T1) == 1 && Sec(Seconds(60)) == 60 && Sec(EXPIRY) == 60;
    assert CivilOf(1).year == 0 && CivilOf(60).year == 0;
    hide SqlLe, CivilOf, Inverted;
    HalfSecondInverted(1);
    HalfSecondInverted(60);
    SqlLeTotal(T1, T1);
    SqlLeAcrossSeconds(T1, EXPIRY);
  }

  /** A claim at the end of a run. */
  lemma OneMoreClaim(steps: seq<Step>, s: State, owner: Id, id: Id, now: Instant, lease: nat)
    requires Run(START, steps) == s && WorkerOf(s, owner).Resting? && id in s.db.jobs && IsNext(s.db.jobs, now, id)
    ensures Run(START, steps + [Claim(owner, id, now, lease, NoFault)]) == ClaimStep(s, owner, id, now, lease)
  {
    OneMoreStep(steps, s, Claim(owner, id, now, lease, NoFault));
    hide Run, CallStep, IsNext, ClaimStep;
  }

  const FIRST_CLAIM := Claim("w1", "k", T1, HALF_SECOND, NoFault)
  const SECOND_CLAIM := Claim("w2", "k", T1, Seconds(30), NoFault)

  lemma ActivationIsNext(jobs: Jobs, j: Job)
    requires jobs == map["j" := EXPIRY_JOB]["k" := j] && j.availableAt == T1
    requires j.status == JobPending || (j.status == JobRunning && j.leaseUntil == Some(T1 + HALF_SECOND))
    ensures IsNext(jobs, T1, "k")
  {
    SmallTimes();
    hide SqlLe, Before, Inverted, InRange;
    assert Claimable(j, T1) && !Claimable(EXPIRY_JOB, T1);
    hide Claimable, Timestamp;
    OnlyNext(jobs, T1, "k");
  }

  lemma OnlyNext(jobs: Jobs, now: Instant, id: Id)
    requires id in jobs && Claimable(jobs[id], now)
    requires forall k :: k in jobs && k != id ==> !Claimable(jobs[k], now)
    ensures IsNext(jobs, now, id)
  {
    hide Claimable, Before;
    BeforeTotal(jobs[id], jobs[id]);
  }

  lemma JobsAfterCreation()
    ensures DB_CREATED.jobs == map["j" := EXPIRY_JOB]["k" := ACTIVATION_JOB]
  {
    HistoryIsUndeployed();
    hide Timestamp;
  }

  lemma TakeoverFrom(steps: seq<Step>, db: Db)
    requires Run(START, steps) == Quiet(db) && db.jobs == map["j" := EXPIRY_JOB]["k" := ACTIVATION_JOB]
    ensures Run(START, steps + [FIRST_CLAIM] + [SECOND_CLAIM]).log
         == [ClaimEvent("k", "w1", 1, T1, T1, None), ClaimEvent("k", "w2", 2, T1, T1, Some(T1 + HALF_SECOND))]
  {
    hide Run, IsNext, Timestamp;
    ActivationIsNext(db.jobs, ACTIVATION_JOB);
    OneMoreClaim(steps, Quiet(db), "w1", "k", T1, HALF_SECOND);
    var s1 := ClaimStep(Quiet(db), "w1", "k", T1, HALF_SECOND);
    var held := ClaimedRow(ACTIVATION_JOB, "w1", T1, HALF_SECOND);
    assert s1.db.jobs == map["j" := EXPIRY_JOB]["k" := held];
    ActivationIsNext(s1.db.jobs, held);
    OneMoreClaim(steps + [FIRST_CLAIM], s1, "w2", "k", T1, Seconds(30));
  }

  /** In this run a second worker takes a job over half a second before the lease of
      the first runs out. */
  lemma EarlyTakeover()
    ensures Run(START, CREATED_RUN + [FIRST_CLAIM] + [SECOND_CLAIM]).log
         == [ClaimEvent("k", "w1", 1, T1, T1, None), ClaimEvent("k", "w2", 2, T1, T1, Some(T1 + HALF_SECOND))]
    ensures T1 < T1 + HALF_SECOND && Inverted(T1 + HALF_SECOND, T1)
  {
    hide Run, Inverted, InRange, SqlLe, Up, Timestamp;
    SmallTimes();
    JobsAfterCreation();
    CreationRuns();
    TakeoverFrom(CREATED_RUN, DB_CREATED);
  }

  lemma CreationRuns()
    ensures Run(START, CREATED_RUN) == Quiet(DB_CREATED)
  {
    hide Run, Up, RunningTables;
    DeploymentRuns();
  }

  // ---------------------------------------------------- an expiry before its time

  const EARLY_CLAIM := Claim("w", "j", Seconds(60), Seconds(30), NoFault)
  const EARLY_ENV := At(Seconds(60), "", "", "", "e6")
  const EARLY_HANDLING := [EARLY_CLAIM] + [Handle("w", EARLY_ENV, None)] + [HandlerStep("w", NoFault)] + [HandlerStep("w", NoFault)]

  lemma EarlyExpiryFrom(steps: seq<Step>, db: Db)
    requires Run(START, steps) == Quiet(db) && db.jobs == map["j" := EXPIRY_JOB]
    requires "r" in db.reservations && db.reservations["r"] == RESERVATION
    ensures var s := Run(START, steps + EARLY_HANDLING);
      && "w" in s.workers && s.workers["w"] == Settling(ClaimedRow(EXPIRY_JOB, "w", Seconds(60), Seconds(30)), Seconds(60), Some(Conflict))
      && "r" in s.db.reservations && s.db.reservations["r"] == RESERVATION
  {
    hide Run, IsNext, Timestamp;
    ExpiryIsNext();
    OneMoreClaim(steps, Quiet(db), "w", "j", Seconds(60), Seconds(30));
    EarlyHandling(steps + [EARLY_CLAIM], ClaimStep(Quiet(db), "w", "j", Seconds(60), Seconds(30)));
    assert steps + EARLY_HANDLING
        == steps + [EARLY_CLAIM] + [Handle("w", EARLY_ENV, None)] + [HandlerStep("w", NoFault)] + [HandlerStep("w", NoFault)];
  }

  /** In this run a worker claims an expiry job half a second early and meets the
      conflict of an early expiry. */
  lemma EarlyExpiry()
    ensures var s := Run(START, SETUP + EARLY_HANDLING);
      && "w" in s.workers && s.workers["w"] == Settling(ClaimedRow(EXPIRY_JOB, "w", Seconds(60), Seconds(30)), Seconds(60), Some(Conflict))
      && "r" in s.db.reservations && s.db.reservations["r"] == RESERVATION
    ensures Seconds(60) < RESERVATION.expiresAt && Inverted(RESERVATION.expiresAt, Seconds(60))
  {
    hide Run, Inverted, InRange, SqlLe, Timestamp, FullyHeld;
    SetupRuns();
    SmallTimes();
    HistoryIsUndeployed();
    EarlyExpiryFrom(SETUP, DB7);
  }

  lemma ExpiryIsNext()
    ensures IsNext(map["j" := EXPIRY_JOB], Seconds(60), "j")
  {
    SmallTimes();
    BeforeTotal(EXPIRY_JOB, EXPIRY_JOB);
    hide SqlLe, Before, Inverted, InRange;
  }

  lemma EarlyHandling(steps: seq<Step>, s: State)
    requires Run(START, steps) == s && "r" in s.db.reservations && s.db.reservations["r"] == RESERVATION
    requires WorkerOf(s, "w") == Holding(ClaimedRow(EXPIRY_JOB, "w", Seconds(60), Seconds(30)), Seconds(60))
    ensures var s' := Run(START, steps + [Handle("w", EARLY_ENV, None)] + [HandlerStep("w", NoFault)] + [HandlerStep("w", NoFault)]);
      && s'.db == s.db && "w" in s'.workers
      && s'.workers["w"] == Settling(ClaimedRow(EXPIRY_JOB, "w", Seconds(60), Seconds(30)), Seconds(60), Some(Conflict))
  {
    var job := ClaimedRow(EXPIRY_JOB, "w", Seconds(60), Seconds(30));
    var req := Request(Anonymous, Expire("r"), EARLY_ENV);
    EarlyIsRefused(s.db, req);
    hide Run, CallStep, Timestamp, Next;
    var s1 := WithWorker(s, "w", Handling(job, Seconds(60), Ongoing(req, NoReads)));
    EarlyHandedOver(s);
    OneMoreStep(steps, s, Handle("w", EARLY_ENV, None));
    var once := steps + [Handle("w", EARLY_ENV, None)];
    OneMoreStep(once, s1, HandlerStep("w", NoFault));
    HandlerUnfolds(s1, "w", NoFault);
    var s2 := WithWorker(s1, "w", Handling(job, Seconds(60), Ongoing(req, ReservationRead(RESERVATION))));
    assert Next(s1, HandlerStep("w", NoFault)) == s2;
    OneMoreStep(once + [HandlerStep("w", NoFault)], s2, HandlerStep("w", NoFault));
    HandlerUnfolds(s2, "w", NoFault);
  }

  lemma EarlyHandedOver(s: State)
    requires WorkerOf(s, "w") == Holding(ClaimedRow(EXPIRY_JOB, "w", Seconds(60), Seconds(30)), Seconds(60))
    ensures Next(s, Handle("w", EARLY_ENV, None))
         == WithWorker(s, "w", Handling(ClaimedRow(EXPIRY_JOB, "w", Seconds(60), Seconds(30)), Seconds(60),
                                        Ongoing(Request(Anonymous, Expire("r"), EARLY_ENV), NoReads)))
  {
    hide Run, CallStep, Timestamp;
    HandIsStep(s, "w", EARLY_ENV, None);
  }

  lemma EarlyIsRefused(db: Db, req: Request)
    requires "r" in db.reservations && db.reservations["r"] == RESERVATION && req == Request(Anonymous, Expire("r"), EARLY_ENV)
    ensures CallStep(db, Ongoing(req, NoReads), NoFault) == (db, Ongoing(req, ReservationRead(RESERVATION)))
    ensures CallStep(db, Ongoing(req, ReservationRead(RESERVATION)), NoFault) == (db, Done(req, Err(Conflict)))
  {
    hide Refusal, Written;
  }
}
