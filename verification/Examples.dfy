/** A small history of the platform, from the empty tables: one site, one approved
    scenario, one reservation.  The concrete runs of `Findings` go on from it. */
module Examples {
  import opened Basics
  import opened Timestamps
  import opened Domain
  import opened Transactions
  import opened Queue
  import opened Calls
  import opened System
  import opened Reachable
  import opened Serializability
  import opened Services

  // ------------------------------------------- calls that run one after another

  /** A call from its first step to its last; steps after its end do nothing. */
  function WholeCall(req: Request): seq<Step> {
    [Begin("call", req), Proceed("call", NoFault), Proceed("call", NoFault), Proceed("call", NoFault), Drop("call")]
  }

  lemma FiveSteps(s: State, a: Step, b: Step, c: Step, d: Step, e: Step)
    ensures Run(s, [a, b, c, d, e]) == Next(Next(Next(Next(Next(s, a), b), c), d), e)
  {
    hide Next;
    var steps := [a, b, c, d, e];
    assert steps[1..] == [b, c, d, e] && [b, c, d, e][1..] == [c, d, e] && [c, d, e][1..] == [d, e]
        && [d, e][1..] == [e] && [e][1..] == [];
    var s1 := Next(s, a);
    var s2 := Next(s1, b);
    var s3 := Next(s2, c);
    assert Run(s, steps) == Run(s1, [b, c, d, e]) == Run(s2, [c, d, e]) == Run(s3, [d, e]);
    assert Run(s3, [d, e]) == Run(Next(s3, d), [e]) == Run(Next(Next(s3, d), e), []);
  }

  /** One interaction ends the call or takes it one read further. */
  lemma CallChases(db: Db, req: Request, seen: Reads)
    requires !req.op.Activate?
    ensures var (db', call') := CallStep(db, Ongoing(req, seen), NoFault);
      if call'.Done? then From(db, req, seen, NoFault) == (db', call')
      else db' == db && call'.request == req && From(db, req, call'.seen, NoFault) == From(db, req, seen, NoFault)
           && ReadsLeft(call'.seen) < ReadsLeft(seen)
  {
    FromReads(db, req, seen, NoFault);
    if PlanOf(req, seen).Submit? {
      CommitsOnce(req, seen);
    }
    hide PlanOf, Refusal, Written, Screen;
  }

  lemma CommitsOnce(req: Request, seen: Reads)
    requires !req.op.Activate? && PlanOf(req, seen).Submit?
    ensures PlanOf(req, seen).again.None?
  {
  }

  lemma ThreeSteps(db: Db, req: Request)
    requires !req.op.Activate?
    ensures var (db1, call1) := CallStep(db, Ongoing(req, NoReads), NoFault);
      var (db2, call2) := CallStep(db1, call1, NoFault);
      CallStep(db2, call2, NoFault) == Alone(db, req, NoFault)
  {
    AloneReads(db, req, NoFault);
    hide CallStep, From, Alone;
    CallChases(db, req, NoReads);
    var (db1, call1) := CallStep(db, Ongoing(req, NoReads), NoFault);
    if call1.Done? {
      DoneRests(db1, call1);
    } else {
      CallChases(db1, req, call1.seen);
      var (db2, call2) := CallStep(db1, call1, NoFault);
      if call2.Done? {
        DoneRests(db2, call2);
      } else {
        CallChases(db2, req, call2.seen);
      }
    }
  }

  lemma DoneRests(db: Db, call: Call)
    requires call.Done?
    ensures CallStep(db, call, NoFault) == (db, call)
  {
  }

  lemma ProceedSteps(s: State, id: Id, call: Call)
    requires id in s.calls && s.calls[id] == call
    ensures var (db', call') := CallStep(s.db, call, NoFault);
      Next(s, Proceed(id, NoFault)) == s.(db := db', calls := s.calls[id := call'])
  {
    hide CallStep, IsNext;
  }

  /** With no other step in between, the call leaves the tables of the call run alone. */
  lemma WholeCallRuns(s: State, req: Request)
    requires "call" !in s.calls && !req.op.Activate?
    ensures Run(s, WholeCall(req)) == s.(db := Alone(s.db, req, NoFault).0)
  {
    var p := Proceed("call", NoFault);
    FiveSteps(s, Begin("call", req), p, p, p, Drop("call"));
    ThreeSteps(s.db, req);
    hide Run, CallStep, Alone;
    var s1 := Next(s, Begin("call", req));
    assert s1 == s.(calls := s.calls["call" := Ongoing(req, NoReads)]);
    var (db2, call2) := CallStep(s.db, Ongoing(req, NoReads), NoFault);
    var (db3, call3) := CallStep(db2, call2, NoFault);
    ThreeProceeds(s1, Ongoing(req, NoReads), call2, call3, db2, db3);
    assert s1.calls - {"call"} == s.calls;
  }

  lemma ThreeProceeds(s: State, call1: Call, call2: Call, call3: Call, db2: Db, db3: Db)
    requires "call" in s.calls && s.calls["call"] == call1
    requires CallStep(s.db, call1, NoFault) == (db2, call2) && CallStep(db2, call2, NoFault) == (db3, call3)
    ensures var p := Proceed("call", NoFault);
      Next(Next(Next(Next(s, p), p), p), Drop("call")) == s.(db := CallStep(db3, call3, NoFault).0, calls := s.calls - {"call"})
  {
    hide CallStep, Next;
    var p := Proceed("call", NoFault);
    ProceedSteps(s, "call", call1);
    var s2 := Next(s, p);
    ProceedSteps(s2, "call", call2);
    var s3 := Next(s2, p);
    ProceedSteps(s3, "call", call3);
    var s4 := Next(s3, p);
    DropSteps(s4);
    assert s4.calls - {"call"} == s.calls - {"call"};
  }

  lemma DropSteps(s: State)
    ensures Next(s, Drop("call")) == s.(calls := s.calls - {"call"})
  {
    hide CallStep, IsNext;
  }

  // ----------------------------------------------------------------- the history

  function At(now: Instant, item: Id, job: Id, review: Id, event: Id): Env {
    Env(now, now, now, now, item, job, review, event, "", "settlement")
  }

  const OPERATOR := Known("o", Operator)
  const PARTNER := Known("p", Partner)

  const CREATE_SITE := Request(OPERATOR, CreateSite("site", Place("SG", "Asia/Singapore", true), 4), At(0, "s", "", "", ""))
  const REVIEW_SITE := Request(OPERATOR, ReviewSite("s", Some(Approve), "evidence", 1), At(0, "", "", "sr", "e1"))
  const ACTIVATE_SITE := Request(OPERATOR, TransitionSite("s", Active, 2), At(0, "", "", "", "e2"))
  const SUBMIT := Request(PARTNER, SubmitScenario("scenario", "health", "public", 4), At(0, "c", "", "", ""))
  const START_REVIEW := Request(OPERATOR, StartReview("c", 1), At(0, "", "", "", "e3"))
  const DECIDE := Request(OPERATOR, Decide("c", Some(Approve), "fine", 2), At(0, "", "", "cr", "e4"))

  /** Half a second past a whole one; the reservation runs for a minute. */
  const T0: Instant := 500_000_000
  const EXPIRY: Instant := 60_500_000_000
  const RESERVE := Request(PARTNER, Reserve("c", "s", MINUTE), At(T0, "r", "j", "", "e5"))

  const NEW_SITE := Site("s", "o", "site", 4, 4, Draft, 1, 0, 0)
  const VERIFIED_SITE := NEW_SITE.(status := Verified, version := 2)
  const ACTIVE_SITE := NEW_SITE.(status := Active, version := 3)
  const FULL_SITE := ACTIVE_SITE.(available := 0, version := 4, updatedAt := T0)
  const SUBMITTED := Scenario("c", "p", "scenario", 4, Submitted, 1, 0, 0)
  const REVIEWING := SUBMITTED.(status := Reviewing, version := 2)
  const APPROVED := SUBMITTED.(status := Approved, version := 3)
  const RESERVATION := Reservation("r", "c", "s", "p", 4, Confirmed, EXPIRY, 1, T0, T0)
  const EXPIRY_JOB := Job("j", ExpireReservationJob, "r", Some(map[RESERVATION_KEY := "r", EXPIRES_KEY := Timestamp(EXPIRY)]),
                          JobPending, 0, 5, EXPIRY, None, None, None, T0, T0)

  // what each call makes of the tables
  function WithSite(db: Db): Db { db.(sites := db.sites["s" := NEW_SITE]) }

  function WithVerifiedSite(db: Db): Db {
    db.(sites := db.sites["s" := VERIFIED_SITE], siteReviews := db.siteReviews["sr" := Review("sr", "s", "o", Approve)],
        audit := db.audit["e1" := Audit("e1", "o", SiteReviewed, "s")])
  }

  function WithActiveSite(db: Db): Db {
    db.(sites := db.sites["s" := ACTIVE_SITE], audit := db.audit["e2" := Audit("e2", "o", SiteTransitioned, "s")])
  }

  function WithScenario(db: Db): Db { db.(scenarios := db.scenarios["c" := SUBMITTED]) }

  function WithOpenReview(db: Db): Db {
    db.(scenarios := db.scenarios["c" := REVIEWING], audit := db.audit["e3" := Audit("e3", "o", ScenarioReviewStarted, "c")])
  }

  function WithApproval(db: Db): Db {
    db.(scenarios := db.scenarios["c" := APPROVED], scenarioReviews := db.scenarioReviews["cr" := Review("cr", "c", "o", Approve)],
        audit := db.audit["e4" := Audit("e4", "o", ScenarioDecided, "c")])
  }

  function WithReservation(db: Db): Db {
    db.(sites := db.sites["s" := FULL_SITE], reservations := db.reservations["r" := RESERVATION],
        jobs := db.jobs["j" := EXPIRY_JOB], audit := db.audit["e5" := Audit("e5", "p", ReservationCreated, "r")])
  }

  // the tables after each call
  const DB0 := EMPTY.(users := {"o"} + {"p"})
  const DB1 := WithSite(DB0)
  const DB2 := WithVerifiedSite(DB1)
  const DB3 := WithActiveSite(DB2)
  const DB4 := WithScenario(DB3)
  const DB5 := WithOpenReview(DB4)
  const DB6 := WithApproval(DB5)
  const DB7 := WithReservation(DB6)

  /** A call that submits one transaction which commits. */
  lemma SubmittedAlone(db: Db, req: Request, seen: Reads, tx: Tx, answer: Answer)
    requires From(db, req, NoReads, NoFault) == From(db, req, seen, NoFault)
    requires Screen(req, seen).None? && Fetch(db, req.op, seen).Complete?
    requires PlanOf(req, seen) == Submit(tx, answer, None) && DemandsOf(db, tx).Met()
    ensures Alone(db, req, NoFault) == (Written(db, tx), Done(req, Ok(answer)))
  {
    AloneReads(db, req, NoFault);
    FromReads(db, req, seen, NoFault);
    hide PlanOf, DemandsOf, Written, Screen, Fetch, From, Alone;
  }

  lemma SiteCreated()
    ensures Alone(DB0, CREATE_SITE, NoFault).0 == DB1
  {
    SubmittedAlone(DB0, CREATE_SITE, NoReads, Tx.InsertSite(NEW_SITE), SiteAnswer(NEW_SITE));
  }

  lemma SiteVerified()
    ensures Alone(DB1, REVIEW_SITE, NoFault).0 == DB2
  {
    FromReads(DB1, REVIEW_SITE, NoReads, NoFault);
    hide From, Alone;
    SubmittedAlone(DB1, REVIEW_SITE, SiteRead(NEW_SITE),
      ReviewSiteTx(VERIFIED_SITE, Review("sr", "s", "o", Approve), Audit("e1", "o", SiteReviewed, "s")), SiteAnswer(VERIFIED_SITE));
  }

  lemma SiteActivated()
    ensures Alone(DB2, ACTIVATE_SITE, NoFault).0 == DB3
  {
    FromReads(DB2, ACTIVATE_SITE, NoReads, NoFault);
    hide From, Alone;
    SubmittedAlone(DB2, ACTIVATE_SITE, SiteRead(VERIFIED_SITE),
      TransitionSiteTx(ACTIVE_SITE, Audit("e2", "o", SiteTransitioned, "s")), SiteAnswer(ACTIVE_SITE));
  }

  lemma ScenarioSubmitted()
    ensures Alone(DB3, SUBMIT, NoFault).0 == DB4
  {
    SubmittedAlone(DB3, SUBMIT, NoReads, Tx.InsertScenario(SUBMITTED), ScenarioAnswer(SUBMITTED));
  }

  lemma ReviewBegun()
    ensures Alone(DB4, START_REVIEW, NoFault).0 == DB5
  {
    FromReads(DB4, START_REVIEW, NoReads, NoFault);
    hide From, Alone;
    SubmittedAlone(DB4, START_REVIEW, ScenarioRead(SUBMITTED),
      StartReviewTx(REVIEWING, Audit("e3", "o", ScenarioReviewStarted, "c")), ScenarioAnswer(REVIEWING));
  }

  lemma ScenarioApproved()
    ensures Alone(DB5, DECIDE, NoFault).0 == DB6
  {
    FromReads(DB5, DECIDE, NoReads, NoFault);
    hide From, Alone;
    SubmittedAlone(DB5, DECIDE, ScenarioRead(REVIEWING),
      DecideTx(APPROVED, Review("cr", "c", "o", Approve), Audit("e4", "o", ScenarioDecided, "c")), ScenarioAnswer(APPROVED));
  }

  lemma CapacityReserved()
    ensures Alone(DB6, RESERVE, NoFault).0 == DB7
  {
    hide From, Alone, PlanOf, DemandsOf, Written, Screen, Fetch;
    ReserveReadsOn();
    ReservePlanned();
    ReserveCommits();
    SubmittedAlone(DB6, RESERVE, ScenarioSiteRead(APPROVED, ACTIVE_SITE),
      CreateReservationTx(RESERVATION, EXPIRY_JOB, Audit("e5", "p", ReservationCreated, "r")), ReservationAnswer(RESERVATION));
  }

  lemma ReserveReadsOn()
    ensures From(DB6, RESERVE, NoReads, NoFault) == From(DB6, RESERVE, ScenarioSiteRead(APPROVED, ACTIVE_SITE), NoFault)
    ensures Screen(RESERVE, ScenarioSiteRead(APPROVED, ACTIVE_SITE)).None?
    ensures Fetch(DB6, RESERVE.op, ScenarioSiteRead(APPROVED, ACTIVE_SITE)).Complete?
  {
    assert DB6.scenarios["c"] == APPROVED && DB6.sites["s"] == ACTIVE_SITE;
    FromReads(DB6, RESERVE, NoReads, NoFault);
    FromReads(DB6, RESERVE, ScenarioRead(APPROVED), NoFault);
    hide From, PlannedTo, PlanOf;
  }

  lemma ReservePlanned()
    ensures PlanOf(RESERVE, ScenarioSiteRead(APPROVED, ACTIVE_SITE))
         == Submit(CreateReservationTx(RESERVATION, EXPIRY_JOB, Audit("e5", "p", ReservationCreated, "r")), ReservationAnswer(RESERVATION), None)
  {
    hide Timestamp;
  }

  lemma ReserveCommits()
    ensures var tx := CreateReservationTx(RESERVATION, EXPIRY_JOB, Audit("e5", "p", ReservationCreated, "r"));
      DemandsOf(DB6, tx).Met() && Written(DB6, tx) == DB7
  {
    hide Timestamp;
  }

  // ------------------------------------------------------------------ its runs

  const SETUP := [AddUser("o"), AddUser("p")] + WholeCall(CREATE_SITE) + WholeCall(REVIEW_SITE) + WholeCall(ACTIVATE_SITE)
    + WholeCall(SUBMIT) + WholeCall(START_REVIEW) + WholeCall(DECIDE) + WholeCall(RESERVE)

  /** The system with these tables and nothing in flight. */
  function Quiet(db: Db): State { State(db, map[], map[], []) }

  /** One more whole call at the end of a run, whatever else is in flight. */
  lemma OneMoreCall(steps: seq<Step>, s: State, req: Request, db': Db)
    requires Run(START, steps) == s && "call" !in s.calls && !req.op.Activate? && Alone(s.db, req, NoFault).0 == db'
    ensures Run(START, steps + WholeCall(req)) == s.(db := db')
  {
    hide Run, Alone;
    RunConcat(START, steps, WholeCall(req));
    WholeCallRuns(s, req);
  }

  lemma OneMoreStep(steps: seq<Step>, s: State, step: Step)
    requires Run(START, steps) == s
    ensures Run(START, steps + [step]) == Next(s, step)
  {
    assert [step][1..] == [];
    assert Run(s, [step]) == Run(Next(s, step), []);
    hide Next;
    RunConcat(START, steps, [step]);
  }

  /** A call begins after a run, and its first interaction is a read. */
  lemma BeginsReading(steps: seq<Step>, s: State, req: Request, seen: Reads)
    requires Run(START, steps) == s && "late" !in s.calls
    requires CallStep(s.db, Ongoing(req, NoReads), NoFault) == (s.db, Ongoing(req, seen))
    ensures Run(START, steps + [Begin("late", req)] + [Proceed("late", NoFault)]) == s.(calls := s.calls["late" := Ongoing(req, seen)])
  {
    OneMoreStep(steps, s, Begin("late", req));
    hide Run, CallStep;
    var s1 := s.(calls := s.calls["late" := Ongoing(req, NoReads)]);
    assert Next(s, Begin("late", req)) == s1;
    OneMoreStep(steps + [Begin("late", req)], s1, Proceed("late", NoFault));
    ProceedSteps(s1, "late", Ongoing(req, NoReads));
    assert s1.calls["late" := Ongoing(req, seen)] == s.calls["late" := Ongoing(req, seen)];
  }

  /** The next interaction of that call. */
  lemma GoesOn(steps: seq<Step>, s: State, call: Call, db': Db, call': Call)
    requires Run(START, steps) == s && "late" in s.calls && s.calls["late"] == call
    requires CallStep(s.db, call, NoFault) == (db', call')
    ensures Run(START, steps + [Proceed("late", NoFault)]) == s.(db := db', calls := s.calls["late" := call'])
  {
    hide Run, CallStep, Next;
    OneMoreStep(steps, s, Proceed("late", NoFault));
    ProceedSteps(s, "late", call);
  }

  lemma UsersAdded()
    ensures Run(START, [AddUser("o"), AddUser("p")]) == Quiet(DB0)
  {
    var steps := [AddUser("o"), AddUser("p")];
    assert steps[1..] == [AddUser("p")] && [AddUser("p")][1..] == [];
    assert Run(Next(START, steps[0]), steps[1..]) == Run(Next(Next(START, steps[0]), steps[1]), []);
  }

  /** The history is a run of the system. */
  lemma SetupRuns()
    ensures Run(START, SETUP) == Quiet(DB7)
  {
    UsersAdded();
    SiteCreated();
    SiteVerified();
    SiteActivated();
    ScenarioSubmitted();
    ReviewBegun();
    ScenarioApproved();
    CapacityReserved();
    hide Run, Alone, WholeCall;
    var steps := [AddUser("o"), AddUser("p")];
    OneMoreCall(steps, Quiet(DB0), CREATE_SITE, DB1);
    OneMoreCall(steps + WholeCall(CREATE_SITE), Quiet(DB1), REVIEW_SITE, DB2);
    OneMoreCall(steps + WholeCall(CREATE_SITE) + WholeCall(REVIEW_SITE), Quiet(DB2), ACTIVATE_SITE, DB3);
    var more := steps + WholeCall(CREATE_SITE) + WholeCall(REVIEW_SITE) + WholeCall(ACTIVATE_SITE);
    OneMoreCall(more, Quiet(DB3), SUBMIT, DB4);
    OneMoreCall(more + WholeCall(SUBMIT), Quiet(DB4), START_REVIEW, DB5);
    OneMoreCall(more + WholeCall(SUBMIT) + WholeCall(START_REVIEW), Quiet(DB5), DECIDE, DB6);
    OneMoreCall(more + WholeCall(SUBMIT) + WholeCall(START_REVIEW) + WholeCall(DECIDE), Quiet(DB6), RESERVE, DB7);
  }
}
