/** internal/service as an object over the store: every method reads, decides on
    a variable of its own and commits.  Each is proved to be the call of `Calls`
    run alone on the tables, and the activation handler its call run to the end. */
module Services {
  import opened Basics
  import opened Timestamps
  import opened Domain
  import opened Transactions
  import opened Calls
  import opened Invariants
  import opened Preservation
  import opened Serializability
  import opened Outcomes
  import opened Storage

  lemma {:induction false} ReadsAreSnaps(db: Db, req: Request, seen: Reads)
    requires RowsAreSnaps(db) && SnapsOk(db, req.op, seen) && Admitted(req, seen)
    ensures var call := ReadAll(db, req, seen);
      call.Ongoing? ==> call.request == req && SnapsOk(db, req.op, call.seen) && Admitted(req, call.seen)
    decreases ReadsLeft(seen)
  {
    hide RowsAreSnaps, SnapsOk;
    if Screen(req, seen).None? {
      FetchSnaps(db, req, seen);
      if Fetch(db, req.op, seen).Found? {
        ReadsAreSnaps(db, req, Fetch(db, req.op, seen).seen);
      }
    }
  }

  /** A call that runs alone keeps every table invariant and moves rows legally. */
  lemma AloneKeeps(db: Db, req: Request, fault: Fault)
    requires DbInv(db)
    ensures var (db', call') := Alone(db, req, fault); DbInv(db') && TxStep(db, db') && CallOk(db', call') && call'.request == req
  {
    assert SnapsOk(db, req.op, NoReads);
    hide RowsAreSnaps, SnapsOk, CommitStep, TxStep, ReadAll, Achieved;
    InvGivesSnaps(db);
    StayingPut(db);
    ReadsAreSnaps(db, req, NoReads);
    hide DbInv, Admitted;
    var call := ReadAll(db, req, NoReads);
    if call.Ongoing? {
      CommitStepKeeps(db, req, call.seen, fault);
    } else {
      RefusedBeforeReading(db, req, NoReads);
    }
  }

  /** Reading alone never ends in success. */
  lemma {:induction false} RefusedBeforeReading(db: Db, req: Request, seen: Reads)
    requires ReadAll(db, req, seen).Done?
    ensures ReadAll(db, req, seen).result.Err?
    decreases ReadsLeft(seen)
  {
    if Screen(req, seen).None? && Fetch(db, req.op, seen).Found? {
      RefusedBeforeReading(db, req, Fetch(db, req.op, seen).seen);
    }
  }

  /** What every call promises of the tables: invariants stay, and rows move legally. */
  ghost predicate KeptBy(a: Db, b: Db) { DbInv(a) ==> DbInv(b) && TxStep(a, b) }

  lemma AloneKeepsAll(db: Db, req: Request, fault: Fault)
    ensures KeptBy(db, Alone(db, req, fault).0)
  {
    hide DbInv, TxStep, Alone;
    if DbInv(db) {
      AloneKeeps(db, req, fault);
    }
  }

  lemma ToEndKeeps(db: Db, req: Request, first: Fault, second: Fault)
    ensures DbInv(db) ==> DbInv(ToEnd(db, req, first, second).0)
  {
    hide DbInv, TxStep, Alone, CommitStep, CallOk;
    if DbInv(db) {
      AloneKeeps(db, req, first);
      var (db', call') := Alone(db, req, first);
      if call'.Ongoing? {
        OngoingIsOk(db', call');
        CommitStepKeeps(db', req, call'.seen, second);
      }
    }
  }

  lemma OngoingIsOk(db: Db, call: Call)
    requires CallOk(db, call) && call.Ongoing?
    ensures SnapsOk(db, call.request.op, call.seen) && Admitted(call.request, call.seen)
  {
  }

  /** `requireRole`: the user of an admitted principal. */
  function RequireRole(actor: Actor, role: Role): Result<Id> {
    if actor.Anonymous? || actor.user == "" then Err(Unauthorized)
    else if actor.role != role then Err(Forbidden)
    else Ok(actor.user)
  }

  /** An error return as a result, so that it propagates. */
  function Check(err: Option<Error>): Result<()> { if err.Some? then Err(err.value) else Ok(()) }

  function SiteResult(r: Result<Site>): Result<Answer> { if r.Ok? then Ok(SiteAnswer(r.value)) else Err(r.error) }

  function ScenarioResult(r: Result<Scenario>): Result<Answer> { if r.Ok? then Ok(ScenarioAnswer(r.value)) else Err(r.error) }

  function ReservationResult(r: Result<Reservation>): Result<Answer> {
    if r.Ok? then Ok(ReservationAnswer(r.value)) else Err(r.error)
  }

  function DeploymentResult(r: Result<Deployment>): Result<Answer> {
    if r.Ok? then Ok(DeploymentAnswer(r.value)) else Err(r.error)
  }

  function UsageResult(r: Result<(Usage, Settlement)>): Result<Answer> {
    if r.Ok? then Ok(UsageAnswer(r.value.0, r.value.1)) else Err(r.error)
  }

  function NothingResult(r: Result<()>): Result<Answer> { if r.Ok? then Ok(Nothing) else Err(r.error) }

  /** Reachable tables, new ids and no storage error. */
  ghost predicate Undisturbed(db: Db, req: Request, fault: Fault) { fault == NoFault && Prepared(db, req) && DbInv(db) }

  class Service {
    const store: Store

    constructor (store: Store)
      ensures this.store == store
    {
      this.store := store;
    }

    // ------------------------------------------------------------------ sites

    method CreateSite(actor: Actor, name: string, place: Place, units: int, env: Env, fault: Fault) returns (r: Result<Site>)
      modifies store
      ensures var req := Request(actor, Op.CreateSite(name, place, units), env);
        Alone(old(store.db), req, fault) == (store.db, Done(req, SiteResult(r)))
      ensures KeptBy(old(store.db), store.db)
      ensures Undisturbed(old(store.db), Request(actor, Op.CreateSite(name, place, units), env), fault) ==>
        (store.db, SiteResult(r)) == CreateSiteRule(old(store.db), actor, name, place, units, env)
    {
      ghost var req := Request(actor, Op.CreateSite(name, place, units), env);
      hide ReadAll, From, Alone, CommitStep, Refusal, Written, After, KeptBy, DbInv, Prepared, CreateSiteRule;
      if Undisturbed(store.db, req, fault) { CreateSiteOutcome(store.db, actor, name, place, units, env); }
      AloneKeepsAll(store.db, req, fault);
      AloneReads(store.db, req, fault);
      FromReads(store.db, req, NoReads, fault);
      var user :- RequireRole(actor, Operator);
      var item :- NewSite(env.itemId, user, name, place, units, env.now);
      var err := store.CreateSite(item, fault);
      var _ :- Check(err);
      return Ok(item);
    }

    method ReviewSite(actor: Actor, id: Id, decision: Option<Decision>, evidence: string, version: int, env: Env, fault: Fault) returns (r: Result<Site>)
      modifies store
      ensures var req := Request(actor, Op.ReviewSite(id, decision, evidence, version), env);
        Alone(old(store.db), req, fault) == (store.db, Done(req, SiteResult(r)))
      ensures KeptBy(old(store.db), store.db)
      ensures Undisturbed(old(store.db), Request(actor, Op.ReviewSite(id, decision, evidence, version), env), fault) ==>
        (store.db, SiteResult(r)) == ReviewSiteRule(old(store.db), actor, id, decision, evidence, version, env)
    {
      ghost var req := Request(actor, Op.ReviewSite(id, decision, evidence, version), env);
      hide ReadAll, From, Alone, CommitStep, Refusal, Written, After, KeptBy, DbInv, Prepared, ReviewSiteRule;
      if Undisturbed(store.db, req, fault) { ReviewSiteOutcome(store.db, actor, id, decision, evidence, version, env); }
      AloneKeepsAll(store.db, req, fault);
      AloneReads(store.db, req, fault);
      FromReads(store.db, req, NoReads, fault);
      var user :- RequireRole(actor, Operator);
      if |evidence| < 4 || |evidence| > 500 { return Err(Invalid); }
      var row :- Lookup(store.db.sites, id);
      FromReads(store.db, req, SiteRead(row), fault);
      if row.version != version { return Err(StaleVersion); }
      if decision.None? { return Err(Invalid); }
      var item := new SiteItem(row);
      var err := item.Transition(if decision.value == Reject then Suspended else Verified, env.now);
      var _ :- Check(err);
      var review := Review(env.reviewId, row.id, user, decision.value);
      err := store.ReviewSite(item.row, review, Audit(env.eventId, user, SiteReviewed, row.id), fault);
      var _ :- Check(err);
      return Ok(item.row);
    }

    method TransitionSite(actor: Actor, id: Id, next: SiteStatus, version: int, env: Env, fault: Fault) returns (r: Result<Site>)
      modifies store
      ensures var req := Request(actor, Op.TransitionSite(id, next, version), env);
        Alone(old(store.db), req, fault) == (store.db, Done(req, SiteResult(r)))
      ensures KeptBy(old(store.db), store.db)
      ensures Undisturbed(old(store.db), Request(actor, Op.TransitionSite(id, next, version), env), fault) ==>
        (store.db, SiteResult(r)) == TransitionSiteRule(old(store.db), actor, id, next, version, env)
    {
      ghost var req := Request(actor, Op.TransitionSite(id, next, version), env);
      hide ReadAll, From, Alone, CommitStep, Refusal, Written, After, KeptBy, DbInv, Prepared, TransitionSiteRule;
      if Undisturbed(store.db, req, fault) { TransitionSiteOutcome(store.db, actor, id, next, version, env); }
      AloneKeepsAll(store.db, req, fault);
      AloneReads(store.db, req, fault);
      FromReads(store.db, req, NoReads, fault);
      var user :- RequireRole(actor, Operator);
      var row :- Lookup(store.db.sites, id);
      FromReads(store.db, req, SiteRead(row), fault);
      if row.operator != user { return Err(Forbidden); }
      if row.version != version { return Err(StaleVersion); }
      var item := new SiteItem(row);
      var err := item.Transition(next, env.now);
      var _ :- Check(err);
      err := store.TransitionSite(item.row, Audit(env.eventId, user, SiteTransitioned, row.id), fault);
      var _ :- Check(err);
      return Ok(item.row);
    }

    // -------------------------------------------------------------- scenarios

    method SubmitScenario(actor: Actor, name: string, sector: string, classification: string, units: int, env: Env, fault: Fault) returns (r: Result<Scenario>)
      modifies store
      ensures var req := Request(actor, Op.SubmitScenario(name, sector, classification, units), env);
        Alone(old(store.db), req, fault) == (store.db, Done(req, ScenarioResult(r)))
      ensures KeptBy(old(store.db), store.db)
      ensures Undisturbed(old(store.db), Request(actor, Op.SubmitScenario(name, sector, classification, units), env), fault) ==>
        (store.db, ScenarioResult(r)) == SubmitScenarioRule(old(store.db), actor, name, sector, classification, units, env)
    {
      ghost var req := Request(actor, Op.SubmitScenario(name, sector, classification, units), env);
      hide ReadAll, From, Alone, CommitStep, Refusal, Written, After, KeptBy, DbInv, Prepared, SubmitScenarioRule;
      if Undisturbed(store.db, req, fault) { SubmitScenarioOutcome(store.db, actor, name, sector, classification, units, env); }
      AloneKeepsAll(store.db, req, fault);
      AloneReads(store.db, req, fault);
      FromReads(store.db, req, NoReads, fault);
      var user :- RequireRole(actor, Partner);
      var item :- NewScenario(env.itemId, user, name, sector, classification, units, env.now);
      var err := store.CreateScenario(item, fault);
      var _ :- Check(err);
      return Ok(item);
    }

    method StartScenarioReview(actor: Actor, id: Id, version: int, env: Env, fault: Fault) returns (r: Result<Scenario>)
      modifies store
      ensures var req := Request(actor, StartReview(id, version), env);
        Alone(old(store.db), req, fault) == (store.db, Done(req, ScenarioResult(r)))
      ensures KeptBy(old(store.db), store.db)
      ensures Undisturbed(old(store.db), Request(actor, StartReview(id, version), env), fault) ==>
        (store.db, ScenarioResult(r)) == StartReviewRule(old(store.db), actor, id, version, env)
    {
      ghost var req := Request(actor, StartReview(id, version), env);
      hide ReadAll, From, Alone, CommitStep, Refusal, Written, After, KeptBy, DbInv, Prepared, StartReviewRule;
      if Undisturbed(store.db, req, fault) { StartReviewOutcome(store.db, actor, id, version, env); }
      AloneKeepsAll(store.db, req, fault);
      AloneReads(store.db, req, fault);
      FromReads(store.db, req, NoReads, fault);
      var user :- RequireRole(actor, Operator);
      var row :- Lookup(store.db.scenarios, id);
      FromReads(store.db, req, ScenarioRead(row), fault);
      if row.version != version { return Err(StaleVersion); }
      var item := new ScenarioItem(row);
      var err := item.Transition(Reviewing, env.now);
      var _ :- Check(err);
      err := store.StartScenarioReview(item.row, Audit(env.eventId, user, ScenarioReviewStarted, row.id), fault);
      var _ :- Check(err);
      return Ok(item.row);
    }

    method DecideScenario(actor: Actor, id: Id, decision: Option<Decision>, notes: string, version: int, env: Env, fault: Fault) returns (r: Result<Scenario>)
      modifies store
      ensures var req := Request(actor, Decide(id, decision, notes, version), env);
        Alone(old(store.db), req, fault) == (store.db, Done(req, ScenarioResult(r)))
      ensures KeptBy(old(store.db), store.db)
      ensures Undisturbed(old(store.db), Request(actor, Decide(id, decision, notes, version), env), fault) ==>
        (store.db, ScenarioResult(r)) == DecideRule(old(store.db), actor, id, decision, notes, version, env)
    {
      ghost var req := Request(actor, Decide(id, decision, notes, version), env);
      hide ReadAll, From, Alone, CommitStep, Refusal, Written, After, KeptBy, DbInv, Prepared, DecideRule;
      if Undisturbed(store.db, req, fault) { DecideOutcome(store.db, actor, id, decision, notes, version, env); }
      AloneKeepsAll(store.db, req, fault);
      AloneReads(store.db, req, fault);
      FromReads(store.db, req, NoReads, fault);
      var user :- RequireRole(actor, Operator);
      if |notes| < 3 || |notes| > 1000 { return Err(Invalid); }
      var row :- Lookup(store.db.scenarios, id);
      FromReads(store.db, req, ScenarioRead(row), fault);
      if row.version != version { return Err(StaleVersion); }
      if decision.None? { return Err(Invalid); }
      var item := new ScenarioItem(row);
      var err := item.Transition(if decision.value == Approve then Approved else Rejected, env.now);
      var _ :- Check(err);
      var review := Review(env.reviewId, row.id, user, decision.value);
      err := store.DecideScenario(item.row, review, Audit(env.eventId, user, ScenarioDecided, row.id), fault);
      var _ :- Check(err);
      return Ok(item.row);
    }

    // ----------------------------------------------------------- reservations

    method ReserveCapacity(actor: Actor, scenarioId: Id, siteId: Id, ttl: int, env: Env, fault: Fault) returns (r: Result<Reservation>)
      modifies store
      ensures var req := Request(actor, Reserve(scenarioId, siteId, ttl), env);
        Alone(old(store.db), req, fault) == (store.db, Done(req, ReservationResult(r)))
      ensures KeptBy(old(store.db), store.db)
      ensures Undisturbed(old(store.db), Request(actor, Reserve(scenarioId, siteId, ttl), env), fault) ==>
        (store.db, ReservationResult(r)) == ReserveRule(old(store.db), actor, scenarioId, siteId, ttl, env)
    {
      ghost var req := Request(actor, Reserve(scenarioId, siteId, ttl), env);
      hide ReadAll, From, Alone, CommitStep, Refusal, Written, After, KeptBy, DbInv, Prepared, ReserveRule, NewReservation;
      if Undisturbed(store.db, req, fault) { ReserveOutcome(store.db, actor, scenarioId, siteId, ttl, env); }
      AloneKeepsAll(store.db, req, fault);
      AloneReads(store.db, req, fault);
      FromReads(store.db, req, NoReads, fault);
      var user :- RequireRole(actor, Partner);
      var scenario :- Lookup(store.db.scenarios, scenarioId);
      FromReads(store.db, req, ScenarioRead(scenario), fault);
      var site :- Lookup(store.db.sites, siteId);
      FromReads(store.db, req, ScenarioSiteRead(scenario, site), fault);
      var item :- NewReservation(env.itemId, scenario, site, user, ttl, env.now);
      var payload := map[RESERVATION_KEY := item.id, EXPIRES_KEY := Timestamp(item.expiresAt)];
      var job := NewJob(env, ExpireReservationJob, item.id, payload, item.expiresAt);
      var err := store.CreateReservation(item, job, Audit(env.eventId, user, ReservationCreated, item.id), fault);
      var _ :- Check(err);
      return Ok(item);
    }

    method ReleaseReservation(actor: Actor, id: Id, version: int, env: Env, fault: Fault) returns (r: Result<Reservation>)
      modifies store
      ensures var req := Request(actor, Release(id, version), env);
        Alone(old(store.db), req, fault) == (store.db, Done(req, ReservationResult(r)))
      ensures KeptBy(old(store.db), store.db)
      ensures Undisturbed(old(store.db), Request(actor, Release(id, version), env), fault) ==>
        (store.db, ReservationResult(r)) == ReleaseRule(old(store.db), actor, id, version, env)
    {
      ghost var req := Request(actor, Release(id, version), env);
      hide ReadAll, From, Alone, CommitStep, Refusal, Written, After, KeptBy, DbInv, Prepared, ReleaseRule;
      if Undisturbed(store.db, req, fault) { ReleaseOutcome(store.db, actor, id, version, env); }
      AloneKeepsAll(store.db, req, fault);
      AloneReads(store.db, req, fault);
      FromReads(store.db, req, NoReads, fault);
      var user :- RequireRole(actor, Partner);
      var row :- Lookup(store.db.reservations, id);
      FromReads(store.db, req, ReservationRead(row), fault);
      if row.partner != user { return Err(Forbidden); }
      if row.version != version { return Err(StaleVersion); }
      var item := new ReservationItem(row);
      var err := item.Transition(Released, env.now);
      var _ :- Check(err);
      err := store.ChangeReservationAndReturnCapacity(item.row, Audit(env.eventId, user, ReservationReleased, row.id), fault);
      var _ :- Check(err);
      return Ok(item.row);
    }

    method ExpireReservation(actor: Actor, id: Id, env: Env, fault: Fault) returns (r: Result<()>)
      modifies store
      ensures var req := Request(actor, Expire(id), env);
        Alone(old(store.db), req, fault) == (store.db, Done(req, NothingResult(r)))
      ensures KeptBy(old(store.db), store.db)
      ensures Undisturbed(old(store.db), Request(actor, Expire(id), env), fault) ==>
        (store.db, NothingResult(r)) == ExpireRule(old(store.db), id, env)
    {
      ghost var req := Request(actor, Expire(id), env);
      hide ReadAll, From, Alone, CommitStep, Refusal, Written, After, KeptBy, DbInv, Prepared, ExpireRule;
      if Undisturbed(store.db, req, fault) { ExpireOutcome(store.db, actor, id, env); }
      AloneKeepsAll(store.db, req, fault);
      AloneReads(store.db, req, fault);
      FromReads(store.db, req, NoReads, fault);
      var row :- Lookup(store.db.reservations, id);
      FromReads(store.db, req, ReservationRead(row), fault);
      if row.status == Released || row.status == Lapsed { return Ok(()); }
      if env.now < row.expiresAt { return Err(Conflict); }
      var item := new ReservationItem(row);
      var err := item.Transition(Lapsed, env.now);
      if err.None? {
        err := store.ChangeReservationAndReturnCapacity(item.row, Audit(env.eventId, "", ReservationExpired, row.id), fault);
      }
      return Check(err);
    }

    // ------------------------------------------------------------ deployments

    method CreateDeployment(actor: Actor, reservationId: Id, env: Env, fault: Fault) returns (r: Result<Deployment>)
      modifies store
      ensures var req := Request(actor, Op.CreateDeployment(reservationId), env);
        Alone(old(store.db), req, fault) == (store.db, Done(req, DeploymentResult(r)))
      ensures KeptBy(old(store.db), store.db)
      ensures Undisturbed(old(store.db), Request(actor, Op.CreateDeployment(reservationId), env), fault) ==>
        (store.db, DeploymentResult(r)) == CreateDeploymentRule(old(store.db), actor, reservationId, env)
    {
      ghost var req := Request(actor, Op.CreateDeployment(reservationId), env);
      hide ReadAll, From, Alone, CommitStep, Refusal, Written, After, KeptBy, DbInv, Prepared, CreateDeploymentRule;
      if Undisturbed(store.db, req, fault) { CreateDeploymentOutcome(store.db, actor, reservationId, env); }
      AloneKeepsAll(store.db, req, fault);
      AloneReads(store.db, req, fault);
      FromReads(store.db, req, NoReads, fault);
      var user :- RequireRole(actor, Partner);
      var reservation :- Lookup(store.db.reservations, reservationId);
      FromReads(store.db, req, ReservationRead(reservation), fault);
      if reservation.partner != user { return Err(Forbidden); }
      var item :- NewDeployment(env.itemId, reservation, env.now);
      var job := NewJob(env, JobKind.ActivateDeploymentJob, item.id, map[DEPLOYMENT_KEY := item.id], env.available);
      var err := store.CreateDeployment(item, job, Audit(env.eventId, user, DeploymentCreated, item.id), fault);
      var _ :- Check(err);
      return Ok(item);
    }

    method AdvanceDeployment(actor: Actor, id: Id, next: DeploymentStatus, endpoint: string, version: int, env: Env, fault: Fault) returns (r: Result<Deployment>)
      modifies store
      ensures var req := Request(actor, Advance(id, next, endpoint, version), env);
        Alone(old(store.db), req, fault) == (store.db, Done(req, DeploymentResult(r)))
      ensures KeptBy(old(store.db), store.db)
      ensures Undisturbed(old(store.db), Request(actor, Advance(id, next, endpoint, version), env), fault) ==>
        (store.db, DeploymentResult(r)) == AdvanceRule(old(store.db), actor, id, next, endpoint, version, env)
    {
      ghost var req := Request(actor, Advance(id, next, endpoint, version), env);
      hide ReadAll, From, Alone, CommitStep, Refusal, Written, After, KeptBy, DbInv, Prepared, AdvanceRule;
      if Undisturbed(store.db, req, fault) { AdvanceOutcome(store.db, actor, id, next, endpoint, version, env); }
      AloneKeepsAll(store.db, req, fault);
      AloneReads(store.db, req, fault);
      FromReads(store.db, req, NoReads, fault);
      var user :- RequireRole(actor, Operator);
      var row :- Lookup(store.db.deployments, id);
      FromReads(store.db, req, DeploymentRead(row), fault);
      if row.version != version { return Err(StaleVersion); }
      if next == Running && (|endpoint| < 8 || |endpoint| > 500) { return Err(Invalid); }
      var item := new DeploymentItem(row);
      var err := item.Transition(next, endpoint, env.now);
      var _ :- Check(err);
      err := store.TransitionDeployment(item.row, Audit(env.eventId, user, DeploymentTransitioned, row.id), fault);
      var _ :- Check(err);
      return Ok(item.row);
    }

    method StopDeployment(actor: Actor, id: Id, version: int, reservationVersion: int, env: Env, fault: Fault) returns (r: Result<Deployment>)
      modifies store
      ensures var req := Request(actor, Stop(id, version, reservationVersion), env);
        Alone(old(store.db), req, fault) == (store.db, Done(req, DeploymentResult(r)))
      ensures KeptBy(old(store.db), store.db)
      ensures Undisturbed(old(store.db), Request(actor, Stop(id, version, reservationVersion), env), fault) ==>
        (store.db, DeploymentResult(r)) == StopRule(old(store.db), actor, id, version, reservationVersion, env)
    {
      ghost var req := Request(actor, Stop(id, version, reservationVersion), env);
      hide ReadAll, From, Alone, CommitStep, Refusal, Written, After, KeptBy, DbInv, Prepared, StopRule;
      if Undisturbed(store.db, req, fault) { StopOutcome(store.db, actor, id, version, reservationVersion, env); }
      AloneKeepsAll(store.db, req, fault);
      AloneReads(store.db, req, fault);
      FromReads(store.db, req, NoReads, fault);
      var user :- RequireRole(actor, Operator);
      var row :- Lookup(store.db.deployments, id);
      FromReads(store.db, req, DeploymentRead(row), fault);
      if row.version != version { return Err(StaleVersion); }
      var held :- Lookup(store.db.reservations, row.reservation);
      FromReads(store.db, req, DeploymentReservationRead(row, held), fault);
      StopPlan(req, row, held);
      if held.version != reservationVersion { return Err(StaleVersion); }
      hide PlanOf, PlanStop, PlannedTo, Screen, Fetch;
      r := NextStopPhase(req, user, row, held, env, fault);
    }

    /** The phase that the deployment's status calls for: begin to stop, or stop and release. */
    method NextStopPhase(ghost req: Request, user: Id, row: Deployment, held: Reservation, env: Env, fault: Fault)
      returns (r: Result<Deployment>)
      requires req.env == env && UserOf(req.actor) == user
      modifies store
      ensures PlannedTo(old(store.db), req, PlanStop(req, held.version, row, held), fault)
           == (store.db, Done(req, DeploymentResult(r)))
    {
      hide Refusal, Written, After;
      var item := new DeploymentItem(row);
      if row.status == Running {
        var err := item.Transition(Stopping, "", env.now);
        if err.None? {
          err := store.TransitionDeployment(item.row, Audit(env.eventId, user, DeploymentStopStarted, row.id), fault);
        }
        var _ :- Check(err);
        return Ok(item.row);
      }
      if row.status != Stopping { return Err(IllegalState); }
      var err := item.Transition(Stopped, "", env.now);
      var reservation := new ReservationItem(held);
      if err.None? {
        err := reservation.Transition(Released, env.now);
      }
      if err.None? {
        err := store.StopDeploymentAndRelease(item.row, reservation.row, Audit(env.eventId, user, DeploymentStopped, row.id), fault);
      }
      var _ :- Check(err);
      return Ok(item.row);
    }

    /** Moves a queued deployment to activating and then to running, in two commits;
        run again after an interruption it goes on where it stopped. */
    method ActivateDeploymentJob(id: Id, env: Env, first: Fault, second: Fault) returns (r: Result<()>)
      modifies store
      ensures var req := Request(Anonymous, Activate(id), env);
        ToEnd(old(store.db), req, first, second) == (store.db, Done(req, NothingResult(r)))
      ensures DbInv(old(store.db)) ==> DbInv(store.db)
      ensures Undisturbed(old(store.db), Request(Anonymous, Activate(id), env), first) && second == NoFault ==>
        (store.db, NothingResult(r)) == ActivateRule(old(store.db), id, env)
    {
      ghost var req := Request(Anonymous, Activate(id), env);
      hide ReadAll, From, Alone, CommitStep, Refusal, Written, After, PlannedTo, PlanOf, DbInv, Prepared, ActivateRule, ToEnd;
      if Undisturbed(store.db, req, first) && second == NoFault { ActivateOutcome(store.db, id, env); }
      ToEndKeeps(store.db, req, first, second);
      EndsAlone(store.db, req, first, second);
      AloneReads(store.db, req, first);
      FromReads(store.db, req, NoReads, first);
      var row :- Lookup(store.db.deployments, id);
      FromReads(store.db, req, DeploymentRead(row), first);
      ActivationPlans(store.db, req, row, first, second);
      if row.status == Running { return Ok(()); }
      var item := new DeploymentItem(row);
      var last := first;
      if row.status == Queued {
        var err := item.Transition(Activating, "", env.now);
        if err.None? {
          err := store.TransitionDeployment(item.row, Audit(env.eventId, "", ActivationStarted, row.id), first);
        }
        var _ :- Check(err);
        last := second;
      }
      if item.row.status != Activating { return Err(IllegalState); }
      hide Completion;
      r := CompleteActivation(req, item, last, env);
    }

    /** The last commit of an activation. */
    method CompleteActivation(ghost req: Request, item: DeploymentItem, fault: Fault, env: Env) returns (r: Result<()>)
      requires item.row.status == Activating && req.env == env
      modifies store, item
      ensures Completion(old(store.db), req, old(item.row), fault) == (store.db, Done(req, NothingResult(r)))
    {
      hide Refusal, Written, After;
      var id := item.row.id;
      var err := item.Transition(Running, RuntimeEndpoint(id), env.later);
      if err.None? {
        err := store.TransitionDeployment(item.row, Audit(env.secondEventId, "", ActivationCompleted, id), fault);
      }
      return Check(err);
    }

    // ----------------------------------------------------------------- ledger

    method RecordUsage(actor: Actor, deploymentId: Id, partner: Id, start: Instant, end: Instant, unitSeconds: int, currency: string, env: Env, fault: Fault) returns (r: Result<(Usage, Settlement)>)
      modifies store
      ensures var req := Request(actor, Op.RecordUsage(deploymentId, partner, start, end, unitSeconds, currency), env);
        Alone(old(store.db), req, fault) == (store.db, Done(req, UsageResult(r)))
      ensures KeptBy(old(store.db), store.db)
      ensures Undisturbed(old(store.db), Request(actor, Op.RecordUsage(deploymentId, partner, start, end, unitSeconds, currency), env), fault) && InRange(end) ==>
        (store.db, UsageResult(r)) == RecordUsageRule(old(store.db), actor, deploymentId, partner, start, end, unitSeconds, currency, env)
    {
      ghost var req := Request(actor, Op.RecordUsage(deploymentId, partner, start, end, unitSeconds, currency), env);
      hide ReadAll, From, Alone, CommitStep, Refusal, Written, After, KeptBy, DbInv, Prepared, RecordUsageRule, InRange, NewUsage;
      if Undisturbed(store.db, req, fault) && InRange(end) { RecordUsageOutcome(store.db, actor, deploymentId, partner, start, end, unitSeconds, currency, env); }
      AloneKeepsAll(store.db, req, fault);
      AloneReads(store.db, req, fault);
      FromReads(store.db, req, NoReads, fault);
      var user :- RequireRole(actor, Operator);
      var deployment :- Lookup(store.db.deployments, deploymentId);
      FromReads(store.db, req, DeploymentRead(deployment), fault);
      if deployment.status != Running && deployment.status != Stopped { return Err(IllegalState); }
      var reservation :- Lookup(store.db.reservations, deployment.reservation);
      FromReads(store.db, req, DeploymentReservationRead(deployment, reservation), fault);
      if reservation.partner != partner { return Err(Forbidden); }
      var usage :- NewUsage(env.itemId, deployment.id, partner, start, end, unitSeconds);
      if unitSeconds > MAX_INT64 / RATE { return Err(Invalid); }
      var settlement := Settlement(env.settlementId, usage.id, partner, unitSeconds * RATE, currency);
      var err := store.RecordUsageAndSettlement(usage, settlement, Audit(env.eventId, user, UsageRecorded, deployment.id), fault);
      var _ :- Check(err);
      return Ok((usage, settlement));
    }
  }
}
