/** What every service call comes to when it runs by itself on reachable tables, with
    new ids and without a storage error: the first reason to refuse it in terms of the
    stored rows, or else exactly the rows it leaves and the answer.  What the
    invariant excludes, no call can be refused for. */
module Outcomes {
  import opened Basics
  import opened Timestamps
  import opened Domain
  import opened Transactions
  import opened Calls
  import opened Invariants
  import opened Serializability
  import opened Theorems

  // ------------------------------------------------------------ what is given

  /** The ids drawn for the call are new, and a user who makes rows has an account. */
  predicate Prepared(db: Db, req: Request) {
    var env := req.env;
    match req.op
    case CreateSite(_, _, _) => env.itemId != "" && env.itemId !in db.sites && UserOf(req.actor) in db.users
    case ReviewSite(_, _, _, _) => env.reviewId !in db.siteReviews && env.eventId !in db.audit && UserOf(req.actor) in db.users
    case SubmitScenario(_, _, _, _) => env.itemId != "" && env.itemId !in db.scenarios && UserOf(req.actor) in db.users
    case Decide(_, _, _, _) => env.reviewId !in db.scenarioReviews && env.eventId !in db.audit && UserOf(req.actor) in db.users
    case Reserve(_, _, _) =>
      && env.itemId != "" && env.itemId !in db.reservations && env.jobId !in db.jobs && env.eventId !in db.audit
      && UserOf(req.actor) in db.users
    case CreateDeployment(_) => env.itemId != "" && env.itemId !in db.deployments && env.jobId !in db.jobs && env.eventId !in db.audit
    case Activate(_) => env.eventId !in db.audit && env.secondEventId !in db.audit && env.eventId != env.secondEventId
    case RecordUsage(_, partner, _, _, _, _) =>
      && env.itemId != "" && env.itemId !in db.usage && env.settlementId !in db.settlements && env.eventId !in db.audit
      && partner in db.users
    case _ => env.eventId !in db.audit
  }

  /** Nobody has signed in, or not in the role that is wanted. */
  function Denied(actor: Actor, wanted: Role): Option<Error> {
    if actor == Anonymous || actor.user == "" then Some(Unauthorized)
    else if actor.role != wanted then Some(Forbidden)
    else None
  }

  // ------------------------------------------------------- from reads to plans

  /** The call reads up to these rows and then plans. */
  predicate ReadsTo(db: Db, req: Request, seen: Reads) {
    && From(db, req, NoReads, NoFault) == From(db, req, seen, NoFault)
    && Screen(req, seen).None? && Fetch(db, req.op, seen).Complete?
  }

  lemma PlansAlone(db: Db, req: Request, seen: Reads)
    requires ReadsTo(db, req, seen)
    ensures Alone(db, req, NoFault) == PlannedTo(db, req, PlanOf(req, seen), NoFault)
  {
    hide PlanOf, PlannedTo, From, Alone, Screen, Fetch;
    AloneReads(db, req, NoFault);
    FromReads(db, req, seen, NoFault);
  }

  /** Refused before anything is read. */
  lemma TurnedAway(db: Db, req: Request)
    requires Screen(req, NoReads).Some?
    ensures Alone(db, req, NoFault) == (db, Done(req, Err(Screen(req, NoReads).value)))
  {
    hide From, Alone, Screen;
    AloneReads(db, req, NoFault);
    FromReads(db, req, NoReads, NoFault);
  }

  lemma FindsNothing(db: Db, req: Request)
    requires Screen(req, NoReads).None? && Fetch(db, req.op, NoReads).Missing?
    ensures Alone(db, req, NoFault) == (db, Done(req, Err(NotFound)))
  {
    hide From, Alone, Screen, Fetch;
    AloneReads(db, req, NoFault);
    FromReads(db, req, NoReads, NoFault);
  }

  /** The call reads one row. */
  lemma ReadsOneRow(db: Db, req: Request, seen: Reads)
    requires Screen(req, NoReads).None? && Fetch(db, req.op, NoReads) == Found(seen)
    requires Screen(req, seen).None? && Fetch(db, req.op, seen).Complete?
    ensures Alone(db, req, NoFault) == PlannedTo(db, req, PlanOf(req, seen), NoFault)
  {
    hide From, Alone, Screen, Fetch, PlanOf, PlannedTo;
    FromReads(db, req, NoReads, NoFault);
    PlansAlone(db, req, seen);
  }

  /** The call reads two rows. */
  lemma ReadsTwoRows(db: Db, req: Request, seen: Reads, both: Reads)
    requires Screen(req, NoReads).None? && Fetch(db, req.op, NoReads) == Found(seen)
    requires Screen(req, seen).None? && Fetch(db, req.op, seen) == Found(both)
    requires Screen(req, both).None? && Fetch(db, req.op, both).Complete?
    ensures Alone(db, req, NoFault) == PlannedTo(db, req, PlanOf(req, both), NoFault)
  {
    hide From, Alone, Screen, Fetch, PlanOf, PlannedTo;
    FromReads(db, req, NoReads, NoFault);
    FromReads(db, req, seen, NoFault);
    PlansAlone(db, req, both);
  }

  /** Refused after one row. */
  lemma StopsAfterOneRow(db: Db, req: Request, seen: Reads)
    requires Screen(req, NoReads).None? && Fetch(db, req.op, NoReads) == Found(seen)
    ensures Screen(req, seen).Some? ==> Alone(db, req, NoFault) == (db, Done(req, Err(Screen(req, seen).value)))
    ensures Screen(req, seen).None? && Fetch(db, req.op, seen).Missing? ==> Alone(db, req, NoFault) == (db, Done(req, Err(NotFound)))
  {
    hide From, Alone, Screen, Fetch;
    AloneReads(db, req, NoFault);
    FromReads(db, req, NoReads, NoFault);
    FromReads(db, req, seen, NoFault);
  }

  // ------------------------------------------------------------ reservations

  /** The sites when a reservation has given its units back. */
  function PutBack(sites: map<Id, Site>, r: Reservation): map<Id, Site> {
    if r.site in sites then
      var site := sites[r.site];
      sites[r.site := site.(available := site.available + r.units, version := site.version + 1, updatedAt := r.updatedAt)]
    else sites
  }

  function Returned(db: Db, r: Reservation, e: Audit): Db {
    db.(reservations := db.reservations[r.id := r], sites := PutBack(db.sites, r), audit := db.audit[e.id := e])
  }

  /** A release gives back the partner's held units, once, on the version it was asked for. */
  function ReleaseRule(db: Db, actor: Actor, id: Id, version: int, env: Env): (Db, Result<Answer>) {
    if Denied(actor, Partner).Some? then (db, Err(Denied(actor, Partner).value))
    else if id !in db.reservations then (db, Err(NotFound))
    else
      var r := db.reservations[id];
      if r.partner != actor.user then (db, Err(Forbidden))
      else if r.version != version then (db, Err(StaleVersion))
      else if r.status != Confirmed then (db, Err(IllegalState))
      else
        var freed := r.(status := Released, version := version + 1, updatedAt := env.now);
        (Returned(db, freed, Audit(env.eventId, actor.user, ReservationReleased, id)), Ok(ReservationAnswer(freed)))
  }

  lemma ReleaseOutcome(db: Db, actor: Actor, id: Id, version: int, env: Env)
    requires Prepared(db, Request(actor, Release(id, version), env))
    requires DbInv(db)
    ensures var req := Request(actor, Release(id, version), env); var (db', result) := ReleaseRule(db, actor, id, version, env);
      Alone(db, req, NoFault) == (db', Done(req, result))
  {
    hide DbInv, Alone, Refusal, Written, After, Returned, PlannedTo, PlanOf;
    var req := Request(actor, Release(id, version), env);
    if Denied(actor, Partner).Some? {
      TurnedAway(db, req);
    } else if id !in db.reservations {
      FindsNothing(db, req);
    } else {
      var r := db.reservations[id];
      ReadsOneRow(db, req, ReservationRead(r));
      HeldRow(db, id);
      ReleasePlanned(db, req, r);
      if r.status == Confirmed {
        ReturnsUnits(db, r, r.(status := Released, version := r.version + 1, updatedAt := env.now), Event(req, ReservationReleased, id));
      }
    }
  }

  lemma ReleasePlanned(db: Db, req: Request, r: Reservation)
    requires req.op.Release? && req.actor.Known? && r.status != Pending
    ensures PlannedTo(db, req, PlanOf(req, ReservationRead(r)), NoFault) ==
      if r.partner != req.actor.user then (db, Done(req, Err(Forbidden)))
      else if r.version != req.op.version then (db, Done(req, Err(StaleVersion)))
      else if r.status != Confirmed then (db, Done(req, Err(IllegalState)))
      else
        var freed := r.(status := Released, version := r.version + 1, updatedAt := req.env.now);
        Lands(db, req, ReturnTx(freed, Audit(req.env.eventId, req.actor.user, ReservationReleased, r.id)), ReservationAnswer(freed))
  {
    hide Refusal, After;
  }

  /** What submitting a transaction comes to. */
  function Lands(db: Db, req: Request, tx: Tx, answer: Answer): (Db, Call) {
    (After(db, tx, NoFault), Done(req, if Refusal(db, tx, NoFault).Some? then Err(Refusal(db, tx, NoFault).value) else Ok(answer)))
  }

  lemma HeldRow(db: Db, id: Id)
    requires id in db.reservations
    requires DbInv(db)
    ensures var r := db.reservations[id]; r.id == id && r.status != Pending && r.site in db.sites
  {
    hide SitesOk, Conserved, Accounted, ScenariosOk, ReviewsOk, DeploymentsOk, OutboxInv, LedgerInv;
    assert ReservationShape(db.reservations[id]);
  }

  lemma ReturnsUnits(db: Db, r: Reservation, moved: Reservation, e: Audit)
    requires r.id in db.reservations && db.reservations[r.id] == r && r.status == Confirmed
    requires moved == r.(status := moved.status, version := r.version + 1, updatedAt := moved.updatedAt) && e.id !in db.audit
    requires DbInv(db)
    ensures Refusal(db, ReturnTx(moved, e), NoFault).None? && After(db, ReturnTx(moved, e), NoFault) == Returned(db, moved, e)
  {
    hide DbInv;
    HeldRow(db, r.id);
    ReturnNeverConflicts(db, r);
    ReturnWrites(db, r, moved, e);
  }

  lemma ReturnWrites(db: Db, r: Reservation, moved: Reservation, e: Audit)
    requires r.id in db.reservations && db.reservations[r.id] == r && r.status == Confirmed && r.site in db.sites
    requires moved == r.(status := moved.status, version := r.version + 1, updatedAt := moved.updatedAt) && e.id !in db.audit
    requires ReturnCapacityCheck(db, r) == None
    ensures Refusal(db, ReturnTx(moved, e), NoFault).None? && After(db, ReturnTx(moved, e), NoFault) == Returned(db, moved, e)
  {
    assert ReturnCapacityCheck(db, moved) == ReturnCapacityCheck(db, r);
    hide ReturnCapacityCheck;
    assert DemandsOf(db, ReturnTx(moved, e)).Met();
  }

  /** An expiry that comes too early meets a conflict; afterwards the reservation has
      ended, and only the first expiry gives its units back. */
  function ExpireRule(db: Db, id: Id, env: Env): (Db, Result<Answer>) {
    if id !in db.reservations then (db, Err(NotFound))
    else
      var r := db.reservations[id];
      if r.status != Confirmed then (db, Ok(Nothing))
      else if env.now < r.expiresAt then (db, Err(Conflict))
      else
        var lapsed := r.(status := Lapsed, version := r.version + 1, updatedAt := env.now);
        (Returned(db, lapsed, Audit(env.eventId, "", ReservationExpired, id)), Ok(Nothing))
  }

  lemma ExpireOutcome(db: Db, actor: Actor, id: Id, env: Env)
    requires Prepared(db, Request(actor, Expire(id), env))
    requires DbInv(db)
    ensures var req := Request(actor, Expire(id), env); var (db', result) := ExpireRule(db, id, env);
      Alone(db, req, NoFault) == (db', Done(req, result))
  {
    hide DbInv, Alone, Refusal, Written, After, Returned, PlannedTo, PlanOf;
    var req := Request(actor, Expire(id), env);
    if id !in db.reservations {
      FindsNothing(db, req);
    } else {
      var r := db.reservations[id];
      ReadsOneRow(db, req, ReservationRead(r));
      HeldRow(db, id);
      ExpirePlanned(db, req, r);
      if r.status == Confirmed {
        ReturnsUnits(db, r, r.(status := Lapsed, version := r.version + 1, updatedAt := env.now), Audit(env.eventId, "", ReservationExpired, id));
      }
    }
  }

  lemma ExpirePlanned(db: Db, req: Request, r: Reservation)
    requires req.op.Expire? && r.status != Pending
    ensures PlannedTo(db, req, PlanOf(req, ReservationRead(r)), NoFault) ==
      if r.status != Confirmed then (db, Done(req, Ok(Nothing)))
      else if req.env.now < r.expiresAt then (db, Done(req, Err(Conflict)))
      else
        Lands(db, req, ReturnTx(r.(status := Lapsed, version := r.version + 1, updatedAt := req.env.now),
                                Audit(req.env.eventId, "", ReservationExpired, r.id)), Nothing)
  {
    hide Refusal, After;
  }

  /** A reservation holds the units that were asked for, from now for as long as was asked. */
  function AskedFor(user: Id, env: Env, scenario: Id, site: Id, units: int, ttl: nat): Reservation {
    Reservation(env.itemId, scenario, site, user, units, Confirmed, env.now + ttl, 1, env.now, env.now)
  }

  /** Its expiry job is due when it expires, and names it. */
  function ExpiryOf(env: Env, r: Reservation): Job {
    Job(env.jobId, ExpireReservationJob, r.id, Some(map["reservation_id" := r.id, "expires_at" := Timestamp(r.expiresAt)]),
        JobPending, 0, 5, r.expiresAt, None, None, None, env.jobNow, env.jobNow)
  }

  /** A partner's approved scenario takes units of an active site that has them, for a
      minute to seven days. */
  function ReserveRule(db: Db, actor: Actor, scenario: Id, site: Id, ttl: int, env: Env): (Db, Result<Answer>) {
    if Denied(actor, Partner).Some? then (db, Err(Denied(actor, Partner).value))
    else if scenario !in db.scenarios || site !in db.sites then (db, Err(NotFound))
    else
      var c, s := db.scenarios[scenario], db.sites[site];
      if c.partner != actor.user then (db, Err(Forbidden))
      else if c.status != Approved || s.status != Active then (db, Err(IllegalState))
      else if s.available < c.requested then (db, Err(Capacity))
      else if ttl < 60 * 1_000_000_000 || ttl > 7 * 86_400 * 1_000_000_000 then (db, Err(Invalid))
      else
        var r := AskedFor(actor.user, env, scenario, site, c.requested, ttl);
        var job := ExpiryOf(env, r);
        var taken := s.(available := s.available - r.units, version := s.version + 1, updatedAt := env.now);
        (db.(sites := db.sites[site := taken], reservations := db.reservations[r.id := r], jobs := db.jobs[job.id := job],
             audit := db.audit[env.eventId := Audit(env.eventId, actor.user, ReservationCreated, r.id)]),
         Ok(ReservationAnswer(r)))
  }

  lemma ReserveOutcome(db: Db, actor: Actor, scenario: Id, site: Id, ttl: int, env: Env)
    requires Prepared(db, Request(actor, Reserve(scenario, site, ttl), env))
    requires DbInv(db)
    ensures var req := Request(actor, Reserve(scenario, site, ttl), env);
      var (db', result) := ReserveRule(db, actor, scenario, site, ttl, env);
      Alone(db, req, NoFault) == (db', Done(req, result))
  {
    hide DbInv, Alone, Refusal, Written, After, PlannedTo, PlanOf, Timestamp;
    var req := Request(actor, Reserve(scenario, site, ttl), env);
    if Denied(actor, Partner).Some? {
      TurnedAway(db, req);
    } else if scenario !in db.scenarios {
      FindsNothing(db, req);
    } else if site !in db.sites {
      StopsAfterOneRow(db, req, ScenarioRead(db.scenarios[scenario]));
    } else {
      var c, s := db.scenarios[scenario], db.sites[site];
      ReadsTwoRows(db, req, ScenarioRead(c), ScenarioSiteRead(c, s));
      QualifiedRows(db, scenario, site);
      ReservePlanned(db, req, c, s);
      if ReserveRule(db, actor, scenario, site, ttl, env).1.Ok? {
        ReserveWrites(db, req, c, s);
      }
    }
  }

  lemma QualifiedRows(db: Db, scenario: Id, site: Id)
    requires scenario in db.scenarios && site in db.sites
    requires DbInv(db)
    ensures db.scenarios[scenario].id == scenario && db.scenarios[scenario].requested > 0
    ensures db.sites[site].id == site && 0 < db.sites[site].total && 0 <= db.sites[site].available <= db.sites[site].total
  {
    hide Conserved, Accounted, OnKnownSites, ReviewsOk, Qualified, DeploymentsOk, OutboxInv, LedgerInv;
    assert SiteCheck(db.sites[site].total, db.sites[site].available);
  }

  lemma ReservePlanned(db: Db, req: Request, c: Scenario, s: Site)
    requires req.op.Reserve? && req.actor.Known? && req.actor.user != "" && req.env.itemId != "" && c.requested > 0
    ensures PlannedTo(db, req, PlanOf(req, ScenarioSiteRead(c, s)), NoFault) ==
      if c.partner != req.actor.user then (db, Done(req, Err(Forbidden)))
      else if c.status != Approved || s.status != Active then (db, Done(req, Err(IllegalState)))
      else if s.available < c.requested then (db, Done(req, Err(Capacity)))
      else if req.op.ttl < 60 * 1_000_000_000 || req.op.ttl > 7 * 86_400 * 1_000_000_000 then (db, Done(req, Err(Invalid)))
      else
        var r := AskedFor(UserOf(req.actor), req.env, c.id, s.id, c.requested, req.op.ttl);
        Lands(db, req, CreateReservationTx(r, ExpiryOf(req.env, r), Audit(req.env.eventId, req.actor.user, ReservationCreated, r.id)),
              ReservationAnswer(r))
  {
    hide Refusal, After, Timestamp;
  }

  lemma NoJobYet(db: Db, id: Id)
    requires DbInv(db)
    ensures id !in db.reservations ==> forall k :: k in db.jobs ==> !(db.jobs[k].kind == ExpireReservationJob && db.jobs[k].aggregate == id)
    ensures id !in db.deployments ==> forall k :: k in db.jobs ==> !(db.jobs[k].kind == ActivateDeploymentJob && db.jobs[k].aggregate == id)
  {
    hide CapacityInv, QualificationInv, DeploymentsOk, LedgerInv;
  }

  lemma ReserveWrites(db: Db, req: Request, c: Scenario, s: Site)
    requires req.op.Reserve? && req.op.ttl >= 0 && req.actor.Known? && Prepared(db, req)
    requires c.id in db.scenarios && s.id in db.sites && db.sites[s.id] == s
    requires s.status == Active && 0 < c.requested <= s.available <= s.total
    requires DbInv(db)
    ensures var r := AskedFor(UserOf(req.actor), req.env, c.id, s.id, c.requested, req.op.ttl); var job := ExpiryOf(req.env, r);
      var e := Audit(req.env.eventId, req.actor.user, ReservationCreated, r.id); var tx := CreateReservationTx(r, job, e);
      && Refusal(db, tx, NoFault).None?
      && After(db, tx, NoFault) == db.(sites := db.sites[s.id := s.(available := s.available - c.requested, version := s.version + 1, updatedAt := req.env.now)],
           reservations := db.reservations[r.id := r], jobs := db.jobs[job.id := job], audit := db.audit[e.id := e])
  {
    hide DbInv, Timestamp;
    NoJobYet(db, req.env.itemId);
    var r := AskedFor(UserOf(req.actor), req.env, c.id, s.id, c.requested, req.op.ttl);
    var tx := CreateReservationTx(r, ExpiryOf(req.env, r), Audit(req.env.eventId, req.actor.user, ReservationCreated, r.id));
    assert DemandsOf(db, tx).Met();
  }

  // ------------------------------------------------------------------- sites

  /** An operator's new site is a draft with all of its units available. */
  function CreateSiteRule(db: Db, actor: Actor, name: string, place: Place, units: int, env: Env): (Db, Result<Answer>) {
    if Denied(actor, Operator).Some? then (db, Err(Denied(actor, Operator).value))
    else if |name| < 3 || |name| > 120 || |place.country| != 2 || place.timezone == "" || !place.known then (db, Err(Invalid))
    else if units < 1 || units > 1_000_000 then (db, Err(Invalid))
    else if exists k | k in db.sites :: db.sites[k].operator == actor.user && db.sites[k].name == name then (db, Err(AlreadyExists))
    else
      var s := Site(env.itemId, actor.user, name, units, units, Draft, 1, env.now, env.now);
      (db.(sites := db.sites[s.id := s]), Ok(SiteAnswer(s)))
  }

  lemma CreateSiteOutcome(db: Db, actor: Actor, name: string, place: Place, units: int, env: Env)
    requires Prepared(db, Request(actor, CreateSite(name, place, units), env))
    ensures var req := Request(actor, CreateSite(name, place, units), env);
      var (db', result) := CreateSiteRule(db, actor, name, place, units, env);
      Alone(db, req, NoFault) == (db', Done(req, result))
  {
    hide Alone;
    var req := Request(actor, CreateSite(name, place, units), env);
    if Denied(actor, Operator).Some? {
      TurnedAway(db, req);
    } else {
      AloneReads(db, req, NoFault);
      FromReads(db, req, NoReads, NoFault);
      hide From;
    }
  }

  predicate SiteMayGo(from: SiteStatus, next: SiteStatus) {
    (from, next) in {(Draft, Verified), (Draft, Suspended), (Verified, Active), (Verified, Suspended), (Active, Suspended), (Suspended, Active)}
  }

  function MovedSiteTo(s: Site, next: SiteStatus, now: Instant): Site { s.(status := next, version := s.version + 1, updatedAt := now) }

  /** A review settles a draft; a rejection of a site past its draft comes too late,
      and an approval of one is no move of its state machine. */
  function ReviewSiteRule(db: Db, actor: Actor, id: Id, decision: Option<Decision>, evidence: string, version: int, env: Env)
    : (Db, Result<Answer>)
  {
    if Denied(actor, Operator).Some? then (db, Err(Denied(actor, Operator).value))
    else if |evidence| < 4 || |evidence| > 500 then (db, Err(Invalid))
    else if id !in db.sites then (db, Err(NotFound))
    else
      var s := db.sites[id];
      if s.version != version then (db, Err(StaleVersion))
      else if decision.None? then (db, Err(Invalid))
      else if s.status == Suspended || (s.status != Draft && decision.value == Approve) then (db, Err(IllegalState))
      else if s.status != Draft then (db, Err(StaleVersion))
      else
        var moved := MovedSiteTo(s, if decision.value == Approve then Verified else Suspended, env.now);
        (db.(sites := db.sites[id := moved],
             siteReviews := db.siteReviews[env.reviewId := Review(env.reviewId, id, actor.user, decision.value)],
             audit := db.audit[env.eventId := Audit(env.eventId, actor.user, SiteReviewed, id)]),
         Ok(SiteAnswer(moved)))
  }

  lemma SiteIds(db: Db, id: Id)
    requires id in db.sites
    requires DbInv(db)
    ensures db.sites[id].id == id
  {
    hide Conserved, Accounted, OnKnownSites, QualificationInv, DeploymentsOk, OutboxInv, LedgerInv;
  }

  lemma ReviewSiteOutcome(db: Db, actor: Actor, id: Id, decision: Option<Decision>, evidence: string, version: int, env: Env)
    requires Prepared(db, Request(actor, ReviewSite(id, decision, evidence, version), env))
    requires DbInv(db)
    ensures var req := Request(actor, ReviewSite(id, decision, evidence, version), env);
      var (db', result) := ReviewSiteRule(db, actor, id, decision, evidence, version, env);
      Alone(db, req, NoFault) == (db', Done(req, result))
  {
    hide DbInv, Alone, PlanOf, PlannedTo;
    var req := Request(actor, ReviewSite(id, decision, evidence, version), env);
    if Denied(actor, Operator).Some? || |evidence| < 4 || |evidence| > 500 {
      TurnedAway(db, req);
    } else if id !in db.sites {
      FindsNothing(db, req);
    } else {
      SiteIds(db, id);
      ReadsOneRow(db, req, SiteRead(db.sites[id]));
      ReviewSitePlanned(db, req, db.sites[id]);
    }
  }

  lemma ReviewSitePlanned(db: Db, req: Request, s: Site)
    requires req.op.ReviewSite? && Denied(req.actor, Operator).None? && 4 <= |req.op.evidence| <= 500
    requires Prepared(db, req) && s.id in db.sites && db.sites[s.id] == s && req.op.site == s.id
    ensures var (db', result) := ReviewSiteRule(db, req.actor, s.id, req.op.decision, req.op.evidence, req.op.version, req.env);
      PlannedTo(db, req, PlanOf(req, SiteRead(s)), NoFault) == (db', Done(req, result))
  {
  }

  /** Its operator moves a site along its state machine, and its capacity stays. */
  function TransitionSiteRule(db: Db, actor: Actor, id: Id, next: SiteStatus, version: int, env: Env): (Db, Result<Answer>) {
    if Denied(actor, Operator).Some? then (db, Err(Denied(actor, Operator).value))
    else if id !in db.sites then (db, Err(NotFound))
    else
      var s := db.sites[id];
      if s.operator != actor.user then (db, Err(Forbidden))
      else if s.version != version then (db, Err(StaleVersion))
      else if !SiteMayGo(s.status, next) then (db, Err(IllegalState))
      else
        var moved := MovedSiteTo(s, next, env.now);
        (db.(sites := db.sites[id := moved], audit := db.audit[env.eventId := Audit(env.eventId, actor.user, SiteTransitioned, id)]),
         Ok(SiteAnswer(moved)))
  }

  lemma TransitionSiteOutcome(db: Db, actor: Actor, id: Id, next: SiteStatus, version: int, env: Env)
    requires Prepared(db, Request(actor, TransitionSite(id, next, version), env))
    requires DbInv(db)
    ensures var req := Request(actor, TransitionSite(id, next, version), env);
      var (db', result) := TransitionSiteRule(db, actor, id, next, version, env);
      Alone(db, req, NoFault) == (db', Done(req, result))
  {
    hide DbInv, Alone, PlanOf, PlannedTo, SiteMayGo;
    var req := Request(actor, TransitionSite(id, next, version), env);
    if Denied(actor, Operator).Some? {
      TurnedAway(db, req);
    } else if id !in db.sites {
      FindsNothing(db, req);
    } else {
      SiteIds(db, id);
      ReadsOneRow(db, req, SiteRead(db.sites[id]));
      TransitionSitePlanned(db, req, db.sites[id]);
    }
  }

  lemma TransitionSitePlanned(db: Db, req: Request, s: Site)
    requires req.op.TransitionSite? && Denied(req.actor, Operator).None?
    requires Prepared(db, req) && s.id in db.sites && db.sites[s.id] == s && req.op.site == s.id
    ensures var (db', result) := TransitionSiteRule(db, req.actor, s.id, req.op.nextSite, req.op.version, req.env);
      PlannedTo(db, req, PlanOf(req, SiteRead(s)), NoFault) == (db', Done(req, result))
  {
    var op := req.op;
    SiteMoves(s.status, op.nextSite);
    TransitionSiteLands(db, req, s);
    if s.operator == req.actor.user && s.version == op.version && SiteCan(s.status, op.nextSite) {
      SiteWrites(db, s, MovedSiteTo(s, op.nextSite, req.env.now), Audit(req.env.eventId, req.actor.user, SiteTransitioned, s.id));
    }
    hide SiteMayGo, SiteCan, PlanOf, PlannedTo, Refusal, After;
  }

  lemma TransitionSiteLands(db: Db, req: Request, s: Site)
    requires req.op.TransitionSite? && req.actor.Known?
    ensures PlannedTo(db, req, PlanOf(req, SiteRead(s)), NoFault) ==
      if s.operator != req.actor.user then (db, Done(req, Err(Forbidden)))
      else if s.version != req.op.version then (db, Done(req, Err(StaleVersion)))
      else if !SiteCan(s.status, req.op.nextSite) then (db, Done(req, Err(IllegalState)))
      else
        var moved := MovedSiteTo(s, req.op.nextSite, req.env.now);
        Lands(db, req, TransitionSiteTx(moved, Audit(req.env.eventId, req.actor.user, SiteTransitioned, s.id)), SiteAnswer(moved))
  {
    hide Refusal, After, SiteCan;
  }

  lemma SiteWrites(db: Db, s: Site, moved: Site, e: Audit)
    requires s.id in db.sites && db.sites[s.id] == s && e.id !in db.audit
    requires moved == s.(status := moved.status, version := s.version + 1, updatedAt := moved.updatedAt)
    ensures var tx := TransitionSiteTx(moved, e);
      Refusal(db, tx, NoFault).None? && After(db, tx, NoFault) == db.(sites := db.sites[s.id := moved], audit := db.audit[e.id := e])
  {
  }

  lemma SiteMoves(from: SiteStatus, next: SiteStatus)
    ensures SiteMayGo(from, next) <==> SiteCan(from, next)
  {
  }

  // --------------------------------------------------------------- scenarios

  /** A partner's scenario is submitted for review. */
  function SubmitScenarioRule(db: Db, actor: Actor, name: string, sector: string, classification: string, units: int, env: Env)
    : (Db, Result<Answer>)
  {
    if Denied(actor, Partner).Some? then (db, Err(Denied(actor, Partner).value))
    else if |name| < 3 || |name| > 160 || sector == "" || units < 1 || units > 100_000 then (db, Err(Invalid))
    else if classification !in {"public", "restricted", "sovereign"} then (db, Err(Invalid))
    else if exists k | k in db.scenarios :: db.scenarios[k].partner == actor.user && db.scenarios[k].name == name
      then (db, Err(AlreadyExists))
    else
      var s := Scenario(env.itemId, actor.user, name, units, Submitted, 1, env.now, env.now);
      (db.(scenarios := db.scenarios[s.id := s]), Ok(ScenarioAnswer(s)))
  }

  lemma SubmitScenarioOutcome(db: Db, actor: Actor, name: string, sector: string, classification: string, units: int, env: Env)
    requires Prepared(db, Request(actor, SubmitScenario(name, sector, classification, units), env))
    ensures var req := Request(actor, SubmitScenario(name, sector, classification, units), env);
      var (db', result) := SubmitScenarioRule(db, actor, name, sector, classification, units, env);
      Alone(db, req, NoFault) == (db', Done(req, result))
  {
    hide Alone;
    var req := Request(actor, SubmitScenario(name, sector, classification, units), env);
    if Denied(actor, Partner).Some? {
      TurnedAway(db, req);
    } else {
      AloneReads(db, req, NoFault);
      FromReads(db, req, NoReads, NoFault);
      hide From;
    }
  }

  function MovedScenarioTo(s: Scenario, next: ScenarioStatus, now: Instant): Scenario {
    s.(status := next, version := s.version + 1, updatedAt := now)
  }

  /** A submitted scenario goes into review. */
  function StartReviewRule(db: Db, actor: Actor, id: Id, version: int, env: Env): (Db, Result<Answer>) {
    if Denied(actor, Operator).Some? then (db, Err(Denied(actor, Operator).value))
    else if id !in db.scenarios then (db, Err(NotFound))
    else
      var s := db.scenarios[id];
      if s.version != version then (db, Err(StaleVersion))
      else if s.status != Submitted then (db, Err(IllegalState))
      else
        var moved := MovedScenarioTo(s, Reviewing, env.now);
        (db.(scenarios := db.scenarios[id := moved],
             audit := db.audit[env.eventId := Audit(env.eventId, actor.user, ScenarioReviewStarted, id)]),
         Ok(ScenarioAnswer(moved)))
  }

  lemma ScenarioIds(db: Db, id: Id)
    requires id in db.scenarios
    requires DbInv(db)
    ensures db.scenarios[id].id == id
  {
    hide CapacityInv, ReviewsOk, Qualified, DeploymentsOk, OutboxInv, LedgerInv;
  }

  lemma StartReviewOutcome(db: Db, actor: Actor, id: Id, version: int, env: Env)
    requires Prepared(db, Request(actor, StartReview(id, version), env))
    requires DbInv(db)
    ensures var req := Request(actor, StartReview(id, version), env); var (db', result) := StartReviewRule(db, actor, id, version, env);
      Alone(db, req, NoFault) == (db', Done(req, result))
  {
    hide DbInv, Alone, PlanOf, PlannedTo;
    var req := Request(actor, StartReview(id, version), env);
    if Denied(actor, Operator).Some? {
      TurnedAway(db, req);
    } else if id !in db.scenarios {
      FindsNothing(db, req);
    } else {
      ScenarioIds(db, id);
      ReadsOneRow(db, req, ScenarioRead(db.scenarios[id]));
      StartReviewPlanned(db, req, db.scenarios[id]);
    }
  }

  lemma StartReviewPlanned(db: Db, req: Request, s: Scenario)
    requires req.op.StartReview? && Denied(req.actor, Operator).None?
    requires Prepared(db, req) && s.id in db.scenarios && db.scenarios[s.id] == s && req.op.scenario == s.id
    ensures var (db', result) := StartReviewRule(db, req.actor, s.id, req.op.version, req.env);
      PlannedTo(db, req, PlanOf(req, ScenarioRead(s)), NoFault) == (db', Done(req, result))
  {
  }

  /** A scenario in review is approved or rejected, once. */
  function DecideRule(db: Db, actor: Actor, id: Id, decision: Option<Decision>, notes: string, version: int, env: Env)
    : (Db, Result<Answer>)
  {
    if Denied(actor, Operator).Some? then (db, Err(Denied(actor, Operator).value))
    else if |notes| < 3 || |notes| > 1000 then (db, Err(Invalid))
    else if id !in db.scenarios then (db, Err(NotFound))
    else
      var s := db.scenarios[id];
      if s.version != version then (db, Err(StaleVersion))
      else if decision.None? then (db, Err(Invalid))
      else if s.status != Reviewing then (db, Err(IllegalState))
      else
        var moved := MovedScenarioTo(s, if decision.value == Approve then Approved else Rejected, env.now);
        (db.(scenarios := db.scenarios[id := moved],
             scenarioReviews := db.scenarioReviews[env.reviewId := Review(env.reviewId, id, actor.user, decision.value)],
             audit := db.audit[env.eventId := Audit(env.eventId, actor.user, ScenarioDecided, id)]),
         Ok(ScenarioAnswer(moved)))
  }

  lemma DecideOutcome(db: Db, actor: Actor, id: Id, decision: Option<Decision>, notes: string, version: int, env: Env)
    requires Prepared(db, Request(actor, Decide(id, decision, notes, version), env))
    requires DbInv(db)
    ensures var req := Request(actor, Decide(id, decision, notes, version), env);
      var (db', result) := DecideRule(db, actor, id, decision, notes, version, env);
      Alone(db, req, NoFault) == (db', Done(req, result))
  {
    hide DbInv, Alone, PlanOf, PlannedTo;
    var req := Request(actor, Decide(id, decision, notes, version), env);
    if Denied(actor, Operator).Some? || |notes| < 3 || |notes| > 1000 {
      TurnedAway(db, req);
    } else if id !in db.scenarios {
      FindsNothing(db, req);
    } else {
      ScenarioIds(db, id);
      ReadsOneRow(db, req, ScenarioRead(db.scenarios[id]));
      DecidePlanned(db, req, db.scenarios[id]);
    }
  }

  lemma DecidePlanned(db: Db, req: Request, s: Scenario)
    requires req.op.Decide? && Denied(req.actor, Operator).None? && 3 <= |req.op.notes| <= 1000
    requires Prepared(db, req) && s.id in db.scenarios && db.scenarios[s.id] == s && req.op.scenario == s.id
    ensures var (db', result) := DecideRule(db, req.actor, s.id, req.op.decision, req.op.notes, req.op.version, req.env);
      PlannedTo(db, req, PlanOf(req, ScenarioRead(s)), NoFault) == (db', Done(req, result))
  {
  }

  // -------------------------------------------------------------- deployments

  predicate DeploymentMayGo(from: DeploymentStatus, next: DeploymentStatus) {
    (from, next) in {(Queued, Activating), (Activating, Running), (Running, Stopping), (Stopping, Stopped),
                     (Queued, Failed), (Activating, Failed), (Running, Failed), (Stopping, Failed)}
  }

  lemma DeploymentMoves(from: DeploymentStatus, next: DeploymentStatus)
    ensures DeploymentMayGo(from, next) <==> DeploymentCan(from, next)
  {
  }

  function ActivationOf(env: Env, d: Deployment): Job {
    Job(env.jobId, ActivateDeploymentJob, d.id, Some(map["deployment_id" := d.id]), JobPending, 0, 5, env.available,
        None, None, None, env.jobNow, env.jobNow)
  }

  /** A confirmed reservation that has not expired gets its one deployment, queued, and the job that activates it. */
  function CreateDeploymentRule(db: Db, actor: Actor, id: Id, env: Env): (Db, Result<Answer>) {
    if Denied(actor, Partner).Some? then (db, Err(Denied(actor, Partner).value))
    else if id !in db.reservations then (db, Err(NotFound))
    else
      var r := db.reservations[id];
      if r.partner != actor.user then (db, Err(Forbidden))
      else if r.status != Confirmed then (db, Err(IllegalState))
      else if r.expiresAt <= env.now then (db, Err(Expired))
      else if exists k | k in db.deployments :: db.deployments[k].reservation == id then (db, Err(AlreadyExists))
      else
        var d := Deployment(env.itemId, id, Queued, "", 1, None, None, env.now, env.now);
        var job := ActivationOf(env, d);
        (db.(deployments := db.deployments[d.id := d], jobs := db.jobs[job.id := job],
             audit := db.audit[env.eventId := Audit(env.eventId, actor.user, DeploymentCreated, d.id)]),
         Ok(DeploymentAnswer(d)))
  }

  lemma CreateDeploymentOutcome(db: Db, actor: Actor, id: Id, env: Env)
    requires Prepared(db, Request(actor, CreateDeployment(id), env))
    requires DbInv(db)
    ensures var req := Request(actor, CreateDeployment(id), env); var (db', result) := CreateDeploymentRule(db, actor, id, env);
      Alone(db, req, NoFault) == (db', Done(req, result))
  {
    hide DbInv, Alone, PlanOf, PlannedTo;
    var req := Request(actor, CreateDeployment(id), env);
    if Denied(actor, Partner).Some? {
      TurnedAway(db, req);
    } else if id !in db.reservations {
      FindsNothing(db, req);
    } else {
      HeldRow(db, id);
      NoJobYet(db, env.itemId);
      ReadsOneRow(db, req, ReservationRead(db.reservations[id]));
      CreateDeploymentPlanned(db, req, db.reservations[id]);
    }
  }

  lemma CreateDeploymentPlanned(db: Db, req: Request, r: Reservation)
    requires req.op.CreateDeployment? && Denied(req.actor, Partner).None?
    requires Prepared(db, req) && r.id in db.reservations && db.reservations[r.id] == r && req.op.reservation == r.id
    requires forall k :: k in db.jobs ==> !(db.jobs[k].kind == ActivateDeploymentJob && db.jobs[k].aggregate == req.env.itemId)
    ensures var (db', result) := CreateDeploymentRule(db, req.actor, r.id, req.env);
      PlannedTo(db, req, PlanOf(req, ReservationRead(r)), NoFault) == (db', Done(req, result))
  {
  }

  /** The row after a move: running sets endpoint and start, stopped sets the stop. */
  function MovedDeploymentTo(d: Deployment, next: DeploymentStatus, endpoint: string, now: Instant): Deployment {
    Deployment(d.id, d.reservation, next, if next == Running then endpoint else d.endpoint, d.version + 1,
               if next == Running then Some(now) else d.startedAt, if next == Stopped then Some(now) else d.stoppedAt,
               d.createdAt, now)
  }

  /** An operator moves a deployment along its state machine, to running only with an endpoint. */
  function AdvanceRule(db: Db, actor: Actor, id: Id, next: DeploymentStatus, endpoint: string, version: int, env: Env)
    : (Db, Result<Answer>)
  {
    if Denied(actor, Operator).Some? then (db, Err(Denied(actor, Operator).value))
    else if id !in db.deployments then (db, Err(NotFound))
    else
      var d := db.deployments[id];
      if d.version != version then (db, Err(StaleVersion))
      else if next == Running && (|endpoint| < 8 || |endpoint| > 500) then (db, Err(Invalid))
      else if !DeploymentMayGo(d.status, next) then (db, Err(IllegalState))
      else
        var moved := MovedDeploymentTo(d, next, endpoint, env.now);
        (db.(deployments := db.deployments[id := moved],
             audit := db.audit[env.eventId := Audit(env.eventId, actor.user, DeploymentTransitioned, id)]),
         Ok(DeploymentAnswer(moved)))
  }

  lemma DeploymentRow(db: Db, id: Id)
    requires id in db.deployments
    requires DbInv(db)
    ensures db.deployments[id].id == id && db.deployments[id].reservation in db.reservations
  {
    hide CapacityInv, QualificationInv, OutboxInv, LedgerInv;
  }

  lemma AdvanceOutcome(db: Db, actor: Actor, id: Id, next: DeploymentStatus, endpoint: string, version: int, env: Env)
    requires Prepared(db, Request(actor, Advance(id, next, endpoint, version), env))
    requires DbInv(db)
    ensures var req := Request(actor, Advance(id, next, endpoint, version), env);
      var (db', result) := AdvanceRule(db, actor, id, next, endpoint, version, env);
      Alone(db, req, NoFault) == (db', Done(req, result))
  {
    hide DbInv, Alone, PlanOf, PlannedTo, DeploymentMayGo;
    var req := Request(actor, Advance(id, next, endpoint, version), env);
    if Denied(actor, Operator).Some? {
      TurnedAway(db, req);
    } else if id !in db.deployments {
      FindsNothing(db, req);
    } else {
      DeploymentRow(db, id);
      ReadsOneRow(db, req, DeploymentRead(db.deployments[id]));
      AdvancePlanned(db, req, db.deployments[id]);
    }
  }

  lemma AdvancePlanned(db: Db, req: Request, d: Deployment)
    requires req.op.Advance? && Denied(req.actor, Operator).None?
    requires Prepared(db, req) && d.id in db.deployments && db.deployments[d.id] == d && req.op.deployment == d.id
    ensures var (db', result) := AdvanceRule(db, req.actor, d.id, req.op.next, req.op.endpoint, req.op.version, req.env);
      PlannedTo(db, req, PlanOf(req, DeploymentRead(d)), NoFault) == (db', Done(req, result))
  {
    var op := req.op;
    DeploymentMoves(d.status, op.next);
    AdvanceLands(db, req, d);
    DeploymentWrites(db, d, MovedDeploymentTo(d, op.next, op.endpoint, req.env.now), Audit(req.env.eventId, req.actor.user, DeploymentTransitioned, d.id));
    hide DeploymentMayGo, DeploymentCan, PlanOf, PlannedTo, Refusal, After;
  }

  lemma AdvanceLands(db: Db, req: Request, d: Deployment)
    requires req.op.Advance? && req.actor.Known?
    ensures PlannedTo(db, req, PlanOf(req, DeploymentRead(d)), NoFault) ==
      if d.version != req.op.version then (db, Done(req, Err(StaleVersion)))
      else if req.op.next == Running && (|req.op.endpoint| < 8 || |req.op.endpoint| > 500) then (db, Done(req, Err(Invalid)))
      else if !DeploymentCan(d.status, req.op.next) then (db, Done(req, Err(IllegalState)))
      else
        var moved := MovedDeploymentTo(d, req.op.next, req.op.endpoint, req.env.now);
        Lands(db, req, TransitionDeploymentTx(moved, Audit(req.env.eventId, req.actor.user, DeploymentTransitioned, d.id)), DeploymentAnswer(moved))
  {
    hide Refusal, After, DeploymentCan;
  }

  lemma DeploymentWrites(db: Db, d: Deployment, moved: Deployment, e: Audit)
    requires d.id in db.deployments && db.deployments[d.id] == d && e.id !in db.audit
    requires moved.id == d.id && moved.reservation == d.reservation && moved.createdAt == d.createdAt && moved.version == d.version + 1
    ensures var tx := TransitionDeploymentTx(moved, e);
      Refusal(db, tx, NoFault).None?
      && After(db, tx, NoFault) == db.(deployments := db.deployments[d.id := moved], audit := db.audit[e.id := e])
  {
  }

  /** A running deployment begins to stop; a stopping one stops, and its reservation,
      if it is still held, is released with it. */
  function StopRule(db: Db, actor: Actor, id: Id, version: int, reservationVersion: int, env: Env): (Db, Result<Answer>) {
    if Denied(actor, Operator).Some? then (db, Err(Denied(actor, Operator).value))
    else if id !in db.deployments then (db, Err(NotFound))
    else
      var d := db.deployments[id];
      if d.version != version then (db, Err(StaleVersion))
      else if d.reservation !in db.reservations then (db, Err(NotFound))
      else
        var r := db.reservations[d.reservation];
        if r.version != reservationVersion then (db, Err(StaleVersion))
        else if d.status == Running then
          var stopping := MovedDeploymentTo(d, Stopping, "", env.now);
          (db.(deployments := db.deployments[id := stopping],
               audit := db.audit[env.eventId := Audit(env.eventId, actor.user, DeploymentStopStarted, id)]),
           Ok(DeploymentAnswer(stopping)))
        else if d.status != Stopping || r.status != Confirmed then (db, Err(IllegalState))
        else
          var stopped := MovedDeploymentTo(d, Stopped, "", env.now);
          var freed := r.(status := Released, version := r.version + 1, updatedAt := env.now);
          (Returned(db, freed, Audit(env.eventId, actor.user, DeploymentStopped, id)).(deployments := db.deployments[id := stopped]),
           Ok(DeploymentAnswer(stopped)))
  }

  lemma StopOutcome(db: Db, actor: Actor, id: Id, version: int, reservationVersion: int, env: Env)
    requires Prepared(db, Request(actor, Stop(id, version, reservationVersion), env))
    requires DbInv(db)
    ensures var req := Request(actor, Stop(id, version, reservationVersion), env);
      var (db', result) := StopRule(db, actor, id, version, reservationVersion, env);
      Alone(db, req, NoFault) == (db', Done(req, result))
  {
    hide DbInv, Alone, PlanOf, PlannedTo, Returned, MovedDeploymentTo;
    var req := Request(actor, Stop(id, version, reservationVersion), env);
    if Denied(actor, Operator).Some? {
      TurnedAway(db, req);
    } else if id !in db.deployments {
      FindsNothing(db, req);
    } else {
      DeploymentRow(db, id);
      var d := db.deployments[id];
      if d.version != version {
        StopsAfterOneRow(db, req, DeploymentRead(d));
      } else {
        var r := db.reservations[d.reservation];
        HeldRow(db, d.reservation);
        ReadsTwoRows(db, req, DeploymentRead(d), DeploymentReservationRead(d, r));
        if r.status == Confirmed {
          ReturnNeverConflicts(db, r);
        }
        StopPlanned(db, req, d, r);
      }
    }
  }

  lemma StopPlanned(db: Db, req: Request, d: Deployment, r: Reservation)
    requires req.op.Stop? && Denied(req.actor, Operator).None? && d.version == req.op.version
    requires Prepared(db, req) && d.id in db.deployments && db.deployments[d.id] == d && req.op.deployment == d.id
    requires d.reservation == r.id && r.id in db.reservations && db.reservations[r.id] == r && r.status != Pending && r.site in db.sites
    requires r.status == Confirmed ==> ReturnCapacityCheck(db, r) == None
    ensures var (db', result) := StopRule(db, req.actor, d.id, req.op.version, req.op.reservationVersion, req.env);
      PlannedTo(db, req, PlanOf(req, DeploymentReservationRead(d, r)), NoFault) == (db', Done(req, result))
  {
    StopPlan(req, d, r);
    hide PlanOf;
    if r.version == req.op.reservationVersion && d.status == Stopping && r.status == Confirmed {
      StopWrites(db, MovedDeploymentTo(d, Stopped, "", req.env.now), r, r.(status := Released, version := r.version + 1, updatedAt := req.env.now),
                 Audit(req.env.eventId, req.actor.user, DeploymentStopped, d.id));
    } else if d.status == Running {
      DeploymentWrites(db, d, MovedDeploymentTo(d, Stopping, "", req.env.now), Audit(req.env.eventId, req.actor.user, DeploymentStopStarted, d.id));
    }
    hide Refusal, After, ReturnCapacityCheck;
  }

  lemma StopPlan(req: Request, d: Deployment, r: Reservation)
    requires req.op.Stop?
    ensures PlanOf(req, DeploymentReservationRead(d, r)) == PlanStop(req, req.op.reservationVersion, d, r)
  {
  }

  lemma StopWrites(db: Db, stopped: Deployment, r: Reservation, freed: Reservation, e: Audit)
    requires stopped.id in db.deployments && e.id !in db.audit
    requires var d := db.deployments[stopped.id]; stopped.version == d.version + 1 && stopped.id == d.id && stopped.reservation == d.reservation && stopped.createdAt == d.createdAt
    requires r.id in db.reservations && db.reservations[r.id] == r && r.status == Confirmed && r.site in db.sites
    requires freed == r.(status := Released, version := r.version + 1, updatedAt := freed.updatedAt)
    requires ReturnCapacityCheck(db, r) == None
    ensures var tx := StopReleaseTx(stopped, freed, e);
      Refusal(db, tx, NoFault).None? && After(db, tx, NoFault) == Returned(db, freed, e).(deployments := db.deployments[stopped.id := stopped])
  {
    assert ReturnCapacityCheck(db, freed) == ReturnCapacityCheck(db, r);
    hide ReturnCapacityCheck;
    assert DemandsOf(db, StopReleaseTx(stopped, freed, e)).Met();
  }

  // ------------------------------------------------------------------ metering

  /** A reading of a deployment that has run is settled with its reservation's partner
      at 17 micros for each unit-second. */
  function RecordUsageRule(db: Db, actor: Actor, id: Id, partner: Id, start: Instant, end: Instant, unitSeconds: int, currency: string,
                           env: Env): (Db, Result<Answer>)
  {
    if Denied(actor, Operator).Some? then (db, Err(Denied(actor, Operator).value))
    else if id !in db.deployments then (db, Err(NotFound))
    else
      var d := db.deployments[id];
      if d.status != Running && d.status != Stopped then (db, Err(IllegalState))
      else if d.reservation !in db.reservations then (db, Err(NotFound))
      else if db.reservations[d.reservation].partner != partner then (db, Err(Forbidden))
      else if id == "" || partner == "" || end <= start || end - start > 31 * 86_400 * 1_000_000_000 then (db, Err(Invalid))
      else if unitSeconds < 0 || 17 * unitSeconds > 0x7fff_ffff_ffff_ffff then (db, Err(Invalid))
      else if Inverted(start, end) then (db, Err(Internal))
      else if exists k | k in db.usage :: db.usage[k].deployment == id && db.usage[k].start == start && db.usage[k].end == end
        then (db, Err(AlreadyExists))
      else
        var u := Usage(env.itemId, id, partner, start, end, unitSeconds);
        var s := Settlement(env.settlementId, u.id, partner, 17 * unitSeconds, currency);
        (db.(usage := db.usage[u.id := u], settlements := db.settlements[s.id := s],
             audit := db.audit[env.eventId := Audit(env.eventId, actor.user, UsageRecorded, id)]),
         Ok(UsageAnswer(u, s)))
  }

  lemma RecordUsageOutcome(db: Db, actor: Actor, id: Id, partner: Id, start: Instant, end: Instant, unitSeconds: int, currency: string, env: Env)
    requires Prepared(db, Request(actor, RecordUsage(id, partner, start, end, unitSeconds, currency), env))
    requires InRange(end)
    requires DbInv(db)
    ensures var req := Request(actor, RecordUsage(id, partner, start, end, unitSeconds, currency), env);
      var (db', result) := RecordUsageRule(db, actor, id, partner, start, end, unitSeconds, currency, env);
      Alone(db, req, NoFault) == (db', Done(req, result))
  {
    hide DbInv, Alone, PlanOf, PlannedTo, Inverted, InRange;
    var req := Request(actor, RecordUsage(id, partner, start, end, unitSeconds, currency), env);
    if Denied(actor, Operator).Some? {
      TurnedAway(db, req);
    } else if id !in db.deployments {
      FindsNothing(db, req);
    } else {
      DeploymentRow(db, id);
      var d := db.deployments[id];
      if d.status != Running && d.status != Stopped {
        StopsAfterOneRow(db, req, DeploymentRead(d));
      } else {
        var r := db.reservations[d.reservation];
        ReadsTwoRows(db, req, DeploymentRead(d), DeploymentReservationRead(d, r));
        NoSettlementYet(db, env.itemId);
        UsagePlanned(db, req, d, r);
      }
    }
  }

  lemma NoSettlementYet(db: Db, id: Id)
    requires DbInv(db)
    ensures id !in db.usage ==> forall k :: k in db.settlements ==> db.settlements[k].usage != id
  {
    hide CapacityInv, QualificationInv, DeploymentsOk, OutboxInv, Balanced, Metered;
  }

  lemma PeriodOrder(start: Instant, end: Instant)
    requires start < end && InRange(end)
    ensures SqlLe(end, start) <==> Inverted(start, end)
  {
    hide InRange, Inverted, Timestamp, TextLess;
    InRangeBelow(start, end);
    TextOrderIsTimeOrder(start, end);
  }

  lemma UsagePlanned(db: Db, req: Request, d: Deployment, r: Reservation)
    requires req.op.RecordUsage? && Denied(req.actor, Operator).None? && (d.status == Running || d.status == Stopped)
    requires Prepared(db, req) && d.id in db.deployments && db.deployments[d.id] == d && req.op.deployment == d.id
    requires d.reservation in db.reservations && db.reservations[d.reservation] == r
    requires forall k :: k in db.settlements ==> db.settlements[k].usage != req.env.itemId
    requires InRange(req.op.end)
    ensures var op := req.op;
      var (db', result) := RecordUsageRule(db, req.actor, d.id, op.partner, op.start, op.end, op.unitSeconds, op.currency, req.env);
      PlannedTo(db, req, PlanOf(req, DeploymentReservationRead(d, r)), NoFault) == (db', Done(req, result))
  {
    hide SqlLe, Inverted, InRange, PlannedTo, PlanOf, Refusal, After;
    var op := req.op;
    UsageLands(db, req, d, r);
    if op.start < op.end {
      PeriodOrder(op.start, op.end);
      if 0 <= op.unitSeconds {
        UsageWrites(db, Usage(req.env.itemId, d.id, op.partner, op.start, op.end, op.unitSeconds),
          Settlement(req.env.settlementId, req.env.itemId, op.partner, 17 * op.unitSeconds, op.currency),
          Audit(req.env.eventId, req.actor.user, UsageRecorded, d.id));
      }
    }
  }

  lemma UsageLands(db: Db, req: Request, d: Deployment, r: Reservation)
    requires req.op.RecordUsage? && req.actor.Known? && req.env.itemId != ""
    ensures var op := req.op;
      PlannedTo(db, req, PlanOf(req, DeploymentReservationRead(d, r)), NoFault) ==
        if r.partner != op.partner then (db, Done(req, Err(Forbidden)))
        else if d.id == "" || op.partner == "" || op.end <= op.start || op.end - op.start > 31 * 86_400 * 1_000_000_000
          then (db, Done(req, Err(Invalid)))
        else if op.unitSeconds < 0 || 17 * op.unitSeconds > 0x7fff_ffff_ffff_ffff then (db, Done(req, Err(Invalid)))
        else
          var u := Usage(req.env.itemId, d.id, op.partner, op.start, op.end, op.unitSeconds);
          var s := Settlement(req.env.settlementId, u.id, op.partner, 17 * op.unitSeconds, op.currency);
          Lands(db, req, RecordUsageTx(u, s, Audit(req.env.eventId, req.actor.user, UsageRecorded, d.id)), UsageAnswer(u, s))
  {
    hide Refusal, After;
  }

  lemma UsageWrites(db: Db, u: Usage, s: Settlement, e: Audit)
    requires u.unitSeconds >= 0 && u.id !in db.usage && u.deployment in db.deployments && u.partner in db.users
    requires s.amount >= 0 && s.id !in db.settlements && s.usage == u.id && s.partner in db.users && e.id !in db.audit
    requires forall k :: k in db.settlements ==> db.settlements[k].usage != u.id
    ensures var tx := RecordUsageTx(u, s, e);
      if SqlLe(u.end, u.start) then Refusal(db, tx, NoFault) == Some(Internal) && After(db, tx, NoFault) == db
      else if exists k | k in db.usage :: db.usage[k].deployment == u.deployment && db.usage[k].start == u.start && db.usage[k].end == u.end
      then Refusal(db, tx, NoFault) == Some(AlreadyExists) && After(db, tx, NoFault) == db
      else Refusal(db, tx, NoFault).None?
           && After(db, tx, NoFault) == db.(usage := db.usage[u.id := u], settlements := db.settlements[s.id := s], audit := db.audit[e.id := e])
  {
    hide SqlLe;
  }

  // ----------------------------------------------------------------- activation

  /** Activation takes a queued or activating deployment to running, with its endpoint,
      and finds nothing to do on a running one. */
  function ActivateRule(db: Db, id: Id, env: Env): (Db, Result<Answer>) {
    if id !in db.deployments then (db, Err(NotFound))
    else
      var d := db.deployments[id];
      if d.status == Running then (db, Ok(Nothing))
      else if d.status != Queued && d.status != Activating then (db, Err(IllegalState))
      else
        var started := Deployment(id, d.reservation, Running, "https://runtime.local/deployments/" + id,
                                  if d.status == Queued then d.version + 2 else d.version + 1,
                                  Some(env.later), d.stoppedAt, d.createdAt, env.later);
        var begun := if d.status == Queued then db.audit[env.eventId := Audit(env.eventId, "", ActivationStarted, id)] else db.audit;
        (db.(deployments := db.deployments[id := started],
             audit := begun[env.secondEventId := Audit(env.secondEventId, "", ActivationCompleted, id)]),
         Ok(Nothing))
  }

  /** What an activation comes to from each state it may find. */
  lemma ActivationPlans(db: Db, req: Request, d: Deployment, first: Fault, second: Fault)
    requires req.op.Activate?
    requires Alone(db, req, first) == PlannedTo(db, req, PlanOf(req, DeploymentRead(d)), first)
    ensures d.status == Running ==> ToEnd(db, req, first, second) == (db, Done(req, Ok(Nothing)))
    ensures d.status != Running && d.status != Queued && d.status != Activating
            ==> ToEnd(db, req, first, second) == (db, Done(req, Err(IllegalState)))
    ensures d.status == Queued ==>
      var moved := MovedDeployment(d, Activating, "", req.env.now).value;
      var tx := TransitionDeploymentTx(moved, Audit(req.env.eventId, "", ActivationStarted, d.id));
      ToEnd(db, req, first, second) ==
        match Refusal(db, tx, first)
        case Some(e) => (After(db, tx, first), Done(req, Err(e)))
        case None => Completion(After(db, tx, first), req, moved, second)
    ensures d.status == Activating ==> ToEnd(db, req, first, second) == Completion(db, req, d, first)
  {
    hide Refusal, Written, Alone;
  }

  /** The last commit of an activation. */
  function Completion(db: Db, req: Request, d: Deployment, fault: Fault): (Db, Call)
    requires d.status == Activating
  {
    var moved := MovedDeployment(d, Running, RuntimeEndpoint(d.id), req.env.later).value;
    var tx := TransitionDeploymentTx(moved, Audit(req.env.secondEventId, "", ActivationCompleted, d.id));
    (After(db, tx, fault), Done(req, match Refusal(db, tx, fault) case Some(e) => Err(e) case None => Ok(Nothing)))
  }

  lemma ActivateOutcome(db: Db, id: Id, env: Env)
    requires Prepared(db, Request(Anonymous, Activate(id), env))
    requires DbInv(db)
    ensures var req := Request(Anonymous, Activate(id), env); var (db', result) := ActivateRule(db, id, env);
      ToEnd(db, req, NoFault, NoFault) == (db', Done(req, result))
  {
    hide DbInv, Alone, PlanOf, PlannedTo, ToEnd;
    var req := Request(Anonymous, Activate(id), env);
    if id !in db.deployments {
      FindsNothing(db, req);
      EndsAlone(db, req, NoFault, NoFault);
    } else {
      DeploymentRow(db, id);
      var d := db.deployments[id];
      ReadsOneRow(db, req, DeploymentRead(d));
      ActivationPlans(db, req, d, NoFault, NoFault);
      ActivationWrites(db, req, d);
    }
  }

  lemma EndsAlone(db: Db, req: Request, first: Fault, second: Fault)
    ensures Alone(db, req, first).1.Done? ==> ToEnd(db, req, first, second) == Alone(db, req, first)
  {
    hide Alone;
  }

  lemma ActivationWrites(db: Db, req: Request, d: Deployment)
    requires req.op.Activate? && Prepared(db, req) && d.id in db.deployments && db.deployments[d.id] == d
    ensures var (db', result) := ActivateRule(db, d.id, req.env);
      && (d.status == Activating ==> Completion(db, req, d, NoFault) == (db', Done(req, result)))
      && (d.status == Queued ==>
           var tx := TransitionDeploymentTx(MovedDeployment(d, Activating, "", req.env.now).value, Audit(req.env.eventId, "", ActivationStarted, d.id));
           Refusal(db, tx, NoFault).None?
           && Completion(After(db, tx, NoFault), req, tx.deployment, NoFault) == (db', Done(req, result)))
  {
    if d.status == Activating {
      CompletionWrites(db, req, d);
      hide Completion, Refusal, After;
    } else if d.status == Queued {
      var begun := MovedDeployment(d, Activating, "", req.env.now).value;
      var e := Audit(req.env.eventId, "", ActivationStarted, d.id);
      DeploymentWrites(db, d, begun, e);
      hide Refusal, After;
      var mid := After(db, TransitionDeploymentTx(begun, e), NoFault);
      assert mid == db.(deployments := db.deployments[d.id := begun], audit := db.audit[e.id := e]);
      CompletionWrites(mid, req, begun);
      hide Completion;
      var (db', result) := ActivateRule(db, d.id, req.env);
      assert db'.deployments == mid.deployments[d.id := db'.deployments[d.id]];
    } else {
      hide Completion, Refusal, After;
    }
  }

  lemma CompletionWrites(db: Db, req: Request, d: Deployment)
    requires d.status == Activating && d.id in db.deployments && db.deployments[d.id] == d && req.env.secondEventId !in db.audit
    ensures Completion(db, req, d, NoFault)
         == (db.(deployments := db.deployments[d.id := Deployment(d.id, d.reservation, Running, "https://runtime.local/deployments/" + d.id,
                     d.version + 1, Some(req.env.later), d.stoppedAt, d.createdAt, req.env.later)],
                 audit := db.audit[req.env.secondEventId := Audit(req.env.secondEventId, "", ActivationCompleted, d.id)]),
             Done(req, Ok(Nothing)))
  {
    var moved := MovedDeployment(d, Running, RuntimeEndpoint(d.id), req.env.later).value;
    DeploymentWrites(db, d, moved, Audit(req.env.secondEventId, "", ActivationCompleted, d.id));
    hide Refusal, After;
  }

  // ------------------------------------------------------------- constraints

  /** Nothing is committed over a row that is there, or for a user without an account:
      a call that changes the tables had new ids. */
  lemma CommitsArePrepared(db: Db, req: Request, fault: Fault)
    requires !req.op.Activate? && Alone(db, req, fault).0 != db
    ensures Prepared(db, req)
  {
    hide CommitStep, Prepared;
    var call := ReadAll(db, req, NoReads);
    if call.Ongoing? {
      CommittedWasMet(db, req, call.seen, fault);
      PlansArePrepared(db, req, call.seen);
    }
  }

  lemma CommittedWasMet(db: Db, req: Request, seen: Reads, fault: Fault)
    requires CommitStep(db, req, seen, fault).0 != db
    ensures PlanOf(req, seen).Submit? && DemandsOf(db, PlanOf(req, seen).tx).Met()
  {
    hide PlanOf, DemandsOf, Written;
  }

  lemma PlansArePrepared(db: Db, req: Request, seen: Reads)
    requires !req.op.Activate? && PlanOf(req, seen).Submit? && DemandsOf(db, PlanOf(req, seen).tx).Met()
    ensures Prepared(db, req)
  {
    hide SqlLe, Timestamp, SiteCan, ScenarioCan, ReservationCan, DeploymentCan;
  }

  // ---------------------------------------------------------- storage errors

  /** How many statements the call's transaction has; that of a stop depends on its phase. */
  function StatementsOf(db: Db, op: Op): nat {
    match op
    case CreateSite(_, _, _) => 1
    case SubmitScenario(_, _, _, _) => 1
    case ReviewSite(_, _, _, _) => 3
    case Decide(_, _, _, _) => 3
    case Reserve(_, _, _) => 4
    case Release(_, _) => 3
    case Expire(_) => 3
    case CreateDeployment(_) => 3
    case RecordUsage(_, _, _, _, _, _) => 3
    case Stop(id, _, _) => if id in db.deployments && db.deployments[id].status == Stopping then 4 else 2
    case _ => 2
  }

  /** A storage error that meets a transaction which would have committed, at its beginning,
      at one of its statements or at its commit, undoes all of it; any other goes unnoticed. */
  lemma StorageErrorsUndo(db: Db, req: Request, fault: Fault)
    requires Alone(db, req, NoFault).0 != db
    ensures Alone(db, req, fault) ==
      if fault == AtBegin || fault == AtCommit || (fault.AtStatement? && 1 <= fault.n <= StatementsOf(db, req.op))
      then (db, Done(req, Err(Internal))) else Alone(db, req, NoFault)
  {
    hide ReadAll, CommitStep;
    var call := ReadAll(db, req, NoReads);
    if call.Ongoing? {
      ReadsStay(db, req, NoReads);
      CommitUndone(db, req, call.seen, fault);
    }
  }

  lemma {:induction false} ReadsStay(db: Db, req: Request, seen: Reads)
    requires seen.DeploymentRead? && req.op.Stop? ==> req.op.deployment in db.deployments && seen.deployment == db.deployments[req.op.deployment]
    requires !seen.DeploymentReservationRead?
    ensures var call := ReadAll(db, req, seen);
      call.Ongoing? && call.seen.DeploymentReservationRead? && req.op.Stop? ==>
        req.op.deployment in db.deployments && call.seen.deployment == db.deployments[req.op.deployment]
    decreases ReadsLeft(seen)
  {
    if Screen(req, seen).None? && Fetch(db, req.op, seen).Found? {
      var more := Fetch(db, req.op, seen).seen;
      if !more.DeploymentReservationRead? {
        ReadsStay(db, req, more);
      }
    }
  }

  lemma CommitUndone(db: Db, req: Request, seen: Reads, fault: Fault)
    requires CommitStep(db, req, seen, NoFault).0 != db
    requires seen.DeploymentReservationRead? && req.op.Stop? ==>
      req.op.deployment in db.deployments && seen.deployment == db.deployments[req.op.deployment]
    ensures CommitStep(db, req, seen, fault) ==
      if fault == AtBegin || fault == AtCommit || (fault.AtStatement? && 1 <= fault.n <= StatementsOf(db, req.op))
      then (db, Done(req, Err(Internal))) else CommitStep(db, req, seen, NoFault)
  {
    StatementsPlanned(db, req, seen);
    hide PlanOf, Written, DemandsOf;
    var tx := PlanOf(req, seen).tx;
    Undone(tx, DemandsOf(db, tx), fault);
    hide Statements;
  }

  lemma Undone(tx: Tx, demands: Demands, fault: Fault)
    requires demands.Met()
    ensures InOrder(Striking(fault, tx), demands) ==
      if fault == AtBegin || fault == AtCommit || (fault.AtStatement? && 1 <= fault.n <= Statements(tx)) then Some(Internal) else None
  {
  }

  lemma StatementsPlanned(db: Db, req: Request, seen: Reads)
    requires PlanOf(req, seen).Submit?
    requires seen.DeploymentReservationRead? && req.op.Stop? ==>
      req.op.deployment in db.deployments && seen.deployment == db.deployments[req.op.deployment]
    ensures Statements(PlanOf(req, seen).tx) == StatementsOf(db, req.op)
  {
  }
}
