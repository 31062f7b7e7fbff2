/** Service calls as small-step programs.  A call reads rows one at a time,
    decides in memory, and commits one transaction; between its steps any other
    call may run.  Clock readings and generated ids are drawn in advance. */
module Calls {
  import opened Basics
  import opened Timestamps
  import opened Domain
  import opened Transactions

  datatype Op =
    | CreateSite(name: string, place: Place, units: int)
    | ReviewSite(site: Id, decision: Option<Decision>, evidence: string, version: int)
    | TransitionSite(site: Id, nextSite: SiteStatus, version: int)
    | SubmitScenario(name: string, sector: string, classification: string, units: int)
    | StartReview(scenario: Id, version: int)
    | Decide(scenario: Id, decision: Option<Decision>, notes: string, version: int)
    | Reserve(scenario: Id, site: Id, ttl: int)
    | Release(reservation: Id, version: int)
    | Expire(reservation: Id)
    | CreateDeployment(reservation: Id)
    | Advance(deployment: Id, next: DeploymentStatus, endpoint: string, version: int)
    | Stop(deployment: Id, version: int, reservationVersion: int)
    | Activate(deployment: Id)
    | RecordUsage(deployment: Id, partner: Id, start: Instant, end: Instant, unitSeconds: int, currency: string)

  /** What a call takes from the clock and the id generator.  `now` dates the
      row, `later` the second commit of an activation. */
  datatype Env = Env(now: Instant, later: Instant, jobNow: Instant, available: Instant,
                     itemId: Id, jobId: Id, reviewId: Id, eventId: Id, secondEventId: Id, settlementId: Id)

  datatype Request = Request(actor: Actor, op: Op, env: Env)

  /** The rows a call has read so far: its snapshots. */
  datatype Reads =
    | NoReads
    | SiteRead(site: Site)
    | ScenarioRead(scenario: Scenario)
    | ReservationRead(reservation: Reservation)
    | DeploymentRead(deployment: Deployment)
    | ScenarioSiteRead(scenario: Scenario, site: Site)
    | DeploymentReservationRead(deployment: Deployment, reservation: Reservation)

  datatype Answer =
    | Nothing
    | SiteAnswer(site: Site)
    | ScenarioAnswer(scenario: Scenario)
    | ReservationAnswer(reservation: Reservation)
    | DeploymentAnswer(deployment: Deployment)
    | UsageAnswer(usage: Usage, settlement: Settlement)

  datatype Call =
    | Ongoing(request: Request, seen: Reads)
    | Done(request: Request, result: Result<Answer>)

  /** `again` holds the snapshots with which the call goes on after this commit. */
  datatype Plan =
    | Refuse(error: Error)
    | Finish(answer: Answer)
    | Submit(tx: Tx, answer: Answer, again: Option<Reads>)

  const RATE: int := 17
  const MAX_INT64: int := 0x7fff_ffff_ffff_ffff

  // ---------------------------------------------------------------- reading

  datatype Fetched = Complete | Missing | Found(seen: Reads)

  function FetchSite(db: Db, id: Id): Fetched {
    if id in db.sites then Found(SiteRead(db.sites[id])) else Missing
  }

  function FetchScenario(db: Db, id: Id): Fetched {
    if id in db.scenarios then Found(ScenarioRead(db.scenarios[id])) else Missing
  }

  function FetchReservation(db: Db, id: Id): Fetched {
    if id in db.reservations then Found(ReservationRead(db.reservations[id])) else Missing
  }

  function FetchDeployment(db: Db, id: Id): Fetched {
    if id in db.deployments then Found(DeploymentRead(db.deployments[id])) else Missing
  }

  function FetchDeploymentReservation(db: Db, d: Deployment): Fetched {
    if d.reservation in db.reservations
    then Found(DeploymentReservationRead(d, db.reservations[d.reservation])) else Missing
  }

  /** The next row the call looks up, if there is one left to look up. */
  function Fetch(db: Db, op: Op, seen: Reads): Fetched {
    match seen
    case NoReads => (
      match op
      case ReviewSite(id, _, _, _) => FetchSite(db, id)
      case TransitionSite(id, _, _) => FetchSite(db, id)
      case StartReview(id, _) => FetchScenario(db, id)
      case Decide(id, _, _, _) => FetchScenario(db, id)
      case Reserve(id, _, _) => FetchScenario(db, id)
      case Release(id, _) => FetchReservation(db, id)
      case Expire(id) => FetchReservation(db, id)
      case CreateDeployment(id) => FetchReservation(db, id)
      case Advance(id, _, _, _) => FetchDeployment(db, id)
      case Stop(id, _, _) => FetchDeployment(db, id)
      case Activate(id) => FetchDeployment(db, id)
      case RecordUsage(id, _, _, _, _, _) => FetchDeployment(db, id)
      case _ => Complete)
    case ScenarioRead(s) =>
      if op.Reserve? then
        (if op.site in db.sites then Found(ScenarioSiteRead(s, db.sites[op.site])) else Missing)
      else Complete
    case DeploymentRead(d) =>
      if op.Stop? || op.RecordUsage? then FetchDeploymentReservation(db, d) else Complete
    case _ => Complete
  }

  /** The roles that `requireRole` admits; the two operations that jobs run look at no principal. */
  function RoleCheck(actor: Actor, op: Op): Option<Error> {
    match op
    case Expire(_) => None
    case Activate(_) => None
    case _ =>
      match actor
      case Anonymous => Some(Unauthorized)
      case Known(user, role) =>
        var wanted := if op.SubmitScenario? || op.Reserve? || op.Release? || op.CreateDeployment?
                      then Partner else Operator;
        if user == "" then Some(Unauthorized) else Require(role == wanted, Forbidden)
  }

  /** `requireText` on the texts that are asked for before the first lookup. */
  function TextCheck(op: Op): Option<Error> {
    match op
    case ReviewSite(_, _, evidence, _) => Require(4 <= |evidence| <= 500, Invalid)
    case Decide(_, _, notes, _) => Require(3 <= |notes| <= 1000, Invalid)
    case _ => None
  }

  /** The refusals a call decides on before it looks up the next row. */
  function Screen(req: Request, seen: Reads): Option<Error> {
    match seen
    case NoReads => First(RoleCheck(req.actor, req.op), TextCheck(req.op))
    case DeploymentRead(d) => (
      match req.op
      case Stop(_, version, _) => Require(d.version == version, StaleVersion)
      case RecordUsage(_, _, _, _, _, _) => Require(d.status == Running || d.status == Stopped, IllegalState)
      case _ => None)
    case _ => None
  }

  // --------------------------------------------------------------- deciding

  function UserOf(actor: Actor): Id { if actor.Known? then actor.user else "" }

  function Event(req: Request, action: Action, subject: Id): Audit {
    Audit(req.env.eventId, UserOf(req.actor), action, subject)
  }

  function NewJob(env: Env, kind: JobKind, aggregate: Id, payload: map<string, string>, available: Instant): Job {
    Job(env.jobId, kind, aggregate, Some(payload), JobPending, 0, 5, available, None, None, None, env.jobNow, env.jobNow)
  }

  function ExpireJob(env: Env, r: Reservation): Job {
    NewJob(env, ExpireReservationJob, r.id,
           map[RESERVATION_KEY := r.id, EXPIRES_KEY := Timestamp(r.expiresAt)], r.expiresAt)
  }

  function ActivateJob(env: Env, d: Deployment): Job {
    NewJob(env, ActivateDeploymentJob, d.id, map[DEPLOYMENT_KEY := d.id], env.available)
  }

  function PlanCreateSite(req: Request, name: string, place: Place, units: int): Plan {
    match NewSite(req.env.itemId, UserOf(req.actor), name, place, units, req.env.now)
    case Err(e) => Refuse(e)
    case Ok(s) => Submit(InsertSite(s), SiteAnswer(s), None)
  }

  function PlanReviewSite(req: Request, decision: Option<Decision>, version: int, s: Site): Plan {
    if s.version != version then Refuse(StaleVersion)
    else match decision
      case None => Refuse(Invalid)
      case Some(d) =>
        match MovedSite(s, if d == Reject then Suspended else Verified, req.env.now)
        case Err(e) => Refuse(e)
        case Ok(moved) =>
          Submit(ReviewSiteTx(moved, Review(req.env.reviewId, s.id, UserOf(req.actor), d), Event(req, SiteReviewed, s.id)),
                 SiteAnswer(moved), None)
  }

  function PlanTransitionSite(req: Request, next: SiteStatus, version: int, s: Site): Plan {
    if s.operator != UserOf(req.actor) then Refuse(Forbidden)
    else if s.version != version then Refuse(StaleVersion)
    else match MovedSite(s, next, req.env.now)
      case Err(e) => Refuse(e)
      case Ok(moved) => Submit(TransitionSiteTx(moved, Event(req, SiteTransitioned, s.id)), SiteAnswer(moved), None)
  }

  function PlanSubmitScenario(req: Request, name: string, sector: string, classification: string, units: int): Plan {
    match NewScenario(req.env.itemId, UserOf(req.actor), name, sector, classification, units, req.env.now)
    case Err(e) => Refuse(e)
    case Ok(s) => Submit(InsertScenario(s), ScenarioAnswer(s), None)
  }

  function PlanStartReview(req: Request, version: int, s: Scenario): Plan {
    if s.version != version then Refuse(StaleVersion)
    else match MovedScenario(s, Reviewing, req.env.now)
      case Err(e) => Refuse(e)
      case Ok(moved) => Submit(StartReviewTx(moved, Event(req, ScenarioReviewStarted, s.id)), ScenarioAnswer(moved), None)
  }

  function PlanDecide(req: Request, decision: Option<Decision>, version: int, s: Scenario): Plan {
    if s.version != version then Refuse(StaleVersion)
    else match decision
      case None => Refuse(Invalid)
      case Some(d) =>
        match MovedScenario(s, if d == Approve then Approved else Rejected, req.env.now)
        case Err(e) => Refuse(e)
        case Ok(moved) =>
          Submit(DecideTx(moved, Review(req.env.reviewId, s.id, UserOf(req.actor), d), Event(req, ScenarioDecided, s.id)),
                 ScenarioAnswer(moved), None)
  }

  function PlanReserve(req: Request, ttl: int, scenario: Scenario, site: Site): Plan {
    match NewReservation(req.env.itemId, scenario, site, UserOf(req.actor), ttl, req.env.now)
    case Err(e) => Refuse(e)
    case Ok(r) =>
      Submit(CreateReservationTx(r, ExpireJob(req.env, r), Event(req, ReservationCreated, r.id)),
             ReservationAnswer(r), None)
  }

  function PlanRelease(req: Request, version: int, r: Reservation): Plan {
    if r.partner != UserOf(req.actor) then Refuse(Forbidden)
    else if r.version != version then Refuse(StaleVersion)
    else match MovedReservation(r, Released, req.env.now)
      case Err(e) => Refuse(e)
      case Ok(moved) => Submit(ReturnTx(moved, Event(req, ReservationReleased, r.id)), ReservationAnswer(moved), None)
  }

  function PlanExpire(req: Request, r: Reservation): Plan {
    if r.status == Released || r.status == Lapsed then Finish(Nothing)
    else if req.env.now < r.expiresAt then Refuse(Conflict)
    else match MovedReservation(r, Lapsed, req.env.now)
      case Err(e) => Refuse(e)
      case Ok(moved) => Submit(ReturnTx(moved, Audit(req.env.eventId, "", ReservationExpired, r.id)), Nothing, None)
  }

  function PlanCreateDeployment(req: Request, r: Reservation): Plan {
    if r.partner != UserOf(req.actor) then Refuse(Forbidden)
    else match NewDeployment(req.env.itemId, r, req.env.now)
      case Err(e) => Refuse(e)
      case Ok(d) =>
        Submit(CreateDeploymentTx(d, ActivateJob(req.env, d), Event(req, DeploymentCreated, d.id)), DeploymentAnswer(d), None)
  }

  function PlanAdvance(req: Request, next: DeploymentStatus, endpoint: string, version: int, d: Deployment): Plan {
    if d.version != version then Refuse(StaleVersion)
    else if next == Running && !(8 <= |endpoint| <= 500) then Refuse(Invalid)
    else match MovedDeployment(d, next, endpoint, req.env.now)
      case Err(e) => Refuse(e)
      case Ok(moved) =>
        Submit(TransitionDeploymentTx(moved, Event(req, DeploymentTransitioned, d.id)), DeploymentAnswer(moved), None)
  }

  /** A running deployment begins to stop; a stopping one stops and gives its capacity back. */
  function PlanStop(req: Request, reservationVersion: int, d: Deployment, r: Reservation): Plan {
    if r.version != reservationVersion then Refuse(StaleVersion)
    else if d.status == Running then
      match MovedDeployment(d, Stopping, "", req.env.now)
      case Err(e) => Refuse(e)
      case Ok(moved) =>
        Submit(TransitionDeploymentTx(moved, Event(req, DeploymentStopStarted, d.id)), DeploymentAnswer(moved), None)
    else if d.status == Stopping then
      match (MovedDeployment(d, Stopped, "", req.env.now), MovedReservation(r, Released, req.env.now))
      case (Ok(moved), Ok(freed)) =>
        Submit(StopReleaseTx(moved, freed, Event(req, DeploymentStopped, d.id)), DeploymentAnswer(moved), None)
      case _ => Refuse(IllegalState)
    else Refuse(IllegalState)
  }

  function RuntimeEndpoint(id: Id): string { "https://runtime.local/deployments/" + id }

  function PlanActivate(req: Request, d: Deployment): Plan {
    if d.status == Running then Finish(Nothing)
    else if d.status == Queued then
      match MovedDeployment(d, Activating, "", req.env.now)
      case Err(e) => Refuse(e)
      case Ok(moved) =>
        Submit(TransitionDeploymentTx(moved, Audit(req.env.eventId, "", ActivationStarted, d.id)), Nothing,
               Some(DeploymentRead(moved)))
    else if d.status == Activating then
      match MovedDeployment(d, Running, RuntimeEndpoint(d.id), req.env.later)
      case Err(e) => Refuse(e)
      case Ok(moved) =>
        Submit(TransitionDeploymentTx(moved, Audit(req.env.secondEventId, "", ActivationCompleted, d.id)), Nothing, None)
    else Refuse(IllegalState)
  }

  function PlanRecordUsage(req: Request, partner: Id, start: Instant, end: Instant, unitSeconds: int,
                           currency: string, d: Deployment, r: Reservation): Plan {
    if r.partner != partner then Refuse(Forbidden)
    else match NewUsage(req.env.itemId, d.id, partner, start, end, unitSeconds)
      case Err(e) => Refuse(e)
      case Ok(u) =>
        if unitSeconds > MAX_INT64 / RATE then Refuse(Invalid)
        else
          var s := Settlement(req.env.settlementId, u.id, partner, unitSeconds * RATE, currency);
          Submit(RecordUsageTx(u, s, Event(req, UsageRecorded, d.id)), UsageAnswer(u, s), None)
  }

  /** What a call does once it has read everything it reads. */
  function PlanOf(req: Request, seen: Reads): Plan {
    match seen
    case NoReads => (
      match req.op
      case CreateSite(name, place, units) => PlanCreateSite(req, name, place, units)
      case SubmitScenario(name, sector, classification, units) => PlanSubmitScenario(req, name, sector, classification, units)
      case _ => Refuse(Internal))
    case SiteRead(s) => (
      match req.op
      case ReviewSite(_, decision, _, version) => PlanReviewSite(req, decision, version, s)
      case TransitionSite(_, next, version) => PlanTransitionSite(req, next, version, s)
      case _ => Refuse(Internal))
    case ScenarioRead(s) => (
      match req.op
      case StartReview(_, version) => PlanStartReview(req, version, s)
      case Decide(_, decision, _, version) => PlanDecide(req, decision, version, s)
      case _ => Refuse(Internal))
    case ReservationRead(r) => (
      match req.op
      case Release(_, version) => PlanRelease(req, version, r)
      case Expire(_) => PlanExpire(req, r)
      case CreateDeployment(_) => PlanCreateDeployment(req, r)
      case _ => Refuse(Internal))
    case DeploymentRead(d) => (
      match req.op
      case Advance(_, next, endpoint, version) => PlanAdvance(req, next, endpoint, version, d)
      case Activate(_) => PlanActivate(req, d)
      case _ => Refuse(Internal))
    case ScenarioSiteRead(s, site) =>
      if req.op.Reserve? then PlanReserve(req, req.op.ttl, s, site) else Refuse(Internal)
    case DeploymentReservationRead(d, r) => (
      match req.op
      case Stop(_, _, reservationVersion) => PlanStop(req, reservationVersion, d, r)
      case RecordUsage(_, partner, start, end, unitSeconds, currency) =>
        PlanRecordUsage(req, partner, start, end, unitSeconds, currency, d, r)
      case _ => Refuse(Internal))
  }

  // --------------------------------------------------------------- stepping

  /** One database interaction of a call, and the in-memory work up to the next. */
  function CallStep(db: Db, call: Call, fault: Fault): (Db, Call) {
    match call
    case Done(_, _) => (db, call)
    case Ongoing(req, seen) =>
      match Screen(req, seen)
      case Some(e) => (db, Done(req, Err(e)))
      case None =>
        match Fetch(db, req.op, seen)
        case Missing => (db, Done(req, Err(NotFound)))
        case Found(more) =>
          if fault == NoFault then (db, Ongoing(req, more)) else (db, Done(req, Err(Internal)))
        case Complete => CommitStep(db, req, seen, fault)
  }

  function CommitStep(db: Db, req: Request, seen: Reads, fault: Fault): (Db, Call) {
    match PlanOf(req, seen)
    case Refuse(e) => (db, Done(req, Err(e)))
    case Finish(answer) => (db, Done(req, Ok(answer)))
    case Submit(tx, answer, again) =>
      match Refusal(db, tx, fault)
      case Some(e) => (db, Done(req, Err(e)))
      case None =>
        (Written(db, tx), if again.Some? then Ongoing(req, again.value) else Done(req, Ok(answer)))
  }
}
