/** Rows of the business tables and the state machines of internal/domain.
    A row is a value; `Moved…` is what the method `Transition` leaves in
    the variable it is called on, and the `…Item` classes are those variables. */
module Domain {
  import opened Basics
  import opened Timestamps

  datatype Role = Operator | Partner

  datatype Actor = Anonymous | Known(user: Id, role: Role)

  // ------------------------------------------------------------------ sites

  datatype SiteStatus = Draft | Verified | Active | Suspended

  datatype Site = Site(id: Id, operator: Id, name: string, total: int, available: int,
                       status: SiteStatus, version: int, createdAt: Instant, updatedAt: Instant)

  predicate SiteCan(from: SiteStatus, next: SiteStatus) {
    match from
    case Draft => next == Verified || next == Suspended
    case Verified => next == Active || next == Suspended
    case Active => next == Suspended
    case Suspended => next == Active
  }

  function MovedSite(s: Site, next: SiteStatus, now: Instant): Result<Site> {
    if SiteCan(s.status, next) then Ok(s.(status := next, version := s.version + 1, updatedAt := now))
    else Err(IllegalState)
  }

  /** Where a site is; `known` tells whether the time zone database has the zone. */
  datatype Place = Place(country: string, timezone: string, known: bool)

  function NewSite(id: Id, operator: Id, name: string, place: Place, units: int, now: Instant): Result<Site> {
    if id == "" || operator == "" || |name| < 3 || |name| > 120 then Err(Invalid)
    else if |place.country| != 2 || place.timezone == "" || units <= 0 || units > 1_000_000 then Err(Invalid)
    else if !place.known then Err(Invalid)
    else Ok(Site(id, operator, name, units, units, Draft, 1, now, now))
  }

  function CanReserve(s: Site, units: int): Option<Error> {
    if s.status != Active then Some(IllegalState)
    else if units <= 0 then Some(Invalid)
    else if s.available < units then Some(Capacity)
    else None
  }

  // -------------------------------------------------------------- scenarios

  datatype ScenarioStatus = Submitted | Reviewing | Approved | Rejected

  datatype Scenario = Scenario(id: Id, partner: Id, name: string, requested: int,
                               status: ScenarioStatus, version: int, createdAt: Instant, updatedAt: Instant)

  predicate ScenarioCan(from: ScenarioStatus, next: ScenarioStatus) {
    match from
    case Submitted => next == Reviewing
    case Reviewing => next == Approved || next == Rejected
    case _ => false
  }

  function MovedScenario(s: Scenario, next: ScenarioStatus, now: Instant): Result<Scenario> {
    if ScenarioCan(s.status, next) then Ok(s.(status := next, version := s.version + 1, updatedAt := now))
    else Err(IllegalState)
  }

  function NewScenario(id: Id, partner: Id, name: string, sector: string, classification: string, units: int, now: Instant)
    : Result<Scenario>
  {
    if id == "" || partner == "" || |name| < 3 || |name| > 160 || sector == "" then Err(Invalid)
    else if units <= 0 || units > 100_000 then Err(Invalid)
    else if classification != "public" && classification != "restricted" && classification != "sovereign" then Err(Invalid)
    else Ok(Scenario(id, partner, name, units, Submitted, 1, now, now))
  }

  // ----------------------------------------------------------- reservations

  datatype ReservationStatus = Pending | Confirmed | Released | Lapsed

  datatype Reservation = Reservation(id: Id, scenario: Id, site: Id, partner: Id, units: int,
                                     status: ReservationStatus, expiresAt: Instant, version: int,
                                     createdAt: Instant, updatedAt: Instant)

  predicate ReservationCan(from: ReservationStatus, next: ReservationStatus) {
    match from
    case Pending => next == Confirmed || next == Released || next == Lapsed
    case Confirmed => next == Released || next == Lapsed
    case _ => false
  }

  predicate Held(r: Reservation) { r.status == Pending || r.status == Confirmed }

  function MovedReservation(r: Reservation, next: ReservationStatus, now: Instant): Result<Reservation> {
    if ReservationCan(r.status, next) then Ok(r.(status := next, version := r.version + 1, updatedAt := now))
    else Err(IllegalState)
  }

  const MINUTE: nat := 60 * NANOS
  const WEEK: nat := 7 * DAY * NANOS

  function NewReservation(id: Id, scenario: Scenario, site: Site, partner: Id, ttl: int, now: Instant)
    : Result<Reservation>
  {
    if id == "" || partner == "" || scenario.partner != partner then Err(Forbidden)
    else if scenario.status != Approved then Err(IllegalState)
    else match CanReserve(site, scenario.requested)
      case Some(e) => Err(e)
      case None =>
        if ttl < MINUTE || ttl > WEEK then Err(Invalid)
        else Ok(Reservation(id, scenario.id, site.id, partner, scenario.requested, Confirmed,
                            now + ttl, 1, now, now))
  }

  function Deployable(r: Reservation, at: Instant): Option<Error> {
    if r.status != Confirmed then Some(IllegalState)
    else if at >= r.expiresAt then Some(Expired)
    else None
  }

  // ------------------------------------------------------------ deployments

  datatype DeploymentStatus = Queued | Activating | Running | Stopping | Stopped | Failed

  datatype Deployment = Deployment(id: Id, reservation: Id, status: DeploymentStatus, endpoint: string,
                                   version: int, startedAt: Option<Instant>, stoppedAt: Option<Instant>,
                                   createdAt: Instant, updatedAt: Instant)

  predicate DeploymentCan(from: DeploymentStatus, next: DeploymentStatus) {
    match from
    case Queued => next == Activating || next == Failed
    case Activating => next == Running || next == Failed
    case Running => next == Stopping || next == Failed
    case Stopping => next == Stopped || next == Failed
    case _ => false
  }

  function MovedDeployment(d: Deployment, next: DeploymentStatus, endpoint: string, now: Instant): Result<Deployment> {
    if DeploymentCan(d.status, next) then
      Ok(d.(status := next, version := d.version + 1, updatedAt := now,
            endpoint := if next == Running then endpoint else d.endpoint,
            startedAt := if next == Running then Some(now) else d.startedAt,
            stoppedAt := if next == Stopped then Some(now) else d.stoppedAt))
    else Err(IllegalState)
  }

  function NewDeployment(id: Id, r: Reservation, now: Instant): Result<Deployment> {
    if id == "" then Err(Invalid)
    else match Deployable(r, now)
      case Some(e) => Err(e)
      case None => Ok(Deployment(id, r.id, Queued, "", 1, None, None, now, now))
  }

  // ----------------------------------------------------- ledger and reviews

  datatype Usage = Usage(id: Id, deployment: Id, partner: Id, start: Instant, end: Instant, unitSeconds: int)

  datatype Settlement = Settlement(id: Id, usage: Id, partner: Id, amount: int, currency: string)

  const MONTH: nat := 31 * DAY * NANOS

  function NewUsage(id: Id, deployment: Id, partner: Id, start: Instant, end: Instant, unitSeconds: int): Result<Usage> {
    if id == "" || deployment == "" || partner == "" || end <= start || unitSeconds < 0 then Err(Invalid)
    else if end - start > MONTH then Err(Invalid)
    else Ok(Usage(id, deployment, partner, start, end, unitSeconds))
  }

  datatype Decision = Approve | Reject

  datatype Review = Review(id: Id, subject: Id, reviewer: Id, decision: Decision)

  datatype Action =
    | SiteReviewed | SiteTransitioned
    | ScenarioReviewStarted | ScenarioDecided
    | ReservationCreated | ReservationReleased | ReservationExpired
    | DeploymentCreated | DeploymentTransitioned | DeploymentStopStarted | DeploymentStopped
    | ActivationStarted | ActivationCompleted
    | UsageRecorded

  datatype Audit = Audit(id: Id, actor: Id, action: Action, subject: Id)

  // ------------------------------------------------------------------- jobs

  datatype JobKind = ExpireReservationJob | ActivateDeploymentJob | CleanupSessionsJob | OtherJob(name: string)

  datatype JobStatus = JobPending | JobRunning | JobSucceeded | JobFailed | JobCancelled

  // the fields of job payloads
  const RESERVATION_KEY := "reservation_id"
  const DEPLOYMENT_KEY := "deployment_id"
  const EXPIRES_KEY := "expires_at"

  /** `payload` is the JSON object in the payload column, or nothing when the
      column holds no such object. */
  datatype Job = Job(id: Id, kind: JobKind, aggregate: Id, payload: Option<map<string, string>>, status: JobStatus,
                     attempts: int, maxAttempts: int, availableAt: Instant, leaseOwner: Option<Id>,
                     leaseUntil: Option<Instant>, lastError: Option<Error>, createdAt: Instant, updatedAt: Instant)

  // ------------------------------- the variables on which Transition is called

  class SiteItem {
    var row: Site

    constructor (row: Site)
      ensures this.row == row
    {
      this.row := row;
    }

    method Transition(next: SiteStatus, now: Instant) returns (err: Option<Error>)
      modifies this
      ensures MovedSite(old(row), next, now) == if err.None? then Ok(row) else Err(err.value)
      ensures err.Some? ==> row == old(row)
    {
      if !SiteCan(row.status, next) {
        return Some(IllegalState);
      }
      row := row.(status := next);
      row := row.(version := row.version + 1);
      row := row.(updatedAt := now);
      return None;
    }
  }

  class ScenarioItem {
    var row: Scenario

    constructor (row: Scenario)
      ensures this.row == row
    {
      this.row := row;
    }

    method Transition(next: ScenarioStatus, now: Instant) returns (err: Option<Error>)
      modifies this
      ensures MovedScenario(old(row), next, now) == if err.None? then Ok(row) else Err(err.value)
      ensures err.Some? ==> row == old(row)
    {
      if !ScenarioCan(row.status, next) {
        return Some(IllegalState);
      }
      row := row.(status := next);
      row := row.(version := row.version + 1);
      row := row.(updatedAt := now);
      return None;
    }
  }

  class ReservationItem {
    var row: Reservation

    constructor (row: Reservation)
      ensures this.row == row
    {
      this.row := row;
    }

    method Transition(next: ReservationStatus, now: Instant) returns (err: Option<Error>)
      modifies this
      ensures MovedReservation(old(row), next, now) == if err.None? then Ok(row) else Err(err.value)
      ensures err.Some? ==> row == old(row)
    {
      if !ReservationCan(row.status, next) {
        return Some(IllegalState);
      }
      row := row.(status := next);
      row := row.(version := row.version + 1);
      row := row.(updatedAt := now);
      return None;
    }
  }

  class DeploymentItem {
    var row: Deployment

    constructor (row: Deployment)
      ensures this.row == row
    {
      this.row := row;
    }

    method Transition(next: DeploymentStatus, endpoint: string, now: Instant) returns (err: Option<Error>)
      modifies this
      ensures MovedDeployment(old(row), next, endpoint, now) == if err.None? then Ok(row) else Err(err.value)
      ensures err.Some? ==> row == old(row)
    {
      if !DeploymentCan(row.status, next) {
        return Some(IllegalState);
      }
      row := row.(status := next);
      row := row.(version := row.version + 1);
      row := row.(updatedAt := now);
      if next == Running {
        row := row.(endpoint := endpoint);
        row := row.(startedAt := Some(now));
      }
      if next == Stopped {
        row := row.(stoppedAt := Some(now));
      }
      return None;
    }
  }
}
