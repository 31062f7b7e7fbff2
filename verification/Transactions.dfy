/** The store's write transactions.  Each is given by what every statement
    demands of the tables as they are when the transaction begins (`Refusal`),
    and by the tables it leaves when every statement succeeds (`Written`).
    Anything else rolls back. */
module Transactions {
  import opened Basics
  import opened Timestamps
  import opened Domain

  datatype Db = Db(
    users: set<Id>,
    sites: map<Id, Site>,
    siteReviews: map<Id, Review>,
    scenarios: map<Id, Scenario>,
    scenarioReviews: map<Id, Review>,
    reservations: map<Id, Reservation>,
    deployments: map<Id, Deployment>,
    usage: map<Id, Usage>,
    settlements: map<Id, Settlement>,
    jobs: map<Id, Job>,
    audit: map<Id, Audit>)

  const EMPTY := Db({}, map[], map[], map[], map[], map[], map[], map[], map[], map[], map[])

  /** A storage error, if any, strikes at one place of a transaction. */
  datatype Fault = NoFault | AtBegin | AtStatement(n: nat) | AtCommit

  datatype Tx =
    | InsertSite(site: Site)
    | ReviewSiteTx(site: Site, review: Review, event: Audit)
    | TransitionSiteTx(site: Site, event: Audit)
    | InsertScenario(scenario: Scenario)
    | StartReviewTx(scenario: Scenario, event: Audit)
    | DecideTx(scenario: Scenario, review: Review, event: Audit)
    | CreateReservationTx(reservation: Reservation, job: Job, event: Audit)
    | ReturnTx(reservation: Reservation, event: Audit)
    | CreateDeploymentTx(deployment: Deployment, job: Job, event: Audit)
    | TransitionDeploymentTx(deployment: Deployment, event: Audit)
    | StopReleaseTx(deployment: Deployment, reservation: Reservation, event: Audit)
    | RecordUsageTx(usage: Usage, settlement: Settlement, event: Audit)

  // ----------------------------------------------- one statement at a time

  function Require(ok: bool, e: Error): Option<Error> { if ok then None else Some(e) }

  function First(a: Option<Error>, b: Option<Error>): Option<Error> { if a.Some? then a else b }

  predicate SiteCheck(total: int, available: int) { 0 < total && 0 <= available <= total }

  /** The storage error, if it strikes at statement `n`; else what the statement itself demands. */
  function Statement(fault: Fault, n: nat, check: Option<Error>): Option<Error> {
    if fault == AtStatement(n) then Some(Internal) else check
  }

  function InsertSiteCheck(db: Db, s: Site): Option<Error> {
    First(Require(SiteCheck(s.total, s.available), Invalid),
    First(Require(s.id !in db.sites, AlreadyExists),
    First(Require(forall k | k in db.sites :: !(db.sites[k].operator == s.operator && db.sites[k].name == s.name), AlreadyExists),
          Require(s.operator in db.users, Invalid))))
  }

  function InsertScenarioCheck(db: Db, s: Scenario): Option<Error> {
    First(Require(s.requested > 0, Invalid),
    First(Require(s.id !in db.scenarios, AlreadyExists),
    First(Require(forall k | k in db.scenarios :: !(db.scenarios[k].partner == s.partner && db.scenarios[k].name == s.name), AlreadyExists),
          Require(s.partner in db.users, Invalid))))
  }

  function UpdateSiteCheck(db: Db, s: Site): Option<Error> {
    Require(s.id in db.sites && db.sites[s.id].version == s.version - 1, StaleVersion)
  }

  function UpdateDraftSiteCheck(db: Db, s: Site): Option<Error> {
    Require(s.id in db.sites && db.sites[s.id].version == s.version - 1 && db.sites[s.id].status == Draft, StaleVersion)
  }

  function UpdateScenarioCheck(db: Db, s: Scenario): Option<Error> {
    Require(s.id in db.scenarios && db.scenarios[s.id].version == s.version - 1, StaleVersion)
  }

  function InsertSiteReviewCheck(db: Db, r: Review): Option<Error> {
    First(Require(r.id !in db.siteReviews, AlreadyExists),
          Require(r.subject in db.sites && r.reviewer in db.users, Invalid))
  }

  function InsertScenarioReviewCheck(db: Db, r: Review): Option<Error> {
    First(Require(r.id !in db.scenarioReviews, AlreadyExists),
          Require(r.subject in db.scenarios && r.reviewer in db.users, Invalid))
  }

  function ClaimCapacityCheck(db: Db, r: Reservation): Option<Error> {
    First(Require(r.site in db.sites && db.sites[r.site].status == Active && db.sites[r.site].available >= r.units, Capacity),
          Require(r.site in db.sites && SiteCheck(db.sites[r.site].total, db.sites[r.site].available - r.units), Invalid))
  }

  function ReturnCapacityCheck(db: Db, r: Reservation): Option<Error> {
    First(Require(r.site in db.sites && db.sites[r.site].available + r.units <= db.sites[r.site].total, Conflict),
          Require(r.site in db.sites && SiteCheck(db.sites[r.site].total, db.sites[r.site].available + r.units), Invalid))
  }

  function InsertReservationCheck(db: Db, r: Reservation): Option<Error> {
    First(Require(r.units > 0, Invalid),
    First(Require(r.id !in db.reservations, AlreadyExists),
          Require(r.scenario in db.scenarios && r.site in db.sites && r.partner in db.users, Invalid)))
  }

  function EndReservationCheck(db: Db, r: Reservation): Option<Error> {
    Require(r.id in db.reservations && db.reservations[r.id].version == r.version - 1
            && Held(db.reservations[r.id]), StaleVersion)
  }

  function EndConfirmedCheck(db: Db, r: Reservation): Option<Error> {
    Require(r.id in db.reservations && db.reservations[r.id].version == r.version - 1
            && db.reservations[r.id].status == Confirmed, StaleVersion)
  }

  function InsertDeploymentCheck(db: Db, d: Deployment): Option<Error> {
    First(Require(d.id !in db.deployments, AlreadyExists),
    First(Require(forall k | k in db.deployments :: db.deployments[k].reservation != d.reservation, AlreadyExists),
          Require(d.reservation in db.reservations, Invalid)))
  }

  function UpdateDeploymentCheck(db: Db, d: Deployment): Option<Error> {
    Require(d.id in db.deployments && db.deployments[d.id].version == d.version - 1, StaleVersion)
  }

  function InsertJobCheck(db: Db, j: Job): Option<Error> {
    First(Require(j.maxAttempts > 0, Invalid),
    First(Require(j.id !in db.jobs, AlreadyExists),
          Require(forall k | k in db.jobs :: !(db.jobs[k].kind == j.kind && db.jobs[k].aggregate == j.aggregate), AlreadyExists)))
  }

  /** The trigger compares the two stored texts. */
  function InsertUsageCheck(db: Db, u: Usage): Option<Error> {
    First(Require(!SqlLe(u.end, u.start), Internal),
    First(Require(u.unitSeconds >= 0, Invalid),
    First(Require(u.id !in db.usage, AlreadyExists),
    First(Require(forall k | k in db.usage ::
            !(db.usage[k].deployment == u.deployment && db.usage[k].start == u.start && db.usage[k].end == u.end), AlreadyExists),
          Require(u.deployment in db.deployments && u.partner in db.users, Invalid)))))
  }

  /** Judged after the usage row of the same transaction is in place. */
  function InsertSettlementCheck(db: Db, u: Usage, s: Settlement): Option<Error> {
    First(Require(s.amount >= 0, Invalid),
    First(Require(s.id !in db.settlements, AlreadyExists),
    First(Require(forall k | k in db.settlements :: db.settlements[k].usage != s.usage, AlreadyExists),
          Require((s.usage == u.id || s.usage in db.usage) && s.partner in db.users, Invalid))))
  }

  function InsertAuditCheck(db: Db, e: Audit): Option<Error> { Require(e.id !in db.audit, AlreadyExists) }

  // --------------------------------------------------- whole transactions

  /** What each of up to four statements demands; an absent statement demands nothing. */
  datatype Demands = Demands(first: Option<Error>, second: Option<Error>, third: Option<Error>, fourth: Option<Error>) {
    predicate Met() { first.None? && second.None? && third.None? && fourth.None? }
  }

  function DemandsOf(db: Db, tx: Tx): Demands {
    match tx
    case InsertSite(s) => Demands(InsertSiteCheck(db, s), None, None, None)
    case ReviewSiteTx(s, r, e) =>
      Demands(UpdateDraftSiteCheck(db, s), InsertSiteReviewCheck(db, r), InsertAuditCheck(db, e), None)
    case TransitionSiteTx(s, e) => Demands(UpdateSiteCheck(db, s), InsertAuditCheck(db, e), None, None)
    case InsertScenario(s) => Demands(InsertScenarioCheck(db, s), None, None, None)
    case StartReviewTx(s, e) => Demands(UpdateScenarioCheck(db, s), InsertAuditCheck(db, e), None, None)
    case DecideTx(s, r, e) =>
      Demands(UpdateScenarioCheck(db, s), InsertScenarioReviewCheck(db, r), InsertAuditCheck(db, e), None)
    case CreateReservationTx(r, j, e) =>
      Demands(ClaimCapacityCheck(db, r), InsertReservationCheck(db, r), InsertJobCheck(db, j), InsertAuditCheck(db, e))
    case ReturnTx(r, e) => Demands(EndReservationCheck(db, r), ReturnCapacityCheck(db, r), InsertAuditCheck(db, e), None)
    case CreateDeploymentTx(d, j, e) =>
      Demands(InsertDeploymentCheck(db, d), InsertJobCheck(db, j), InsertAuditCheck(db, e), None)
    case TransitionDeploymentTx(d, e) => Demands(UpdateDeploymentCheck(db, d), InsertAuditCheck(db, e), None, None)
    case StopReleaseTx(d, r, e) =>
      Demands(UpdateDeploymentCheck(db, d), EndConfirmedCheck(db, r), ReturnCapacityCheck(db, r), InsertAuditCheck(db, e))
    case RecordUsageTx(u, s, e) =>
      Demands(InsertUsageCheck(db, u), InsertSettlementCheck(db, u, s), InsertAuditCheck(db, e), None)
  }

  /** The first thing that goes wrong between begin and commit. */
  function InOrder(fault: Fault, d: Demands): (e: Option<Error>)
    ensures e.None? ==> d.Met()
    ensures fault == NoFault ==> (e.None? <==> d.Met())
  {
    First(Require(fault != AtBegin, Internal),
    First(Statement(fault, 1, d.first),
    First(Statement(fault, 2, d.second),
    First(Statement(fault, 3, d.third),
    First(Statement(fault, 4, d.fourth),
          Require(fault != AtCommit, Internal))))))
  }

  function Statements(tx: Tx): nat {
    match tx
    case InsertSite(_) => 1
    case InsertScenario(_) => 1
    case TransitionSiteTx(_, _) => 2
    case StartReviewTx(_, _) => 2
    case TransitionDeploymentTx(_, _) => 2
    case CreateReservationTx(_, _, _) => 4
    case StopReleaseTx(_, _, _) => 4
    case _ => 3
  }

  /** A storage error at a statement that the transaction does not have does not strike. */
  function Striking(fault: Fault, tx: Tx): Fault {
    if fault.AtStatement? && fault.n > Statements(tx) then NoFault else fault
  }

  /** Why the transaction does not commit, if it does not. */
  function Refusal(db: Db, tx: Tx, fault: Fault): Option<Error> { InOrder(Striking(fault, tx), DemandsOf(db, tx)) }

  /** `UPDATE compute_sites SET status, version, updated_at`: capacity stays as it is stored. */
  function PutSite(sites: map<Id, Site>, s: Site): map<Id, Site>
    requires s.id in sites
  {
    sites[s.id := sites[s.id].(status := s.status, version := s.version, updatedAt := s.updatedAt)]
  }

  /** Capacity moves relative to the stored row and always bumps its version. */
  function PutCapacity(sites: map<Id, Site>, id: Id, change: int, now: Instant): map<Id, Site>
    requires id in sites
  {
    sites[id := sites[id].(available := sites[id].available + change, version := sites[id].version + 1, updatedAt := now)]
  }

  function PutScenario(scenarios: map<Id, Scenario>, s: Scenario): map<Id, Scenario>
    requires s.id in scenarios
  {
    scenarios[s.id := scenarios[s.id].(status := s.status, version := s.version, updatedAt := s.updatedAt)]
  }

  function PutReservation(reservations: map<Id, Reservation>, r: Reservation): map<Id, Reservation>
    requires r.id in reservations
  {
    reservations[r.id := reservations[r.id].(status := r.status, version := r.version, updatedAt := r.updatedAt)]
  }

  function PutDeployment(deployments: map<Id, Deployment>, d: Deployment): map<Id, Deployment>
    requires d.id in deployments
  {
    deployments[d.id := deployments[d.id].(status := d.status, endpoint := d.endpoint, version := d.version,
      startedAt := d.startedAt, stoppedAt := d.stoppedAt, updatedAt := d.updatedAt)]
  }

  function Written(db: Db, tx: Tx): Db
    requires DemandsOf(db, tx).Met()
  {
    match tx
    case InsertSite(s) => db.(sites := db.sites[s.id := s])
    case ReviewSiteTx(s, r, e) =>
      db.(sites := PutSite(db.sites, s), siteReviews := db.siteReviews[r.id := r], audit := db.audit[e.id := e])
    case TransitionSiteTx(s, e) => db.(sites := PutSite(db.sites, s), audit := db.audit[e.id := e])
    case InsertScenario(s) => db.(scenarios := db.scenarios[s.id := s])
    case StartReviewTx(s, e) => db.(scenarios := PutScenario(db.scenarios, s), audit := db.audit[e.id := e])
    case DecideTx(s, r, e) =>
      db.(scenarios := PutScenario(db.scenarios, s), scenarioReviews := db.scenarioReviews[r.id := r], audit := db.audit[e.id := e])
    case CreateReservationTx(r, j, e) =>
      db.(sites := PutCapacity(db.sites, r.site, -r.units, r.createdAt), reservations := db.reservations[r.id := r],
          jobs := db.jobs[j.id := j], audit := db.audit[e.id := e])
    case ReturnTx(r, e) =>
      db.(reservations := PutReservation(db.reservations, r), sites := PutCapacity(db.sites, r.site, r.units, r.updatedAt),
          audit := db.audit[e.id := e])
    case CreateDeploymentTx(d, j, e) =>
      db.(deployments := db.deployments[d.id := d], jobs := db.jobs[j.id := j], audit := db.audit[e.id := e])
    case TransitionDeploymentTx(d, e) => db.(deployments := PutDeployment(db.deployments, d), audit := db.audit[e.id := e])
    case StopReleaseTx(d, r, e) =>
      db.(deployments := PutDeployment(db.deployments, d), reservations := PutReservation(db.reservations, r),
          sites := PutCapacity(db.sites, r.site, r.units, r.updatedAt), audit := db.audit[e.id := e])
    case RecordUsageTx(u, s, e) =>
      db.(usage := db.usage[u.id := u], settlements := db.settlements[s.id := s], audit := db.audit[e.id := e])
  }

  /** The tables after an attempt to run the transaction. */
  function After(db: Db, tx: Tx, fault: Fault): Db {
    if Refusal(db, tx, fault).None? then Written(db, tx) else db
  }
}
