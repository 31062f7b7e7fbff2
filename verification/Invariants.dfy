/** What every reachable set of tables satisfies, and how rows may change. */
module Invariants {
  import opened Basics
  import opened Domain
  import opened Transactions
  import opened Queue

  // ------------------------------------------------------- capacity and versions

  function HeldBy(site: Id): Reservation -> int {
    (r: Reservation) => if r.site == site && Held(r) then r.units else 0
  }

  function VersionAt(site: Id): Reservation -> int {
    (r: Reservation) => if r.site == site then r.version else 0
  }

  function SiteEvent(site: Id): Audit -> int {
    (e: Audit) => if OnSite(e) && e.subject == site then 1 else 0
  }

  predicate OnSite(e: Audit) { e.action == SiteReviewed || e.action == SiteTransitioned }

  ghost predicate SitesOk(sites: map<Id, Site>) {
    forall k :: k in sites ==> sites[k].id == k && SiteCheck(sites[k].total, sites[k].available)
  }

  /** Nothing is oversold and nothing is returned twice: units available plus
      units held by live reservations make up the site. */
  ghost predicate Conserved(sites: map<Id, Site>, reservations: map<Id, Reservation>) {
    forall k :: k in sites ==> sites[k].available + MapSum(reservations, HeldBy(k)) == sites[k].total
  }

  /** A site's version counts its reviews, its transitions and every write to
      one of its reservations. */
  ghost predicate Accounted(sites: map<Id, Site>, reservations: map<Id, Reservation>, audit: map<Id, Audit>) {
    forall k :: k in sites ==>
      sites[k].version == 1 + MapSum(audit, SiteEvent(k)) + MapSum(reservations, VersionAt(k))
  }

  ghost predicate OnKnownSites(sites: map<Id, Site>, reservations: map<Id, Reservation>, audit: map<Id, Audit>) {
    && (forall k :: k in reservations ==> reservations[k].site in sites)
    && (forall k :: k in audit && OnSite(audit[k]) ==> audit[k].subject in sites)
  }

  // ------------------------------------------------------------- qualification

  function ScenarioVersion(s: ScenarioStatus): int {
    match s case Submitted => 1 case Reviewing => 2 case _ => 3
  }

  predicate Decided(s: Scenario) { s.status == Approved || s.status == Rejected }

  ghost predicate ScenariosOk(scenarios: map<Id, Scenario>) {
    forall k :: k in scenarios ==>
      scenarios[k].id == k && scenarios[k].requested > 0 && scenarios[k].version == ScenarioVersion(scenarios[k].status)
  }

  function ReviewOf(scenario: Id): Review -> int { (r: Review) => if r.subject == scenario then 1 else 0 }

  function VerdictOf(r: Review): ScenarioStatus { if r.decision == Approve then Approved else Rejected }

  /** A scenario has one review row if it is decided, with that decision, and none before. */
  ghost predicate ReviewsOk(scenarios: map<Id, Scenario>, reviews: map<Id, Review>) {
    && (forall k :: k in scenarios ==> MapSum(reviews, ReviewOf(k)) == if Decided(scenarios[k]) then 1 else 0)
    && (forall k :: k in reviews ==> reviews[k].subject in scenarios)
    && (forall k :: k in reviews ==> scenarios[reviews[k].subject].status == VerdictOf(reviews[k]))
  }

  predicate ReservationShape(r: Reservation) {
    && r.units > 0 && r.status != Pending
    && (r.version == if r.status == Confirmed then 1 else 2)
    && MINUTE <= r.expiresAt - r.createdAt <= WEEK
  }

  /** Capacity is held only for approved scenarios, by their partner, in the amount asked for. */
  ghost predicate Qualified(reservations: map<Id, Reservation>, scenarios: map<Id, Scenario>) {
    forall k :: k in reservations ==>
      && reservations[k].id == k && ReservationShape(reservations[k])
      && reservations[k].scenario in scenarios
      && scenarios[reservations[k].scenario].status == Approved
      && scenarios[reservations[k].scenario].partner == reservations[k].partner
      && scenarios[reservations[k].scenario].requested == reservations[k].units
  }

  // --------------------------------------------------------------- deployments

  predicate DeploymentShape(d: Deployment) {
    && (match d.status
        case Queued => d.version == 1
        case Activating => d.version == 2
        case Running => d.version == 3
        case Stopping => d.version == 4
        case Stopped => d.version == 5
        case Failed => 2 <= d.version <= 5)
    && (d.startedAt.Some? <==> d.version >= if d.status == Failed then 4 else 3)
    && (d.startedAt.Some? <==> d.endpoint != "")
    && (d.stoppedAt.Some? <==> d.status == Stopped)
  }

  ghost predicate DeploymentsOk(deployments: map<Id, Deployment>, reservations: map<Id, Reservation>) {
    && (forall k :: k in deployments ==>
         deployments[k].id == k && DeploymentShape(deployments[k]) && deployments[k].reservation in reservations)
    && (forall k, m :: k in deployments && m in deployments && deployments[k].reservation == deployments[m].reservation ==> k == m)
  }

  // ---------------------------------------------------------------------- jobs

  predicate JobShape(j: Job) {
    && 0 <= j.attempts && 0 < j.maxAttempts
    && (j.status == JobPending ==> j.attempts < j.maxAttempts)
    && (j.status == JobRunning ==> 1 <= j.attempts)
    && (j.status == JobRunning <==> j.leaseOwner.Some?)
    && (j.leaseOwner.Some? <==> j.leaseUntil.Some?)
  }

  ghost predicate JobsOk(jobs: Jobs) {
    && (forall k :: k in jobs ==> jobs[k].id == k && JobShape(jobs[k]))
    && (forall k, m :: k in jobs && m in jobs && jobs[k].kind == jobs[m].kind && jobs[k].aggregate == jobs[m].aggregate ==> k == m)
  }

  predicate ExpiryJobFor(j: Job, id: Id) {
    j.kind == ExpireReservationJob && j.aggregate == id
    && j.payload.Some? && RESERVATION_KEY in j.payload.value && j.payload.value[RESERVATION_KEY] == id
  }

  predicate ActivationJobFor(j: Job, id: Id) {
    j.kind == ActivateDeploymentJob && j.aggregate == id
    && j.payload.Some? && DEPLOYMENT_KEY in j.payload.value && j.payload.value[DEPLOYMENT_KEY] == id
  }

  ghost predicate HasExpiryJob(jobs: Jobs, id: Id) { exists k :: k in jobs && ExpiryJobFor(jobs[k], id) }

  ghost predicate HasActivationJob(jobs: Jobs, id: Id) { exists k :: k in jobs && ActivationJobFor(jobs[k], id) }

  /** The outbox agrees with the reservations: each has its expiry job, and an
      expiry job that succeeded has seen its reservation end. */
  ghost predicate ExpiryOutbox(jobs: Jobs, reservations: map<Id, Reservation>) {
    && (forall r :: r in reservations ==> HasExpiryJob(jobs, r))
    && (forall k :: k in jobs && jobs[k].kind == ExpireReservationJob ==>
         && jobs[k].aggregate in reservations && ExpiryJobFor(jobs[k], jobs[k].aggregate)
         && (jobs[k].status == JobSucceeded ==> !Held(reservations[jobs[k].aggregate])))
  }

  ghost predicate ActivationOutbox(jobs: Jobs, deployments: map<Id, Deployment>) {
    && (forall d :: d in deployments ==> HasActivationJob(jobs, d))
    && (forall k :: k in jobs && jobs[k].kind == ActivateDeploymentJob ==>
         && jobs[k].aggregate in deployments && ActivationJobFor(jobs[k], jobs[k].aggregate)
         && (jobs[k].status == JobSucceeded ==> deployments[jobs[k].aggregate].startedAt.Some?))
  }

  // -------------------------------------------------------------------- ledger

  function SecondsOf(partner: Id): Usage -> int { (u: Usage) => if u.partner == partner then u.unitSeconds else 0 }

  function AmountOf(partner: Id): Settlement -> int { (s: Settlement) => if s.partner == partner then s.amount else 0 }

  ghost predicate Settles(settlements: map<Id, Settlement>, u: Usage) {
    exists k :: k in settlements && settlements[k].usage == u.id && settlements[k].partner == u.partner
                && settlements[k].amount == 17 * u.unitSeconds
  }

  /** Usage and settlement rows are in one-to-one correspondence. */
  ghost predicate Paired(usage: map<Id, Usage>, settlements: map<Id, Settlement>) {
    && (forall k :: k in usage ==> usage[k].id == k && usage[k].unitSeconds >= 0 && Settles(settlements, usage[k]))
    && (forall k :: k in settlements ==> settlements[k].usage in usage)
    && (forall k, m :: k in settlements && m in settlements && settlements[k].usage == settlements[m].usage ==> k == m)
  }

  ghost predicate Balanced(usage: map<Id, Usage>, settlements: map<Id, Settlement>) {
    forall p: Id :: MapSum(settlements, AmountOf(p)) == 17 * MapSum(usage, SecondsOf(p))
  }

  /** Every metered deployment has run and belongs to the billed partner's reservation. */
  ghost predicate Metered(usage: map<Id, Usage>, deployments: map<Id, Deployment>, reservations: map<Id, Reservation>) {
    forall k :: k in usage ==>
      && usage[k].deployment in deployments
      && deployments[usage[k].deployment].startedAt.Some?
      && deployments[usage[k].deployment].reservation in reservations
      && reservations[deployments[usage[k].deployment].reservation].partner == usage[k].partner
  }

  // ------------------------------------------------------------- all of it

  ghost predicate CapacityInv(db: Db) {
    && SitesOk(db.sites)
    && Conserved(db.sites, db.reservations)
    && Accounted(db.sites, db.reservations, db.audit)
    && OnKnownSites(db.sites, db.reservations, db.audit)
  }

  ghost predicate QualificationInv(db: Db) {
    && ScenariosOk(db.scenarios)
    && ReviewsOk(db.scenarios, db.scenarioReviews)
    && Qualified(db.reservations, db.scenarios)
  }

  ghost predicate OutboxInv(db: Db) {
    && JobsOk(db.jobs)
    && ExpiryOutbox(db.jobs, db.reservations)
    && ActivationOutbox(db.jobs, db.deployments)
  }

  ghost predicate LedgerInv(db: Db) {
    && Paired(db.usage, db.settlements)
    && Balanced(db.usage, db.settlements)
    && Metered(db.usage, db.deployments, db.reservations)
  }

  ghost predicate DbInv(db: Db) {
    && CapacityInv(db)
    && QualificationInv(db)
    && DeploymentsOk(db.deployments, db.reservations)
    && OutboxInv(db)
    && LedgerInv(db)
  }

  // --------------------------------------------------------- how rows change

  predicate SameSite(a: Site, b: Site) {
    a.id == b.id && a.operator == b.operator && a.name == b.name && a.total == b.total && a.createdAt == b.createdAt
  }

  predicate SameScenario(a: Scenario, b: Scenario) {
    a.id == b.id && a.partner == b.partner && a.name == b.name && a.requested == b.requested && a.createdAt == b.createdAt
  }

  predicate SameReservation(a: Reservation, b: Reservation) {
    a.id == b.id && a.scenario == b.scenario && a.site == b.site && a.partner == b.partner && a.units == b.units
    && a.expiresAt == b.expiresAt && a.createdAt == b.createdAt
  }

  predicate SameDeployment(a: Deployment, b: Deployment) {
    a.id == b.id && a.reservation == b.reservation && a.createdAt == b.createdAt
    && (a.startedAt.Some? ==> b.startedAt == a.startedAt && b.endpoint == a.endpoint)
  }

  /** One transaction leaves a row alone or moves it by one version along its state machine. */
  predicate SiteMove(a: Site, b: Site) {
    b == a || (SameSite(a, b) && b.version == a.version + 1 && (b.status == a.status || SiteCan(a.status, b.status)))
  }

  predicate ScenarioMove(a: Scenario, b: Scenario) {
    b == a || (SameScenario(a, b) && b.version == a.version + 1 && ScenarioCan(a.status, b.status))
  }

  predicate ReservationMove(a: Reservation, b: Reservation) {
    b == a || (SameReservation(a, b) && b.version == a.version + 1 && ReservationCan(a.status, b.status))
  }

  predicate DeploymentMove(a: Deployment, b: Deployment) {
    b == a || (SameDeployment(a, b) && b.version == a.version + 1 && DeploymentCan(a.status, b.status))
  }

  /** Every row that is there stays, unmoved or moved legally by one step. */
  ghost predicate TxStep(a: Db, b: Db) {
    && (forall k :: k in a.sites ==> k in b.sites && SiteMove(a.sites[k], b.sites[k]))
    && (forall k :: k in a.scenarios ==> k in b.scenarios && ScenarioMove(a.scenarios[k], b.scenarios[k]))
    && (forall k :: k in a.reservations ==> k in b.reservations && ReservationMove(a.reservations[k], b.reservations[k]))
    && (forall k :: k in a.deployments ==> k in b.deployments && DeploymentMove(a.deployments[k], b.deployments[k]))
  }
}
