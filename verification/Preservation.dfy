/** Every committed transaction of a service call keeps the table invariants
    and moves rows legally, however old the snapshots it was planned from. */
module Preservation {
  import opened Basics
  import opened Timestamps
  import opened Domain
  import opened Transactions
  import opened Calls
  import opened Invariants
  import opened Effects

  // --------------------------------------------------------------- snapshots

  /** `a` is an earlier state of the row that is now `b`. */
  predicate SitePast(a: Site, b: Site) { SameSite(a, b) && a.version <= b.version && (a.version == b.version ==> a == b) }

  predicate ScenarioPast(a: Scenario, b: Scenario) {
    SameScenario(a, b) && a.version <= b.version && (a.version == b.version ==> a == b)
  }

  predicate ReservationPast(a: Reservation, b: Reservation) {
    SameReservation(a, b) && a.version <= b.version && (a.version == b.version ==> a == b)
  }

  predicate DeploymentPast(a: Deployment, b: Deployment) {
    SameDeployment(a, b) && a.version <= b.version && (a.version == b.version ==> a == b)
  }

  predicate SiteSnap(db: Db, id: Id, s: Site) { s.id == id && id in db.sites && SitePast(s, db.sites[id]) }

  predicate ScenarioSnap(db: Db, id: Id, s: Scenario) {
    s.id == id && id in db.scenarios && s.version == ScenarioVersion(s.status) && ScenarioPast(s, db.scenarios[id])
  }

  predicate ReservationSnap(db: Db, id: Id, r: Reservation) {
    r.id == id && id in db.reservations && ReservationShape(r) && ReservationPast(r, db.reservations[id])
  }

  predicate DeploymentSnap(db: Db, id: Id, d: Deployment) {
    d.id == id && id in db.deployments && DeploymentShape(d) && DeploymentPast(d, db.deployments[id])
  }

  /** What a call may have in hand: earlier states of the rows it asks for. */
  predicate SnapsOk(db: Db, op: Op, seen: Reads) {
    match seen
    case NoReads => true
    case SiteRead(s) => (
      match op
      case ReviewSite(id, _, _, _) => SiteSnap(db, id, s)
      case TransitionSite(id, _, _) => SiteSnap(db, id, s)
      case _ => false)
    case ScenarioRead(s) => (
      match op
      case StartReview(id, _) => ScenarioSnap(db, id, s)
      case Decide(id, _, _, _) => ScenarioSnap(db, id, s)
      case Reserve(id, _, _) => ScenarioSnap(db, id, s)
      case _ => false)
    case ReservationRead(r) => (
      match op
      case Release(id, _) => ReservationSnap(db, id, r)
      case Expire(id) => ReservationSnap(db, id, r)
      case CreateDeployment(id) => ReservationSnap(db, id, r)
      case _ => false)
    case DeploymentRead(d) => (
      match op
      case Advance(id, _, _, _) => DeploymentSnap(db, id, d)
      case Stop(id, _, _) => DeploymentSnap(db, id, d)
      case Activate(id) => DeploymentSnap(db, id, d)
      case RecordUsage(id, _, _, _, _, _) => DeploymentSnap(db, id, d)
      case _ => false)
    case ScenarioSiteRead(s, site) =>
      op.Reserve? && ScenarioSnap(db, op.scenario, s) && SiteSnap(db, op.site, site)
    case DeploymentReservationRead(d, r) => (
      match op
      case Stop(id, version, _) => DeploymentSnap(db, id, d) && ReservationSnap(db, d.reservation, r) && d.version == version
      case RecordUsage(id, _, _, _, _, _) =>
        DeploymentSnap(db, id, d) && ReservationSnap(db, d.reservation, r) && (d.status == Running || d.status == Stopped)
      case _ => false)
  }

  /** Snapshots stay snapshots whatever else commits. */
  lemma SnapsSurvive(a: Db, b: Db, op: Op, seen: Reads)
    requires TxStep(a, b) && SnapsOk(a, op, seen)
    ensures SnapsOk(b, op, seen)
  {
    forall id, s: Site | SiteSnap(a, id, s) ensures SiteSnap(b, id, s) {
      assert SiteMove(a.sites[id], b.sites[id]);
    }
    forall id, s: Scenario | ScenarioSnap(a, id, s) ensures ScenarioSnap(b, id, s) {
      assert ScenarioMove(a.scenarios[id], b.scenarios[id]);
    }
    forall id, r: Reservation | ReservationSnap(a, id, r) ensures ReservationSnap(b, id, r) {
      assert ReservationMove(a.reservations[id], b.reservations[id]);
    }
    forall id, d: Deployment | DeploymentSnap(a, id, d) ensures DeploymentSnap(b, id, d) {
      assert DeploymentMove(a.deployments[id], b.deployments[id]);
    }
  }

  /** A row that was just looked up is a snapshot. */
  ghost predicate RowsAreSnaps(db: Db) {
    && (forall k :: k in db.sites ==> SiteSnap(db, k, db.sites[k]))
    && (forall k :: k in db.scenarios ==> ScenarioSnap(db, k, db.scenarios[k]))
    && (forall k :: k in db.reservations ==> ReservationSnap(db, k, db.reservations[k]))
    && (forall k :: k in db.deployments ==> DeploymentSnap(db, k, db.deployments[k]))
  }

  lemma InvGivesSnaps(db: Db)
    requires SitesOk(db.sites) && QualificationInv(db) && DeploymentsOk(db.deployments, db.reservations)
    ensures RowsAreSnaps(db)
  {
  }

  /** Looking up a row adds a snapshot. */
  lemma FetchSnaps(db: Db, req: Request, seen: Reads)
    requires RowsAreSnaps(db) && SnapsOk(db, req.op, seen) && Screen(req, seen) == None
    ensures match Fetch(db, req.op, seen) case Found(more) => SnapsOk(db, req.op, more) case _ => true
  {
    match seen
    case NoReads =>
    case ScenarioRead(s) =>
    case DeploymentRead(d) =>
    case _ =>
  }

  // ------------------------------------------------- one lemma per operation

  predicate Commits(db: Db, plan: Plan) { plan.Submit? && DemandsOf(db, plan.tx).Met() }

  ghost predicate Keeps(db: Db, plan: Plan)
    requires Commits(db, plan)
  {
    DbInv(Written(db, plan.tx)) && TxStep(db, Written(db, plan.tx))
  }

  lemma CreateSiteKeeps(db: Db, req: Request)
    requires DbInv(db) && req.op.CreateSite? && Commits(db, PlanOf(req, NoReads))
    ensures Keeps(db, PlanOf(req, NoReads))
  {
    hide SitesOk, Conserved, Accounted, OnKnownSites, ScenariosOk, ReviewsOk, Qualified, DeploymentsOk, JobsOk, ExpiryOutbox, ActivationOutbox, Paired, Balanced, Metered;
    SiteInserted(db, PlanOf(req, NoReads).tx.site);
  }

  /** A change of a site's status, with its event and perhaps a review row. */
  lemma SiteTablesKeep(db: Db, s: Site, e: Audit, reviews: map<Id, Review>)
    requires s.id in db.sites && s.version == db.sites[s.id].version + 1 && OnSite(e) && e.subject == s.id && e.id !in db.audit
    requires DbInv(db)
    ensures DbInv(db.(sites := PutSite(db.sites, s), siteReviews := reviews, audit := db.audit[e.id := e]))
  {
    hide SitesOk, Conserved, Accounted, OnKnownSites, ScenariosOk, ReviewsOk, Qualified, DeploymentsOk, JobsOk, ExpiryOutbox, ActivationOutbox, Paired, Balanced, Metered;
    SiteStatusWritten(db.sites, s, db.reservations, db.audit, e);
  }

  lemma SiteTx(req: Request, s: Site)
    requires (req.op.ReviewSite? || req.op.TransitionSite?) && PlanOf(req, SiteRead(s)).Submit?
    ensures var tx := PlanOf(req, SiteRead(s)).tx;
      && (tx.ReviewSiteTx? || tx.TransitionSiteTx?)
      && SameSite(s, tx.site) && tx.site.version == s.version + 1 && SiteCan(s.status, tx.site.status)
      && OnSite(tx.event) && tx.event.subject == tx.site.id
  {
  }

  lemma SiteMoved(db: Db, req: Request, s: Site)
    requires (req.op.ReviewSite? || req.op.TransitionSite?) && SiteSnap(db, s.id, s) && Commits(db, PlanOf(req, SiteRead(s)))
    ensures var tx := PlanOf(req, SiteRead(s)).tx;
      && (tx.ReviewSiteTx? || tx.TransitionSiteTx?)
      && tx.site.id in db.sites && tx.site.version == db.sites[tx.site.id].version + 1
      && OnSite(tx.event) && tx.event.subject == tx.site.id && tx.event.id !in db.audit
      && Written(db, tx) == db.(sites := PutSite(db.sites, tx.site), siteReviews := Written(db, tx).siteReviews,
                                audit := db.audit[tx.event.id := tx.event])
      && TxStep(db, Written(db, tx))
  {
    SiteTx(req, s);
    hide PlanOf, TxStep;
    var tx := PlanOf(req, SiteRead(s)).tx;
    SiteRows(db, tx);
    hide DemandsOf, Written;
    SiteStep(db, tx.site, Written(db, tx));
  }

  lemma SiteRows(db: Db, tx: Tx)
    requires (tx.ReviewSiteTx? || tx.TransitionSiteTx?) && DemandsOf(db, tx).Met()
    ensures tx.site.id in db.sites && tx.site.version == db.sites[tx.site.id].version + 1 && tx.event.id !in db.audit
    ensures Written(db, tx) == db.(sites := PutSite(db.sites, tx.site), siteReviews := Written(db, tx).siteReviews,
                                   audit := db.audit[tx.event.id := tx.event])
  {
    hide PutSite;
  }

  lemma SiteStep(a: Db, s: Site, b: Db)
    requires s.id in a.sites && b.sites == PutSite(a.sites, s)
    requires s.version == a.sites[s.id].version + 1 && SiteCan(a.sites[s.id].status, s.status)
    requires b.scenarios == a.scenarios && b.reservations == a.reservations && b.deployments == a.deployments
    ensures TxStep(a, b)
  {
  }

  lemma SiteKeeps(db: Db, req: Request, s: Site)
    requires (req.op.ReviewSite? || req.op.TransitionSite?) && SiteSnap(db, s.id, s) && Commits(db, PlanOf(req, SiteRead(s)))
    requires DbInv(db)
    ensures Keeps(db, PlanOf(req, SiteRead(s)))
  {
    hide DbInv, TxStep;
    SiteMoved(db, req, s);
    hide PlanOf, DemandsOf, Written;
    var tx := PlanOf(req, SiteRead(s)).tx;
    SiteTablesKeep(db, tx.site, tx.event, Written(db, tx).siteReviews);
  }

  lemma SubmitScenarioKeeps(db: Db, req: Request)
    requires DbInv(db) && req.op.SubmitScenario? && Commits(db, PlanOf(req, NoReads))
    ensures Keeps(db, PlanOf(req, NoReads))
  {
    hide SitesOk, Conserved, Accounted, OnKnownSites, ScenariosOk, ReviewsOk, Qualified, DeploymentsOk, JobsOk, ExpiryOutbox, ActivationOutbox, Paired, Balanced, Metered;
    ScenarioInserted(db.scenarios, PlanOf(req, NoReads).tx.scenario, db.scenarioReviews, db.reservations);
  }

  lemma StartReviewKeeps(db: Db, req: Request, s: Scenario)
    requires DbInv(db) && req.op.StartReview? && ScenarioSnap(db, req.op.scenario, s)
    requires Commits(db, PlanOf(req, ScenarioRead(s)))
    ensures Keeps(db, PlanOf(req, ScenarioRead(s)))
  {
    hide SitesOk, Conserved, Accounted, OnKnownSites, ScenariosOk, ReviewsOk, Qualified, DeploymentsOk, JobsOk, ExpiryOutbox, ActivationOutbox, Paired, Balanced, Metered;
    var tx := PlanOf(req, ScenarioRead(s)).tx;
    ReviewStarted(db.scenarios, tx.scenario, db.scenarioReviews);
    QualifiedStays(db.scenarios, tx.scenario, db.reservations);
    OtherEvent(db.sites, db.reservations, db.audit, tx.event);
  }

  lemma DecideKeeps(db: Db, req: Request, s: Scenario)
    requires DbInv(db) && req.op.Decide? && ScenarioSnap(db, req.op.scenario, s)
    requires Commits(db, PlanOf(req, ScenarioRead(s)))
    ensures Keeps(db, PlanOf(req, ScenarioRead(s)))
  {
    hide SitesOk, Conserved, Accounted, OnKnownSites, ScenariosOk, ReviewsOk, Qualified, DeploymentsOk, JobsOk, ExpiryOutbox, ActivationOutbox, Paired, Balanced, Metered;
    var tx := PlanOf(req, ScenarioRead(s)).tx;
    DecisionWritten(db.scenarios, tx.scenario, db.scenarioReviews, tx.review);
    QualifiedStays(db.scenarios, tx.scenario, db.reservations);
    OtherEvent(db.sites, db.reservations, db.audit, tx.event);
  }

  /** What a planned reservation looks like when the scenario row is still the one that was read. */
  predicate ReservationPlanned(db: Db, req: Request, r: Reservation, j: Job, e: Audit) {
    && r.scenario in db.scenarios && db.scenarios[r.scenario].status == Approved
    && db.scenarios[r.scenario].partner == r.partner && db.scenarios[r.scenario].requested == r.units
    && r.status == Confirmed && r.version == 1 && MINUTE <= r.expiresAt - r.createdAt <= WEEK && !OnSite(e)
    && j == ExpireJob(req.env, r)
  }

  lemma ReservePlanned(db: Db, req: Request, scenario: Scenario, site: Site)
    requires ScenariosOk(db.scenarios) && SnapsOk(db, req.op, ScenarioSiteRead(scenario, site))
    requires PlanOf(req, ScenarioSiteRead(scenario, site)).Submit?
    ensures var tx := PlanOf(req, ScenarioSiteRead(scenario, site)).tx;
      tx.CreateReservationTx? && ReservationPlanned(db, req, tx.reservation, tx.job, tx.event)
  {
    assert ScenarioPast(scenario, db.scenarios[req.op.scenario]);
  }

  /** What the four statements of a reservation leave established when they succeed. */
  lemma CreateReservationMet(db: Db, req: Request, r: Reservation, j: Job, e: Audit)
    requires DemandsOf(db, CreateReservationTx(r, j, e)).Met() && ReservationPlanned(db, req, r, j, e)
    ensures r.site in db.sites && SiteCheck(db.sites[r.site].total, db.sites[r.site].available - r.units)
    ensures r.id !in db.reservations && ReservationShape(r)
    ensures FreshJob(db.jobs, j) && ExpiryJobFor(j, r.id) && e.id !in db.audit && !OnSite(e)
    ensures TxStep(db, Written(db, CreateReservationTx(r, j, e)))
  {
    ReservationDemands(db, req, r, j, e);
    ReservationStep(db, r, j, e);
    hide Written, DemandsOf, TxStep;
  }

  lemma ReservationDemands(db: Db, req: Request, r: Reservation, j: Job, e: Audit)
    requires DemandsOf(db, CreateReservationTx(r, j, e)).Met() && ReservationPlanned(db, req, r, j, e)
    ensures r.site in db.sites && SiteCheck(db.sites[r.site].total, db.sites[r.site].available - r.units)
    ensures r.id !in db.reservations && ReservationShape(r) && FreshJob(db.jobs, j) && ExpiryJobFor(j, r.id) && e.id !in db.audit
  {
    hide Timestamp;
  }

  lemma ReservationStep(db: Db, r: Reservation, j: Job, e: Audit)
    requires DemandsOf(db, CreateReservationTx(r, j, e)).Met()
    ensures TxStep(db, Written(db, CreateReservationTx(r, j, e)))
  {
    assert r.id !in db.reservations && Written(db, CreateReservationTx(r, j, e)).reservations == db.reservations[r.id := r];
    hide DemandsOf;
  }

  /** The tables with a planned reservation in them. */
  function Reserved(db: Db, r: Reservation, j: Job, e: Audit): Db
    requires r.site in db.sites
  {
    db.(sites := PutCapacity(db.sites, r.site, -r.units, r.createdAt), reservations := db.reservations[r.id := r],
        jobs := db.jobs[j.id := j], audit := db.audit[e.id := e])
  }

  lemma ReservedCapacity(db: Db, r: Reservation, e: Audit)
    requires CapacityInv(db)
    requires r.site in db.sites && SiteCheck(db.sites[r.site].total, db.sites[r.site].available - r.units)
    requires r.id !in db.reservations && r.status == Confirmed && r.version == 1 && e.id !in db.audit && !OnSite(e)
    ensures var sites, reservations, audit :=
        PutCapacity(db.sites, r.site, -r.units, r.createdAt), db.reservations[r.id := r], db.audit[e.id := e];
      SitesOk(sites) && Conserved(sites, reservations) && Accounted(sites, reservations, audit)
      && OnKnownSites(sites, reservations, audit)
  {
    hide SitesOk, Conserved, Accounted, OnKnownSites;
    assert HeldBy(r.site)(r) == r.units;
    CapacityMoved(db.sites, -r.units, r.createdAt, db.reservations, r);
    VersionMoved(db.sites, -r.units, r.createdAt, db.reservations, r, db.audit);
    OtherEvent(PutCapacity(db.sites, r.site, -r.units, r.createdAt), db.reservations[r.id := r], db.audit, e);
  }

  lemma ReservedOutbox(db: Db, r: Reservation, j: Job)
    requires OutboxInv(db) && r.id !in db.reservations && FreshJob(db.jobs, j) && ExpiryJobFor(j, r.id)
    ensures var jobs := db.jobs[j.id := j];
      JobsOk(jobs) && ExpiryOutbox(jobs, db.reservations[r.id := r]) && ActivationOutbox(jobs, db.deployments)
  {
    JobInserted(db.jobs, j);
    hide JobsOk, ExpiryOutbox, ActivationOutbox;
    ReservationWithJob(db.jobs, j, db.reservations, r);
    ActivationUnaffected(db.jobs, j, db.deployments);
  }

  lemma ReservedKeeps(db: Db, req: Request, r: Reservation, j: Job, e: Audit)
    requires ReservationPlanned(db, req, r, j, e)
    requires r.site in db.sites && SiteCheck(db.sites[r.site].total, db.sites[r.site].available - r.units)
    requires r.id !in db.reservations && ReservationShape(r)
    requires FreshJob(db.jobs, j) && ExpiryJobFor(j, r.id) && e.id !in db.audit && !OnSite(e)
    requires DbInv(db)
    ensures DbInv(Reserved(db, r, j, e))
  {
    hide SitesOk, Conserved, Accounted, OnKnownSites, ScenariosOk, ReviewsOk, Qualified, DeploymentsOk, JobsOk, ExpiryOutbox, ActivationOutbox, Paired, Balanced, Metered;
    hide FreshJob, ExpiryJobFor;
    QualifiedByPlan(db, req, r, j, e);
    ReservedCapacity(db, r, e);
    ReservedOutbox(db, r, j);
    ReservationWritten(db.reservations, r, db.deployments, db.usage);
  }

  lemma CreateReservationKeeps(db: Db, req: Request, r: Reservation, j: Job, e: Audit)
    requires DbInv(db) && DemandsOf(db, CreateReservationTx(r, j, e)).Met()
    requires ReservationPlanned(db, req, r, j, e)
    ensures DbInv(Written(db, CreateReservationTx(r, j, e))) && TxStep(db, Written(db, CreateReservationTx(r, j, e)))
  {
    hide DbInv, TxStep, ReservationPlanned;
    CreateReservationMet(db, req, r, j, e);
    hide DemandsOf;
    ReservedKeeps(db, req, r, j, e);
  }

  lemma QualifiedByPlan(db: Db, req: Request, r: Reservation, j: Job, e: Audit)
    requires Qualified(db.reservations, db.scenarios) && ReservationPlanned(db, req, r, j, e) && ReservationShape(r)
    ensures Qualified(db.reservations[r.id := r], db.scenarios)
  {
    ReservationQualified(db.reservations, r, db.scenarios);
  }

  lemma ReserveKeeps(db: Db, req: Request, scenario: Scenario, site: Site)
    requires DbInv(db) && SnapsOk(db, req.op, ScenarioSiteRead(scenario, site))
    requires Commits(db, PlanOf(req, ScenarioSiteRead(scenario, site)))
    ensures Keeps(db, PlanOf(req, ScenarioSiteRead(scenario, site)))
  {
    ReservePlanned(db, req, scenario, site);
    hide PlanOf, SnapsOk, TxStep, ReservationPlanned;
    hide SitesOk, Conserved, Accounted, OnKnownSites, ScenariosOk, ReviewsOk, Qualified, DeploymentsOk, JobsOk, ExpiryOutbox, ActivationOutbox, Paired, Balanced, Metered;
    var tx := PlanOf(req, ScenarioSiteRead(scenario, site)).tx;
    CreateReservationKeeps(db, req, tx.reservation, tx.job, tx.event);
  }

  /** The tables with the end of a reservation in them. */
  function Returned(db: Db, r: Reservation, e: Audit): Db
    requires r.id in db.reservations && r.site in db.sites
  {
    db.(reservations := PutReservation(db.reservations, r), sites := PutCapacity(db.sites, r.site, r.units, r.updatedAt),
        audit := db.audit[e.id := e])
  }

  lemma ReturnMet(db: Db, r: Reservation, e: Audit)
    requires DemandsOf(db, ReturnTx(r, e)).Met()
    requires SameReservation(r, db.reservations[r.id]) && (r.status == Released || r.status == Lapsed)
    ensures r.id in db.reservations && Held(db.reservations[r.id]) && r.version == db.reservations[r.id].version + 1
    ensures r.site in db.sites && SiteCheck(db.sites[r.site].total, db.sites[r.site].available + r.units)
    ensures e.id !in db.audit && Written(db, ReturnTx(r, e)) == Returned(db, r, e)
    ensures TxStep(db, Written(db, ReturnTx(r, e)))
  {
  }

  lemma ReturnedKeeps(db: Db, r: Reservation, e: Audit)
    requires r.id in db.reservations && Held(db.reservations[r.id]) && r.version == db.reservations[r.id].version + 1
    requires SameReservation(r, db.reservations[r.id]) && (r.status == Released || r.status == Lapsed)
    requires r.site in db.sites && SiteCheck(db.sites[r.site].total, db.sites[r.site].available + r.units)
    requires e.id !in db.audit && !OnSite(e)
    requires DbInv(db)
    ensures DbInv(Returned(db, r, e))
  {
    hide SitesOk, Conserved, Accounted, OnKnownSites, ScenariosOk, ReviewsOk, Qualified, DeploymentsOk, JobsOk, ExpiryOutbox, ActivationOutbox, Paired, Balanced, Metered;
    var row := db.reservations[r.id].(status := r.status, version := r.version, updatedAt := r.updatedAt);
    CapacityMoved(db.sites, r.units, r.updatedAt, db.reservations, row);
    VersionMoved(db.sites, r.units, r.updatedAt, db.reservations, row, db.audit);
    OtherEvent(PutCapacity(db.sites, r.site, r.units, r.updatedAt), PutReservation(db.reservations, r), db.audit, e);
    ReservationEnded(db.reservations, r, db.scenarios);
    ReservationWritten(db.reservations, row, db.deployments, db.usage);
    EndedForOutbox(db.jobs, db.reservations, row);
  }

  /** The end of a reservation, by release, expiry or stop. */
  lemma ReturnKeeps(db: Db, r: Reservation, e: Audit)
    requires DbInv(db) && DemandsOf(db, ReturnTx(r, e)).Met()
    requires SameReservation(r, db.reservations[r.id]) && (r.status == Released || r.status == Lapsed) && !OnSite(e)
    ensures DbInv(Written(db, ReturnTx(r, e))) && TxStep(db, Written(db, ReturnTx(r, e)))
  {
    hide DbInv, TxStep;
    ReturnMet(db, r, e);
    hide DemandsOf, Written, Returned;
    ReturnedKeeps(db, r, e);
  }

  lemma ReleaseKeeps(db: Db, req: Request, r: Reservation)
    requires DbInv(db) && req.op.Release? && ReservationSnap(db, req.op.reservation, r)
    requires Commits(db, PlanOf(req, ReservationRead(r)))
    ensures Keeps(db, PlanOf(req, ReservationRead(r)))
  {
    hide SitesOk, Conserved, Accounted, OnKnownSites, ScenariosOk, ReviewsOk, Qualified, DeploymentsOk, JobsOk, ExpiryOutbox, ActivationOutbox, Paired, Balanced, Metered;
    var tx := PlanOf(req, ReservationRead(r)).tx;
    ReturnKeeps(db, tx.reservation, tx.event);
  }

  lemma ExpireKeeps(db: Db, req: Request, r: Reservation)
    requires DbInv(db) && req.op.Expire? && ReservationSnap(db, req.op.reservation, r)
    requires Commits(db, PlanOf(req, ReservationRead(r)))
    ensures Keeps(db, PlanOf(req, ReservationRead(r)))
  {
    hide SitesOk, Conserved, Accounted, OnKnownSites, ScenariosOk, ReviewsOk, Qualified, DeploymentsOk, JobsOk, ExpiryOutbox, ActivationOutbox, Paired, Balanced, Metered;
    var tx := PlanOf(req, ReservationRead(r)).tx;
    ReturnKeeps(db, tx.reservation, tx.event);
  }

  /** The tables with a planned deployment in them. */
  function Deployed(db: Db, d: Deployment, j: Job, e: Audit): Db {
    db.(deployments := db.deployments[d.id := d], jobs := db.jobs[j.id := j], audit := db.audit[e.id := e])
  }

  predicate DeploymentPlanned(db: Db, d: Deployment, j: Job, e: Audit) {
    && d.status == Queued && d.version == 1 && d.startedAt.None? && d.stoppedAt.None? && d.endpoint == "" && !OnSite(e)
    && d.id !in db.deployments && (forall k | k in db.deployments :: db.deployments[k].reservation != d.reservation)
    && d.reservation in db.reservations && e.id !in db.audit
    && FreshJob(db.jobs, j) && ActivationJobFor(j, d.id)
  }

  lemma CreateDeploymentMet(db: Db, req: Request, r: Reservation)
    requires req.op.CreateDeployment? && Commits(db, PlanOf(req, ReservationRead(r)))
    ensures var tx := PlanOf(req, ReservationRead(r)).tx;
      && tx.CreateDeploymentTx? && DeploymentPlanned(db, tx.deployment, tx.job, tx.event)
      && Written(db, tx) == Deployed(db, tx.deployment, tx.job, tx.event) && TxStep(db, Written(db, tx))
  {
    DeploymentTx(req, r);
    hide PlanOf, TxStep;
    var tx := PlanOf(req, ReservationRead(r)).tx;
    DeployedRows(db, tx.deployment, tx.job, tx.event);
    DeploymentDemands(db, req.env, tx.deployment, tx.job, tx.event);
    hide Written, Deployed, DemandsOf, DeploymentPlanned;
  }

  lemma DeploymentDemands(db: Db, env: Env, d: Deployment, j: Job, e: Audit)
    requires DemandsOf(db, CreateDeploymentTx(d, j, e)).Met() && !OnSite(e) && j == ActivateJob(env, d)
    requires d.status == Queued && d.version == 1 && d.startedAt.None? && d.stoppedAt.None? && d.endpoint == ""
    ensures DeploymentPlanned(db, d, j, e)
  {
  }

  lemma DeploymentTx(req: Request, r: Reservation)
    requires req.op.CreateDeployment? && PlanOf(req, ReservationRead(r)).Submit?
    ensures var tx := PlanOf(req, ReservationRead(r)).tx;
      tx.CreateDeploymentTx? && !OnSite(tx.event) && tx.job == ActivateJob(req.env, tx.deployment)
      && tx.deployment == Deployment(tx.deployment.id, r.id, Queued, "", 1, None, None, req.env.now, req.env.now)
  {
  }

  lemma DeployedRows(db: Db, d: Deployment, j: Job, e: Audit)
    requires DemandsOf(db, CreateDeploymentTx(d, j, e)).Met()
    ensures Written(db, CreateDeploymentTx(d, j, e)) == Deployed(db, d, j, e) && TxStep(db, Deployed(db, d, j, e))
  {
    assert d.id !in db.deployments && Written(db, CreateDeploymentTx(d, j, e)) == Deployed(db, d, j, e);
    hide DemandsOf, Written;
  }

  lemma DeployedKeeps(db: Db, d: Deployment, j: Job, e: Audit)
    requires DeploymentPlanned(db, d, j, e)
    requires DbInv(db)
    ensures DbInv(Deployed(db, d, j, e))
  {
    hide SitesOk, Conserved, Accounted, OnKnownSites, ScenariosOk, ReviewsOk, Qualified, DeploymentsOk, JobsOk, ExpiryOutbox, ActivationOutbox, Paired, Balanced, Metered;
    OtherEvent(db.sites, db.reservations, db.audit, e);
    JobInserted(db.jobs, j);
    DeploymentInserted(db.deployments, d, db.reservations, db.usage);
    DeploymentWithJob(db.jobs, j, db.deployments, d);
    ExpiryUnaffected(db.jobs, j, db.reservations);
  }

  lemma CreateDeploymentKeeps(db: Db, req: Request, r: Reservation)
    requires DbInv(db) && req.op.CreateDeployment? && Commits(db, PlanOf(req, ReservationRead(r)))
    ensures Keeps(db, PlanOf(req, ReservationRead(r)))
  {
    hide DbInv, TxStep;
    CreateDeploymentMet(db, req, r);
    hide PlanOf, DemandsOf, Written, Deployed, DeploymentPlanned;
    var tx := PlanOf(req, ReservationRead(r)).tx;
    DeployedKeeps(db, tx.deployment, tx.job, tx.event);
  }

  /** Any legal, version-checked move of a deployment row. */
  lemma DeploymentMoveKeeps(db: Db, d: Deployment, e: Audit)
    requires DbInv(db) && DemandsOf(db, TransitionDeploymentTx(d, e)).Met() && !OnSite(e)
    requires DeploymentMove(db.deployments[d.id], d) && DeploymentShape(d)
    ensures DbInv(Written(db, TransitionDeploymentTx(d, e))) && TxStep(db, Written(db, TransitionDeploymentTx(d, e)))
  {
    hide SitesOk, Conserved, Accounted, OnKnownSites, ScenariosOk, ReviewsOk, Qualified, DeploymentsOk, JobsOk, ExpiryOutbox, ActivationOutbox, Paired, Balanced, Metered;
    OtherEvent(db.sites, db.reservations, db.audit, e);
    var db' := Written(db, TransitionDeploymentTx(d, e));
    assert db'.deployments == db.deployments[d.id := d];
    DeploymentMoved(db.deployments, d, db.reservations, db.usage);
    MovedForOutbox(db.jobs, db.deployments, d);
  }

  lemma AdvanceKeeps(db: Db, req: Request, d: Deployment)
    requires DbInv(db) && req.op.Advance? && DeploymentSnap(db, req.op.deployment, d)
    requires Commits(db, PlanOf(req, DeploymentRead(d)))
    ensures Keeps(db, PlanOf(req, DeploymentRead(d)))
  {
    hide SitesOk, Conserved, Accounted, OnKnownSites, ScenariosOk, ReviewsOk, Qualified, DeploymentsOk, JobsOk, ExpiryOutbox, ActivationOutbox, Paired, Balanced, Metered;
    var tx := PlanOf(req, DeploymentRead(d)).tx;
    DeploymentMoveKeeps(db, tx.deployment, tx.event);
  }

  lemma ActivateKeeps(db: Db, req: Request, d: Deployment)
    requires DbInv(db) && req.op.Activate? && DeploymentSnap(db, req.op.deployment, d)
    requires Commits(db, PlanOf(req, DeploymentRead(d)))
    ensures Keeps(db, PlanOf(req, DeploymentRead(d)))
    ensures var plan := PlanOf(req, DeploymentRead(d));
      plan.again.Some? ==> SnapsOk(Written(db, plan.tx), req.op, plan.again.value)
  {
    hide SitesOk, Conserved, Accounted, OnKnownSites, ScenariosOk, ReviewsOk, Qualified, DeploymentsOk, JobsOk, ExpiryOutbox, ActivationOutbox, Paired, Balanced, Metered;
    var tx := PlanOf(req, DeploymentRead(d)).tx;
    DeploymentMoveKeeps(db, tx.deployment, tx.event);
  }

  lemma StopKeeps(db: Db, req: Request, d: Deployment, r: Reservation)
    requires DbInv(db) && req.op.Stop? && SnapsOk(db, req.op, DeploymentReservationRead(d, r))
    requires Commits(db, PlanOf(req, DeploymentReservationRead(d, r)))
    ensures Keeps(db, PlanOf(req, DeploymentReservationRead(d, r)))
  {
    hide SitesOk, Conserved, Accounted, OnKnownSites, ScenariosOk, ReviewsOk, Qualified, DeploymentsOk, JobsOk, ExpiryOutbox, ActivationOutbox, Paired, Balanced, Metered;
    var tx := PlanOf(req, DeploymentReservationRead(d, r)).tx;
    if d.status == Running {
      DeploymentMoveKeeps(db, tx.deployment, tx.event);
    } else {
      // the same tables as ending the reservation first and moving the deployment after,
      // with the one event written once
      StopReleaseKeeps(db, tx.deployment, tx.reservation, tx.event);
    }
  }

  /** Stopping a deployment is ending its reservation and moving its row in one go. */
  lemma StopIsReturnAndMove(db: Db, d: Deployment, r: Reservation, e: Audit)
    requires DemandsOf(db, StopReleaseTx(d, r, e)).Met() && DeploymentMove(db.deployments[d.id], d)
    ensures DemandsOf(db, ReturnTx(r, e)).Met()
    ensures var mid := Written(db, ReturnTx(r, e));
      && mid.deployments == db.deployments
      && Written(db, StopReleaseTx(d, r, e)) == mid.(deployments := db.deployments[d.id := d])
  {
    assert PutDeployment(db.deployments, d) == db.deployments[d.id := d];
  }

  lemma TxStepAndMove(a: Db, b: Db, d: Deployment)
    requires TxStep(a, b) && b.deployments == a.deployments
    requires d.id in a.deployments && DeploymentMove(a.deployments[d.id], d)
    ensures TxStep(a, b.(deployments := a.deployments[d.id := d]))
  {
  }

  lemma DeploymentRowKeeps(db: Db, d: Deployment)
    requires DbInv(db) && d.id in db.deployments && DeploymentMove(db.deployments[d.id], d) && DeploymentShape(d)
    ensures DbInv(db.(deployments := db.deployments[d.id := d]))
  {
    hide SitesOk, Conserved, Accounted, OnKnownSites, ScenariosOk, ReviewsOk, Qualified, DeploymentsOk, JobsOk, ExpiryOutbox, ActivationOutbox, Paired, Balanced, Metered;
    DeploymentMoved(db.deployments, d, db.reservations, db.usage);
    MovedForOutbox(db.jobs, db.deployments, d);
  }

  lemma StopReleaseKeeps(db: Db, d: Deployment, r: Reservation, e: Audit)
    requires DemandsOf(db, StopReleaseTx(d, r, e)).Met()
    requires d.id in db.deployments && DeploymentMove(db.deployments[d.id], d) && DeploymentShape(d)
    requires r.id in db.reservations && SameReservation(r, db.reservations[r.id]) && r.status == Released && !OnSite(e)
    requires DbInv(db)
    ensures DbInv(Written(db, StopReleaseTx(d, r, e))) && TxStep(db, Written(db, StopReleaseTx(d, r, e)))
  {
    hide DbInv, DeploymentShape;
    StopIsReturnAndMove(db, d, r, e);
    ReturnKeeps(db, r, e);
    hide DemandsOf, Written, TxStep, DeploymentMove;
    var mid := Written(db, ReturnTx(r, e));
    DeploymentRowKeeps(mid, d);
    TxStepAndMove(db, mid, d);
  }

  /** What a planned meter reading looks like: the deployment has run, the partner is billed at the rate. */
  predicate UsagePlanned(db: Db, u: Usage, s: Settlement, e: Audit) {
    && u.deployment in db.deployments && db.deployments[u.deployment].startedAt.Some?
    && db.deployments[u.deployment].reservation in db.reservations
    && db.reservations[db.deployments[u.deployment].reservation].partner == u.partner
    && s.usage == u.id && s.partner == u.partner && s.amount == 17 * u.unitSeconds && !OnSite(e)
  }

  lemma UsageIsPlanned(db: Db, req: Request, d: Deployment, r: Reservation)
    requires req.op.RecordUsage? && SnapsOk(db, req.op, DeploymentReservationRead(d, r))
    requires PlanOf(req, DeploymentReservationRead(d, r)).Submit?
    ensures var tx := PlanOf(req, DeploymentReservationRead(d, r)).tx;
      tx.RecordUsageTx? && UsagePlanned(db, tx.usage, tx.settlement, tx.event)
  {
    assert DeploymentPast(d, db.deployments[d.id]) && ReservationPast(r, db.reservations[r.id]);
  }

  lemma UsageTxKeeps(db: Db, u: Usage, s: Settlement, e: Audit)
    requires DbInv(db) && DemandsOf(db, RecordUsageTx(u, s, e)).Met() && UsagePlanned(db, u, s, e)
    ensures DbInv(Written(db, RecordUsageTx(u, s, e))) && TxStep(db, Written(db, RecordUsageTx(u, s, e)))
  {
    hide SitesOk, Conserved, Accounted, OnKnownSites, ScenariosOk, ReviewsOk, Qualified, DeploymentsOk, JobsOk, ExpiryOutbox, ActivationOutbox, Paired, Balanced, Metered;
    hide SqlLe;
    OtherEvent(db.sites, db.reservations, db.audit, e);
    UsageMetered(db.usage, u, db.deployments, db.reservations);
    UsageSettled(db.usage, u, db.settlements, s);
  }

  lemma RecordUsageKeeps(db: Db, req: Request, d: Deployment, r: Reservation)
    requires DbInv(db) && req.op.RecordUsage? && SnapsOk(db, req.op, DeploymentReservationRead(d, r))
    requires Commits(db, PlanOf(req, DeploymentReservationRead(d, r)))
    ensures Keeps(db, PlanOf(req, DeploymentReservationRead(d, r)))
  {
    UsageIsPlanned(db, req, d, r);
    hide PlanOf, SnapsOk, TxStep, UsagePlanned, DbInv;
    var tx := PlanOf(req, DeploymentReservationRead(d, r)).tx;
    UsageTxKeeps(db, tx.usage, tx.settlement, tx.event);
  }

  // ------------------------------------------------------- whole call steps

  /** What a call that has succeeded has brought about, for good. */
  predicate Achieved(db: Db, op: Op) {
    match op
    case Expire(id) => id in db.reservations && !Held(db.reservations[id])
    case Activate(id) => id in db.deployments && db.deployments[id].startedAt.Some?
    case _ => true
  }

  /** A call that has read anything has passed the checks before its first read. */
  predicate Admitted(req: Request, seen: Reads) {
    seen.NoReads? || (RoleCheck(req.actor, req.op).None? && TextCheck(req.op).None?)
  }

  predicate CallOk(db: Db, call: Call) {
    match call
    case Ongoing(req, seen) => SnapsOk(db, req.op, seen) && Admitted(req, seen)
    case Done(req, result) => result.Ok? ==> Achieved(db, req.op)
  }

  lemma CallSurvives(a: Db, b: Db, call: Call)
    requires TxStep(a, b) && CallOk(a, call)
    ensures CallOk(b, call)
  {
    match call
    case Ongoing(req, seen) => SnapsSurvive(a, b, req.op, seen);
    case Done(req, result) =>
      if result.Ok? && req.op.Expire? {
        assert ReservationMove(a.reservations[req.op.reservation], b.reservations[req.op.reservation]);
      } else if result.Ok? && req.op.Activate? {
        assert DeploymentMove(a.deployments[req.op.deployment], b.deployments[req.op.deployment]);
      }
  }

  /** The commit of any call keeps the invariants, moves rows legally and leaves
      the call with good snapshots or an achieved result. */
  lemma CommitKeeps(db: Db, req: Request, seen: Reads)
    requires SnapsOk(db, req.op, seen) && Commits(db, PlanOf(req, seen)) && DbInv(db)
    ensures Keeps(db, PlanOf(req, seen))
    ensures var plan := PlanOf(req, seen); plan.again.Some? ==> SnapsOk(Written(db, plan.tx), req.op, plan.again.value)
  {
    hide DbInv, TxStep, DemandsOf, Written;
    match seen
    case NoReads => if req.op.CreateSite? { CreateSiteKeeps(db, req); } else { SubmitScenarioKeeps(db, req); }
    case SiteRead(s) => SiteKeeps(db, req, s);
    case ScenarioRead(s) => if req.op.StartReview? { StartReviewKeeps(db, req, s); } else { DecideKeeps(db, req, s); }
    case ReservationRead(r) =>
      if req.op.Release? { ReleaseKeeps(db, req, r); }
      else if req.op.Expire? { ExpireKeeps(db, req, r); }
      else { CreateDeploymentKeeps(db, req, r); }
    case DeploymentRead(d) => if req.op.Advance? { AdvanceKeeps(db, req, d); } else { ActivateKeeps(db, req, d); }
    case ScenarioSiteRead(s, site) => ReserveKeeps(db, req, s, site);
    case DeploymentReservationRead(d, r) => if req.op.Stop? { StopKeeps(db, req, d, r); } else { RecordUsageKeeps(db, req, d, r); }
  }

  lemma ReturnEnds(db: Db, r: Reservation, e: Audit)
    requires DemandsOf(db, ReturnTx(r, e)).Met() && !Held(r)
    ensures Achieved(Written(db, ReturnTx(r, e)), Expire(r.id))
  {
  }

  lemma MoveStarts(db: Db, d: Deployment, e: Audit)
    requires DemandsOf(db, TransitionDeploymentTx(d, e)).Met() && d.startedAt.Some?
    ensures Achieved(Written(db, TransitionDeploymentTx(d, e)), Activate(d.id))
  {
  }

  lemma ExpiryPlan(req: Request, r: Reservation)
    requires req.op.Expire? && r.id == req.op.reservation && PlanOf(req, ReservationRead(r)).Submit?
    ensures var tx := PlanOf(req, ReservationRead(r)).tx;
      tx.ReturnTx? && !Held(tx.reservation) && req.op == Expire(tx.reservation.id)
  {
  }

  lemma ActivationPlan(req: Request, d: Deployment)
    requires req.op.Activate? && d.id == req.op.deployment && PlanOf(req, DeploymentRead(d)).Submit?
    requires PlanOf(req, DeploymentRead(d)).again.None?
    ensures var tx := PlanOf(req, DeploymentRead(d)).tx;
      tx.TransitionDeploymentTx? && tx.deployment.startedAt.Some? && req.op == Activate(tx.deployment.id)
  {
  }

  lemma CommitAchieves(db: Db, req: Request, seen: Reads)
    requires SnapsOk(db, req.op, seen) && Commits(db, PlanOf(req, seen)) && PlanOf(req, seen).again.None?
    ensures Achieved(Written(db, PlanOf(req, seen).tx), req.op)
  {
    if req.op.Expire? && seen.ReservationRead? {
      ExpiryPlan(req, seen.reservation);
      hide PlanOf, DemandsOf, Written, Achieved;
      var tx := PlanOf(req, seen).tx;
      ReturnEnds(db, tx.reservation, tx.event);
    } else if req.op.Activate? && seen.DeploymentRead? {
      ActivationPlan(req, seen.deployment);
      hide PlanOf, DemandsOf, Written, Achieved;
      var tx := PlanOf(req, seen).tx;
      MoveStarts(db, tx.deployment, tx.event);
    } else {
      hide DemandsOf, Written;
    }
  }

  lemma FinishAchieves(db: Db, req: Request, seen: Reads)
    requires SnapsOk(db, req.op, seen) && PlanOf(req, seen).Finish? && Qualified(db.reservations, db.scenarios)
    ensures Achieved(db, req.op)
  {
    if req.op.Expire? {
      assert ReservationPast(seen.reservation, db.reservations[req.op.reservation]);
    } else {
      assert DeploymentPast(seen.deployment, db.deployments[req.op.deployment]);
    }
  }

  /** A step of a call, at any moment and with any storage error, keeps everything. */
  lemma CallStepKeeps(db: Db, call: Call, fault: Fault)
    requires CallOk(db, call) && DbInv(db)
    ensures var (db', call') := CallStep(db, call, fault);
      DbInv(db') && TxStep(db, db') && CallOk(db', call') && call'.request == call.request
  {
    InvGivesSnaps(db);
    StayingPut(db);
    hide DbInv, TxStep, SnapsOk, RowsAreSnaps, Achieved, CommitStep;
    match call
    case Done(_, _) =>
    case Ongoing(req, seen) =>
      if Screen(req, seen).None? {
        FetchSnaps(db, req, seen);
        if Fetch(db, req.op, seen).Complete? {
          CommitStepKeeps(db, req, seen, fault);
        }
      }
  }

  lemma StayingPut(db: Db)
    ensures TxStep(db, db)
  {
  }

  lemma CommitStepKeeps(db: Db, req: Request, seen: Reads, fault: Fault)
    requires SnapsOk(db, req.op, seen) && Admitted(req, seen) && DbInv(db)
    ensures var (db', call') := CommitStep(db, req, seen, fault);
      DbInv(db') && TxStep(db, db') && CallOk(db', call') && call'.request == req
  {
    hide DbInv, TxStep, SnapsOk, Achieved, PlanOf, DemandsOf, Written, Qualified, RoleCheck, InOrder, Striking;
    StayingPut(db);
    InvIsQualified(db);
    var plan := PlanOf(req, seen);
    if plan.Finish? {
      FinishAchieves(db, req, seen);
    } else if plan.Submit? && Refusal(db, plan.tx, fault).None? {
      SubmittedKeeps(db, req, seen, fault);
    }
  }

  lemma InvIsQualified(db: Db)
    requires DbInv(db)
    ensures Qualified(db.reservations, db.scenarios)
  {
    hide CapacityInv, DeploymentsOk, OutboxInv, LedgerInv, ScenariosOk, ReviewsOk, Qualified;
  }

  lemma SubmittedKeeps(db: Db, req: Request, seen: Reads, fault: Fault)
    requires SnapsOk(db, req.op, seen) && Admitted(req, seen)
    requires PlanOf(req, seen).Submit? && Refusal(db, PlanOf(req, seen).tx, fault).None?
    requires DbInv(db)
    ensures var (db', call') := CommitStep(db, req, seen, fault);
      DbInv(db') && TxStep(db, db') && CallOk(db', call') && call'.request == req
  {
    hide DbInv, TxStep, SnapsOk, Achieved, PlanOf, DemandsOf, Written, RoleCheck, Striking;
    if PlanOf(req, seen).again.Some? {
      AgainIsAdmitted(req, seen);
    }
    CommitKeeps(db, req, seen);
    if PlanOf(req, seen).again.None? {
      CommitAchieves(db, req, seen);
    }
  }

  /** Only an activation goes on after a commit, and it runs without a principal. */
  lemma AgainIsAdmitted(req: Request, seen: Reads)
    requires PlanOf(req, seen).Submit? && PlanOf(req, seen).again.Some?
    ensures Admitted(req, PlanOf(req, seen).again.value)
  {
  }
}
