/** How the table invariants respond to the few kinds of writes there are. */
module Effects {
  import opened Basics
  import opened Timestamps
  import opened Domain
  import opened Transactions
  import opened Queue
  import opened Invariants

  // ---------------------------------------------------- sites and capacity

  /** A new site starts with all its units, version 1 and no history. */
  lemma SiteInserted(db: Db, s: Site)
    requires CapacityInv(db) && s.id !in db.sites
    requires s.available == s.total > 0 && s.version == 1
    ensures CapacityInv(db.(sites := db.sites[s.id := s]))
  {
    NothingAt(db.sites, db.reservations, db.audit, s.id);
    hide MapSum, SiteCheck, OnSite;
  }

  lemma NothingAt(sites: map<Id, Site>, reservations: map<Id, Reservation>, audit: map<Id, Audit>, site: Id)
    requires OnKnownSites(sites, reservations, audit) && site !in sites
    ensures MapSum(reservations, HeldBy(site)) == 0 && MapSum(reservations, VersionAt(site)) == 0
    ensures MapSum(audit, SiteEvent(site)) == 0
  {
    MapSumZero(reservations, HeldBy(site));
    MapSumZero(reservations, VersionAt(site));
    MapSumZero(audit, SiteEvent(site));
  }

  /** A version-checked status write leaves capacity alone and is counted by its event. */
  lemma SiteStatusWritten(sites: map<Id, Site>, s: Site, reservations: map<Id, Reservation>, audit: map<Id, Audit>, e: Audit)
    requires SitesOk(sites) && Conserved(sites, reservations) && Accounted(sites, reservations, audit)
    requires OnKnownSites(sites, reservations, audit)
    requires s.id in sites && s.version == sites[s.id].version + 1
    requires e.id !in audit && OnSite(e) && e.subject == s.id
    ensures var sites', audit' := PutSite(sites, s), audit[e.id := e];
      SitesOk(sites') && Conserved(sites', reservations) && Accounted(sites', reservations, audit')
      && OnKnownSites(sites', reservations, audit')
  {
    var sites', audit' := PutSite(sites, s), audit[e.id := e];
    forall k | k in sites'
      ensures sites'[k].version == 1 + MapSum(audit', SiteEvent(k)) + MapSum(reservations, VersionAt(k))
    {
      MapSumPut(audit, SiteEvent(k), e.id, e);
    }
  }

  lemma OtherEvent(sites: map<Id, Site>, reservations: map<Id, Reservation>, audit: map<Id, Audit>, e: Audit)
    requires Accounted(sites, reservations, audit) && OnKnownSites(sites, reservations, audit)
    requires e.id !in audit && !OnSite(e)
    ensures Accounted(sites, reservations, audit[e.id := e]) && OnKnownSites(sites, reservations, audit[e.id := e])
  {
    forall k | k in sites ensures MapSum(audit[e.id := e], SiteEvent(k)) == MapSum(audit, SiteEvent(k)) {
      MapSumPut(audit, SiteEvent(k), e.id, e);
    }
  }

  /** Moving `change` units of a site while the write to reservation `r` moves
      its held units the other way and its version up by one. */
  lemma CapacityMoved(sites: map<Id, Site>, change: int, now: Instant, reservations: map<Id, Reservation>, r: Reservation)
    requires SitesOk(sites) && Conserved(sites, reservations)
    requires r.site in sites && SiteCheck(sites[r.site].total, sites[r.site].available + change)
    requires r.id in reservations ==> reservations[r.id].site == r.site
    requires HeldBy(r.site)(r) - (if r.id in reservations then HeldBy(r.site)(reservations[r.id]) else 0) == -change
    ensures SitesOk(PutCapacity(sites, r.site, change, now))
    ensures Conserved(PutCapacity(sites, r.site, change, now), reservations[r.id := r])
  {
    var sites' := PutCapacity(sites, r.site, change, now);
    forall k | k in sites' ensures sites'[k].available + MapSum(reservations[r.id := r], HeldBy(k)) == sites'[k].total {
      MapSumPut(reservations, HeldBy(k), r.id, r);
    }
  }

  lemma VersionMoved(sites: map<Id, Site>, change: int, now: Instant, reservations: map<Id, Reservation>, r: Reservation, audit: map<Id, Audit>)
    requires Accounted(sites, reservations, audit) && OnKnownSites(sites, reservations, audit)
    requires r.site in sites
    requires r.id in reservations ==> reservations[r.id].site == r.site
    requires r.version == 1 + if r.id in reservations then reservations[r.id].version else 0
    ensures Accounted(PutCapacity(sites, r.site, change, now), reservations[r.id := r], audit)
    ensures OnKnownSites(PutCapacity(sites, r.site, change, now), reservations[r.id := r], audit)
  {
    var sites' := PutCapacity(sites, r.site, change, now);
    forall k | k in sites'
      ensures sites'[k].version == 1 + MapSum(audit, SiteEvent(k)) + MapSum(reservations[r.id := r], VersionAt(k))
    {
      MapSumPut(reservations, VersionAt(k), r.id, r);
    }
  }

  // ------------------------------------------------------------- scenarios

  lemma ScenarioInserted(scenarios: map<Id, Scenario>, s: Scenario, reviews: map<Id, Review>, reservations: map<Id, Reservation>)
    requires ScenariosOk(scenarios) && ReviewsOk(scenarios, reviews) && Qualified(reservations, scenarios)
    requires s.id !in scenarios && s.status == Submitted && s.version == 1 && s.requested > 0
    ensures ScenariosOk(scenarios[s.id := s]) && ReviewsOk(scenarios[s.id := s], reviews) && Qualified(reservations, scenarios[s.id := s])
  {
    MapSumZero(reviews, ReviewOf(s.id));
    QualifiedByMore(scenarios, s, reservations);
    hide MapSum, Qualified;
    ReviewsByMore(scenarios, s, reviews);
    hide ReviewsOk;
  }

  lemma ReviewsByMore(scenarios: map<Id, Scenario>, s: Scenario, reviews: map<Id, Review>)
    requires ReviewsOk(scenarios, reviews) && s.id !in scenarios && s.status == Submitted
    requires MapSum(reviews, ReviewOf(s.id)) == 0
    ensures ReviewsOk(scenarios[s.id := s], reviews)
  {
    hide MapSum;
    var more := scenarios[s.id := s];
    forall k | k in reviews ensures reviews[k].subject in more && more[reviews[k].subject].status == VerdictOf(reviews[k]) {
      assert scenarios[reviews[k].subject].status == VerdictOf(reviews[k]);
    }
  }

  lemma QualifiedByMore(scenarios: map<Id, Scenario>, s: Scenario, reservations: map<Id, Reservation>)
    requires Qualified(reservations, scenarios) && s.id !in scenarios
    ensures Qualified(reservations, scenarios[s.id := s])
  {
  }

  lemma ReviewStarted(scenarios: map<Id, Scenario>, s: Scenario, reviews: map<Id, Review>)
    requires ScenariosOk(scenarios) && ReviewsOk(scenarios, reviews)
    requires s.id in scenarios && scenarios[s.id].status == Submitted && s.status == Reviewing && s.version == 2
    ensures ScenariosOk(PutScenario(scenarios, s)) && ReviewsOk(PutScenario(scenarios, s), reviews)
  {
    var scenarios' := PutScenario(scenarios, s);
    forall k | k in reviews ensures scenarios'[reviews[k].subject].status == VerdictOf(reviews[k]) {
      assert scenarios[reviews[k].subject].status == VerdictOf(reviews[k]);
    }
  }

  lemma ReviewCounted(scenarios: map<Id, Scenario>, s: Scenario, reviews: map<Id, Review>, r: Review)
    requires forall k :: k in scenarios ==> MapSum(reviews, ReviewOf(k)) == if Decided(scenarios[k]) then 1 else 0
    requires s.id in scenarios && !Decided(scenarios[s.id]) && Decided(s)
    requires r.id !in reviews && r.subject == s.id
    ensures var scenarios', reviews' := PutScenario(scenarios, s), reviews[r.id := r];
      forall k :: k in scenarios' ==> MapSum(reviews', ReviewOf(k)) == if Decided(scenarios'[k]) then 1 else 0
  {
    var scenarios', reviews' := PutScenario(scenarios, s), reviews[r.id := r];
    forall k | k in scenarios' ensures MapSum(reviews', ReviewOf(k)) == if Decided(scenarios'[k]) then 1 else 0 {
      MapSumPut(reviews, ReviewOf(k), r.id, r);
    }
  }

  lemma VerdictsAgree(scenarios: map<Id, Scenario>, s: Scenario, reviews: map<Id, Review>, r: Review)
    requires ReviewsOk(scenarios, reviews)
    requires s.id in scenarios && !Decided(scenarios[s.id]) && r.subject == s.id && s.status == VerdictOf(r)
    ensures var scenarios', reviews' := PutScenario(scenarios, s), reviews[r.id := r];
      forall k :: k in reviews' ==> reviews'[k].subject in scenarios' && scenarios'[reviews'[k].subject].status == VerdictOf(reviews'[k])
  {
    var scenarios', reviews' := PutScenario(scenarios, s), reviews[r.id := r];
    forall k | k in reviews'
      ensures reviews'[k].subject in scenarios' && scenarios'[reviews'[k].subject].status == VerdictOf(reviews'[k])
    {
      if k != r.id {
        assert scenarios[reviews[k].subject].status == VerdictOf(reviews[k]);
      }
    }
  }

  /** The deciding review is the first and only one. */
  lemma DecisionWritten(scenarios: map<Id, Scenario>, s: Scenario, reviews: map<Id, Review>, r: Review)
    requires ScenariosOk(scenarios) && ReviewsOk(scenarios, reviews)
    requires s.id in scenarios && scenarios[s.id].status == Reviewing && s.version == 3
    requires r.id !in reviews && r.subject == s.id && s.status == VerdictOf(r)
    ensures ScenariosOk(PutScenario(scenarios, s)) && ReviewsOk(PutScenario(scenarios, s), reviews[r.id := r])
  {
    ReviewCounted(scenarios, s, reviews, r);
    VerdictsAgree(scenarios, s, reviews, r);
    DecidedOk(scenarios, s);
    hide MapSum, ScenariosOk, PutScenario, ReviewOf;
  }

  lemma DecidedOk(scenarios: map<Id, Scenario>, s: Scenario)
    requires ScenariosOk(scenarios) && s.id in scenarios && scenarios[s.id].status == Reviewing
    requires Decided(s) && s.version == 3
    ensures ScenariosOk(PutScenario(scenarios, s))
  {
  }

  /** Reservations refer to approved scenarios, which no longer change. */
  lemma QualifiedStays(scenarios: map<Id, Scenario>, s: Scenario, reservations: map<Id, Reservation>)
    requires Qualified(reservations, scenarios) && s.id in scenarios && scenarios[s.id].status != Approved
    ensures Qualified(reservations, PutScenario(scenarios, s))
  {
  }

  // -------------------------------------------------------- outbox and jobs

  predicate FreshJob(jobs: Jobs, j: Job) {
    && j.id !in jobs && JobShape(j) && j.status == JobPending
    && forall k | k in jobs :: !(jobs[k].kind == j.kind && jobs[k].aggregate == j.aggregate)
  }

  lemma JobInserted(jobs: Jobs, j: Job)
    requires JobsOk(jobs) && FreshJob(jobs, j)
    ensures JobsOk(jobs[j.id := j])
  {
  }

  /** A job row is never dropped and never changes what it is for. */
  predicate SameDuty(a: Job, b: Job) {
    a.id == b.id && a.kind == b.kind && a.aggregate == b.aggregate && a.payload == b.payload && a.maxAttempts == b.maxAttempts
  }

  ghost predicate JobsKept(a: Jobs, b: Jobs) { forall k :: k in a ==> k in b && SameDuty(a[k], b[k]) }

  lemma ExpiryJobKept(a: Jobs, b: Jobs, id: Id)
    requires JobsKept(a, b) && HasExpiryJob(a, id)
    ensures HasExpiryJob(b, id)
  {
    var k :| k in a && ExpiryJobFor(a[k], id);
    assert ExpiryJobFor(b[k], id);
  }

  lemma ActivationJobKept(a: Jobs, b: Jobs, id: Id)
    requires JobsKept(a, b) && HasActivationJob(a, id)
    ensures HasActivationJob(b, id)
  {
    var k :| k in a && ActivationJobFor(a[k], id);
    assert ActivationJobFor(b[k], id);
  }

  /** A reservation and its expiry job appear together. */
  lemma ReservationWithJob(jobs: Jobs, j: Job, reservations: map<Id, Reservation>, r: Reservation)
    requires ExpiryOutbox(jobs, reservations) && FreshJob(jobs, j) && r.id !in reservations && ExpiryJobFor(j, r.id)
    ensures ExpiryOutbox(jobs[j.id := j], reservations[r.id := r])
  {
    var jobs' := jobs[j.id := j];
    assert ExpiryJobFor(jobs'[j.id], r.id);
    forall k | k in reservations[r.id := r] ensures HasExpiryJob(jobs', k) {
      if k != r.id {
        ExpiryJobKept(jobs, jobs', k);
      }
    }
  }

  lemma DeploymentWithJob(jobs: Jobs, j: Job, deployments: map<Id, Deployment>, d: Deployment)
    requires ActivationOutbox(jobs, deployments) && FreshJob(jobs, j) && d.id !in deployments && ActivationJobFor(j, d.id)
    ensures ActivationOutbox(jobs[j.id := j], deployments[d.id := d])
  {
    var jobs' := jobs[j.id := j];
    assert ActivationJobFor(jobs'[j.id], d.id);
    forall k | k in deployments[d.id := d] ensures HasActivationJob(jobs', k) {
      if k != d.id {
        ActivationJobKept(jobs, jobs', k);
      }
    }
  }

  /** A job of another kind does not disturb an outbox. */
  lemma ExpiryUnaffected(jobs: Jobs, j: Job, reservations: map<Id, Reservation>)
    requires ExpiryOutbox(jobs, reservations) && j.id !in jobs && j.kind != ExpireReservationJob
    ensures ExpiryOutbox(jobs[j.id := j], reservations)
  {
    forall k | k in reservations ensures HasExpiryJob(jobs[j.id := j], k) {
      ExpiryJobKept(jobs, jobs[j.id := j], k);
    }
  }

  lemma ActivationUnaffected(jobs: Jobs, j: Job, deployments: map<Id, Deployment>)
    requires ActivationOutbox(jobs, deployments) && j.id !in jobs && j.kind != ActivateDeploymentJob
    ensures ActivationOutbox(jobs[j.id := j], deployments)
  {
    forall k | k in deployments ensures HasActivationJob(jobs[j.id := j], k) {
      ActivationJobKept(jobs, jobs[j.id := j], k);
    }
  }

  // ---------------------------------------------------------------- ledger

  lemma UsageSettled(usage: map<Id, Usage>, u: Usage, settlements: map<Id, Settlement>, s: Settlement)
    requires Paired(usage, settlements) && Balanced(usage, settlements)
    requires u.id !in usage && s.id !in settlements && u.unitSeconds >= 0
    requires s.usage == u.id && s.partner == u.partner && s.amount == 17 * u.unitSeconds
    ensures Paired(usage[u.id := u], settlements[s.id := s]) && Balanced(usage[u.id := u], settlements[s.id := s])
  {
    var usage', settlements' := usage[u.id := u], settlements[s.id := s];
    forall k | k in usage' ensures Settles(settlements', usage'[k]) {
      if k == u.id {
        assert settlements'[s.id] == s;
      } else {
        var m :| m in settlements && settlements[m].usage == usage[k].id && settlements[m].partner == usage[k].partner
                 && settlements[m].amount == 17 * usage[k].unitSeconds;
        assert settlements'[m] == settlements[m];
      }
    }
    forall p: Id ensures MapSum(settlements', AmountOf(p)) == 17 * MapSum(usage', SecondsOf(p)) {
      MapSumPut(settlements, AmountOf(p), s.id, s);
      MapSumPut(usage, SecondsOf(p), u.id, u);
    }
  }

  lemma UsageMetered(usage: map<Id, Usage>, u: Usage, deployments: map<Id, Deployment>, reservations: map<Id, Reservation>)
    requires Metered(usage, deployments, reservations)
    requires u.deployment in deployments && deployments[u.deployment].startedAt.Some?
    requires deployments[u.deployment].reservation in reservations
    requires reservations[deployments[u.deployment].reservation].partner == u.partner
    ensures Metered(usage[u.id := u], deployments, reservations)
  {
  }

  // -------------------------------------------------- reservations come and go

  /** A reservation that holds what an approved scenario asks for. */
  lemma ReservationQualified(reservations: map<Id, Reservation>, r: Reservation, scenarios: map<Id, Scenario>)
    requires Qualified(reservations, scenarios) && ReservationShape(r) && r.scenario in scenarios
    requires scenarios[r.scenario].status == Approved && scenarios[r.scenario].partner == r.partner
    requires scenarios[r.scenario].requested == r.units
    ensures Qualified(reservations[r.id := r], scenarios)
  {
  }

  lemma ReservationEnded(reservations: map<Id, Reservation>, r: Reservation, scenarios: map<Id, Scenario>)
    requires Qualified(reservations, scenarios) && r.id in reservations && Held(reservations[r.id])
    requires (r.status == Released || r.status == Lapsed) && r.version == reservations[r.id].version + 1
    ensures Qualified(PutReservation(reservations, r), scenarios)
  {
  }

  /** Deployments and meter readings only look at a reservation's partner. */
  lemma ReservationWritten(reservations: map<Id, Reservation>, r: Reservation, deployments: map<Id, Deployment>, usage: map<Id, Usage>)
    requires DeploymentsOk(deployments, reservations) && Metered(usage, deployments, reservations)
    requires r.id in reservations ==> r.partner == reservations[r.id].partner
    ensures DeploymentsOk(deployments, reservations[r.id := r]) && Metered(usage, deployments, reservations[r.id := r])
  {
  }

  lemma EndedForOutbox(jobs: Jobs, reservations: map<Id, Reservation>, r: Reservation)
    requires ExpiryOutbox(jobs, reservations) && r.id in reservations && !Held(r)
    ensures ExpiryOutbox(jobs, reservations[r.id := r])
  {
    forall k | k in reservations[r.id := r] ensures HasExpiryJob(jobs, k) {
    }
  }

  // ------------------------------------------------------------- deployments

  lemma DeploymentInserted(deployments: map<Id, Deployment>, d: Deployment, reservations: map<Id, Reservation>, usage: map<Id, Usage>)
    requires DeploymentsOk(deployments, reservations) && Metered(usage, deployments, reservations)
    requires d.id !in deployments && DeploymentShape(d) && d.reservation in reservations
    requires forall k :: k in deployments ==> deployments[k].reservation != d.reservation
    ensures DeploymentsOk(deployments[d.id := d], reservations) && Metered(usage, deployments[d.id := d], reservations)
  {
  }

  lemma DeploymentMoved(deployments: map<Id, Deployment>, d: Deployment, reservations: map<Id, Reservation>, usage: map<Id, Usage>)
    requires DeploymentsOk(deployments, reservations) && Metered(usage, deployments, reservations)
    requires d.id in deployments && DeploymentMove(deployments[d.id], d) && DeploymentShape(d)
    ensures DeploymentsOk(deployments[d.id := d], reservations) && Metered(usage, deployments[d.id := d], reservations)
  {
  }

  lemma MovedForOutbox(jobs: Jobs, deployments: map<Id, Deployment>, d: Deployment)
    requires ActivationOutbox(jobs, deployments) && d.id in deployments && DeploymentMove(deployments[d.id], d)
    ensures ActivationOutbox(jobs, deployments[d.id := d])
  {
    forall k | k in deployments[d.id := d] ensures HasActivationJob(jobs, k) {
    }
  }
}
