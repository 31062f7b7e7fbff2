/** internal/store as an object: tables in fields, one method per statement and
    per transaction.  A transaction runs its statements one by one and is rolled
    back when one of them fails or a storage error strikes. */
module Storage {
  import opened Basics
  import opened Timestamps
  import opened Domain
  import opened Transactions
  import opened Queue

  class Store {
    var db: Db

    constructor ()
      ensures db == EMPTY
    {
      db := EMPTY;
    }

    // ------------------------------------------------ begin, commit, rollback

    /** Keeps the writes of a transaction whose statements all succeeded, unless the
        commit itself fails; otherwise goes back to the tables at its beginning. */
    method Conclude(saved: Db, failed: Option<Error>, fault: Fault) returns (err: Option<Error>)
      modifies this
      ensures err == First(failed, Require(fault != AtCommit, Internal))
      ensures db == if err.None? then old(db) else saved
    {
      err := failed;
      if err.None? && fault == AtCommit {
        err := Some(Internal);
      }
      if err.Some? {
        db := saved;
      }
    }

    // ------------------------------------------------------------- statements
    //
    // `begun` are the tables as the transaction found them, so far as the
    // statement looks at them.

    method InsertSite(ghost begun: Db, s: Site, fault: Fault, n: nat) returns (err: Option<Error>)
      requires begun.sites == db.sites && begun.users == db.users
      modifies this
      ensures err == Statement(fault, n, InsertSiteCheck(begun, s))
      ensures db == if err.None? then old(db).(sites := old(db).sites[s.id := s]) else old(db)
    {
      if fault == AtStatement(n) { return Some(Internal); }
      if !SiteCheck(s.total, s.available) { return Some(Invalid); }
      if s.id in db.sites { return Some(AlreadyExists); }
      if exists k | k in db.sites :: db.sites[k].operator == s.operator && db.sites[k].name == s.name { return Some(AlreadyExists); }
      if s.operator !in db.users { return Some(Invalid); }
      db := db.(sites := db.sites[s.id := s]);
      return None;
    }

    method UpdateSite(ghost begun: Db, s: Site, draftOnly: bool, fault: Fault, n: nat) returns (err: Option<Error>)
      requires begun.sites == db.sites
      modifies this
      ensures err == Statement(fault, n, if draftOnly then UpdateDraftSiteCheck(begun, s) else UpdateSiteCheck(begun, s))
      ensures err.None? ==> s.id in old(db).sites && db == old(db).(sites := PutSite(old(db).sites, s))
      ensures err.Some? ==> db == old(db)
    {
      if fault == AtStatement(n) { return Some(Internal); }
      if s.id !in db.sites || db.sites[s.id].version != s.version - 1 { return Some(StaleVersion); }
      if draftOnly && db.sites[s.id].status != Draft { return Some(StaleVersion); }
      var row := db.sites[s.id];
      db := db.(sites := db.sites[s.id := row.(status := s.status, version := s.version, updatedAt := s.updatedAt)]);
      return None;
    }

    method InsertSiteReview(ghost begun: Db, r: Review, fault: Fault, n: nat) returns (err: Option<Error>)
      requires begun.siteReviews == db.siteReviews && begun.users == db.users && begun.sites.Keys == db.sites.Keys
      modifies this
      ensures err == Statement(fault, n, InsertSiteReviewCheck(begun, r))
      ensures db == if err.None? then old(db).(siteReviews := old(db).siteReviews[r.id := r]) else old(db)
    {
      if fault == AtStatement(n) { return Some(Internal); }
      if r.id in db.siteReviews { return Some(AlreadyExists); }
      if r.subject !in db.sites || r.reviewer !in db.users { return Some(Invalid); }
      db := db.(siteReviews := db.siteReviews[r.id := r]);
      return None;
    }

    method InsertScenario(ghost begun: Db, s: Scenario, fault: Fault, n: nat) returns (err: Option<Error>)
      requires begun.scenarios == db.scenarios && begun.users == db.users
      modifies this
      ensures err == Statement(fault, n, InsertScenarioCheck(begun, s))
      ensures db == if err.None? then old(db).(scenarios := old(db).scenarios[s.id := s]) else old(db)
    {
      if fault == AtStatement(n) { return Some(Internal); }
      if s.requested <= 0 { return Some(Invalid); }
      if s.id in db.scenarios { return Some(AlreadyExists); }
      if exists k | k in db.scenarios :: db.scenarios[k].partner == s.partner && db.scenarios[k].name == s.name { return Some(AlreadyExists); }
      if s.partner !in db.users { return Some(Invalid); }
      db := db.(scenarios := db.scenarios[s.id := s]);
      return None;
    }

    method UpdateScenario(ghost begun: Db, s: Scenario, fault: Fault, n: nat) returns (err: Option<Error>)
      requires begun.scenarios == db.scenarios
      modifies this
      ensures err == Statement(fault, n, UpdateScenarioCheck(begun, s))
      ensures err.None? ==> s.id in old(db).scenarios && db == old(db).(scenarios := PutScenario(old(db).scenarios, s))
      ensures err.Some? ==> db == old(db)
    {
      if fault == AtStatement(n) { return Some(Internal); }
      if s.id !in db.scenarios || db.scenarios[s.id].version != s.version - 1 { return Some(StaleVersion); }
      var row := db.scenarios[s.id];
      db := db.(scenarios := db.scenarios[s.id := row.(status := s.status, version := s.version, updatedAt := s.updatedAt)]);
      return None;
    }

    method InsertScenarioReview(ghost begun: Db, r: Review, fault: Fault, n: nat) returns (err: Option<Error>)
      requires begun.scenarioReviews == db.scenarioReviews && begun.users == db.users && begun.scenarios.Keys == db.scenarios.Keys
      modifies this
      ensures err == Statement(fault, n, InsertScenarioReviewCheck(begun, r))
      ensures db == if err.None? then old(db).(scenarioReviews := old(db).scenarioReviews[r.id := r]) else old(db)
    {
      if fault == AtStatement(n) { return Some(Internal); }
      if r.id in db.scenarioReviews { return Some(AlreadyExists); }
      if r.subject !in db.scenarios || r.reviewer !in db.users { return Some(Invalid); }
      db := db.(scenarioReviews := db.scenarioReviews[r.id := r]);
      return None;
    }

    method ClaimCapacity(ghost begun: Db, r: Reservation, fault: Fault, n: nat) returns (err: Option<Error>)
      requires begun.sites == db.sites
      modifies this
      ensures err == Statement(fault, n, ClaimCapacityCheck(begun, r))
      ensures err.None? ==> r.site in old(db).sites && db == old(db).(sites := PutCapacity(old(db).sites, r.site, -r.units, r.createdAt))
      ensures err.Some? ==> db == old(db)
    {
      if fault == AtStatement(n) { return Some(Internal); }
      if r.site !in db.sites || db.sites[r.site].status != Active || db.sites[r.site].available < r.units { return Some(Capacity); }
      var row := db.sites[r.site];
      if !SiteCheck(row.total, row.available - r.units) { return Some(Invalid); }
      row := row.(available := row.available - r.units, version := row.version + 1);
      db := db.(sites := db.sites[r.site := row.(updatedAt := r.createdAt)]);
      return None;
    }

    method ReturnCapacity(ghost begun: Db, r: Reservation, fault: Fault, n: nat) returns (err: Option<Error>)
      requires begun.sites == db.sites
      modifies this
      ensures err == Statement(fault, n, ReturnCapacityCheck(begun, r))
      ensures err.None? ==> r.site in old(db).sites && db == old(db).(sites := PutCapacity(old(db).sites, r.site, r.units, r.updatedAt))
      ensures err.Some? ==> db == old(db)
    {
      if fault == AtStatement(n) { return Some(Internal); }
      if r.site !in db.sites || db.sites[r.site].available + r.units > db.sites[r.site].total { return Some(Conflict); }
      var row := db.sites[r.site];
      if !SiteCheck(row.total, row.available + r.units) { return Some(Invalid); }
      row := row.(available := row.available + r.units, version := row.version + 1);
      db := db.(sites := db.sites[r.site := row.(updatedAt := r.updatedAt)]);
      return None;
    }

    method InsertReservation(ghost begun: Db, r: Reservation, fault: Fault, n: nat) returns (err: Option<Error>)
      requires begun.reservations == db.reservations && begun.scenarios == db.scenarios && begun.users == db.users && begun.sites.Keys == db.sites.Keys
      modifies this
      ensures err == Statement(fault, n, InsertReservationCheck(begun, r))
      ensures db == if err.None? then old(db).(reservations := old(db).reservations[r.id := r]) else old(db)
    {
      if fault == AtStatement(n) { return Some(Internal); }
      if r.units <= 0 { return Some(Invalid); }
      if r.id in db.reservations { return Some(AlreadyExists); }
      if r.scenario !in db.scenarios || r.site !in db.sites || r.partner !in db.users { return Some(Invalid); }
      db := db.(reservations := db.reservations[r.id := r]);
      return None;
    }

    method EndReservation(ghost begun: Db, r: Reservation, confirmedOnly: bool, fault: Fault, n: nat) returns (err: Option<Error>)
      requires begun.reservations == db.reservations
      modifies this
      ensures err == Statement(fault, n, if confirmedOnly then EndConfirmedCheck(begun, r) else EndReservationCheck(begun, r))
      ensures err.None? ==> r.id in old(db).reservations && db == old(db).(reservations := PutReservation(old(db).reservations, r))
      ensures err.Some? ==> db == old(db)
    {
      if fault == AtStatement(n) { return Some(Internal); }
      if r.id !in db.reservations || db.reservations[r.id].version != r.version - 1 { return Some(StaleVersion); }
      var row := db.reservations[r.id];
      if row.status != Confirmed && (confirmedOnly || row.status != Pending) { return Some(StaleVersion); }
      db := db.(reservations := db.reservations[r.id := row.(status := r.status, version := r.version, updatedAt := r.updatedAt)]);
      return None;
    }

    method InsertDeployment(ghost begun: Db, d: Deployment, fault: Fault, n: nat) returns (err: Option<Error>)
      requires begun.deployments == db.deployments && begun.reservations == db.reservations
      modifies this
      ensures err == Statement(fault, n, InsertDeploymentCheck(begun, d))
      ensures db == if err.None? then old(db).(deployments := old(db).deployments[d.id := d]) else old(db)
    {
      if fault == AtStatement(n) { return Some(Internal); }
      if d.id in db.deployments { return Some(AlreadyExists); }
      if exists k | k in db.deployments :: db.deployments[k].reservation == d.reservation { return Some(AlreadyExists); }
      if d.reservation !in db.reservations { return Some(Invalid); }
      db := db.(deployments := db.deployments[d.id := d]);
      return None;
    }

    method UpdateDeployment(ghost begun: Db, d: Deployment, fault: Fault, n: nat) returns (err: Option<Error>)
      requires begun.deployments == db.deployments
      modifies this
      ensures err == Statement(fault, n, UpdateDeploymentCheck(begun, d))
      ensures err.None? ==> d.id in old(db).deployments && db == old(db).(deployments := PutDeployment(old(db).deployments, d))
      ensures err.Some? ==> db == old(db)
    {
      if fault == AtStatement(n) { return Some(Internal); }
      if d.id !in db.deployments || db.deployments[d.id].version != d.version - 1 { return Some(StaleVersion); }
      var row := db.deployments[d.id].(status := d.status, endpoint := d.endpoint, version := d.version);
      db := db.(deployments := db.deployments[d.id := row.(startedAt := d.startedAt, stoppedAt := d.stoppedAt, updatedAt := d.updatedAt)]);
      return None;
    }

    method InsertJob(ghost begun: Db, j: Job, fault: Fault, n: nat) returns (err: Option<Error>)
      requires begun.jobs == db.jobs
      modifies this
      ensures err == Statement(fault, n, InsertJobCheck(begun, j))
      ensures db == if err.None? then old(db).(jobs := old(db).jobs[j.id := j]) else old(db)
    {
      if fault == AtStatement(n) { return Some(Internal); }
      if j.maxAttempts <= 0 { return Some(Invalid); }
      if j.id in db.jobs { return Some(AlreadyExists); }
      if exists k | k in db.jobs :: db.jobs[k].kind == j.kind && db.jobs[k].aggregate == j.aggregate { return Some(AlreadyExists); }
      db := db.(jobs := db.jobs[j.id := j]);
      return None;
    }

    method InsertUsage(ghost begun: Db, u: Usage, fault: Fault, n: nat) returns (err: Option<Error>)
      requires begun.usage == db.usage && begun.deployments == db.deployments && begun.users == db.users
      modifies this
      ensures err == Statement(fault, n, InsertUsageCheck(begun, u))
      ensures db == if err.None? then old(db).(usage := old(db).usage[u.id := u]) else old(db)
    {
      hide SqlLe;
      if fault == AtStatement(n) { return Some(Internal); }
      if SqlLe(u.end, u.start) { return Some(Internal); }
      if u.unitSeconds < 0 { return Some(Invalid); }
      if u.id in db.usage { return Some(AlreadyExists); }
      if exists k | k in db.usage :: db.usage[k].deployment == u.deployment && db.usage[k].start == u.start && db.usage[k].end == u.end {
        return Some(AlreadyExists);
      }
      if u.deployment !in db.deployments || u.partner !in db.users { return Some(Invalid); }
      db := db.(usage := db.usage[u.id := u]);
      return None;
    }

    /** The usage row that the settlement refers to may be the one just inserted. */
    method InsertSettlement(ghost begun: Db, ghost u: Usage, s: Settlement, fault: Fault, n: nat) returns (err: Option<Error>)
      requires begun.settlements == db.settlements && begun.users == db.users && db.usage == begun.usage[u.id := u]
      modifies this
      ensures err == Statement(fault, n, InsertSettlementCheck(begun, u, s))
      ensures db == if err.None? then old(db).(settlements := old(db).settlements[s.id := s]) else old(db)
    {
      if fault == AtStatement(n) { return Some(Internal); }
      if s.amount < 0 { return Some(Invalid); }
      if s.id in db.settlements { return Some(AlreadyExists); }
      if exists k | k in db.settlements :: db.settlements[k].usage == s.usage { return Some(AlreadyExists); }
      if s.usage !in db.usage || s.partner !in db.users { return Some(Invalid); }
      db := db.(settlements := db.settlements[s.id := s]);
      return None;
    }

    method InsertAudit(ghost begun: Db, e: Audit, fault: Fault, n: nat) returns (err: Option<Error>)
      requires begun.audit == db.audit
      modifies this
      ensures err == Statement(fault, n, InsertAuditCheck(begun, e))
      ensures db == if err.None? then old(db).(audit := old(db).audit[e.id := e]) else old(db)
    {
      if fault == AtStatement(n) { return Some(Internal); }
      if e.id in db.audit { return Some(AlreadyExists); }
      db := db.(audit := db.audit[e.id := e]);
      return None;
    }

    // ----------------------------------------------------------- transactions

    method CreateSite(s: Site, fault: Fault) returns (err: Option<Error>)
      modifies this
      ensures err == Refusal(old(db), Tx.InsertSite(s), fault)
      ensures db == After(old(db), Tx.InsertSite(s), fault)
    {
      hide InsertSiteCheck;
      if fault == AtBegin { return Some(Internal); }
      var saved := db;
      err := InsertSite(saved, s, fault, 1);
      err := Conclude(saved, err, fault);
    }

    method ReviewSite(s: Site, r: Review, e: Audit, fault: Fault) returns (err: Option<Error>)
      modifies this
      ensures err == Refusal(old(db), ReviewSiteTx(s, r, e), fault)
      ensures db == After(old(db), ReviewSiteTx(s, r, e), fault)
    {
      hide UpdateSiteCheck, UpdateDraftSiteCheck, InsertSiteReviewCheck, InsertAuditCheck;
      if fault == AtBegin { return Some(Internal); }
      var saved := db;
      err := UpdateSite(saved, s, true, fault, 1);
      if err.None? { err := InsertSiteReview(saved, r, fault, 2); }
      if err.None? { err := InsertAudit(saved, e, fault, 3); }
      err := Conclude(saved, err, fault);
    }

    method TransitionSite(s: Site, e: Audit, fault: Fault) returns (err: Option<Error>)
      modifies this
      ensures err == Refusal(old(db), TransitionSiteTx(s, e), fault)
      ensures db == After(old(db), TransitionSiteTx(s, e), fault)
    {
      hide UpdateSiteCheck, UpdateDraftSiteCheck, InsertAuditCheck;
      if fault == AtBegin { return Some(Internal); }
      var saved := db;
      err := UpdateSite(saved, s, false, fault, 1);
      if err.None? { err := InsertAudit(saved, e, fault, 2); }
      err := Conclude(saved, err, fault);
    }

    method CreateScenario(s: Scenario, fault: Fault) returns (err: Option<Error>)
      modifies this
      ensures err == Refusal(old(db), Tx.InsertScenario(s), fault)
      ensures db == After(old(db), Tx.InsertScenario(s), fault)
    {
      hide InsertScenarioCheck;
      if fault == AtBegin { return Some(Internal); }
      var saved := db;
      err := InsertScenario(saved, s, fault, 1);
      err := Conclude(saved, err, fault);
    }

    method StartScenarioReview(s: Scenario, e: Audit, fault: Fault) returns (err: Option<Error>)
      modifies this
      ensures err == Refusal(old(db), StartReviewTx(s, e), fault)
      ensures db == After(old(db), StartReviewTx(s, e), fault)
    {
      hide UpdateScenarioCheck, InsertAuditCheck;
      if fault == AtBegin { return Some(Internal); }
      var saved := db;
      err := UpdateScenario(saved, s, fault, 1);
      if err.None? { err := InsertAudit(saved, e, fault, 2); }
      err := Conclude(saved, err, fault);
    }

    method DecideScenario(s: Scenario, r: Review, e: Audit, fault: Fault) returns (err: Option<Error>)
      modifies this
      ensures err == Refusal(old(db), DecideTx(s, r, e), fault)
      ensures db == After(old(db), DecideTx(s, r, e), fault)
    {
      hide UpdateScenarioCheck, InsertScenarioReviewCheck, InsertAuditCheck;
      if fault == AtBegin { return Some(Internal); }
      var saved := db;
      err := UpdateScenario(saved, s, fault, 1);
      if err.None? { err := InsertScenarioReview(saved, r, fault, 2); }
      if err.None? { err := InsertAudit(saved, e, fault, 3); }
      err := Conclude(saved, err, fault);
    }

    method CreateReservation(r: Reservation, j: Job, e: Audit, fault: Fault) returns (err: Option<Error>)
      modifies this
      ensures err == Refusal(old(db), CreateReservationTx(r, j, e), fault)
      ensures db == After(old(db), CreateReservationTx(r, j, e), fault)
    {
      hide ClaimCapacityCheck, InsertReservationCheck, InsertJobCheck, InsertAuditCheck;
      if fault == AtBegin { return Some(Internal); }
      var saved := db;
      err := ClaimCapacity(saved, r, fault, 1);
      if err.None? { err := InsertReservation(saved, r, fault, 2); }
      if err.None? { err := InsertJob(saved, j, fault, 3); }
      if err.None? { err := InsertAudit(saved, e, fault, 4); }
      err := Conclude(saved, err, fault);
    }

    method ChangeReservationAndReturnCapacity(r: Reservation, e: Audit, fault: Fault) returns (err: Option<Error>)
      modifies this
      ensures err == Refusal(old(db), ReturnTx(r, e), fault)
      ensures db == After(old(db), ReturnTx(r, e), fault)
    {
      hide ReturnCapacityCheck, EndReservationCheck, EndConfirmedCheck, InsertAuditCheck;
      if fault == AtBegin { return Some(Internal); }
      var saved := db;
      err := EndReservation(saved, r, false, fault, 1);
      if err.None? { err := ReturnCapacity(saved, r, fault, 2); }
      if err.None? { err := InsertAudit(saved, e, fault, 3); }
      err := Conclude(saved, err, fault);
    }

    method CreateDeployment(d: Deployment, j: Job, e: Audit, fault: Fault) returns (err: Option<Error>)
      modifies this
      ensures err == Refusal(old(db), CreateDeploymentTx(d, j, e), fault)
      ensures db == After(old(db), CreateDeploymentTx(d, j, e), fault)
    {
      hide InsertDeploymentCheck, InsertJobCheck, InsertAuditCheck;
      if fault == AtBegin { return Some(Internal); }
      var saved := db;
      err := InsertDeployment(saved, d, fault, 1);
      if err.None? { err := InsertJob(saved, j, fault, 2); }
      if err.None? { err := InsertAudit(saved, e, fault, 3); }
      err := Conclude(saved, err, fault);
    }

    method TransitionDeployment(d: Deployment, e: Audit, fault: Fault) returns (err: Option<Error>)
      modifies this
      ensures err == Refusal(old(db), TransitionDeploymentTx(d, e), fault)
      ensures db == After(old(db), TransitionDeploymentTx(d, e), fault)
    {
      hide UpdateDeploymentCheck, InsertAuditCheck;
      if fault == AtBegin { return Some(Internal); }
      var saved := db;
      err := UpdateDeployment(saved, d, fault, 1);
      if err.None? { err := InsertAudit(saved, e, fault, 2); }
      err := Conclude(saved, err, fault);
    }

    method StopDeploymentAndRelease(d: Deployment, r: Reservation, e: Audit, fault: Fault) returns (err: Option<Error>)
      modifies this
      ensures err == Refusal(old(db), StopReleaseTx(d, r, e), fault)
      ensures db == After(old(db), StopReleaseTx(d, r, e), fault)
    {
      hide ReturnCapacityCheck, EndReservationCheck, EndConfirmedCheck, UpdateDeploymentCheck, InsertAuditCheck;
      if fault == AtBegin { return Some(Internal); }
      var saved := db;
      err := UpdateDeployment(saved, d, fault, 1);
      if err.None? { err := EndReservation(saved, r, true, fault, 2); }
      if err.None? { err := ReturnCapacity(saved, r, fault, 3); }
      if err.None? { err := InsertAudit(saved, e, fault, 4); }
      err := Conclude(saved, err, fault);
    }

    method RecordUsageAndSettlement(u: Usage, s: Settlement, e: Audit, fault: Fault) returns (err: Option<Error>)
      modifies this
      ensures err == Refusal(old(db), RecordUsageTx(u, s, e), fault)
      ensures db == After(old(db), RecordUsageTx(u, s, e), fault)
    {
      hide SqlLe, InsertUsageCheck, InsertSettlementCheck, InsertAuditCheck;
      if fault == AtBegin { return Some(Internal); }
      var saved := db;
      err := InsertUsage(saved, u, fault, 1);
      if err.None? { err := InsertSettlement(saved, u, s, fault, 2); }
      if err.None? { err := InsertAudit(saved, e, fault, 3); }
      err := Conclude(saved, err, fault);
    }

    // ------------------------------------------------------------------- jobs

    /** The claiming UPDATE; it counts the rows it changed. */
    method UpdateLease(id: Id, owner: Id, until: Instant, now: Instant) returns (changed: nat)
      modifies this
      ensures changed == if id in old(db).jobs && Unleased(old(db).jobs[id], now) then 1 else 0
      ensures changed == 1 ==> db == old(db).(jobs := old(db).jobs[id := old(db).jobs[id].(status := JobRunning,
                attempts := old(db).jobs[id].attempts + 1, leaseOwner := Some(owner), leaseUntil := Some(until), updatedAt := now)])
      ensures changed == 0 ==> db == old(db)
    {
      hide SqlLe;
      if id !in db.jobs || !Unleased(db.jobs[id], now) { return 0; }
      var row := db.jobs[id].(status := JobRunning, leaseOwner := Some(owner), leaseUntil := Some(until), updatedAt := now);
      db := db.(jobs := db.jobs[id := row.(attempts := row.attempts + 1)]);
      return 1;
    }

    /** Claims the next due job, if there is one.  What the SELECT returned always
        satisfies the UPDATE, so a claim never ends in a conflict. */
    method ClaimJob(owner: Id, now: Instant, lease: nat, fault: Fault) returns (r: Result<Job>)
      requires forall k :: k in db.jobs ==> db.jobs[k].id == k
      modifies this
      ensures r.Ok? ==> IsNext(old(db).jobs, now, r.value.id) && r.value.id in old(db).jobs
      ensures r.Ok? ==> r.value == ClaimedRow(old(db).jobs[r.value.id], owner, now, lease)
                        && db == old(db).(jobs := Claimed(old(db).jobs, r.value.id, owner, now, lease))
      ensures r.Err? ==> db == old(db) && (r.error == NotFound || r.error == Internal)
      ensures fault == NoFault ==> r != Err(Internal)
      ensures r == Err(NotFound) ==> Idle(db.jobs, now)
      ensures r.Ok? ==> !Idle(old(db).jobs, now)
      // the row that is due first, taken for as long as was asked
      ensures r.Ok? ==> forall k :: k in old(db).jobs && Claimable(old(db).jobs[k], now) ==> NoLater(old(db).jobs[r.value.id], old(db).jobs[k])
      ensures r.Ok? ==> r.value.status == JobRunning && r.value.leaseOwner == Some(owner) && r.value.leaseUntil == Some(now + lease)
                        && r.value.attempts == old(db).jobs[r.value.id].attempts + 1
    {
      hide SqlLe, Before, NoLater;
      if fault == AtBegin || fault == AtStatement(1) { return Err(Internal); }
      if Idle(db.jobs, now) { return Err(NotFound); }
      NextExists(db.jobs, now);
      var saved := db;
      var id: Id :| id in db.jobs && IsNext(db.jobs, now, id);
      forall k | k in db.jobs && Claimable(db.jobs[k], now) ensures NoLater(db.jobs[id], db.jobs[k]) {
        NextIsEarliest(db.jobs, now, id, k);
      }
      var item := db.jobs[id];
      if fault == AtStatement(2) { return Err(Internal); }
      var until := now + lease;
      var changed := UpdateLease(item.id, owner, until, now);
      var err := Conclude(saved, RequireChanged(changed, Conflict), fault);
      item := item.(status := JobRunning, attempts := item.attempts + 1, leaseOwner := Some(owner));
      item := item.(leaseUntil := Some(until), updatedAt := now);
      r := Outcome(err, item);
    }

    method CompleteJob(id: Id, owner: Id, now: Instant, fault: Fault) returns (err: Option<Error>)
      modifies this
      ensures err == if fault != NoFault then Some(Internal) else Require(OwnedBy(old(db).jobs, id, owner), Conflict)
      ensures db == if err.None? then old(db).(jobs := Completed(old(db).jobs, id, owner, now)) else old(db)
      ensures err.None? ==> old(db).jobs[id].status == JobRunning && old(db).jobs[id].leaseOwner == Some(owner)
      ensures err.None? ==> db.jobs == old(db).jobs[id := old(db).jobs[id].(status := JobSucceeded, leaseOwner := None,
                leaseUntil := None, lastError := None, updatedAt := now)]
    {
      if fault != NoFault { return Some(Internal); }
      if !OwnedBy(db.jobs, id, owner) { return Some(Conflict); }
      var row := db.jobs[id].(status := JobSucceeded, leaseOwner := None, leaseUntil := None);
      db := db.(jobs := db.jobs[id := row.(lastError := None, updatedAt := now)]);
      return None;
    }

    method RetryJob(job: Job, error: Error, now: Instant, fault: Fault) returns (err: Option<Error>)
      modifies this
      ensures err == if fault != NoFault then Some(Internal) else Require(OwnedBy(old(db).jobs, job.id, OwnerOf(job)), Conflict)
      ensures db == if err.None? then old(db).(jobs := Retried(old(db).jobs, job, OwnerOf(job), error, now)) else old(db)
      ensures err.None? ==> old(db).jobs[job.id].status == JobRunning && old(db).jobs[job.id].leaseOwner == Some(OwnerOf(job))
      ensures err.None? ==> db.jobs == old(db).jobs[job.id := old(db).jobs[job.id].(
                status := if job.attempts < job.maxAttempts then JobPending else JobFailed,
                availableAt := if job.attempts < job.maxAttempts then now + DelayAfter(job.attempts) else now,
                leaseOwner := None, leaseUntil := None, lastError := Some(error), updatedAt := now)]
    {
      var status, available := JobPending, now + Backoff(job.attempts);
      if job.attempts >= job.maxAttempts {
        status := JobFailed;
        available := now;
      }
      if fault != NoFault { return Some(Internal); }
      if !OwnedBy(db.jobs, job.id, OwnerOf(job)) { return Some(Conflict); }
      var row := db.jobs[job.id].(status := status, availableAt := available, leaseOwner := None, leaseUntil := None);
      db := db.(jobs := db.jobs[job.id := row.(lastError := Some(error), updatedAt := now)]);
      return None;
    }

    method CancelJob(id: Id, now: Instant, fault: Fault) returns (err: Option<Error>)
      modifies this
      ensures err == if fault != NoFault then Some(Internal)
                     else Require(id in old(db).jobs && Live(old(db).jobs[id]), Conflict)
      ensures db == if err.None? then old(db).(jobs := Cancelled(old(db).jobs, id, now)) else old(db)
      ensures fault == NoFault ==> (err.None? <==> id in old(db).jobs && old(db).jobs[id].status in {JobPending, JobRunning})
      ensures err.None? ==> id in old(db).jobs && db.jobs == old(db).jobs[id := old(db).jobs[id].(status := JobCancelled,
                leaseOwner := None, leaseUntil := None, updatedAt := now)]
    {
      if fault != NoFault { return Some(Internal); }
      if id !in db.jobs || !Live(db.jobs[id]) { return Some(Conflict); }
      db := db.(jobs := db.jobs[id := db.jobs[id].(status := JobCancelled, leaseOwner := None, leaseUntil := None, updatedAt := now)]);
      return None;
    }
  }

  /** One second after the first attempt, doubled with each further one up to 128 seconds. */
  function DelayAfter(attempts: int): nat {
    1_000_000_000 * if attempts <= 1 then 1 else if attempts >= 8 then 128 else [2, 4, 8, 16, 32, 64][attempts - 2]
  }

  /** The WHERE clause of the claiming UPDATE. */
  predicate Unleased(j: Job, now: Instant) {
    j.status == JobPending || j.leaseUntil.None? || SqlLe(j.leaseUntil.value, now)
  }

  function RequireChanged(count: nat, conflict: Error): Option<Error> { Require(count == 1, conflict) }

  function Outcome<T>(err: Option<Error>, value: T): Result<T> { if err.Some? then Err(err.value) else Ok(value) }

  function OwnerOf(job: Job): Id { if job.leaseOwner.Some? then job.leaseOwner.value else "" }

  /** The row with the given id, as the `Find…` queries return it. */
  function Lookup<T>(table: map<Id, T>, id: Id): Result<T> { if id in table then Ok(table[id]) else Err(NotFound) }
}
