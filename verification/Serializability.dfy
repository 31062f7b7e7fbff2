/** Interleaved calls against calls that run alone: every commit leaves the tables
    and the answer of the same call run from its first read at that moment, with
    three exceptions whose exact conditions are proved. */
module Serializability {
  import opened Basics
  import opened Timestamps
  import opened Domain
  import opened Transactions
  import opened Queue
  import opened Calls
  import opened Invariants
  import opened Preservation
  import opened System
  import opened Reachable

  // ------------------------------------------------ a call that runs alone

  function ReadsLeft(seen: Reads): nat {
    match seen case NoReads => 2 case ScenarioRead(_) => 1 case DeploymentRead(_) => 1 case _ => 0
  }

  /** Reads everything in one go. */
  function ReadAll(db: Db, req: Request, seen: Reads): Call
    decreases ReadsLeft(seen)
  {
    match Screen(req, seen)
    case Some(e) => Done(req, Err(e))
    case None =>
      match Fetch(db, req.op, seen)
      case Missing => Done(req, Err(NotFound))
      case Found(more) => ReadAll(db, req, more)
      case Complete => Ongoing(req, seen)
  }

  /** The call from its first read to its next commit, with nothing in between. */
  function Alone(db: Db, req: Request, fault: Fault): (Db, Call) {
    match ReadAll(db, req, NoReads)
    case Done(_, result) => (db, Done(req, result))
    case Ongoing(_, seen) => CommitStep(db, req, seen, fault)
  }

  /** The call to its end with nothing in between; an activation may commit twice. */
  function ToEnd(db: Db, req: Request, first: Fault, second: Fault): (Db, Call) {
    var (db', call') := Alone(db, req, first);
    if call'.Ongoing? then CommitStep(db', req, call'.seen, second) else (db', call')
  }

  // ------------------------------------------- a call alone, read by read

  /** What a call alone comes to when it goes on with the given snapshots. */
  function From(db: Db, req: Request, seen: Reads, fault: Fault): (Db, Call) {
    match ReadAll(db, req, seen)
    case Done(_, result) => (db, Done(req, result))
    case Ongoing(_, all) => CommitStep(db, req, all, fault)
  }

  /** What a plan comes to. */
  function PlannedTo(db: Db, req: Request, plan: Plan, fault: Fault): (Db, Call) {
    match plan
    case Refuse(e) => (db, Done(req, Err(e)))
    case Finish(answer) => (db, Done(req, Ok(answer)))
    case Submit(tx, answer, again) =>
      (After(db, tx, fault),
       match Refusal(db, tx, fault)
       case Some(e) => Done(req, Err(e))
       case None => if again.Some? then Ongoing(req, again.value) else Done(req, Ok(answer)))
  }

  lemma FromReads(db: Db, req: Request, seen: Reads, fault: Fault)
    ensures Screen(req, seen).Some? ==> From(db, req, seen, fault) == (db, Done(req, Err(Screen(req, seen).value)))
    ensures Screen(req, seen).None? ==>
      match Fetch(db, req.op, seen)
      case Missing => From(db, req, seen, fault) == (db, Done(req, Err(NotFound)))
      case Found(more) => From(db, req, seen, fault) == From(db, req, more, fault)
      case Complete => From(db, req, seen, fault) == PlannedTo(db, req, PlanOf(req, seen), fault)
  {
    hide Refusal, Written, PlanOf;
  }

  lemma AloneReads(db: Db, req: Request, fault: Fault)
    ensures Alone(db, req, fault) == From(db, req, NoReads, fault)
  {
    hide CommitStep;
  }

  // --------------------------------------------------------- fresh snapshots

  /** The snapshots are the rows as they are now. */
  predicate Current(db: Db, seen: Reads) {
    match seen
    case NoReads => true
    case SiteRead(s) => s.id in db.sites && db.sites[s.id] == s
    case ScenarioRead(s) => s.id in db.scenarios && db.scenarios[s.id] == s
    case ReservationRead(r) => r.id in db.reservations && db.reservations[r.id] == r
    case DeploymentRead(d) => d.id in db.deployments && db.deployments[d.id] == d
    case ScenarioSiteRead(s, site) =>
      s.id in db.scenarios && db.scenarios[s.id] == s && site.id in db.sites && db.sites[site.id] == site
    case DeploymentReservationRead(d, r) =>
      d.id in db.deployments && db.deployments[d.id] == d && r.id in db.reservations && db.reservations[r.id] == r
  }

  /** A call about to commit: all its reads done, none of its checks failed. */
  predicate AboutToCommit(db: Db, req: Request, seen: Reads) {
    SnapsOk(db, req.op, seen) && Admitted(req, seen) && Screen(req, seen).None? && Fetch(db, req.op, seen).Complete?
  }

  /** With fresh snapshots nothing distinguishes the call from one that runs alone. */
  lemma CurrentIsAlone(db: Db, req: Request, seen: Reads, fault: Fault)
    requires AboutToCommit(db, req, seen) && Current(db, seen)
    ensures Alone(db, req, fault) == CommitStep(db, req, seen, fault)
  {
    hide CommitStep;
    match seen
    case ScenarioSiteRead(s, _) => assert ReadAll(db, req, ScenarioRead(s)) == Ongoing(req, seen);
    case DeploymentReservationRead(d, _) => assert ReadAll(db, req, DeploymentRead(d)) == Ongoing(req, seen);
    case _ => assert ReadAll(db, req, seen) == Ongoing(req, seen);
  }

  /** The three kinds of commit whose transaction does not look again at everything
      that was read. */
  predicate LooksAway(req: Request, seen: Reads) {
    || req.op.CreateDeployment?
    || req.op.RecordUsage?
    || (req.op.Stop? && seen.DeploymentReservationRead? && seen.deployment.status == Running)
  }

  /** The condition a caller could check in the tables right before such a commit. */
  predicate StillValid(db: Db, req: Request, seen: Reads) {
    match seen
    case ReservationRead(r) => r.id in db.reservations && db.reservations[r.id].status == Confirmed
    case DeploymentReservationRead(d, r) =>
      if req.op.Stop? then r.id in db.reservations && db.reservations[r.id].version == req.op.reservationVersion
      else d.id in db.deployments && (db.deployments[d.id].status == Running || db.deployments[d.id].status == Stopped)
    case _ => true
  }

  /** A version-checked commit succeeds only from fresh snapshots. */
  lemma CheckedIsCurrent(db: Db, req: Request, seen: Reads)
    requires AboutToCommit(db, req, seen) && Commits(db, PlanOf(req, seen))
    requires !req.op.Reserve? && !LooksAway(req, seen)
    ensures Current(db, seen)
  {
    hide SqlLe, Timestamp;
  }

  lemma ApprovedStays(db: Db, req: Request, seen: Reads)
    requires AboutToCommit(db, req, seen) && req.op.Reserve? && ScenariosOk(db.scenarios) && PlanOf(req, seen).Submit?
    ensures seen.ScenarioSiteRead? && RoleCheck(req.actor, req.op).None?
    ensures seen.scenario.id == req.op.scenario && req.op.scenario in db.scenarios && req.op.site in db.sites
    ensures db.scenarios[req.op.scenario] == seen.scenario
  {
    assert ScenarioPast(seen.scenario, db.scenarios[req.op.scenario]);
  }

  /** The stored site would have led to the same plan. */
  lemma SamePlan(db: Db, req: Request, seen: Reads)
    requires seen.ScenarioSiteRead? && req.op.Reserve? && SiteSnap(db, req.op.site, seen.site) && Commits(db, PlanOf(req, seen))
    ensures PlanOf(req, ScenarioSiteRead(seen.scenario, db.sites[req.op.site])) == PlanOf(req, seen)
  {
    hide SqlLe, Timestamp;
  }

  lemma ReserveReads(db: Db, req: Request, s: Scenario, fault: Fault)
    requires req.op.Reserve? && RoleCheck(req.actor, req.op).None?
    requires req.op.scenario in db.scenarios && db.scenarios[req.op.scenario] == s && req.op.site in db.sites
    ensures Alone(db, req, fault) == CommitStep(db, req, ScenarioSiteRead(s, db.sites[req.op.site]), fault)
  {
    hide CommitStep;
    var now := ScenarioSiteRead(s, db.sites[req.op.site]);
    assert ReadAll(db, req, ScenarioRead(s)) == Ongoing(req, now);
  }

  /** A reservation may have been planned from an old site row, but its transaction
      asks the stored row for everything the plan asked the old one, and an
      approved scenario never changes. */
  lemma ReserveIsAlone(db: Db, req: Request, seen: Reads, fault: Fault)
    requires AboutToCommit(db, req, seen) && req.op.Reserve? && ScenariosOk(db.scenarios)
    requires Commits(db, PlanOf(req, seen))
    ensures Alone(db, req, fault) == CommitStep(db, req, seen, fault)
  {
    var s, row := seen.scenario, db.sites[req.op.site];
    var now := ScenarioSiteRead(s, row);
    ApprovedStays(db, req, seen);
    SamePlan(db, req, seen);
    hide PlanOf, DemandsOf, Refusal, Written, SnapsOk, Admitted, Alone;
    assert CommitStep(db, req, now, fault) == CommitStep(db, req, seen, fault);
    hide CommitStep;
    ReserveReads(db, req, s, fault);
  }

  /** A deployment is created from a stale reservation exactly when the reservation
      ended after it was read. */
  lemma CreateDeploymentAlone(db: Db, req: Request, seen: Reads, fault: Fault)
    requires AboutToCommit(db, req, seen) && req.op.CreateDeployment? && Qualified(db.reservations, db.scenarios)
    requires Commits(db, PlanOf(req, seen)) && Refusal(db, PlanOf(req, seen).tx, fault).None?
    ensures Alone(db, req, fault) == CommitStep(db, req, seen, fault) <==> StillValid(db, req, seen)
  {
    var r := seen.reservation;
    var row := db.reservations[req.op.reservation];
    assert ReservationPast(r, row) && ReservationShape(row);
    if row.status == Confirmed {
      assert Current(db, seen);
      CurrentIsAlone(db, req, seen, fault);
    } else {
      assert ReadAll(db, req, ReservationRead(row)) == Ongoing(req, ReservationRead(row));
      assert PlanOf(req, ReservationRead(row)) == Refuse(IllegalState);
    }
  }

  /** The first phase of a stop ignores a reservation that changed after it was
      read; alone it would have refused. */
  lemma StopStartAlone(db: Db, req: Request, seen: Reads, fault: Fault)
    requires AboutToCommit(db, req, seen) && req.op.Stop? && LooksAway(req, seen)
    requires Commits(db, PlanOf(req, seen)) && Refusal(db, PlanOf(req, seen).tx, fault).None?
    ensures Alone(db, req, fault) == CommitStep(db, req, seen, fault) <==> StillValid(db, req, seen)
  {
    var d, r := seen.deployment, seen.reservation;
    var row := db.reservations[d.reservation];
    assert ReservationPast(r, row) && DeploymentPast(d, db.deployments[d.id]);
    assert db.deployments[d.id] == d;
    if row.version == req.op.reservationVersion {
      CurrentIsAlone(db, req, seen, fault);
    } else {
      var now := DeploymentReservationRead(d, row);
      assert ReadAll(db, req, DeploymentRead(d)) == Ongoing(req, now);
      assert PlanOf(req, now) == Refuse(StaleVersion);
    }
  }

  /** Usage is metered for a deployment that stopped being meterable exactly when
      that happened after it was read. */
  lemma RecordUsageAlone(db: Db, req: Request, seen: Reads, fault: Fault)
    requires AboutToCommit(db, req, seen) && req.op.RecordUsage?
    requires Commits(db, PlanOf(req, seen)) && Refusal(db, PlanOf(req, seen).tx, fault).None?
    ensures Alone(db, req, fault) == CommitStep(db, req, seen, fault) <==> StillValid(db, req, seen)
  {
    var d, r := seen.deployment, seen.reservation;
    var row, kept := db.deployments[d.id], db.reservations[d.reservation];
    assert DeploymentPast(d, row) && ReservationPast(r, kept);
    var now := DeploymentReservationRead(row, kept);
    if row.status == Running || row.status == Stopped {
      assert PlanOf(req, now) == PlanOf(req, seen);
      assert CommitStep(db, req, now, fault) == CommitStep(db, req, seen, fault);
      hide CommitStep, DemandsOf, PlanOf;
      assert ReadAll(db, req, DeploymentRead(row)) == Ongoing(req, now);
    } else {
      assert ReadAll(db, req, DeploymentRead(row)) == Done(req, Err(IllegalState));
    }
  }

  /** Every commit of every reachable state is the commit of the same call run alone,
      except where a call looks away from a row that is no longer valid. */
  lemma CommitsAreAlone(db: Db, req: Request, seen: Reads, fault: Fault)
    requires DbInv(db) && AboutToCommit(db, req, seen)
    requires Commits(db, PlanOf(req, seen)) && Refusal(db, PlanOf(req, seen).tx, fault).None?
    ensures Alone(db, req, fault) == CommitStep(db, req, seen, fault)
            <==> (LooksAway(req, seen) ==> StillValid(db, req, seen))
  {
    assert ScenariosOk(db.scenarios) && Qualified(db.reservations, db.scenarios);
    hide DbInv;
    if req.op.Reserve? { ReserveIsAlone(db, req, seen, fault); }
    else if req.op.CreateDeployment? { CreateDeploymentAlone(db, req, seen, fault); }
    else if req.op.RecordUsage? { RecordUsageAlone(db, req, seen, fault); }
    else if LooksAway(req, seen) { StopStartAlone(db, req, seen, fault); }
    else {
      CheckedIsCurrent(db, req, seen);
      CurrentIsAlone(db, req, seen, fault);
    }
  }

  // ----------------------------------------------------- a serial schedule

  /** One operation of a serial schedule.  `Whole` is a call run alone to its next
      commit; `Late` is a commit that looked away from a row that had become invalid,
      and stands with the snapshots that it was planned from. */
  datatype Serial =
    | Whole(request: Request, fault: Fault)
    | Late(request: Request, seen: Reads, fault: Fault)
    | Leased(job: Id, owner: Id, now: Instant, lease: nat)
    | Concluded(claimed: Job, owner: Id, error: Option<Error>, now: Instant)
    | Withdrawn(job: Id, now: Instant)
    | UserAdded(user: Id)

  function SerialStep(db: Db, op: Serial): Db {
    match op
    case Whole(req, fault) => Alone(db, req, fault).0
    case Late(req, seen, fault) => CommitStep(db, req, seen, fault).0
    case Leased(id, owner, now, lease) =>
      if id in db.jobs then db.(jobs := Claimed(db.jobs, id, owner, now, lease)) else db
    case Concluded(job, owner, error, now) => db.(jobs := SettledJobs(db.jobs, owner, job, error, now))
    case Withdrawn(id, now) => db.(jobs := Cancelled(db.jobs, id, now))
    case UserAdded(user) => db.(users := db.users + {user})
  }

  function SerialRun(db: Db, ops: seq<Serial>): Db
    decreases |ops|
  {
    if ops == [] then db else SerialRun(SerialStep(db, ops[0]), ops[1..])
  }

  /** What a step of a call contributes: its commit, if it commits. */
  function CommitOf(db: Db, call: Call, fault: Fault): seq<Serial> {
    match call
    case Done(_, _) => []
    case Ongoing(req, seen) =>
      if Screen(req, seen).None? && Fetch(db, req.op, seen).Complete? && PlanOf(req, seen).Submit?
         && Refusal(db, PlanOf(req, seen).tx, fault).None?
      then [if LooksAway(req, seen) && !StillValid(db, req, seen) then Late(req, seen, fault) else Whole(req, fault)]
      else []
  }

  function SerialOf(s: State, step: Step): seq<Serial> {
    match step
    case AddUser(user) => [UserAdded(user)]
    case Proceed(id, fault) => if id in s.calls then CommitOf(s.db, s.calls[id], fault) else []
    case HandlerStep(owner, fault) =>
      var w := WorkerOf(s, owner);
      if w.Handling? then CommitOf(s.db, w.call, fault) else []
    case Claim(owner, id, now, lease, fault) =>
      if WorkerOf(s, owner).Resting? && fault == NoFault && IsNext(s.db.jobs, now, id)
      then [Leased(id, owner, now, lease)] else []
    case Settle(owner, now, fault) =>
      var w := WorkerOf(s, owner);
      if w.Settling? && fault == NoFault then [Concluded(w.job, owner, w.error, now)] else []
    case Cancel(id, now) => [Withdrawn(id, now)]
    case _ => []
  }

  function ScheduleOf(s: State, steps: seq<Step>): seq<Serial>
    decreases |steps|
  {
    if steps == [] then [] else SerialOf(s, steps[0]) + ScheduleOf(Next(s, steps[0]), steps[1..])
  }

  lemma CallIsSerial(db: Db, call: Call, fault: Fault)
    requires DbInv(db) && CallOk(db, call)
    ensures CallStep(db, call, fault).0 == SerialRun(db, CommitOf(db, call, fault))
  {
    if call.Ongoing? && CommitOf(db, call, fault) != [] {
      var req, seen := call.request, call.seen;
      hide DbInv, SnapsOk, DemandsOf, PlanOf, Alone, LooksAway, StillValid;
      CommitsAreAlone(db, req, seen, fault);
      assert CallStep(db, call, fault) == CommitStep(db, req, seen, fault);
      assert SerialRun(db, CommitOf(db, call, fault)) == SerialStep(db, CommitOf(db, call, fault)[0]);
    } else if call.Ongoing? {
      hide DbInv, SnapsOk, DemandsOf, PlanOf;
    }
  }

  lemma SerialNothing(db: Db)
    ensures SerialRun(db, []) == db
  {
  }

  lemma SerialSingle(db: Db, op: Serial)
    ensures SerialRun(db, [op]) == SerialStep(db, op)
  {
    assert [op][1..] == [];
  }

  lemma HandlerIsSerial(s: State, owner: Id, fault: Fault)
    requires Inv(s)
    ensures Next(s, HandlerStep(owner, fault)).db == SerialRun(s.db, SerialOf(s, HandlerStep(owner, fault)))
  {
    hide CallStep, CommitOf, DbInv, CallOk, Counted, Fenced, LeasesRespected, HoldsJob, HandlerOp, Achieved;
    if WorkerOf(s, owner).Handling? {
      assert WorkerOk(s.db, owner, s.workers[owner]);
      CallIsSerial(s.db, s.workers[owner].call, fault);
    }
  }

  lemma QueueIsSerial(s: State, step: Step)
    requires step.Claim? || step.Settle? || step.Cancel? || step.AddUser?
    requires JobsOk(s.db.jobs)
    ensures Next(s, step).db == SerialRun(s.db, SerialOf(s, step))
  {
    hide IsNext, SettledJobs, Cancelled, JobsOk, CallStep, CommitOf, Alone, CommitStep, SerialRun;
    SerialNothing(s.db);
    if SerialOf(s, step) != [] {
      SerialSingle(s.db, SerialOf(s, step)[0]);
    }
    if step.Claim? && IsNext(s.db.jobs, step.now, step.job) {
      NextIsThere(s.db.jobs, step.now, step.job);
    }
  }

  lemma ProceedIsSerial(s: State, id: Id, fault: Fault)
    requires Inv(s)
    ensures Next(s, Proceed(id, fault)).db == SerialRun(s.db, SerialOf(s, Proceed(id, fault)))
  {
    hide CallStep, CommitOf, DbInv, CallOk, Counted, Fenced, LeasesRespected, WorkerOk, IsNext, SettledJobs, Cancelled;
    if id in s.calls { CallIsSerial(s.db, s.calls[id], fault); }
  }

  lemma StepIsSerial(s: State, step: Step)
    requires Inv(s)
    ensures Next(s, step).db == SerialRun(s.db, SerialOf(s, step))
  {
    hide Inv, Next, SerialOf, SerialRun, JobsOk;
    InvHasJobs(s);
    match step
    case Proceed(id, fault) => ProceedIsSerial(s, id, fault);
    case HandlerStep(owner, fault) => HandlerIsSerial(s, owner, fault);
    case Claim(_, _, _, _, _) => QueueIsSerial(s, step);
    case Settle(_, _, _) => QueueIsSerial(s, step);
    case Cancel(_, _) => QueueIsSerial(s, step);
    case AddUser(_) => QueueIsSerial(s, step);
    case _ => QuietIsSerial(s, step);
  }

  lemma QuietIsSerial(s: State, step: Step)
    requires step.Begin? || step.Drop? || step.Handle? || step.Crash?
    ensures Next(s, step).db == SerialRun(s.db, SerialOf(s, step))
  {
    hide CallStep, CommitOf, IsNext, SettledJobs, Cancelled, Claimed, HandlerOp, SerialRun;
    SerialNothing(s.db);
  }

  lemma {:induction false} SerialRunConcat(db: Db, a: seq<Serial>, b: seq<Serial>)
    ensures SerialRun(db, a + b) == SerialRun(SerialRun(db, a), b)
    decreases |a|
  {
    if a == [] {
      assert a + b == b;
    } else {
      assert (a + b)[0] == a[0] && (a + b)[1..] == a[1..] + b;
      SerialRunConcat(SerialStep(db, a[0]), a[1..], b);
    }
  }

  lemma {:induction false} RunsAreSerialFrom(s: State, steps: seq<Step>)
    requires Inv(s)
    ensures Run(s, steps).db == SerialRun(s.db, ScheduleOf(s, steps))
    decreases |steps|
  {
    if steps != [] {
      StepIsSerial(s, steps[0]);
      NextKeeps(s, steps[0]);
      RunsAreSerialFrom(Next(s, steps[0]), steps[1..]);
      SerialRunConcat(s.db, SerialOf(s, steps[0]), ScheduleOf(Next(s, steps[0]), steps[1..]));
    }
  }

  /** The tables of any interleaved run are those of a serial schedule, in the order
      of the commits: whole calls and single statements on the job queue, except for
      commits that looked away from a row that was no longer valid.  An activation
      stands in it once for each of its commits. */
  lemma RunsAreSerial(steps: seq<Step>)
    ensures Run(START, steps).db == SerialRun(EMPTY, ScheduleOf(START, steps))
  {
    StartOk();
    RunsAreSerialFrom(START, steps);
  }

  // ------------------------------------------------ schedules of whole calls

  /** If the step is a commit that does not look again, what it read is still valid. */
  predicate LooksBack(s: State, step: Step) {
    match step
    case Proceed(id, fault) =>
      id in s.calls && CommitOf(s.db, s.calls[id], fault) != [] && LooksAway(s.calls[id].request, s.calls[id].seen)
      ==> StillValid(s.db, s.calls[id].request, s.calls[id].seen)
    case _ => true
  }

  predicate AllLookBack(s: State, steps: seq<Step>)
    decreases |steps|
  {
    steps == [] || (LooksBack(s, steps[0]) && AllLookBack(Next(s, steps[0]), steps[1..]))
  }

  predicate NoneLate(ops: seq<Serial>) { forall op | op in ops :: !op.Late? }

  lemma HandlerIsNotLate(s: State, owner: Id, fault: Fault)
    requires Inv(s)
    ensures NoneLate(SerialOf(s, HandlerStep(owner, fault)))
  {
    hide CommitStep, CallStep, DbInv, CallOk, Counted, Fenced, LeasesRespected, HoldsJob, Achieved, PlanOf, Refusal;
    if WorkerOf(s, owner).Handling? {
      assert WorkerOk(s.db, owner, s.workers[owner]);
    }
  }

  lemma CommitIsLate(db: Db, call: Call, fault: Fault)
    ensures CommitOf(db, call, fault) != [] ==> call.Ongoing?
    ensures NoneLate(CommitOf(db, call, fault))
      <==> (CommitOf(db, call, fault) != [] && LooksAway(call.request, call.seen) ==> StillValid(db, call.request, call.seen))
  {
    hide PlanOf, Refusal, Screen, Fetch, StillValid, LooksAway;
    if CommitOf(db, call, fault) != [] {
      assert CommitOf(db, call, fault)[0] in CommitOf(db, call, fault);
    }
  }

  lemma StepIsLate(s: State, step: Step)
    requires Inv(s)
    ensures NoneLate(SerialOf(s, step)) <==> LooksBack(s, step)
  {
    hide Inv, CommitOf, IsNext, StillValid, LooksAway;
    match step
    case HandlerStep(owner, fault) =>
      HandlerIsNotLate(s, owner, fault);
      hide SerialOf;
    case Proceed(id, fault) => if id in s.calls { CommitIsLate(s.db, s.calls[id], fault); }
    case _ =>
  }

  lemma {:induction false} LateFrom(s: State, steps: seq<Step>)
    requires Inv(s)
    ensures NoneLate(ScheduleOf(s, steps)) <==> AllLookBack(s, steps)
    decreases |steps|
  {
    hide Inv, Next, SerialOf, LooksBack;
    if steps != [] {
      StepIsLate(s, steps[0]);
      NextKeeps(s, steps[0]);
      LateFrom(Next(s, steps[0]), steps[1..]);
      LateInEither(SerialOf(s, steps[0]), ScheduleOf(Next(s, steps[0]), steps[1..]));
    }
  }

  lemma LateInEither(a: seq<Serial>, b: seq<Serial>)
    ensures NoneLate(a + b) <==> NoneLate(a) && NoneLate(b)
  {
    forall op | op in a ensures op in a + b {
    }
    forall op | op in b ensures op in a + b {
    }
  }

  /** A run is one of whole calls and single queue statements, in the order of their
      commits, if and only if every commit that does not look again finds what it
      read still valid. */
  lemma WholeCallsExactly(steps: seq<Step>)
    ensures NoneLate(ScheduleOf(START, steps)) <==> AllLookBack(START, steps)
    ensures AllLookBack(START, steps) ==>
      exists ops :: NoneLate(ops) && Run(START, steps).db == SerialRun(EMPTY, ops)
  {
    StartOk();
    LateFrom(START, steps);
    hide AllLookBack, NoneLate, ScheduleOf, SerialRun, Run;
    RunsAreSerial(steps);
  }

  /** The operations whose commits always look again at all they read. */
  predicate Checked(op: Op) { !op.CreateDeployment? && !op.RecordUsage? && !op.Stop? }

  predicate OnlyChecked(steps: seq<Step>) { forall step | step in steps :: step.Begin? ==> Checked(step.request.op) }

  ghost predicate CallsChecked(s: State) { forall c :: c in s.calls ==> Checked(s.calls[c].request.op) }

  lemma CheckedLooksBack(s: State, step: Step)
    requires CallsChecked(s) && (step.Begin? ==> Checked(step.request.op))
    ensures LooksBack(s, step) && CallsChecked(Next(s, step))
  {
    hide CommitOf, IsNext;
    match step
    case Proceed(id, fault) => if id in s.calls { StepKeepsRequest(s.db, s.calls[id], fault); } hide CallStep;
    case _ => hide CallStep;
  }

  lemma StepKeepsRequest(db: Db, call: Call, fault: Fault)
    ensures CallStep(db, call, fault).1.request == call.request
  {
    hide PlanOf, Refusal, Written, Screen, Fetch;
  }

  lemma {:induction false} CheckedLookBack(s: State, steps: seq<Step>)
    requires CallsChecked(s) && OnlyChecked(steps)
    ensures AllLookBack(s, steps)
    decreases |steps|
  {
    hide Next, LooksBack, CallsChecked;
    if steps != [] {
      assert steps[0] in steps && forall step :: step in steps[1..] ==> step in steps;
      CheckedLooksBack(s, steps[0]);
      CheckedLookBack(Next(s, steps[0]), steps[1..]);
    }
  }

  /** Without deployments being created or stopped and usage recorded, every run is
      one of whole calls and single queue statements. */
  lemma CheckedRunsAreWhole(steps: seq<Step>)
    requires OnlyChecked(steps)
    ensures NoneLate(ScheduleOf(START, steps)) && Run(START, steps).db == SerialRun(EMPTY, ScheduleOf(START, steps))
  {
    assert CallsChecked(START);
    CheckedLookBack(START, steps);
    hide AllLookBack, NoneLate, ScheduleOf, SerialRun, Run, OnlyChecked;
    WholeCallsExactly(steps);
    RunsAreSerial(steps);
  }
}
