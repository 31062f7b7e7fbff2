/** The bulk loop of internal/service/reconcile.go: one expiry after another, with a
    result for each id, stopped early when the context ends. */
module Reconciliation {
  import opened Basics
  import opened Domain
  import opened Transactions
  import opened Calls
  import opened Invariants
  import opened Preservation
  import opened Serializability
  import opened Outcomes
  import opened Services

  datatype ReconcileResult = ReconcileResult(id: Id, applied: bool, error: Option<Error>)

  /** The reservations that were held and that the results say were expired, each once. */
  function NewlyEnded(db: Db, results: seq<ReconcileResult>): set<Id> {
    set i | 0 <= i < |results| && results[i].applied && results[i].id in db.reservations && Held(db.reservations[results[i].id])
      :: results[i].id
  }

  predicate Lapses(a: Reservation, b: Reservation) { Held(a) && SameReservation(a, b) && b.status == Lapsed }

  /** From `a` to `b` exactly the reservations `ended` lapsed; beyond them only the
      capacity of sites and the audit trail have changed. */
  ghost predicate Swept(a: Db, b: Db, ended: set<Id>) {
    && a.reservations.Keys == b.reservations.Keys && ended <= a.reservations.Keys
    && (forall r :: r in a.reservations ==>
         if r in ended then Lapses(a.reservations[r], b.reservations[r]) else b.reservations[r] == a.reservations[r])
    && a.sites.Keys == b.sites.Keys
    && (forall k :: k in a.sites ==> SameSite(a.sites[k], b.sites[k]) && a.sites[k].status == b.sites[k].status)
    && b == a.(sites := b.sites, reservations := b.reservations, audit := b.audit)
  }

  /** The units of the given reservations that were held at a site. */
  ghost function UnitsAt(db: Db, ended: set<Id>, site: Id): int {
    MapSum(map r | r in ended && r in db.reservations :: db.reservations[r], HeldBy(site))
  }

  lemma SweptNothing(db: Db)
    ensures Swept(db, db, {})
  {
  }

  lemma SweptTwice(a: Db, b: Db, c: Db, first: set<Id>, second: set<Id>)
    requires Swept(a, b, first) && Swept(b, c, second)
    ensures Swept(a, c, first + second)
  {
    forall r | r in a.reservations
      ensures if r in first + second then Lapses(a.reservations[r], c.reservations[r]) else c.reservations[r] == a.reservations[r] {
      assert r in b.reservations;
    }
  }

  // ------------------------------------------------------- what one expiry does

  lemma ReturnSweeps(db: Db, r: Reservation, moved: Reservation, e: Audit)
    requires r.id in db.reservations && db.reservations[r.id] == r && Held(r)
    requires moved == r.(status := Lapsed, version := r.version + 1, updatedAt := moved.updatedAt)
    requires DemandsOf(db, ReturnTx(moved, e)).Met()
    ensures Swept(db, Written(db, ReturnTx(moved, e)), {r.id})
  {
  }

  lemma ExpirySweeps(db: Db, req: Request, r: Reservation, fault: Fault)
    requires req.op.Expire? && r.id in db.reservations && db.reservations[r.id] == r
    ensures var (db', call') := CommitStep(db, req, ReservationRead(r), fault);
      && call'.Done?
      && (call'.result.Err? ==> db' == db)
      && (call'.result.Ok? ==> Swept(db, db', if Held(r) then {r.id} else {}))
  {
    SweptNothing(db);
    hide Swept, Written, DemandsOf;
    var plan := PlanOf(req, ReservationRead(r));
    if plan.Submit? && Refusal(db, plan.tx, fault).None? {
      ReturnSweeps(db, r, plan.tx.reservation, plan.tx.event);
    }
  }

  lemma ExpireAlone(db: Db, req: Request, fault: Fault)
    requires req.op.Expire?
    ensures Alone(db, req, fault)
         == if req.op.reservation in db.reservations
            then CommitStep(db, req, ReservationRead(db.reservations[req.op.reservation]), fault)
            else (db, Done(req, Err(NotFound)))
  {
    hide CommitStep;
    if req.op.reservation in db.reservations {
      var seen := ReservationRead(db.reservations[req.op.reservation]);
      assert ReadAll(db, req, seen) == Ongoing(req, seen);
    }
  }

  lemma ExpirySnap(db: Db, req: Request)
    requires req.op.Expire? && req.op.reservation in db.reservations && Qualified(db.reservations, db.scenarios)
    ensures var r := db.reservations[req.op.reservation];
      r.id == req.op.reservation && SnapsOk(db, req.op, ReservationRead(r)) && Admitted(req, ReservationRead(r))
  {
    assert ReservationShape(db.reservations[req.op.reservation]);
  }

  lemma ExpireKeepsInv(db: Db, req: Request, fault: Fault)
    requires req.op.Expire? && DbInv(db)
    ensures DbInv(Alone(db, req, fault).0)
  {
    hide CommitStep, DbInv, Alone, Qualified, SnapsOk, Admitted, CallOk, TxStep;
    InvIsQualified(db);
    ExpireAlone(db, req, fault);
    if req.op.reservation in db.reservations {
      ExpirySnap(db, req);
      CommitStepKeeps(db, req, ReservationRead(db.reservations[req.op.reservation]), fault);
    }
  }

  /** An expiry that runs alone fails and changes nothing, or leaves its reservation
      ended, lapsing it if it was still held. */
  lemma ExpireEffect(db: Db, req: Request, fault: Fault)
    requires req.op.Expire? && DbInv(db)
    ensures var (db', call') := Alone(db, req, fault); var id := req.op.reservation;
      && call'.Done? && DbInv(db')
      && (call'.result.Err? ==> db' == db)
      && (call'.result.Ok? ==> id in db.reservations && Swept(db, db', if Held(db.reservations[id]) then {id} else {}))
  {
    hide CommitStep, DbInv, Swept, Alone, Qualified, SnapsOk, Admitted;
    ExpireKeepsInv(db, req, fault);
    ExpireAlone(db, req, fault);
    if req.op.reservation in db.reservations {
      InvIsQualified(db);
      ExpirySnap(db, req);
      ExpirySweeps(db, req, db.reservations[req.op.reservation], fault);
    }
  }

  // ------------------------------------------------------------ what comes back

  lemma {:induction false} SumOfEnded(a: map<Id, Reservation>, b: map<Id, Reservation>, ended: set<Id>, site: Id)
    requires a.Keys == b.Keys && ended <= a.Keys
    requires forall r :: r in a ==> if r in ended then Lapses(a[r], b[r]) else b[r] == a[r]
    ensures MapSum(a, HeldBy(site)) == MapSum(b, HeldBy(site)) + MapSum(map r | r in ended && r in a :: a[r], HeldBy(site))
    decreases |ended|
  {
    var rows := map r | r in ended && r in a :: a[r];
    if ended == {} {
      assert rows == map[];
      assert a == b;
    } else {
      var x :| x in ended;
      var mid := a[x := b[x]];
      SumOfEnded(mid, b, ended - {x}, site);
      MapSumPut(a, HeldBy(site), x, b[x]);
      MapSumSplit(rows, HeldBy(site), x);
      assert rows - {x} == map r | r in ended - {x} && r in mid :: mid[r];
      assert !Held(b[x]);
    }
  }

  /** What a sweep gives back to a site is exactly what the ended reservations held there. */
  lemma SweepReturns(a: Db, b: Db, ended: set<Id>, site: Id)
    requires Swept(a, b, ended) && Conserved(a.sites, a.reservations) && Conserved(b.sites, b.reservations)
    requires site in a.sites
    ensures b.sites[site].available == a.sites[site].available + UnitsAt(a, ended, site)
  {
    SumOfEnded(a.reservations, b.reservations, ended, site);
    assert (map r | r in ended && r in a.reservations :: a.reservations[r])
        == (map r | r in ended && r in a.reservations.Keys :: a.reservations[r]);
  }

  lemma NewlyEndedMore(db: Db, results: seq<ReconcileResult>, next: ReconcileResult)
    ensures NewlyEnded(db, results + [next]) == NewlyEnded(db, results)
      + (if next.applied && next.id in db.reservations && Held(db.reservations[next.id]) then {next.id} else {})
  {
    var more := results + [next];
    forall id | id in NewlyEnded(db, results) ensures id in NewlyEnded(db, more) {
      var i :| 0 <= i < |results| && results[i].applied && results[i].id == id;
      assert more[i] == results[i];
    }
    assert more[|results|] == next;
  }

  // ------------------------------------------------- which expiries are applied

  /** No storage errors, and new event ids, each its own. */
  predicate Quiet(db: Db, envs: seq<Env>, faults: seq<Fault>) {
    && (forall f | f in faults :: f == NoFault)
    && (forall i :: 0 <= i < |envs| ==> envs[i].eventId !in db.audit)
    && (forall i, j :: 0 <= i < j < |envs| ==> envs[i].eventId != envs[j].eventId)
  }

  /** Held at the start, and at none of the first `n` turns that name it due by then. */
  predicate StillHeld(db: Db, ids: seq<Id>, envs: seq<Env>, n: nat, id: Id)
    requires n <= |ids| == |envs| && id in db.reservations
  {
    && (db.reservations[id].status == Pending || db.reservations[id].status == Confirmed)
    && forall j :: 0 <= j < n && ids[j] == id ==> envs[j].now < db.reservations[id].expiresAt
  }

  /** What the turn of an id comes to. */
  predicate Judged(db: Db, ids: seq<Id>, envs: seq<Env>, i: nat, result: ReconcileResult)
    requires i < |ids| == |envs|
  {
    result == if ids[i] !in db.reservations then ReconcileResult(ids[i], false, Some(NotFound))
              else if StillHeld(db, ids, envs, i + 1, ids[i]) then ReconcileResult(ids[i], false, Some(Conflict))
              else ReconcileResult(ids[i], true, None)
  }

  /** The tables after `n` turns. */
  ghost predicate Turned(before: Db, now: Db, ids: seq<Id>, envs: seq<Env>, n: nat)
    requires n <= |ids| == |envs|
  {
    && before.reservations.Keys == now.reservations.Keys
    && (forall id :: id in before.reservations ==>
         && now.reservations[id].expiresAt == before.reservations[id].expiresAt
         && (Held(now.reservations[id]) <==> StillHeld(before, ids, envs, n, id)))
    && (forall k :: n <= k < |envs| ==> envs[k].eventId !in now.audit)
  }

  lemma TurnGoesOn(before: Db, mid: Db, ids: seq<Id>, envs: seq<Env>, n: nat)
    requires n < |ids| == |envs| && Turned(before, mid, ids, envs, n)
    requires forall i, j :: 0 <= i < j < |envs| ==> envs[i].eventId != envs[j].eventId
    requires DbInv(mid)
    ensures var (after, r) := ExpireRule(mid, ids[n], envs[n]);
      Turned(before, after, ids, envs, n + 1)
      && Judged(before, ids, envs, n, ReconcileResult(ids[n], r.Ok?, if r.Ok? then None else Some(r.error)))
  {
    hide DbInv, ExpireRule, StillHeld;
    if ids[n] in mid.reservations { HeldRow(mid, ids[n]); }
    RuleMoves(mid, ids[n], envs[n]);
    var (after, r) := ExpireRule(mid, ids[n], envs[n]);
    forall id | id in before.reservations
      ensures after.reservations[id].expiresAt == before.reservations[id].expiresAt
      ensures Held(after.reservations[id]) <==> StillHeld(before, ids, envs, n + 1, id)
    {
      OneMoreTurn(before, ids, envs, n, id);
    }
  }

  lemma OneMoreTurn(db: Db, ids: seq<Id>, envs: seq<Env>, n: nat, id: Id)
    requires n < |ids| == |envs| && id in db.reservations
    ensures StillHeld(db, ids, envs, n + 1, id)
      <==> StillHeld(db, ids, envs, n, id) && (ids[n] == id ==> envs[n].now < db.reservations[id].expiresAt)
  {
  }

  /** An expiry that is refused changes nothing; one that succeeds ends its own row. */
  lemma RuleMoves(db: Db, id: Id, env: Env)
    requires id in db.reservations ==> db.reservations[id].id == id && db.reservations[id].status != Pending
    ensures var (after, r) := ExpireRule(db, id, env);
      && (id !in db.reservations ==> after == db && r == Err(NotFound))
      && (id in db.reservations && Held(db.reservations[id]) && env.now < db.reservations[id].expiresAt ==> after == db && r == Err(Conflict))
      && (id in db.reservations && !(Held(db.reservations[id]) && env.now < db.reservations[id].expiresAt) ==>
            r.Ok? && id in after.reservations && !Held(after.reservations[id])
            && after.reservations[id].expiresAt == db.reservations[id].expiresAt
            && after.reservations == db.reservations[id := after.reservations[id]])
      && (after.audit == db.audit || (env.eventId in after.audit && after.audit == db.audit[env.eventId := after.audit[env.eventId]]))
  {
    hide PutBack;
    if id in db.reservations {
      assert db.reservations[id := db.reservations[id]] == db.reservations;
    }
  }

  // ------------------------------------------------------------------- the loop

  /** `envs` and `faults` are drawn for each id; the context ends before the id number `live`. */
  method ReconcileExpiredReservations(service: Service, actor: Actor, ids: seq<Id>, envs: seq<Env>, faults: seq<Fault>, live: nat)
    returns (results: seq<ReconcileResult>, err: Option<Error>)
    requires |envs| == |ids| == |faults|
    requires DbInv(service.store.db)
    modifies service.store
    ensures DbInv(service.store.db)
    // guards
    ensures RequireRole(actor, Operator).Err? ==> err == Some(RequireRole(actor, Operator).error) && results == []
    ensures !(1 <= |ids| <= 100) ==> err.Some? && results == []
    // one result for each id, in order, up to an interruption
    ensures |results| <= |ids| && forall i :: 0 <= i < |results| ==> results[i].id == ids[i]
    ensures err.None? ==> |results| == |ids|
    // an applied expiry leaves an ended reservation
    ensures forall i :: 0 <= i < |results| && results[i].applied ==>
      results[i].id in service.store.db.reservations && !Held(service.store.db.reservations[results[i].id])
    ensures Swept(old(service.store.db), service.store.db, NewlyEnded(old(service.store.db), results))
    // without errors an entry is applied exactly if its reservation has ended by its turn
    ensures err.None? <==> RequireRole(actor, Operator).Ok? && 1 <= |ids| <= 100 && |ids| <= live
    ensures Quiet(old(service.store.db), envs, faults) ==>
      forall i :: 0 <= i < |results| ==> Judged(old(service.store.db), ids, envs, i, results[i])
    // each site gets back the units of the distinct newly ended reservations
    ensures forall k :: k in old(service.store.db).sites ==>
      k in service.store.db.sites
      && service.store.db.sites[k].available
         == old(service.store.db).sites[k].available + UnitsAt(old(service.store.db), NewlyEnded(old(service.store.db), results), k)
  {
    ghost var before := service.store.db;
    results := [];
    err := None;
    SweptNothing(before);
    assert NewlyEnded(before, results) == {};
    var role := RequireRole(actor, Operator);
    if role.Err? {
      err := Some(role.error);
    } else if |ids| == 0 || |ids| > 100 {
      err := Some(Internal);
    } else {
      results, err := ExpireAll(service, ids, envs, faults, live);
    }
    SweepReturnsEverywhere(before, service.store.db, NewlyEnded(before, results));
  }

  lemma SweepReturnsEverywhere(a: Db, b: Db, ended: set<Id>)
    requires Swept(a, b, ended)
    requires DbInv(a) && DbInv(b)
    ensures forall k :: k in a.sites ==> k in b.sites && b.sites[k].available == a.sites[k].available + UnitsAt(a, ended, k)
  {
    assert Conserved(a.sites, a.reservations) && Conserved(b.sites, b.reservations);
    hide DbInv, Conserved, UnitsAt;
    forall k | k in a.sites ensures k in b.sites && b.sites[k].available == a.sites[k].available + UnitsAt(a, ended, k) {
      SweepReturns(a, b, ended, k);
    }
  }

  method ExpireAll(service: Service, ids: seq<Id>, envs: seq<Env>, faults: seq<Fault>, live: nat)
    returns (results: seq<ReconcileResult>, err: Option<Error>)
    requires |envs| == |ids| == |faults|
    requires DbInv(service.store.db)
    modifies service.store
    ensures DbInv(service.store.db)
    ensures |results| <= |ids| && forall i :: 0 <= i < |results| ==> results[i].id == ids[i]
    ensures err.None? ==> |results| == |ids|
    ensures forall i :: 0 <= i < |results| && results[i].applied ==>
      results[i].id in service.store.db.reservations && !Held(service.store.db.reservations[results[i].id])
    ensures Swept(old(service.store.db), service.store.db, NewlyEnded(old(service.store.db), results))
    ensures err.None? <==> |ids| <= live
    ensures Quiet(old(service.store.db), envs, faults) ==>
      forall i :: 0 <= i < |results| ==> Judged(old(service.store.db), ids, envs, i, results[i])
  {
    hide DbInv, Swept, NewlyEnded, Alone, Turned, Judged, ExpireRule;
    ghost var before := service.store.db;
    results := [];
    SweptNothing(before);
    NothingEnded(before);
    if Quiet(before, envs, faults) { NoTurnYet(before, ids, envs); }
    for i := 0 to |ids|
      invariant |results| == i && forall k :: 0 <= k < i ==> results[k].id == ids[k]
      invariant DbInv(service.store.db) && Swept(before, service.store.db, NewlyEnded(before, results))
      invariant forall k :: 0 <= k < i && results[k].applied ==> Ended(service.store.db, ids[k])
      invariant i <= live
      invariant Quiet(before, envs, faults) ==>
        Turned(before, service.store.db, ids, envs, i) && forall k :: 0 <= k < i ==> Judged(before, ids, envs, k, results[k])
    {
      if i >= live { return results, Some(Internal); }
      ghost var mid := service.store.db;
      if Quiet(before, envs, faults) {
        assert faults[i] in faults;
        NewEvent(before, mid, ids, envs, i);
        TurnGoesOn(before, mid, ids, envs, i);
      }
      var r := service.ExpireReservation(Anonymous, ids[i], envs[i], faults[i]);
      ExpireEffect(mid, Request(Anonymous, Expire(ids[i]), envs[i]), faults[i]);
      var result := ReconcileResult(ids[i], r.Ok?, if r.Ok? then None else Some(r.error));
      SweepGoesOn(before, mid, service.store.db, results, result);
      results := results + [result];
    }
    return results, None;
  }

  lemma NoTurnYet(db: Db, ids: seq<Id>, envs: seq<Env>)
    requires |ids| == |envs| && forall i :: 0 <= i < |envs| ==> envs[i].eventId !in db.audit
    ensures Turned(db, db, ids, envs, 0)
  {
  }

  lemma NewEvent(before: Db, mid: Db, ids: seq<Id>, envs: seq<Env>, i: nat)
    requires i < |ids| == |envs| && Turned(before, mid, ids, envs, i)
    ensures Prepared(mid, Request(Anonymous, Expire(ids[i]), envs[i]))
  {
  }

  predicate Ended(db: Db, id: Id) { id in db.reservations && !Held(db.reservations[id]) }

  lemma NothingEnded(db: Db)
    ensures NewlyEnded(db, []) == {}
  {
  }

  /** One more result extends the sweep, and what had ended stays ended. */
  lemma SweepGoesOn(before: Db, mid: Db, after: Db, results: seq<ReconcileResult>, result: ReconcileResult)
    requires Swept(before, mid, NewlyEnded(before, results))
    requires !result.applied ==> after == mid
    requires result.applied ==> result.id in mid.reservations
    requires result.applied ==> Swept(mid, after, if Held(mid.reservations[result.id]) then {result.id} else {})
    ensures Swept(before, after, NewlyEnded(before, results + [result]))
    ensures result.applied ==> Ended(after, result.id)
    ensures forall id :: Ended(mid, id) ==> Ended(after, id)
  {
    NewlyEndedMore(before, results, result);
    hide NewlyEnded;
    if result.applied {
      SweptTwice(before, mid, after, NewlyEnded(before, results), if Held(mid.reservations[result.id]) then {result.id} else {});
    }
  }
}
