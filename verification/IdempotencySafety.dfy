/** Safety of the idempotency protocol over every interleaving in which claimants
    settle in time, and what goes wrong when one settles late. */
module IdempotencySafety {
  import opened Basics
  import opened Timestamps
  import opened Idempotency

  // ------------------------------------------------------------ preservation

  /** A record is due in SQL only for a request that arrived in the second of its
      expiry or later, so a punctual claimant's record is never due. */
  lemma ClaimantIsNotDue(s: State, item: Item, id: Id)
    requires Punctual(s) && item.createdAt <= s.clock
    requires id in s.requests && Claimant(s.requests[id]) && Stands(s, id, s.requests[id])
    requires s.requests[id].item.scope == item.scope
    ensures !DueInSql(s.records, item)
  {
    var x := s.requests[id].item.expiresAt;
    assert InTime(s.clock, s.requests[id].item);
    Later(item.createdAt, s.clock);
    InRangeBelow(item.createdAt, x);
    SqlLeAcrossSeconds(x, item.createdAt);
  }

  lemma Later(a: Instant, b: Instant)
    requires a <= b
    ensures Sec(a) <= Sec(b)
  {
  }

  lemma StoredGrows(log: seq<Event>, e: Event, scope: Scope, holder: Id, o: Outcome)
    requires Stored(log, scope, holder, o)
    ensures Stored(log + [e], scope, holder, o)
  {
    var i :| 0 <= i < |log| && log[i] == Success(scope, holder, o);
    assert (log + [e])[i] == log[i];
  }

  /** One request moves on: its row in the history of requests changes, nothing else. */
  predicate OnlyMoved(s: State, s': State, id: Id, r: Request) {
    && id in s.requests && s.requests[id].item == r.item
    && s' == With(s, id, r)
  }

  lemma MovedKeeps(s: State, s': State, id: Id, r: Request)
    requires OnlyMoved(s, s', id, r) && Inv(s)
    requires Claimant(r) ==> Claimant(s.requests[id])
    requires !s.requests[id].Finished? || r.Finished?
    requires r.Completing? ==> Successful(r.outcome.status)
    requires r.Deleting? ==> Backed(s, r.item.scope, r.holder, r.existing)
    ensures Inv(s')
  {
    forall k | k in s'.records ensures k in s'.holders && Backed(s', k, s'.holders[k], s'.records[k]) {
      assert Backed(s, k, s.holders[k], s.records[k]);
    }
    forall i | i in s'.requests && s'.requests[i].Deleting?
      ensures Backed(s', s'.requests[i].item.scope, s'.requests[i].holder, s'.requests[i].existing) {
      if i != id {
        assert Backed(s, s.requests[i].item.scope, s.requests[i].holder, s.requests[i].existing);
      }
    }
    forall i: nat | i < |s'.log| ensures ReplayBacked(s', i) {
      assert ReplayBacked(s, i);
    }
    forall i | i in s'.requests ensures Stands(s', i, s'.requests[i]) && Dated(s', s'.requests[i]) {
      assert Stands(s, i, s.requests[i]) && Dated(s, s.requests[i]);
      assert Stands(s, id, s.requests[id]);
    }
  }

  lemma BackedGrows(s: State, e: Event, scope: Scope, holder: Id, rec: Record)
    requires Backed(s, scope, holder, rec)
    ensures Backed(s.(log := s.log + [e]), scope, holder, rec)
  {
    if rec.status != 0 {
      StoredGrows(s.log, e, scope, holder, Outcome(rec.status, rec.body));
    }
  }

  /** Entering one more event leaves everything that was backed backed. */
  lemma LogGrows(s: State, e: Event)
    requires Inv(s)
    ensures var s' := s.(log := s.log + [e]);
      && RecordsBacked(s') && ReadsBacked(s')
      && forall i: nat :: i < |s.log| ==> ReplayBacked(s', i)
  {
    var s' := s.(log := s.log + [e]);
    forall k | k in s'.records ensures k in s'.holders && Backed(s', k, s'.holders[k], s'.records[k]) {
      BackedGrows(s, e, k, s.holders[k], s.records[k]);
    }
    forall i | i in s'.requests && s'.requests[i].Deleting?
      ensures Backed(s', s'.requests[i].item.scope, s'.requests[i].holder, s'.requests[i].existing) {
      BackedGrows(s, e, s.requests[i].item.scope, s.requests[i].holder, s.requests[i].existing);
    }
    forall i: nat | i < |s.log| ensures ReplayBacked(s', i) {
      assert ReplayBacked(s, i) && s'.log[..i] == s.log[..i] && s'.log[i] == s.log[i];
    }
  }

  lemma ReplayKeeps(s: State, scope: Scope, holder: Id, existing: Record)
    requires Inv(s) && Backed(s, scope, holder, existing) && existing.status != 0
    ensures Inv(s.(log := s.log + [Replay(scope, holder, existing.hash, Outcome(existing.status, existing.body))]))
  {
    var e := Replay(scope, holder, existing.hash, Outcome(existing.status, existing.body));
    var s' := s.(log := s.log + [e]);
    LogGrows(s, e);
    assert s'.log[..|s.log|] == s.log;
    assert ReplayBacked(s', |s.log|);
    forall i | i in s'.requests ensures Stands(s', i, s'.requests[i]) && Dated(s', s'.requests[i]) {
      assert Stands(s, i, s.requests[i]) && Dated(s, s.requests[i]);
    }
    hide RecordsBacked, ReadsBacked, Stored;
    forall i: nat | i < |s'.log| ensures ReplayBacked(s', i) {
      if i < |s.log| { assert ReplayBacked(s', i); } else { assert i == |s.log|; }
    }
    assert forall i :: 0 <= i < |s'.log| && s'.log[i].Success? ==> i < |s.log|;
  }

  /** A record on which no claimant stands may go. */
  lemma RemovalKeeps(s: State, scope: Scope)
    requires Inv(s)
    requires forall id :: id in s.requests && Claimant(s.requests[id]) ==> s.requests[id].item.scope != scope
    ensures Inv(s.(records := s.records - {scope}))
  {
    var s' := s.(records := s.records - {scope});
    forall k | k in s'.records ensures k in s'.holders && Backed(s', k, s'.holders[k], s'.records[k]) {
      assert Backed(s, k, s.holders[k], s.records[k]);
    }
    forall i | i in s'.requests && s'.requests[i].Deleting?
      ensures Backed(s', s'.requests[i].item.scope, s'.requests[i].holder, s'.requests[i].existing) {
      assert Backed(s, s.requests[i].item.scope, s.requests[i].holder, s.requests[i].existing);
    }
    forall i: nat | i < |s'.log| ensures ReplayBacked(s', i) {
      assert ReplayBacked(s, i);
    }
    forall i | i in s'.requests ensures Stands(s', i, s'.requests[i]) && Dated(s', s'.requests[i]) {
      assert Stands(s, i, s.requests[i]) && Dated(s, s.requests[i]);
    }
  }

  lemma InsertKeeps(s: State, id: Id, item: Item)
    requires id in s.requests && s.requests[id] == Inserting(item) && Inv(s)
    ensures Inv(InsertStep(s, id, item))
  {
    var s' := InsertStep(s, id, item);
    if item.scope in s.records {
      MovedKeeps(s, s', id, Reading(item));
    } else {
      forall k | k in s'.records ensures k in s'.holders && Backed(s', k, s'.holders[k], s'.records[k]) {
        if k != item.scope {
          assert Backed(s, k, s.holders[k], s.records[k]);
        }
      }
      forall i | i in s'.requests && s'.requests[i].Deleting?
        ensures Backed(s', s'.requests[i].item.scope, s'.requests[i].holder, s'.requests[i].existing) {
        assert Backed(s, s.requests[i].item.scope, s.requests[i].holder, s.requests[i].existing);
      }
      forall i: nat | i < |s'.log| ensures ReplayBacked(s', i) {
        assert ReplayBacked(s, i);
      }
      forall i | i in s'.requests ensures Stands(s', i, s'.requests[i]) && Dated(s', s'.requests[i]) {
        assert Stands(s, i, s.requests[i]) && Dated(s, s.requests[i]);
      }
    }
  }

  lemma AnswerKeeps(s: State, id: Id, item: Item, existing: Record, holder: Id)
    requires id in s.requests && s.requests[id].item == item && (s.requests[id].Reading? || s.requests[id].Deleting?)
    requires Backed(s, item.scope, holder, existing) && Inv(s)
    ensures Inv(AnswerStep(s, id, item, existing, holder))
  {
    var reply := Answer(item, existing);
    var moved := With(s, id, Finished(item, reply));
    MovedKeeps(s, moved, id, Finished(item, reply));
    if reply.Replayed? {
      assert Backed(moved, item.scope, holder, existing);
      hide Inv, Backed;
      ReplayKeeps(moved, item.scope, holder, existing);
    }
  }

  lemma ReadKeeps(s: State, id: Id, item: Item)
    requires id in s.requests && s.requests[id] == Reading(item) && Inv(s)
    ensures Inv(ReadStep(s, id, item))
  {
    if item.scope !in s.records {
      MovedKeeps(s, ReadStep(s, id, item), id, Finished(item, Failed(NotFound)));
    } else {
      var existing, holder := s.records[item.scope], s.holders[item.scope];
      assert Backed(s, item.scope, holder, existing);
      if item.createdAt < existing.expiresAt {
        AnswerKeeps(s, id, item, existing, holder);
      } else {
        MovedKeeps(s, ReadStep(s, id, item), id, Deleting(item, existing, holder));
      }
    }
  }

  lemma DeleteKeeps(s: State, id: Id, item: Item, existing: Record, holder: Id)
    requires id in s.requests && s.requests[id] == Deleting(item, existing, holder)
    requires Careful(s, Proceed(id, false)) && Inv(s)
    ensures Inv(DeleteStep(s, id, item, existing, holder))
  {
    assert Backed(s, item.scope, holder, existing);
    if DueInSql(s.records, item) {
      RemovalKeeps(s, item.scope);
      hide SqlLe, DueInSql, Careful;
      var removed := s.(records := s.records - {item.scope});
      MovedKeeps(removed, With(removed, id, Inserting(item)), id, Inserting(item));
    } else {
      AnswerKeeps(s, id, item, existing, holder);
    }
  }

  lemma OneClaimant(s: State, a: Id, b: Id)
    requires a in s.requests && b in s.requests && Claimant(s.requests[a]) && Claimant(s.requests[b])
    requires s.requests[a].item.scope == s.requests[b].item.scope && Inv(s)
    ensures a == b
  {
    assert Stands(s, a, s.requests[a]) && Stands(s, b, s.requests[b]);
  }

  lemma AbandonKeeps(s: State, id: Id, item: Item, o: Outcome, fails: bool)
    requires id in s.requests && s.requests[id] == Abandoning(item, o) && Inv(s)
    ensures Inv(AbandonStep(s, id, item, o, fails))
  {
    var moved := With(s, id, Finished(item, Executed(o)));
    MovedKeeps(s, moved, id, Finished(item, Executed(o)));
    if !fails {
      forall other | other in moved.requests && Claimant(moved.requests[other]) ensures moved.requests[other].item.scope != item.scope {
        if moved.requests[other].item.scope == item.scope {
          OneClaimant(s, id, other);
        }
      }
      RemovalKeeps(moved, item.scope);
      assert Stands(s, id, s.requests[id]);
    }
  }

  lemma CompleteKeeps(s: State, id: Id, item: Item, o: Outcome)
    requires id in s.requests && s.requests[id] == Completing(item, o) && Inv(s)
    ensures Inv(CompleteStep(s, id, item, o))
  {
    assert Stands(s, id, s.requests[id]);
    var e := Success(item.scope, id, o);
    var moved := With(s, id, Finished(item, Executed(o)));
    MovedKeeps(s, moved, id, Finished(item, Executed(o)));
    LogGrows(moved, e);
    var logged := moved.(log := s.log + [e]);
    var s' := CompleteStep(s, id, item, o);
    assert s' == logged.(records := s.records[item.scope := Record(item.hash, o.status, o.body, item.expiresAt, item.createdAt)]);
    forall k | k in s'.records ensures k in s'.holders && Backed(s', k, s'.holders[k], s'.records[k]) {
      if k == item.scope {
        assert s'.log[|s.log|] == e;
      } else {
        assert Backed(logged, k, logged.holders[k], logged.records[k]);
      }
    }
    CompletedReads(logged, s');
    CompletedStands(s, s', id);
    SuccessIsFirst(s, s', id, e);
  }

  lemma CompletedReads(a: State, b: State)
    requires ReadsBacked(a) && (forall i: nat :: i < |a.log| - 1 ==> ReplayBacked(a, i))
    requires b == a.(records := b.records) && |a.log| > 0 && a.log[|a.log| - 1].Success?
    ensures ReadsBacked(b) && forall i: nat :: i < |b.log| ==> ReplayBacked(b, i)
  {
    forall i | i in b.requests && b.requests[i].Deleting?
      ensures Backed(b, b.requests[i].item.scope, b.requests[i].holder, b.requests[i].existing) {
      assert Backed(a, a.requests[i].item.scope, a.requests[i].holder, a.requests[i].existing);
    }
    forall i: nat | i < |b.log| ensures ReplayBacked(b, i) {
      if i < |a.log| - 1 { assert ReplayBacked(a, i); }
    }
  }

  lemma CompletedStands(s: State, s': State, id: Id)
    requires Inv(s) && id in s.requests && id in s'.requests && Claimant(s.requests[id])
    requires s.requests[id].item.scope in s'.records
    requires s'.clock == s.clock && s'.holders == s.holders && s'.requests == s.requests[id := s'.requests[id]]
    requires s'.requests[id].Finished? && s'.requests[id].item == s.requests[id].item
    requires s'.records == s.records[s.requests[id].item.scope := s'.records[s.requests[id].item.scope]]
    ensures forall i :: i in s'.requests ==> Stands(s', i, s'.requests[i]) && Dated(s', s'.requests[i])
  {
    forall i | i in s'.requests ensures Stands(s', i, s'.requests[i]) && Dated(s', s'.requests[i]) {
      assert Stands(s, i, s.requests[i]) && Dated(s, s.requests[i]);
      if Claimant(s'.requests[i]) && s'.requests[i].item.scope == s.requests[id].item.scope {
        OneClaimant(s, i, id);
      }
    }
  }

  lemma SuccessIsFirst(s: State, s': State, id: Id, e: Event)
    requires SucceedsOnce(s) && id in s.requests && id in s'.requests && !s.requests[id].Finished?
    requires s'.requests == s.requests[id := s'.requests[id]] && s'.requests[id].Finished?
    requires e.Success? && e.claimant == id && s'.log == s.log + [e]
    ensures SucceedsOnce(s')
  {
    forall i | 0 <= i < |s'.log| && s'.log[i].Success?
      ensures s'.log[i].claimant in s'.requests && s'.requests[s'.log[i].claimant].Finished? {
      if i < |s.log| { assert s'.log[i] == s.log[i]; }
    }
  }

  lemma ProceedKeeps(s: State, id: Id, fails: bool)
    requires id in s.requests && Careful(s, Proceed(id, fails)) && Inv(s)
    ensures Inv(ProceedStep(s, id, s.requests[id], fails))
  {
    var r := s.requests[id];
    hide Inv, Careful, Backed;
    if r.Abandoning? {
      AbandonKeeps(s, id, r.item, r.outcome, fails);
    } else if r.Running? || r.Finished? {
    } else if fails {
      MovedKeeps(s, With(s, id, Finished(r.item, Failed(Internal))), id, Finished(r.item, Failed(Internal)));
    } else {
      match r
      case Inserting(item) => InsertKeeps(s, id, item);
      case Reading(item) => ReadKeeps(s, id, item);
      case Deleting(item, existing, holder) => DeleteKeeps(s, id, item, existing, holder);
      case Completing(item, o) => CompleteKeeps(s, id, item, o);
    }
  }

  lemma ArriveKeeps(s: State, id: Id, scope: Scope, hash: string)
    requires id !in s.requests && Inv(s)
    ensures Inv(Next(s, Arrive(id, scope, hash)))
  {
    var s' := Next(s, Arrive(id, scope, hash));
    forall k | k in s'.records ensures k in s'.holders && Backed(s', k, s'.holders[k], s'.records[k]) {
      assert Backed(s, k, s.holders[k], s.records[k]);
    }
    forall i | i in s'.requests && s'.requests[i].Deleting?
      ensures Backed(s', s'.requests[i].item.scope, s'.requests[i].holder, s'.requests[i].existing) {
      assert Backed(s, s.requests[i].item.scope, s.requests[i].holder, s.requests[i].existing);
    }
    forall i: nat | i < |s'.log| ensures ReplayBacked(s', i) {
      assert ReplayBacked(s, i);
    }
    forall i | i in s'.requests ensures Stands(s', i, s'.requests[i]) && Dated(s', s'.requests[i]) {
      if i != id { assert Stands(s, i, s.requests[i]) && Dated(s, s.requests[i]); }
    }
  }

  lemma TickKeeps(s: State, to: Instant)
    requires s.clock <= to && Inv(s)
    ensures Inv(s.(clock := to))
  {
    var s' := s.(clock := to);
    forall k | k in s'.records ensures k in s'.holders && Backed(s', k, s'.holders[k], s'.records[k]) {
      assert Backed(s, k, s.holders[k], s.records[k]);
    }
    forall i | i in s'.requests && s'.requests[i].Deleting?
      ensures Backed(s', s'.requests[i].item.scope, s'.requests[i].holder, s'.requests[i].existing) {
      assert Backed(s, s.requests[i].item.scope, s.requests[i].holder, s.requests[i].existing);
    }
    forall i: nat | i < |s'.log| ensures ReplayBacked(s', i) {
      assert ReplayBacked(s, i);
    }
    forall i | i in s'.requests ensures Stands(s', i, s'.requests[i]) && Dated(s', s'.requests[i]) {
      assert Stands(s, i, s.requests[i]) && Dated(s, s.requests[i]);
    }
  }

  /** A careful step keeps the invariant. */
  lemma NextKeeps(s: State, step: Step)
    requires Careful(s, step) && Inv(s)
    ensures Inv(Next(s, step))
  {
    hide Inv, Careful, Backed, ProceedStep;
    match step
    case Arrive(id, scope, hash) => if id !in s.requests { ArriveKeeps(s, id, scope, hash); }
    case Proceed(id, fails) => if id in s.requests { ProceedKeeps(s, id, fails); }
    case Handle(id, o) =>
      if id in s.requests && s.requests[id].Running? {
        MovedKeeps(s, Next(s, step), id, Next(s, step).requests[id]);
      }
    case Vanish(id) =>
      if id in s.requests {
        MovedKeeps(s, Next(s, step), id, Finished(s.requests[id].item, Failed(Internal)));
      }
    case Tick(to) => if s.clock <= to { TickKeeps(s, to); }
  }

  /** A claimant in flight loses its record to a deletion exactly when the record
      is due in SQL for the request that deletes. */
  lemma RecordIsLostWhenDue(s: State, a: Id, b: Id)
    requires a in s.requests && b in s.requests && Claimant(s.requests[a]) && s.requests[b].Deleting?
    requires s.requests[a].item.scope == s.requests[b].item.scope && Inv(s)
    ensures var s' := Next(s, Proceed(b, false));
      a in s'.requests && (!Stands(s', a, s'.requests[a]) <==> SqlLe(s.requests[a].item.expiresAt, s.requests[b].item.createdAt))
  {
    assert Stands(s, a, s.requests[a]);
    hide SqlLe, Inv;
  }

  /** The condition is exact: a step keeps the invariant if and only if it does not
      delete the record of a claimant in flight. */
  lemma CareIsNeeded(s: State, step: Step)
    requires Inv(s)
    ensures Inv(Next(s, step)) <==> Careful(s, step)
  {
    if Careful(s, step) {
      NextKeeps(s, step);
    } else {
      var b := step.id;
      var a :| a in s.requests && Claimant(s.requests[a]) && s.requests[a].item.scope == s.requests[b].item.scope;
      assert Stands(s, a, s.requests[a]);
      RecordIsLostWhenDue(s, a, b);
      LostIsNotInv(Next(s, step), a);
    }
  }

  /** Has claimed, like another request in the scope. */
  ghost predicate ClaimsTwice(s: State, b: Id) {
    b in s.requests && Claimant(s.requests[b])
    && exists a :: a in s.requests && a != b && Claimant(s.requests[a]) && s.requests[a].item.scope == s.requests[b].item.scope
  }

  /** Without care a scope gets a second claimant: a request's next step deletes the
      record of a claimant in flight if and only if one step more makes both of them
      run the handler. */
  lemma CarelessClaimsTwice(s: State, id: Id)
    requires Inv(s)
    ensures var once := Next(s, Proceed(id, false));
      ClaimsTwice(Next(once, Proceed(id, false)), id) <==> !Careful(s, Proceed(id, false))
  {
    var once := Next(s, Proceed(id, false));
    if !Careful(s, Proceed(id, false)) {
      var a :| a in s.requests && Claimant(s.requests[a]) && s.requests[a].item.scope == s.requests[id].item.scope;
      assert Stands(s, a, s.requests[a]);
      hide Inv, SqlLe;
      assert once.requests[id] == Inserting(s.requests[id].item) && s.requests[id].item.scope !in once.records;
      assert Next(once, Proceed(id, false)).requests[a] == s.requests[a];
    } else {
      NextKeeps(s, Proceed(id, false));
      CarefulClaimsOnce(once, id);
    }
  }

  lemma ClaimsOnce(s: State, b: Id)
    requires Inv(s)
    ensures !ClaimsTwice(s, b)
  {
    if b in s.requests && Claimant(s.requests[b]) {
      assert Stands(s, b, s.requests[b]);
      forall a | a in s.requests && a != b && Claimant(s.requests[a]) ensures s.requests[a].item.scope != s.requests[b].item.scope {
        assert Stands(s, a, s.requests[a]);
      }
    }
  }

  lemma CarefulClaimsOnce(s: State, id: Id)
    requires Inv(s)
    ensures !ClaimsTwice(Next(s, Proceed(id, false)), id)
  {
    var s' := Next(s, Proceed(id, false));
    if Careful(s, Proceed(id, false)) {
      NextKeeps(s, Proceed(id, false));
      ClaimsOnce(s', id);
    } else {
      hide Inv, SqlLe;
      assert s'.requests[id].Inserting?;
    }
  }

  /** So every run that is not careful has a moment from which one step more brings
      a second claimant into a scope. */
  lemma {:induction false} CarelessRunsClaimTwice(s: State, steps: seq<Step>) returns (n: nat)
    requires !AllCareful(s, steps) && Inv(s)
    ensures n < |steps| && steps[n].Proceed?
    ensures ClaimsTwice(Next(Run(s, steps[..n + 1]), steps[n]), steps[n].id)
    decreases |steps|
  {
    hide Inv, Next, Careful, ClaimsTwice;
    assert steps != [];
    var next := Next(s, steps[0]);
    if Careful(s, steps[0]) {
      NextKeeps(s, steps[0]);
      var m := CarelessRunsClaimTwice(next, steps[1..]);
      n := m + 1;
      assert steps[..n + 1][0] == steps[0] && steps[..n + 1][1..] == steps[1..][..m + 1];
      assert Run(s, steps[..n + 1]) == Run(next, steps[1..][..m + 1]);
    } else {
      n := 0;
      CarelessIsProceed(s, steps[0]);
      CarelessClaimsTwice(s, steps[0].id);
      assert steps[..1] == [steps[0]] && [steps[0]][1..] == [];
      assert Run(s, [steps[0]]) == Run(next, []) == next;
    }
  }

  lemma CarelessIsProceed(s: State, step: Step)
    requires !Careful(s, step)
    ensures step.Proceed? && step == Proceed(step.id, false)
  {
  }

  lemma LostIsNotInv(s: State, a: Id)
    requires a in s.requests && !Stands(s, a, s.requests[a])
    ensures !Inv(s)
  {
  }

  /** Claimants that settle before the second in which their record expires make
      every step careful. */
  lemma PunctualIsCareful(s: State, step: Step)
    requires Punctual(s) && Inv(s)
    ensures Careful(s, step)
  {
    if step.Proceed? && step.id in s.requests && s.requests[step.id].Deleting? && DueInSql(s.records, s.requests[step.id].item) {
      var item := s.requests[step.id].item;
      assert Dated(s, s.requests[step.id]);
      forall c | c in s.requests && Claimant(s.requests[c]) ensures s.requests[c].item.scope != item.scope {
        assert Stands(s, c, s.requests[c]);
        if s.requests[c].item.scope == item.scope {
          ClaimantIsNotDue(s, item, c);
        }
      }
    }
  }

  lemma {:induction false} PunctualRunsAreCareful(s: State, steps: seq<Step>)
    requires AllPunctual(s, steps) && Inv(s)
    ensures AllCareful(s, steps)
    decreases |steps|
  {
    hide Inv, Next, Punctual, Careful;
    if steps != [] {
      PunctualIsCareful(s, steps[0]);
      NextKeeps(s, steps[0]);
      PunctualRunsAreCareful(Next(s, steps[0]), steps[1..]);
    }
  }

  lemma {:induction false} RunKeeps(s: State, steps: seq<Step>)
    requires AllCareful(s, steps) && Inv(s)
    ensures Inv(Run(s, steps))
    decreases |steps|
  {
    hide Inv, Next, Careful;
    if steps != [] {
      NextKeeps(s, steps[0]);
      RunKeeps(Next(s, steps[0]), steps[1..]);
    }
  }

  // ------------------------------------------------------------------ theorems

  /** In every careful run a scope has at most one claimant in flight, whose body
      hash is the one on record. */
  lemma AtMostOneClaimant(steps: seq<Step>, a: Id, b: Id)
    requires AllCareful(START, steps)
    requires var r := Run(START, steps).requests; a in r && b in r && Claimant(r[a]) && Claimant(r[b])
    ensures var s := Run(START, steps);
      && s.requests[a].item.scope in s.records && s.records[s.requests[a].item.scope] == Fresh(s.requests[a].item)
      && (s.requests[a].item.scope == s.requests[b].item.scope ==> a == b)
  {
    RunKeeps(START, steps);
    hide Run, AllCareful;
    var s := Run(START, steps);
    assert Stands(s, a, s.requests[a]);
    if s.requests[a].item.scope == s.requests[b].item.scope {
      OneClaimant(s, a, b);
    }
  }

  /** Each record lifetime sees at most one stored success, and every replay repeats
      exactly the outcome that the record's own run stored, for the same body. */
  lemma ReplaysAreFaithful(steps: seq<Step>)
    requires AllCareful(START, steps)
    ensures var s := Run(START, steps);
      && (forall i, j :: 0 <= i < j < |s.log| && s.log[i].Success? && s.log[j].Success? ==> s.log[i].claimant != s.log[j].claimant)
      && forall i: nat :: i < |s.log| ==> ReplayBacked(s, i)
  {
    RunKeeps(START, steps);
    hide Run, AllCareful;
  }

  /** In particular all of this holds of every run whose claimants settle before the
      second in which their record expires. */
  lemma PunctualRunsAreSafe(steps: seq<Step>)
    requires AllPunctual(START, steps)
    ensures AllCareful(START, steps) && Inv(Run(START, steps))
  {
    hide AllPunctual, AllCareful, Run;
    PunctualRunsAreCareful(START, steps);
    RunKeeps(START, steps);
  }

  // ------------------------------------------------------ what is ever replayed

  predicate Kept(status: int) { status == 0 || 200 <= status <= 299 }

  predicate KeepsSuccess(r: Request) {
    (r.Completing? ==> 200 <= r.outcome.status <= 299) && (r.Deleting? ==> Kept(r.existing.status))
  }

  /** Nothing outside 200 to 299 is stored, being stored, or in the history. */
  ghost predicate OnlySuccesses(s: State) {
    && (forall k :: k in s.records ==> Kept(s.records[k].status))
    && (forall id :: id in s.requests ==> KeepsSuccess(s.requests[id]))
    && (forall i :: 0 <= i < |s.log| ==> 200 <= s.log[i].outcome.status <= 299)
  }

  lemma OneMoreSuccess(s: State, step: Step)
    requires OnlySuccesses(s)
    ensures OnlySuccesses(Next(s, step))
  {
    hide SqlLe;
    match step
    case Proceed(id, fails) => if id in s.requests { ProceedSucceeds(s, id, fails); }
    case _ => hide ProceedStep;
  }

  lemma ProceedSucceeds(s: State, id: Id, fails: bool)
    requires id in s.requests && OnlySuccesses(s)
    ensures OnlySuccesses(ProceedStep(s, id, s.requests[id], fails))
  {
    hide SqlLe;
    assert KeepsSuccess(s.requests[id]);
  }

  /** In every run, careful or not, what is stored or replayed has a status from 200 to 299. */
  lemma {:induction false} OnlySuccessesAreKept(steps: seq<Step>)
    ensures OnlySuccesses(Run(START, steps))
  {
    SuccessesFrom(START, steps);
  }

  lemma {:induction false} SuccessesFrom(s: State, steps: seq<Step>)
    requires OnlySuccesses(s)
    ensures OnlySuccesses(Run(s, steps))
    decreases |steps|
  {
    hide OnlySuccesses, Next;
    if steps != [] {
      OneMoreSuccess(s, steps[0]);
      SuccessesFrom(Next(s, steps[0]), steps[1..]);
    }
  }
}
