/** The lifetime of an idempotency record over runs, and two concrete runs: a claimant
    that settles late, and a request that read an earlier record. */
module IdempotencyLifetimes {
  import opened Basics
  import opened Timestamps
  import opened Idempotency
  import opened IdempotencySafety

  // -------------------------------------------------- while a record stands

  predicate StandsFor(s: State, scope: Scope, holder: Id) {
    scope in s.records && scope in s.holders && s.holders[scope] == holder
  }

  /** The record of `holder` stands at every moment of the run. */
  ghost predicate StandsThrough(s: State, steps: seq<Step>, scope: Scope, holder: Id)
    decreases |steps|
  {
    StandsFor(s, scope, holder) && (steps == [] || StandsThrough(Next(s, steps[0]), steps[1..], scope, holder))
  }

  /** No request is about to answer from an earlier record of the scope: whoever has
      read one will delete the standing record as due, or has a conflict coming. */
  ghost predicate NoStaleReplay(s: State, scope: Scope, holder: Id) {
    forall id :: id in s.requests && ReadAnother(s.requests[id], scope, holder)
      ==> DueInSql(s.records, s.requests[id].item) || !Answer(s.requests[id].item, s.requests[id].existing).Replayed?
  }

  /** Holds what it read of another record of the scope. */
  predicate ReadAnother(r: Request, scope: Scope, holder: Id) { r.Deleting? && r.item.scope == scope && r.holder != holder }

  /** What may happen on a scope while the record of `holder` stands. */
  predicate Belongs(s: State, e: Event, scope: Scope, holder: Id) {
    e.scope == scope ==>
      match e
      case Success(_, claimant, _) => claimant == holder
      case Replay(_, h, hash, _) => h == holder && holder in s.requests && s.requests[holder].item.hash == hash
  }

  /** From `a` to `b` the history has grown by what belongs to the record. */
  ghost predicate Keeps(a: State, b: State, scope: Scope, holder: Id) {
    && a.log <= b.log && (forall i :: |a.log| <= i < |b.log| ==> Belongs(b, b.log[i], scope, holder))
    && (forall id :: id in a.requests ==> id in b.requests && b.requests[id].item == a.requests[id].item)
  }

  lemma AnswerBelongs(s: State, id: Id, item: Item, existing: Record, h: Id, scope: Scope, holder: Id)
    requires id in s.requests && s.requests[id].item == item && Backed(s, item.scope, h, existing)
    requires item.scope == scope && Answer(item, existing).Replayed? ==> h == holder
    ensures Keeps(s, AnswerStep(s, id, item, existing, h), scope, holder)
  {
  }

  /** One step while the record stands. */
  lemma StepBelongs(s: State, step: Step, scope: Scope, holder: Id)
    requires StandsFor(s, scope, holder) && StandsFor(Next(s, step), scope, holder) && NoStaleReplay(s, scope, holder) && Inv(s)
    ensures Keeps(s, Next(s, step), scope, holder) && NoStaleReplay(Next(s, step), scope, holder)
  {
    match step
    case Proceed(id, fails) =>
      if id in s.requests {
        ProceedBelongs(s, id, fails, scope, holder);
        hide Keeps, Inv, SqlLe, ReadAnother, NoStaleReplay;
        StaysUnstale(s, Next(s, step), id, scope, holder) by { ReadsTheHolder(s, id, fails, scope, holder); }
      }
    case _ => OthersBelong(s, step, scope, holder);
  }

  /** Steps that are no database call of a request. */
  lemma OthersBelong(s: State, step: Step, scope: Scope, holder: Id)
    requires !step.Proceed? && StandsFor(s, scope, holder) && NoStaleReplay(s, scope, holder)
    ensures Keeps(s, Next(s, step), scope, holder) && NoStaleReplay(Next(s, step), scope, holder)
  {
    hide SqlLe, ProceedStep;
  }

  /** What a moving request reads of the scope is the standing record, which keeps
      its expiry for as long as it stands. */
  lemma ReadsTheHolder(s: State, id: Id, fails: bool, scope: Scope, holder: Id)
    requires id in s.requests && StandsFor(s, scope, holder)
    requires var s' := ProceedStep(s, id, s.requests[id], fails); StandsFor(s', scope, holder)
    ensures var s' := ProceedStep(s, id, s.requests[id], fails);
      && id in s'.requests && s'.requests == s.requests[id := s'.requests[id]]
      && !(s'.requests[id] != s.requests[id] && ReadAnother(s'.requests[id], scope, holder))
      && s'.records[scope].expiresAt == s.records[scope].expiresAt
  {
    hide SqlLe;
    var s' := ProceedStep(s, id, s.requests[id], fails);
    assert s.requests[id := s.requests[id]] == s.requests;
  }

  lemma StaysUnstale(s: State, s': State, id: Id, scope: Scope, holder: Id)
    requires NoStaleReplay(s, scope, holder) && StandsFor(s, scope, holder) && StandsFor(s', scope, holder)
    requires id in s.requests && id in s'.requests && s'.requests == s.requests[id := s'.requests[id]]
    requires !(s'.requests[id] != s.requests[id] && ReadAnother(s'.requests[id], scope, holder))
    requires s'.records[scope].expiresAt == s.records[scope].expiresAt
    ensures NoStaleReplay(s', scope, holder)
  {
    hide SqlLe;
  }

  /** One request moves on, and the history stays. */
  lemma QuietBelongs(s: State, s': State, id: Id, r: Request, scope: Scope, holder: Id)
    requires id in s.requests && s.requests[id].item == r.item && s'.requests == s.requests[id := r] && s'.log == s.log
    ensures Keeps(s, s', scope, holder)
  {
  }

  lemma ReadBelongs(s: State, id: Id, item: Item, scope: Scope, holder: Id)
    requires id in s.requests && s.requests[id] == Reading(item) && StandsFor(s, scope, holder) && RecordsBacked(s)
    ensures Keeps(s, ReadStep(s, id, item), scope, holder)
  {
    if item.scope in s.records {
      var existing, h := s.records[item.scope], s.holders[item.scope];
      assert Backed(s, item.scope, h, existing);
      AnswerBelongs(s, id, item, existing, h, scope, holder);
    }
    hide Backed;
  }

  lemma DeleteBelongs(s: State, id: Id, item: Item, existing: Record, h: Id, scope: Scope, holder: Id)
    requires id in s.requests && s.requests[id] == Deleting(item, existing, h)
    requires NoStaleReplay(s, scope, holder) && ReadsBacked(s)
    ensures Keeps(s, DeleteStep(s, id, item, existing, h), scope, holder)
  {
    hide SqlLe;
    assert Backed(s, item.scope, h, existing);
    if !DueInSql(s.records, item) {
      AnswerBelongs(s, id, item, existing, h, scope, holder);
    }
    hide Backed;
  }

  lemma CompleteBelongs(s: State, id: Id, item: Item, o: Outcome, scope: Scope, holder: Id)
    requires id in s.requests && s.requests[id] == Completing(item, o) && Stands(s, id, s.requests[id])
    requires StandsFor(s, scope, holder)
    ensures Keeps(s, CompleteStep(s, id, item, o), scope, holder)
  {
  }

  lemma ProceedBelongs(s: State, id: Id, fails: bool, scope: Scope, holder: Id)
    requires id in s.requests && StandsFor(s, scope, holder) && NoStaleReplay(s, scope, holder) && Inv(s)
    ensures Keeps(s, ProceedStep(s, id, s.requests[id], fails), scope, holder)
  {
    var r := s.requests[id];
    assert Stands(s, id, r);
    hide Backed, SqlLe, ReadStep, DeleteStep, CompleteStep, Stands, StandsFor, NoStaleReplay, Keeps;
    var s' := ProceedStep(s, id, r, fails);
    if r.Running? || r.Finished? {
      NothingBelongs(s, scope, holder);
    } else if !fails && r.Reading? {
      ReadBelongs(s, id, r.item, scope, holder);
    } else if !fails && r.Deleting? {
      DeleteBelongs(s, id, r.item, r.existing, r.holder, scope, holder);
    } else if !fails && r.Completing? {
      CompleteBelongs(s, id, r.item, r.outcome, scope, holder);
    } else {
      QuietBelongs(s, s', id, s'.requests[id], scope, holder);
    }
  }

  lemma NothingBelongs(s: State, scope: Scope, holder: Id)
    ensures Keeps(s, s, scope, holder)
  {
  }

  lemma KeepsTwice(a: State, b: State, c: State, scope: Scope, holder: Id)
    requires Keeps(a, b, scope, holder) && Keeps(b, c, scope, holder)
    ensures Keeps(a, c, scope, holder)
  {
    forall i | |a.log| <= i < |c.log| ensures Belongs(c, c.log[i], scope, holder) {
      if i < |b.log| {
        assert c.log[i] == b.log[i] && Belongs(b, b.log[i], scope, holder);
      }
    }
  }

  lemma {:induction false} RunBelongs(s: State, steps: seq<Step>, scope: Scope, holder: Id)
    requires AllCareful(s, steps) && StandsThrough(s, steps, scope, holder) && NoStaleReplay(s, scope, holder)
    requires Inv(s)
    ensures Keeps(s, Run(s, steps), scope, holder) && Inv(Run(s, steps)) && StandsFor(Run(s, steps), scope, holder)
    decreases |steps|
  {
    hide Inv, Next, Careful, NoStaleReplay, StandsFor;
    if steps == [] {
      assert Keeps(s, s, scope, holder);
    } else {
      var next := Next(s, steps[0]);
      StepBelongs(s, steps[0], scope, holder);
      NextKeeps(s, steps[0]);
      RunBelongs(next, steps[1..], scope, holder);
      KeepsTwice(s, next, Run(next, steps[1..]), scope, holder);
      hide Keeps;
    }
  }

  /** Whatever follows, for as long as the record stands, only what belongs to it happens. */
  ghost predicate KeptForGood(s: State, scope: Scope, holder: Id) {
    forall more :: AllCareful(s, more) && StandsThrough(s, more, scope, holder) ==> Keeps(s, Run(s, more), scope, holder)
  }

  /** The condition is exact. */
  lemma StaleReplayIsExact(s: State, scope: Scope, holder: Id)
    requires StandsFor(s, scope, holder) && Inv(s)
    ensures NoStaleReplay(s, scope, holder) <==> KeptForGood(s, scope, holder)
  {
    if NoStaleReplay(s, scope, holder) {
      forall more | AllCareful(s, more) && StandsThrough(s, more, scope, holder)
        ensures Keeps(s, Run(s, more), scope, holder)
      {
        hide Inv, NoStaleReplay, AllCareful, StandsThrough, Keeps, Run;
        RunBelongs(s, more, scope, holder);
      }
    } else {
      var id :| id in s.requests && ReadAnother(s.requests[id], scope, holder)
        && !DueInSql(s.records, s.requests[id].item) && Answer(s.requests[id].item, s.requests[id].existing).Replayed?;
      hide Inv, NoStaleReplay;
      StaleReplays(s, scope, holder, id);
    }
  }

  /** Such a request breaks the rule with its next step, and the record stands on. */
  lemma StaleReplays(s: State, scope: Scope, holder: Id, id: Id)
    requires StandsFor(s, scope, holder) && id in s.requests && ReadAnother(s.requests[id], scope, holder)
    requires !DueInSql(s.records, s.requests[id].item) && Answer(s.requests[id].item, s.requests[id].existing).Replayed?
    ensures !KeptForGood(s, scope, holder)
  {
    hide SqlLe;
    var step := Proceed(id, false);
    var e := Next(s, step);
    assert [step][1..] == [];
    assert Run(s, [step]) == Run(e, []) == e;
    assert AllCareful(e, []) && StandsThrough(e, [], scope, holder);
    assert AllCareful(s, [step]) && StandsThrough(s, [step], scope, holder);
    assert !Belongs(e, e.log[|s.log|], scope, holder);
  }

  /** From the claim of a record to its deletion only its holder executes in the scope,
      and only requests with the holder's body replay, from that record, provided no
      request is about to replay an earlier record that it read before the claim. */
  lemma WhileRecordStands(steps: seq<Step>, more: seq<Step>, scope: Scope, holder: Id, id: Id)
    requires AllCareful(START, steps) && AllCareful(Run(START, steps), more)
    requires StandsThrough(Run(START, steps), more, scope, holder) && NoStaleReplay(Run(START, steps), scope, holder)
    ensures var s := Run(START, steps); var e := Run(s, more);
      && s.log <= e.log && (forall i :: |s.log| <= i < |e.log| ==> Belongs(e, e.log[i], scope, holder))
      && (id in e.requests && Claimant(e.requests[id]) && e.requests[id].item.scope == scope ==> id == holder)
  {
    hide Run, AllCareful, StandsThrough, NoStaleReplay;
    StartIsOk();
    RunKeeps(START, steps);
    RunBelongs(Run(START, steps), more, scope, holder);
    var e := Run(Run(START, steps), more);
    if id in e.requests && Claimant(e.requests[id]) && e.requests[id].item.scope == scope {
      assert Stands(e, id, e.requests[id]);
    }
  }

  // ------------------------------------------- other bodies while a record stands

  /** A request on its way to a conflict, or to an error of its own. */
  predicate Refused(r: Request, holder: Id) {
    match r
    case Inserting(_) => true
    case Reading(_) => true
    case Deleting(_, _, h) => h == holder
    case Finished(_, reply) => reply == Failed(Conflict) || reply == Failed(Internal)
    case _ => false
  }

  /** If it asks for the scope with another body than the holder's, it is refused. */
  predicate RefusedIfOther(s: State, id: Id, scope: Scope, holder: Id) {
    id in s.requests && s.requests[id].item.scope == scope
    && holder in s.requests && s.requests[id].item.hash != s.requests[holder].item.hash
    ==> Refused(s.requests[id], holder)
  }

  lemma OtherProceeds(s: State, id: Id, fails: bool, scope: Scope, holder: Id)
    requires id in s.requests && s.requests[id].item.scope == scope && Refused(s.requests[id], holder)
    requires StandsFor(s, scope, holder) && StandsFor(Next(s, Proceed(id, fails)), scope, holder)
    requires holder in s.requests && s.requests[holder].item.hash != s.requests[id].item.hash
    requires s.requests[holder].item.hash == s.records[scope].hash
    requires s.requests[id].Deleting? ==> s.requests[id].existing.hash == s.records[scope].hash
    ensures var s' := Next(s, Proceed(id, fails)); id in s'.requests && Refused(s'.requests[id], holder)
  {
    hide SqlLe;
  }

  lemma ItemsStay(s: State, step: Step, id: Id)
    requires id in s.requests
    ensures id in Next(s, step).requests && Next(s, step).requests[id].item == s.requests[id].item
    ensures !(step.Proceed? && step.id == id) ==>
      var r, r' := s.requests[id], Next(s, step).requests[id]; r' == r || r.Running? || r' == Finished(r.item, Failed(Internal))
  {
    hide SqlLe;
    if step.Proceed? && step.id in s.requests {
      OneMoves(s, step.id, step.fails);
      hide ProceedStep;
    }
  }

  lemma OneMoves(s: State, id: Id, fails: bool)
    requires id in s.requests
    ensures var s' := ProceedStep(s, id, s.requests[id], fails);
      && id in s'.requests && s'.requests[id].item == s.requests[id].item && s'.requests == s.requests[id := s'.requests[id]]
  {
    hide SqlLe;
    assert s.requests[id := s.requests[id]] == s.requests;
  }

  lemma OtherStep(s: State, step: Step, id: Id, scope: Scope, holder: Id)
    requires StandsFor(s, scope, holder) && StandsFor(Next(s, step), scope, holder) && RefusedIfOther(s, id, scope, holder)
    requires Inv(s)
    ensures RefusedIfOther(Next(s, step), id, scope, holder)
  {
    assert Backed(s, scope, holder, s.records[scope]);
    ItemsStay(s, step, holder);
    if id in s.requests {
      if s.requests[id].Deleting? {
        assert Backed(s, s.requests[id].item.scope, s.requests[id].holder, s.requests[id].existing);
      }
      hide Inv, SqlLe, Backed;
      ItemsStay(s, step, id);
      if step == Proceed(id, true) || step == Proceed(id, false) {
        hide Next;
        if !RefusedIfOther(Next(s, step), id, scope, holder) {
          OtherProceeds(s, id, step.fails, scope, holder);
        }
      }
    } else {
      hide Inv, SqlLe, Backed;
    }
  }

  lemma {:induction false} OtherRun(s: State, steps: seq<Step>, id: Id, scope: Scope, holder: Id)
    requires AllCareful(s, steps) && StandsThrough(s, steps, scope, holder) && RefusedIfOther(s, id, scope, holder)
    requires Inv(s)
    ensures RefusedIfOther(Run(s, steps), id, scope, holder) && StandsFor(Run(s, steps), scope, holder) && Inv(Run(s, steps))
    decreases |steps|
  {
    hide Inv, Next, Careful, RefusedIfOther, StandsFor;
    if steps != [] {
      OtherStep(s, steps[0], id, scope, holder);
      NextKeeps(s, steps[0]);
      OtherRun(Next(s, steps[0]), steps[1..], id, scope, holder);
    }
  }

  /** Whoever comes while the record stands, with another body, is refused: it never
      executes or replays, and if it ends at all, then with a conflict or with an
      error of the storage or the process. */
  lemma OtherBodiesConflict(steps: seq<Step>, more: seq<Step>, scope: Scope, holder: Id, id: Id)
    requires AllCareful(START, steps) && AllCareful(Run(START, steps), more)
    requires StandsThrough(Run(START, steps), more, scope, holder) && id !in Run(START, steps).requests
    ensures var e := Run(Run(START, steps), more);
      && scope in e.records
      && (id in e.requests && e.requests[id].item.scope == scope && e.requests[id].item.hash != e.records[scope].hash
          ==> Refused(e.requests[id], holder))
  {
    hide Run, AllCareful, StandsThrough;
    StartIsOk();
    RunKeeps(START, steps);
    OtherRun(Run(START, steps), more, id, scope, holder);
    var e := Run(Run(START, steps), more);
    assert Backed(e, scope, e.holders[scope], e.records[scope]);
  }

  lemma StartIsOk()
    ensures Inv(START)
  {
  }

  // ------------------------------------------------------------- concrete runs

  const POST := Scope("actor", "POST", "/v1/things", "key-0001")

  /** `a` claims and is slow. */
  const SLOW := [Arrive("a", POST, "one"), Proceed("a", false), Tick(WINDOW), Arrive("b", POST, "two")]

  /** `b`, with another body, finds the record expired and claims anew. */
  const TAKEN := [Proceed("b", false), Proceed("b", false), Proceed("b", false), Proceed("b", false)]

  /** `a` completes the record of `b`, and `c`, with the body of `b`, is about to read it. */
  const LATE := [Handle("a", Outcome(201, "one made")), Proceed("a", false), Arrive("c", POST, "two"), Proceed("c", false)]

  lemma {:induction false} RunConcat(s: State, a: seq<Step>, b: seq<Step>)
    ensures Run(s, a + b) == Run(Run(s, a), b)
    decreases |a|
  {
    if a == [] {
      assert a + b == b;
    } else {
      assert (a + b)[0] == a[0] && (a + b)[1..] == a[1..] + b;
      RunConcat(Next(s, a[0]), a[1..], b);
    }
  }

  lemma RunTwo(s: State, a: Step, b: Step)
    ensures Run(s, [a, b]) == Next(Next(s, a), b)
  {
    assert [a, b][1..] == [b] && [b][1..] == [];
    assert Run(Next(s, a), [b]) == Run(Next(Next(s, a), b), []);
  }

  lemma RunFour(s: State, a: Step, b: Step, c: Step, d: Step)
    ensures Run(s, [a, b, c, d]) == Next(Next(Next(Next(s, a), b), c), d)
  {
    hide Next;
    RunConcat(s, [a, b], [c, d]);
    assert [a, b, c, d] == [a, b] + [c, d];
    RunTwo(s, a, b);
    RunTwo(Next(Next(s, a), b), c, d);
  }

  const ONE := Item(POST, "one", 0, WINDOW)
  const TWO := Item(POST, "two", WINDOW, WINDOW + WINDOW)
  const MADE := Outcome(201, "one made")

  /** The state in which both requests run the handler. */
  const BOTH := State(WINDOW, map[POST := Fresh(TWO)], map["a" := Running(ONE), "b" := Running(TWO)], map[POST := "b"], [])

  /** The state in which `a` runs the handler and its record has expired. */
  const SLOW_STATE := State(WINDOW, map[POST := Fresh(ONE)], map["a" := Running(ONE), "b" := Inserting(TWO)], map[POST := "a"], [])

  lemma FirstIsSlow()
    ensures Run(START, SLOW) == SLOW_STATE
  {
    hide SqlLe, Run;
    RunFour(START, SLOW[0], SLOW[1], SLOW[2], SLOW[3]);
  }

  lemma SecondTakes()
    ensures Run(SLOW_STATE, TAKEN) == BOTH
  {
    SqlLeTotal(WINDOW, WINDOW);
    hide SqlLe, Run;
    RunFour(SLOW_STATE, TAKEN[0], TAKEN[1], TAKEN[2], TAKEN[3]);
    assert SLOW_STATE.records - {POST} == map[];
  }

  lemma BothRun()
    ensures Run(START, SLOW + TAKEN) == BOTH
  {
    FirstIsSlow();
    SecondTakes();
    RunConcat(START, SLOW, TAKEN);
    hide Run, Next;
  }

  /** The state in which `a` has completed the record of `b`. */
  const SETTLED := State(WINDOW, map[POST := Fresh(TWO).(status := 201, body := "one made")],
    map["a" := Finished(ONE, Executed(MADE)), "b" := Running(TWO)], map[POST := "b"], [Success(POST, "a", MADE)])

  lemma FirstSettles()
    ensures Next(Next(BOTH, LATE[0]), LATE[1]) == SETTLED
  {
    hide SqlLe, Run;
  }

  lemma LateAnswer()
    ensures var s := Next(Run(BOTH, LATE), Proceed("c", false));
      "c" in s.requests && s.requests["c"] == Finished(TWO, Replayed(MADE))
  {
    FirstSettles();
    hide SqlLe, Run;
    RunFour(BOTH, LATE[0], LATE[1], LATE[2], LATE[3]);
    var s := Next(Next(SETTLED, LATE[2]), LATE[3]);
    assert "c" in s.requests && s.requests["c"] == Reading(TWO);
  }

  /** Without care two requests run the handler at once, and a request is
      answered with the outcome of another body. */
  lemma LateSettlementLeaks()
    ensures var s := Run(START, SLOW + TAKEN);
      "a" in s.requests && "b" in s.requests && s.requests["a"] == Running(ONE) && s.requests["b"] == Running(TWO)
    ensures var s := Next(Run(START, SLOW + TAKEN + LATE), Proceed("c", false));
      "c" in s.requests && s.requests["c"] == Finished(TWO, Replayed(MADE)) && ONE.hash != TWO.hash
  {
    BothRun();
    LateAnswer();
    RunConcat(START, SLOW + TAKEN, LATE);
    hide Run, Next;
  }

  /** `a` succeeds, and its record expires. */
  const EXPIRED := [Arrive("a", POST, "one"), Proceed("a", false), Handle("a", MADE), Proceed("a", false)]

  /** `b`, with the body of `a`, reads the expired record. */
  const READ := [Tick(WINDOW), Arrive("b", POST, "one"), Proceed("b", false), Proceed("b", false)]

  /** `c`, with another body, deletes it. */
  const CLAIMED := [Arrive("c", POST, "two"), Proceed("c", false), Proceed("c", false), Proceed("c", false)]

  /** `c` claims anew; then `b` goes on. */
  const ANSWERED := [Proceed("c", false), Proceed("b", false)]

  const DONE := Fresh(ONE).(status := 201, body := "one made")
  const AGAIN := Item(POST, "one", WINDOW, WINDOW + WINDOW)

  const MADE_STATE := State(0, map[POST := DONE], map["a" := Finished(ONE, Executed(MADE))], map[POST := "a"], [Success(POST, "a", MADE)])

  const READ_STATE := State(WINDOW, map[POST := DONE],
    map["a" := Finished(ONE, Executed(MADE)), "b" := Deleting(AGAIN, DONE, "a")], map[POST := "a"], [Success(POST, "a", MADE)])

  const CLAIMED_STATE := State(WINDOW, map[],
    map["a" := Finished(ONE, Executed(MADE)), "b" := Deleting(AGAIN, DONE, "a"), "c" := Inserting(TWO)],
    map[POST := "a"], [Success(POST, "a", MADE)])

  lemma FirstSucceeds()
    ensures Run(START, EXPIRED) == MADE_STATE
  {
    hide SqlLe, Run;
    RunFour(START, EXPIRED[0], EXPIRED[1], EXPIRED[2], EXPIRED[3]);
  }

  lemma SecondReads()
    ensures Run(MADE_STATE, READ) == READ_STATE
  {
    hide SqlLe, Run;
    RunFour(MADE_STATE, READ[0], READ[1], READ[2], READ[3]);
  }

  lemma ThirdDeletes()
    ensures Run(READ_STATE, CLAIMED) == CLAIMED_STATE
  {
    SqlLeTotal(WINDOW, WINDOW);
    hide SqlLe, Run;
    RunFour(READ_STATE, CLAIMED[0], CLAIMED[1], CLAIMED[2], CLAIMED[3]);
    assert READ_STATE.records - {POST} == map[];
  }

  lemma StaleAnswer()
    requires !SqlLe(WINDOW + WINDOW, WINDOW)
    ensures var s := Next(CLAIMED_STATE, Proceed("c", false)); var e := Next(s, Proceed("b", false));
      && "c" in s.requests && s.requests["c"] == Running(TWO) && StandsFor(s, POST, "c") && s.records == e.records && s.holders == e.holders
      && "b" in e.requests && e.requests["b"] == Finished(AGAIN, Replayed(MADE))
  {
    hide SqlLe;
  }

  lemma DaysApart()
    ensures !SqlLe(WINDOW + WINDOW, WINDOW)
  {
    assert Sec(WINDOW) == DAY && Sec(WINDOW + WINDOW) == 2 * DAY;
    assert CivilOf(DAY).year == 0 && CivilOf(2 * DAY).year == 0;
    hide SqlLe, CivilOf;
    SqlLeAcrossSeconds(WINDOW, WINDOW + WINDOW);
  }

  lemma {:induction false} PunctualConcat(s: State, a: seq<Step>, b: seq<Step>)
    requires AllPunctual(s, a) && AllPunctual(Run(s, a), b)
    ensures AllPunctual(s, a + b)
    decreases |a|
  {
    hide Next, Punctual;
    if a == [] {
      assert a + b == b;
    } else {
      assert (a + b)[0] == a[0] && (a + b)[1..] == a[1..] + b;
      PunctualConcat(Next(s, a[0]), a[1..], b);
    }
  }

  lemma PunctualTwo(s: State, a: Step, b: Step)
    requires Punctual(s) && Punctual(Next(s, a)) && Punctual(Next(Next(s, a), b))
    ensures AllPunctual(s, [a, b])
  {
    hide Next, Punctual;
    assert [a, b][1..] == [b] && [b][1..] == [];
    assert AllPunctual(Next(Next(s, a), b), []);
    assert AllPunctual(Next(s, a), [b]);
  }

  lemma PunctualFour(s: State, a: Step, b: Step, c: Step, d: Step)
    requires var s2 := Next(Next(s, a), b);
      && Punctual(s) && Punctual(Next(s, a)) && Punctual(s2) && Punctual(Next(s2, c)) && Punctual(Next(Next(s2, c), d))
    ensures AllPunctual(s, [a, b, c, d])
  {
    hide Next, Punctual;
    PunctualTwo(s, a, b);
    RunTwo(s, a, b);
    PunctualTwo(Next(Next(s, a), b), c, d);
    PunctualConcat(s, [a, b], [c, d]);
    assert [a, b, c, d] == [a, b] + [c, d];
  }

  lemma WindowsInRange()
    ensures InRange(WINDOW) && InRange(WINDOW + WINDOW) && Sec(0) < Sec(WINDOW) < Sec(WINDOW + WINDOW)
  {
    assert Sec(WINDOW) == DAY && Sec(WINDOW + WINDOW) == 2 * DAY;
    assert CivilOf(DAY).year == 0 && CivilOf(2 * DAY).year == 0;
  }

  lemma StaleIsPunctual()
    ensures AllPunctual(START, EXPIRED) && AllPunctual(MADE_STATE, READ) && AllPunctual(READ_STATE, CLAIMED)
  {
    WindowsInRange();
    SqlLeTotal(WINDOW, WINDOW);
    hide SqlLe, Run, InRange, AllPunctual;
    PunctualFour(START, EXPIRED[0], EXPIRED[1], EXPIRED[2], EXPIRED[3]);
    PunctualFour(MADE_STATE, READ[0], READ[1], READ[2], READ[3]);
    assert READ_STATE.records - {POST} == map[];
    PunctualFour(READ_STATE, CLAIMED[0], CLAIMED[1], CLAIMED[2], CLAIMED[3]);
  }

  lemma AnswerIsPunctual()
    requires !SqlLe(WINDOW + WINDOW, WINDOW)
    ensures AllPunctual(CLAIMED_STATE, ANSWERED)
    ensures StandsThrough(Next(CLAIMED_STATE, ANSWERED[0]), [ANSWERED[1]], POST, "c")
  {
    WindowsInRange();
    hide SqlLe, Run, InRange, AllPunctual;
    PunctualTwo(CLAIMED_STATE, ANSWERED[0], ANSWERED[1]);
    StaleAnswer();
    var s := Next(CLAIMED_STATE, ANSWERED[0]);
    assert [ANSWERED[1]][1..] == [] && StandsThrough(Next(s, ANSWERED[1]), [], POST, "c");
  }

  /** The exception is real, and of a punctual run: in this run `b` replays the outcome of an earlier
      record, which it had read before, while the record of `c`, for another body,
      stands throughout. */
  lemma StaleReaderReplays()
    ensures AllPunctual(START, EXPIRED + READ + CLAIMED + ANSWERED)
    ensures StandsThrough(Next(Run(START, EXPIRED + READ + CLAIMED), ANSWERED[0]), [ANSWERED[1]], POST, "c")
    ensures var s := Next(Run(START, EXPIRED + READ + CLAIMED), ANSWERED[0]); var e := Next(s, ANSWERED[1]);
      && "c" in s.requests && s.requests["c"] == Running(TWO)
      && "b" in e.requests && e.requests["b"] == Finished(AGAIN, Replayed(MADE)) && AGAIN.hash != TWO.hash
  {
    hide Run, Next, SqlLe, AllPunctual, StandsThrough;
    FirstSucceeds();
    SecondReads();
    ThirdDeletes();
    RunConcat(START, EXPIRED, READ);
    RunConcat(START, EXPIRED + READ, CLAIMED);
    DaysApart();
    StaleAnswer();
    StaleIsPunctual();
    AnswerIsPunctual();
    PunctualConcat(START, EXPIRED, READ);
    PunctualConcat(START, EXPIRED + READ, CLAIMED);
    PunctualConcat(START, EXPIRED + READ + CLAIMED, ANSWERED);
  }
}
