/** Sessions under concurrent authentication, logout and cleanup.  An
    authentication reads a session, checks it against the clock, and touches the
    row; cleanup and revocation may come in between.  Token hashes are injective,
    so a token stands for its hash. */
module Sessions {
  import opened Basics
  import opened Timestamps

  datatype Session = Session(id: Id, user: Id, token: string, expiresAt: Instant, revokedAt: Option<Instant>, lastSeenAt: Instant)

  type Table = map<Id, Session>

  const RETENTION: nat := DAY * NANOS

  function Usable(x: Session, at: Instant): Option<Error> {
    if x.revokedAt.Some? then Some(Unauthorized) else if at >= x.expiresAt then Some(Expired) else None
  }

  // --------------------------------------------------------------- statements

  predicate Touchable(sessions: Table, id: Id, now: Instant) {
    id in sessions && sessions[id].revokedAt.None? && !SqlLe(sessions[id].expiresAt, now)
  }

  function Touched(sessions: Table, id: Id, now: Instant): Table {
    if Touchable(sessions, id, now) then sessions[id := sessions[id].(lastSeenAt := now)] else sessions
  }

  predicate Revocable(sessions: Table, id: Id) { id in sessions && sessions[id].revokedAt.None? }

  function Revoked(sessions: Table, id: Id, now: Instant): Table {
    if Revocable(sessions, id) then sessions[id := sessions[id].(revokedAt := Some(now))] else sessions
  }

  /** The WHERE clause of the cleanup. */
  predicate Due(x: Session, now: Instant) {
    SqlLe(x.expiresAt, now) || (x.revokedAt.Some? && now >= RETENTION && SqlLe(x.revokedAt.value, now - RETENTION))
  }

  function DueIds(sessions: Table, now: Instant): set<Id> { set k | k in sessions && Due(sessions[k], now) }

  function Cleaned(sessions: Table, now: Instant): Table { sessions - DueIds(sessions, now) }

  predicate HasToken(sessions: Table, token: string, id: Id) { id in sessions && sessions[id].token == token }

  /** Tokens are unique in the table. */
  ghost predicate Unique(sessions: Table) {
    && (forall k :: k in sessions ==> sessions[k].id == k)
    && (forall a, b :: a in sessions && b in sessions && sessions[a].token == sessions[b].token ==> a == b)
  }

  // -------------------------------------------------------------- the machine

  /** `Answered` keeps the clock reading on which the answer was decided. */
  datatype Call = Found(session: Session) | Answered(ok: bool, at: Option<Instant>)

  datatype State = State(sessions: Table, inactive: set<Id>, calls: map<Id, Call>)

  datatype Step =
    | Login(session: Session)
    | Find(call: Id, token: string)
    | Touch(call: Id, now: Instant)
    | Revoke(id: Id, now: Instant)
    | Cleanup(now: Instant)

  ghost predicate Known(sessions: Table, token: string) { exists k :: HasToken(sessions, token, k) }

  ghost function Holder(sessions: Table, token: string): (k: Id)
    requires Known(sessions, token)
    ensures HasToken(sessions, token, k)
  {
    var k :| HasToken(sessions, token, k); k
  }

  ghost function FindStep(s: State, call: Id, token: string): State {
    if Known(s.sessions, token) && s.sessions[Holder(s.sessions, token)].user !in s.inactive
    then s.(calls := s.calls[call := Found(s.sessions[Holder(s.sessions, token)])])
    else s.(calls := s.calls[call := Answered(false, None)])
  }

  function TouchStep(s: State, call: Id, x: Session, now: Instant): State {
    if Usable(x, now).None? && Touchable(s.sessions, x.id, now)
    then s.(sessions := Touched(s.sessions, x.id, now), calls := s.calls[call := Answered(true, Some(now))])
    else s.(calls := s.calls[call := Answered(false, Some(now))])
  }

  ghost function Next(s: State, step: Step): State {
    match step
    case Login(x) => if x.id in s.sessions then s else s.(sessions := s.sessions[x.id := x])
    case Find(call, token) => if call in s.calls then s else FindStep(s, call, token)
    case Touch(call, now) =>
      if call in s.calls && s.calls[call].Found? then TouchStep(s, call, s.calls[call].session, now) else s
    case Revoke(id, now) => s.(sessions := Revoked(s.sessions, id, now))
    case Cleanup(now) => s.(sessions := Cleaned(s.sessions, now))
  }

  ghost function Run(s: State, steps: seq<Step>): State
    decreases |steps|
  {
    if steps == [] then s else Run(Next(s, steps[0]), steps[1..])
  }

  ghost predicate FreshLogin(s: State, step: Step) {
    step.Login? ==>
      && step.session.id !in s.sessions && !Known(s.sessions, step.session.token)
      && forall k :: k in s.calls && s.calls[k].Found? ==> s.calls[k].session.id != step.session.id
  }

  /** Generated session ids and tokens are new: in no row and read by no call. */
  ghost predicate FreshLogins(s: State, steps: seq<Step>)
    decreases |steps|
  {
    steps == [] || (FreshLogin(s, steps[0]) && FreshLogins(Next(s, steps[0]), steps[1..]))
  }

  // --------------------------------------------------- cleanup is unobservable

  /** No authentication with a clock reading of `c` or later can succeed on it. */
  predicate Dead(x: Session, c: Instant) { x.revokedAt.Some? || x.expiresAt <= c }

  /** The cleanup at `c` deletes nothing before its time. */
  ghost predicate NoneEarly(sessions: Table, c: Instant) {
    forall k :: k in sessions && SqlLe(sessions[k].expiresAt, c) ==> sessions[k].expiresAt <= c || sessions[k].revokedAt.Some?
  }

  /** A session that was read has the expiry time of its row. */
  ghost predicate SnapsMatch(s: State) {
    forall k :: k in s.calls && s.calls[k].Found? && s.calls[k].session.id in s.sessions ==>
      s.sessions[s.calls[k].session.id].expiresAt == s.calls[k].session.expiresAt
  }

  predicate CallsAgree(a: Call, b: Call, c: Instant) {
    || a == b
    || (a.Found? && Dead(a.session, c) && b == Answered(false, None))
    || (a.Answered? && b.Answered? && (a.ok == b.ok || (a.at.Some? && a.at.value < c)))
  }

  /** `b` is `a` without some dead sessions. */
  ghost predicate Lacks(a: Table, b: Table, c: Instant) {
    && (forall k :: k in b ==> k in a && a[k] == b[k])
    && (forall k :: k in a && k !in b ==> Dead(a[k], c))
  }

  /** The tables of a run with the cleanup lack only dead sessions, and its calls
      differ at most where the clock was read before the cleanup. */
  ghost predicate Agree(a: State, b: State, c: Instant) {
    && a.inactive == b.inactive && a.calls.Keys == b.calls.Keys
    && Unique(a.sessions) && SnapsMatch(a)
    && Lacks(a.sessions, b.sessions, c)
    && (forall k :: k in a.calls ==> CallsAgree(a.calls[k], b.calls[k], c))
    && (forall k :: k in a.calls && a.calls[k].Found? && b.calls[k].Answered? ==> a.calls[k].session.id !in b.sessions)
  }

  lemma CleanupAgrees(s: State, c: Instant)
    requires Unique(s.sessions) && SnapsMatch(s) && NoneEarly(s.sessions, c)
    ensures Agree(s, Next(s, Cleanup(c)), c)
  {
    hide SqlLe;
  }

  /** Both runs find the same row, or only the run without the cleanup finds a dead one. */
  lemma FindMatches(a: State, b: State, c: Instant, token: string)
    requires Unique(a.sessions) && Lacks(a.sessions, b.sessions, c)
    ensures Known(b.sessions, token) ==> Known(a.sessions, token) && Holder(a.sessions, token) == Holder(b.sessions, token)
    ensures Known(a.sessions, token) && !Known(b.sessions, token) ==>
      Holder(a.sessions, token) !in b.sessions && Dead(a.sessions[Holder(a.sessions, token)], c)
  {
    if Known(b.sessions, token) {
      var k := Holder(b.sessions, token);
      assert HasToken(a.sessions, token, k);
    } else if Known(a.sessions, token) {
      assert !HasToken(b.sessions, token, Holder(a.sessions, token));
    }
  }

  lemma FindAgrees(a: State, b: State, c: Instant, call: Id, token: string)
    requires Agree(a, b, c) && call !in a.calls
    ensures Agree(FindStep(a, call, token), FindStep(b, call, token), c)
  {
    FindMatches(a, b, c, token);
    RowIds(a, token);
    var x, y := FindStep(a, call, token).calls[call], FindStep(b, call, token).calls[call];
    assert FindStep(a, call, token) == a.(calls := a.calls[call := x]);
    assert FindStep(b, call, token) == b.(calls := b.calls[call := y]);
    assert CallsAgree(x, y, c) && (x.Found? && y.Answered? ==> x.session.id !in b.sessions);
    assert x.Found? && x.session.id in a.sessions ==> a.sessions[x.session.id].expiresAt == x.session.expiresAt;
    hide FindStep, Known, Unique, Lacks, CallsAgree;
    AgreeWith(a, b, c, call, x, y);
  }

  lemma RowIds(s: State, token: string)
    requires Unique(s.sessions)
    ensures Known(s.sessions, token) ==> s.sessions[Holder(s.sessions, token)].id == Holder(s.sessions, token)
  {
  }

  lemma AgreeWith(a: State, b: State, c: Instant, call: Id, x: Call, y: Call)
    requires Agree(a, b, c) && CallsAgree(x, y, c) && (x.Found? && y.Answered? ==> x.session.id !in b.sessions)
    requires x.Found? && x.session.id in a.sessions ==> a.sessions[x.session.id].expiresAt == x.session.expiresAt
    ensures Agree(a.(calls := a.calls[call := x]), b.(calls := b.calls[call := y]), c)
  {
    hide Unique, Lacks, CallsAgree;
  }

  /** No row is new or expires at another time. */
  ghost predicate Fewer(a: Table, b: Table) {
    forall k :: k in b ==> k in a && b[k].id == a[k].id && b[k].token == a[k].token && b[k].expiresAt == a[k].expiresAt
  }

  lemma FewerKeeps(s: State, sessions: Table)
    requires Unique(s.sessions) && SnapsMatch(s) && Fewer(s.sessions, sessions)
    ensures Unique(sessions) && SnapsMatch(s.(sessions := sessions))
  {
  }

  lemma TouchedLacks(a: Table, b: Table, c: Instant, id: Id, now: Instant)
    requires Lacks(a, b, c)
    ensures Fewer(a, Touched(a, id, now)) && Lacks(Touched(a, id, now), Touched(b, id, now), c)
  {
    hide SqlLe;
  }

  lemma RevokedLacks(a: Table, b: Table, c: Instant, id: Id, now: Instant)
    requires Lacks(a, b, c)
    ensures Fewer(a, Revoked(a, id, now)) && Lacks(Revoked(a, id, now), Revoked(b, id, now), c)
    ensures Revoked(b, id, now).Keys <= b.Keys
  {
  }

  lemma CleanedLacks(a: Table, b: Table, c: Instant, now: Instant)
    requires Lacks(a, b, c)
    ensures Fewer(a, Cleaned(a, now)) && Lacks(Cleaned(a, now), Cleaned(b, now), c)
    ensures Cleaned(b, now).Keys <= b.Keys
  {
    hide SqlLe;
  }

  /** An authentication with a late enough clock reading comes out the same. */
  lemma TouchAnswersAlike(a: State, b: State, c: Instant, x: Session, now: Instant)
    requires Lacks(a.sessions, b.sessions, c) && c <= now
    requires x.id in a.sessions ==> a.sessions[x.id].expiresAt == x.expiresAt
    ensures Usable(x, now).None? ==> Touchable(a.sessions, x.id, now) == Touchable(b.sessions, x.id, now)
  {
    hide SqlLe;
  }

  /** Both runs hold the session. */
  lemma BothTouch(a: State, b: State, c: Instant, call: Id, x: Session, now: Instant)
    requires Agree(a, b, c) && call in a.calls && a.calls[call] == b.calls[call] == Found(x)
    ensures Agree(Next(a, Touch(call, now)), Next(b, Touch(call, now)), c)
  {
    if now >= c {
      TouchAnswersAlike(a, b, c, x, now);
    }
    TouchedLacks(a.sessions, b.sessions, c, x.id, now);
    FewerKeeps(a, Touched(a.sessions, x.id, now));
    TouchUnfolds(a, call, x, now);
    TouchUnfolds(b, call, x, now);
    hide Next, SqlLe, Touched, Touchable, Usable, Lacks, Fewer, Unique, SnapsMatch;
    AgreeAfter(a, b, c, call,
               if Usable(x, now).None? then Touched(a.sessions, x.id, now) else a.sessions,
               if Usable(x, now).None? then Touched(b.sessions, x.id, now) else b.sessions,
               Answered(Usable(x, now).None? && Touchable(a.sessions, x.id, now), Some(now)),
               Answered(Usable(x, now).None? && Touchable(b.sessions, x.id, now), Some(now)));
  }

  /** Only the run without the cleanup holds the session, which is dead. */
  lemma OneTouches(a: State, b: State, c: Instant, call: Id, x: Session, now: Instant)
    requires Agree(a, b, c) && call in a.calls && a.calls[call] == Found(x) && b.calls[call] == Answered(false, None)
    ensures Agree(Next(a, Touch(call, now)), b, c)
  {
    if now >= c {
      TouchAnswersAlike(a, b, c, x, now);
    }
    TouchedLacks(a.sessions, b.sessions, c, x.id, now);
    FewerKeeps(a, Touched(a.sessions, x.id, now));
    TouchUnfolds(a, call, x, now);
    assert Touched(b.sessions, x.id, now) == b.sessions;
    assert b.calls[call := b.calls[call]] == b.calls;
    hide Next, SqlLe, Touched, Lacks, Fewer, Unique, SnapsMatch;
    AgreeAfter(a, b, c, call, if Usable(x, now).None? then Touched(a.sessions, x.id, now) else a.sessions, b.sessions,
               Answered(Usable(x, now).None? && Touchable(a.sessions, x.id, now), Some(now)), b.calls[call]);
  }

  lemma TouchAgrees(a: State, b: State, c: Instant, call: Id, now: Instant)
    requires Agree(a, b, c) && call in a.calls
    ensures Agree(Next(a, Touch(call, now)), Next(b, Touch(call, now)), c)
  {
    assert CallsAgree(a.calls[call], b.calls[call], c);
    hide TouchStep, Agree;
    match a.calls[call]
    case Answered(_, _) =>
    case Found(x) =>
      if b.calls[call].Found? {
        BothTouch(a, b, c, call, x, now);
      } else {
        OneTouches(a, b, c, call, x, now);
      }
  }

  lemma AgreeAfter(a: State, b: State, c: Instant, call: Id, ta: Table, tb: Table, ca: Call, cb: Call)
    requires Agree(a, b, c) && call in a.calls && ca.Answered? && CallsAgree(ca, cb, c)
    requires Unique(ta) && SnapsMatch(a.(sessions := ta)) && Lacks(ta, tb, c) && tb.Keys == b.sessions.Keys
    ensures Agree(a.(sessions := ta, calls := a.calls[call := ca]), b.(sessions := tb, calls := b.calls[call := cb]), c)
  {
    hide Unique, Lacks;
  }

  lemma TouchUnfolds(s: State, call: Id, x: Session, now: Instant)
    requires call in s.calls && s.calls[call] == Found(x)
    ensures Next(s, Touch(call, now))
         == s.(sessions := if Usable(x, now).None? then Touched(s.sessions, x.id, now) else s.sessions,
               calls := s.calls[call := Answered(Usable(x, now).None? && Touchable(s.sessions, x.id, now), Some(now))])
  {
    hide SqlLe;
  }

  lemma UniqueLogin(sessions: Table, x: Session)
    requires Unique(sessions) && x.id !in sessions && !Known(sessions, x.token)
    ensures Unique(sessions[x.id := x])
  {
    var more := sessions[x.id := x];
    forall i, j | i in more && j in more && more[i].token == more[j].token ensures i == j {
      assert i != x.id ==> HasToken(sessions, more[i].token, i);
      assert j != x.id ==> HasToken(sessions, more[j].token, j);
    }
  }

  lemma RowsAgree(a: State, b: State, c: Instant, step: Step)
    requires Agree(a, b, c) && (step.Revoke? || step.Cleanup?)
    ensures Agree(Next(a, step), Next(b, step), c)
  {
    hide SqlLe, CallsAgree, Lacks, Fewer, Revoked, Cleaned;
    var now := step.now;
    var id := if step.Revoke? then step.id else "";
    RevokedLacks(a.sessions, b.sessions, c, id, now);
    CleanedLacks(a.sessions, b.sessions, c, now);
    FewerKeeps(a, Next(a, step).sessions);
    hide Unique;
  }

  lemma StepAgrees(a: State, b: State, c: Instant, step: Step)
    requires Agree(a, b, c) && FreshLogin(a, step)
    ensures Agree(Next(a, step), Next(b, step), c)
  {
    match step
    case Find(call, token) => if call !in a.calls { FindAgrees(a, b, c, call, token); }
    case Touch(call, now) => if call in a.calls { TouchAgrees(a, b, c, call, now); }
    case Login(x) => UniqueLogin(a.sessions, x);
    case _ => RowsAgree(a, b, c, step);
  }

  lemma {:induction false} RunAgrees(a: State, b: State, c: Instant, steps: seq<Step>)
    requires Agree(a, b, c) && FreshLogins(a, steps)
    ensures Agree(Run(a, steps), Run(b, steps), c)
    decreases |steps|
  {
    if steps != [] {
      StepAgrees(a, b, c, steps[0]);
      hide Agree, Next, FreshLogin;
      RunAgrees(Next(a, steps[0]), Next(b, steps[0]), c, steps[1..]);
    }
  }

  lemma CleanupChangesNoAnswer(s: State, c: Instant, steps: seq<Step>, call: Id)
    requires Unique(s.sessions) && SnapsMatch(s) && NoneEarly(s.sessions, c) && FreshLogins(s, steps)
    requires var a := Run(s, steps).calls; call in a && a[call].Answered? && (a[call].at.Some? ==> a[call].at.value >= c)
    ensures var a := Run(s, steps).calls; var b := Run(Next(s, Cleanup(c)), steps).calls;
      call in b && b[call].Answered? && b[call].ok == a[call].ok
  {
    CleanupAgrees(s, c);
    RunAgrees(s, Next(s, Cleanup(c)), c, steps);
    hide Run, FreshLogins, NoneEarly;
    assert CallsAgree(Run(s, steps).calls[call], Run(Next(s, Cleanup(c)), steps).calls[call], c);
  }

  lemma {:induction false} RunConcat(s: State, a: seq<Step>, b: seq<Step>)
    ensures Run(s, a + b) == Run(Run(s, a), b)
    ensures FreshLogins(s, a + b) ==> FreshLogins(s, a) && FreshLogins(Run(s, a), b)
    decreases |a|
  {
    if a == [] {
      assert a + b == b;
    } else {
      assert (a + b)[0] == a[0] && (a + b)[1..] == a[1..] + b;
      hide Next, FreshLogin;
      RunConcat(Next(s, a[0]), a[1..], b);
    }
  }

  function Start(inactive: set<Id>): State { State(map[], inactive, map[]) }

  lemma WellFormed(inactive: set<Id>, steps: seq<Step>)
    requires FreshLogins(Start(inactive), steps)
    ensures Unique(Run(Start(inactive), steps).sessions) && SnapsMatch(Run(Start(inactive), steps))
  {
    assert Agree(Start(inactive), Start(inactive), 0);
    RunAgrees(Start(inactive), Start(inactive), 0, steps);
    hide Run;
  }

  /** A cleanup inserted anywhere into any run changes no answer of an
      authentication whose clock reading is not earlier than the cleanup's, unless
      it deletes a session early. */
  lemma CleanupIsUnobservable(inactive: set<Id>, before: seq<Step>, c: Instant, after: seq<Step>, call: Id)
    requires FreshLogins(Start(inactive), before + after) && NoneEarly(Run(Start(inactive), before).sessions, c)
    requires var a := Run(Start(inactive), before + after).calls;
      call in a && a[call].Answered? && (a[call].at.Some? ==> a[call].at.value >= c)
    ensures var a := Run(Start(inactive), before + after).calls;
      var b := Run(Start(inactive), before + [Cleanup(c)] + after).calls;
      call in b && b[call].Answered? && b[call].ok == a[call].ok
  {
    var s := Start(inactive);
    RunConcat(s, before, after);
    WellFormed(inactive, before);
    CleanupChangesNoAnswer(Run(s, before), c, after, call);
    RunConcat(s, before, [Cleanup(c)] + after);
    assert before + [Cleanup(c)] + after == before + ([Cleanup(c)] + after);
    assert ([Cleanup(c)] + after)[0] == Cleanup(c) && ([Cleanup(c)] + after)[1..] == after;
    hide Next, FreshLogins, NoneEarly;
  }

  // -------------------------------------------------- and when it is observed

  /** One authentication without interference. */
  ghost predicate Authenticates(sessions: Table, inactive: set<Id>, token: string, now: Instant) {
    Known(sessions, token)
    && var x := sessions[Holder(sessions, token)];
      x.user !in inactive && Usable(x, now).None? && Touchable(sessions, x.id, now)
  }

  /** A cleanup at `c` is seen by an authentication at `t` exactly when it deletes a
      session that is still good at `t` by the clock and in SQL. */
  lemma CleanupIsSeenExactly(sessions: Table, inactive: set<Id>, token: string, c: Instant, t: Instant)
    requires Unique(sessions) && c <= t
    ensures Authenticates(Cleaned(sessions, c), inactive, token, t) != Authenticates(sessions, inactive, token, t)
      <==> Known(sessions, token)
           && var x := sessions[Holder(sessions, token)];
             x.user !in inactive && x.revokedAt.None? && t < x.expiresAt && !SqlLe(x.expiresAt, t) && SqlLe(x.expiresAt, c)
  {
    hide SqlLe;
    var left := Cleaned(sessions, c);
    if Known(left, token) {
      var k := Holder(left, token);
      assert HasToken(sessions, token, k);
      assert Holder(sessions, token) == k;
    } else if Known(sessions, token) {
      var k := Holder(sessions, token);
      assert !HasToken(left, token, k);
    }
  }

  /** Only inverted texts make a deletion early, so never one before the second of expiry. */
  lemma EarlyMeansInverted(x: Session, c: Instant)
    requires InRange(x.expiresAt) && InRange(c) && SqlLe(x.expiresAt, c) && c < x.expiresAt
    ensures Inverted(x.expiresAt, c) && Sec(c) == Sec(x.expiresAt)
  {
    SqlLeAcrossSeconds(x.expiresAt, c);
    SqlLeAcrossSeconds(c, x.expiresAt);
  }

  const HALF := Session("s", "u", "token", 500_000_000, None, 0)

  lemma HalfIsHeld()
    ensures Unique(map["s" := HALF]) && Known(map["s" := HALF], "token") && Holder(map["s" := HALF], "token") == "s"
  {
    assert HasToken(map["s" := HALF], "token", "s");
  }

  lemma NotYetHalf()
    ensures !SqlLe(500_000_000, 400_000_000)
  {
    assert CivilOf(0).year == 0;
    TenthDigits(5);
    TenthDigits(4);
    TextOrderIsTimeOrder(400_000_000, 500_000_000);
    hide TextLess, Timestamp;
  }

  /** A session that expires half a second past a whole second is deleted by a
      cleanup on the whole second, and missed by an authentication in between. */
  lemma EarlyDeletionIsSeen()
    ensures var table := map["s" := HALF];
      Authenticates(table, {}, "token", 400_000_000) && !Authenticates(Cleaned(table, 0), {}, "token", 400_000_000)
  {
    InversionExample();
    NotYetHalf();
    HalfIsHeld();
    hide SqlLe, Inverted, Cleaned, Holder;
    CleanupIsSeenExactly(map["s" := HALF], {}, "token", 0, 400_000_000);
  }

  // ------------------------------------------------------------ revocation

  predicate Gone(sessions: Table, id: Id) { id in sessions ==> sessions[id].revokedAt.Some? }

  /** Revoked or removed, a session id never comes back. */
  ghost predicate NoLoginAs(steps: seq<Step>, id: Id) { forall i :: 0 <= i < |steps| ==> !(steps[i].Login? && steps[i].session.id == id) }

  /** After a revocation has committed no touch of that session commits, so an
      authentication that read it before fails as well. */
  lemma {:induction false} RevokedStaysOut(s: State, steps: seq<Step>, id: Id, call: Id)
    requires Gone(s.sessions, id) && NoLoginAs(steps, id)
    requires call in s.calls && s.calls[call].Found? && s.calls[call].session.id == id
    ensures var s' := Run(s, steps);
      && Gone(s'.sessions, id)
      && call in s'.calls && (s'.calls[call] == s.calls[call] || (s'.calls[call].Answered? && !s'.calls[call].ok))
    decreases |steps|
  {
    if steps != [] {
      GoneStays(s, steps[0], id, call);
      var next := Next(s, steps[0]);
      if next.calls[call] == s.calls[call] {
        RevokedStaysOut(next, steps[1..], id, call);
      } else {
        AnsweredStays(next, steps[1..], id, call);
      }
    }
  }

  lemma GoneStays(s: State, step: Step, id: Id, call: Id)
    requires Gone(s.sessions, id) && !(step.Login? && step.session.id == id)
    requires call in s.calls && (s.calls[call].Found? ==> s.calls[call].session.id == id)
    ensures var s' := Next(s, step);
      && Gone(s'.sessions, id) && call in s'.calls
      && (s.calls[call].Answered? ==> s'.calls[call] == s.calls[call])
      && (s'.calls[call] == s.calls[call] || (s'.calls[call].Answered? && !s'.calls[call].ok))
  {
    hide SqlLe;
  }

  lemma {:induction false} AnsweredStays(s: State, steps: seq<Step>, id: Id, call: Id)
    requires Gone(s.sessions, id) && NoLoginAs(steps, id)
    requires call in s.calls && s.calls[call].Answered?
    ensures var s' := Run(s, steps); Gone(s'.sessions, id) && call in s'.calls && s'.calls[call] == s.calls[call]
    decreases |steps|
  {
    if steps != [] {
      GoneStays(s, steps[0], id, call);
      AnsweredStays(Next(s, steps[0]), steps[1..], id, call);
    }
  }

  /** A committed revocation leaves the session gone. */
  lemma RevokeIsFinal(s: State, id: Id, now: Instant, steps: seq<Step>, call: Id)
    requires NoLoginAs(steps, id)
    requires call in s.calls && s.calls[call].Found? && s.calls[call].session.id == id
    ensures var s' := Run(Next(s, Revoke(id, now)), steps);
      call in s'.calls && (s'.calls[call].Answered? ==> !s'.calls[call].ok)
  {
    RevokedStaysOut(Next(s, Revoke(id, now)), steps, id, call);
  }

  // ---------------------------------------------------------------- admission

  /** The session of the token is neither revoked nor expired, by the clock and in the
      stored texts, and its user is active. */
  predicate Admits(sessions: Table, inactive: set<Id>, token: string, now: Instant, k: Id) {
    && k in sessions && sessions[k].token == token && sessions[k].user !in inactive
    && sessions[k].revokedAt == None && now < sessions[k].expiresAt && !SqlLe(sessions[k].expiresAt, now)
  }

  lemma AuthenticatesExactly(sessions: Table, inactive: set<Id>, token: string, now: Instant)
    requires Unique(sessions)
    ensures Authenticates(sessions, inactive, token, now) <==> exists k :: Admits(sessions, inactive, token, now, k)
  {
    hide SqlLe;
    if Known(sessions, token) {
      var h := Holder(sessions, token);
      assert Authenticates(sessions, inactive, token, now) ==> Admits(sessions, inactive, token, now, h);
    }
    if k :| Admits(sessions, inactive, token, now, k) {
      assert HasToken(sessions, token, k);
      assert Holder(sessions, token) == k;
    }
  }

  // -------------------------------------------------------------- the object

  class SessionStore {
    var sessions: Table
    var inactive: set<Id>

    constructor ()
      ensures sessions == map[] && inactive == {}
    {
      sessions, inactive := map[], {};
    }

    method FindSessionByTokenHash(token: string) returns (r: Result<Session>)
      requires Unique(sessions)
      ensures r == if Known(sessions, token) then Ok(sessions[Holder(sessions, token)]) else Err(NotFound)
    {
      if k :| k in sessions && sessions[k].token == token {
        assert HasToken(sessions, token, k);
        return Ok(sessions[k]);
      }
      return Err(NotFound);
    }

    method TouchSession(id: Id, now: Instant) returns (err: Option<Error>)
      modifies this
      ensures err == if Touchable(old(sessions), id, now) then None else Some(Unauthorized)
      ensures sessions == Touched(old(sessions), id, now) && inactive == old(inactive)
      ensures err.None? ==> id in old(sessions) && sessions == old(sessions)[id := old(sessions)[id].(lastSeenAt := now)]
    {
      hide SqlLe;
      if id !in sessions || sessions[id].revokedAt.Some? || SqlLe(sessions[id].expiresAt, now) { return Some(Unauthorized); }
      sessions := sessions[id := sessions[id].(lastSeenAt := now)];
      return None;
    }

    method RevokeSession(id: Id, now: Instant) returns (err: Option<Error>)
      modifies this
      ensures err == if Revocable(old(sessions), id) then None else Some(Unauthorized)
      ensures sessions == Revoked(old(sessions), id, now) && inactive == old(inactive)
      ensures err.None? <==> id in old(sessions) && old(sessions)[id].revokedAt.None?
      ensures err.None? ==> sessions == old(sessions)[id := old(sessions)[id].(revokedAt := Some(now))]
    {
      if id !in sessions || sessions[id].revokedAt.Some? { return Some(Unauthorized); }
      sessions := sessions[id := sessions[id].(revokedAt := Some(now))];
      return None;
    }

    /** Counts the rows it deletes. */
    method DeleteExpiredSessions(now: Instant) returns (count: nat)
      modifies this
      ensures sessions == Cleaned(old(sessions), now) && inactive == old(inactive)
      ensures count == |old(sessions)| - |sessions|
      // what has expired, and what was revoked a day ago
      ensures forall k :: k in old(sessions) ==>
        var x := old(sessions)[k];
        var expired := SqlLe(x.expiresAt, now);
        var revoked := x.revokedAt.Some? && now >= 86_400 * 1_000_000_000 && SqlLe(x.revokedAt.value, now - 86_400 * 1_000_000_000);
        (k !in sessions <==> expired || revoked)
      ensures forall k :: k in sessions ==> k in old(sessions) && sessions[k] == old(sessions)[k]
    {
      hide SqlLe;
      var due := set k | k in sessions && Due(sessions[k], now);
      count := |due|;
      assert sessions.Keys == (sessions - due).Keys + due;
      sessions := sessions - due;
    }

    /** Answers with the session that was touched. */
    method Authenticate(token: string, now: Instant) returns (r: Result<Session>)
      requires Unique(sessions)
      modifies this
      ensures r.Ok? <==> token != "" && Authenticates(old(sessions), old(inactive), token, now)
      ensures r.Ok? <==> token != "" && exists k :: Admits(old(sessions), old(inactive), token, now, k)
      ensures r.Ok? ==> HasToken(old(sessions), token, r.value.id) && sessions == Touched(old(sessions), r.value.id, now)
      ensures r.Err? ==> r.error == Unauthorized && sessions == old(sessions)
    {
      hide SqlLe;
      AuthenticatesExactly(sessions, inactive, token, now);
      if token == "" { return Err(Unauthorized); }
      var found := FindSessionByTokenHash(token);
      if found.Err? || found.value.user in inactive { return Err(Unauthorized); }
      var session := found.value;
      assert HasToken(sessions, token, session.id);
      if Usable(session, now).Some? { return Err(Unauthorized); }
      var err := TouchSession(session.id, now);
      if err.Some? { return Err(Unauthorized); }
      return Ok(session);
    }
  }
}
