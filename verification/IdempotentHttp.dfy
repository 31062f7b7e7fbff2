/** The idempotency wrapper of internal/httpapi with its buffer, over the record
    store of internal/store, as objects.  A request that is served without
    interference is proved to be a run of the protocol. */
module IdempotentHttp {
  import opened Basics
  import opened Timestamps
  import opened Idempotency
  import Lifetimes = IdempotencyLifetimes

  // ------------------------------------------------------- a claim by itself

  /** Nobody holds the scope, or the record has expired by the clock and in SQL. */
  predicate CanClaim(records: Records, item: Item) {
    item.scope in records ==> records[item.scope].expiresAt <= item.createdAt && DueInSql(records, item)
  }

  /** What a claim comes to without interference.  The database call number `failAt`
      fails, if there is one: insert, read, delete, insert again. */
  function ClaimedTo(records: Records, item: Item, failAt: nat): (Records, Result<(Record, bool)>) {
    if failAt == 1 then (records, Err(Internal))
    else if item.scope !in records then (records[item.scope := Fresh(item)], Ok((Fresh(item), true)))
    else if failAt == 2 then (records, Err(Internal))
    else if item.createdAt < records[item.scope].expiresAt then (records, Ok((records[item.scope], false)))
    else if failAt == 3 then (records, Err(Internal))
    else if !DueInSql(records, item) then (records, Ok((records[item.scope], false)))
    else if failAt == 4 then (records - {item.scope}, Err(Internal))
    else (records[item.scope := Fresh(item)], Ok((Fresh(item), true)))
  }

  /** The tables and the answer of a request served without interference, when its
      handler comes to `o` and the storage errors are these. */
  function Served(records: Records, item: Item, o: Outcome, failAt: nat, settleFails: bool): (Records, Reply) {
    var (claimed, result) := ClaimedTo(records, item, failAt);
    match result
    case Err(e) => (claimed, Failed(e))
    case Ok((existing, mine)) =>
      if !mine then (claimed, Answer(item, existing))
      else if settleFails then (claimed, if Successful(o.status) then Failed(Internal) else Executed(o))
      else if Successful(o.status) then
        (claimed[item.scope := Fresh(item).(status := o.status, body := o.body)], Executed(o))
      else (claimed - {item.scope}, Executed(o))
  }

  /** Without errors a claim succeeds exactly when the scope can be claimed. */
  lemma ClaimsWhenItCan(records: Records, item: Item)
    ensures var (claimed, result) := ClaimedTo(records, item, 0);
      result == (if CanClaim(records, item) then Ok((Fresh(item), true)) else Ok((records[item.scope], false)))
      && claimed == if CanClaim(records, item) then records[item.scope := Fresh(item)] else records
  {
    hide SqlLe;
  }

  /** A record that has expired by the clock can be claimed unless the two stored
      times are inverted as texts. */
  lemma ExpiredIsClaimable(records: Records, item: Item)
    requires item.scope in records && records[item.scope].expiresAt <= item.createdAt
    requires InRange(records[item.scope].expiresAt) && InRange(item.createdAt)
    ensures CanClaim(records, item) <==> !Inverted(records[item.scope].expiresAt, item.createdAt)
  {
    var x := records[item.scope].expiresAt;
    TextOrderIsTimeOrder(item.createdAt, x);
    TextOrderIsTimeOrder(x, item.createdAt);
  }

  /** A request served without interference or errors: a record that stands answers it,
      else its handler does, and what the handler comes to is kept if and only if its
      status is from 200 to 299. */
  lemma ServedOutcome(records: Records, item: Item, o: Outcome)
    ensures Served(records, item, o, 0, false) ==
      if item.scope in records && (item.createdAt < records[item.scope].expiresAt || !SqlLe(records[item.scope].expiresAt, item.createdAt)) then
        var standing := records[item.scope];
        (records, if standing.hash == item.hash && standing.status != 0 then Replayed(Outcome(standing.status, standing.body)) else Failed(Conflict))
      else if 200 <= o.status <= 299 then
        (records[item.scope := Record(item.hash, o.status, o.body, item.expiresAt, item.createdAt)], Executed(o))
      else (records - {item.scope}, Executed(o))
  {
    hide SqlLe;
    ClaimsWhenItCan(records, item);
    var kept := Record(item.hash, o.status, o.body, item.expiresAt, item.createdAt);
    assert records[item.scope := Fresh(item)] - {item.scope} == records - {item.scope};
    assert records[item.scope := Fresh(item)][item.scope := kept] == records[item.scope := kept];
    assert Fresh(item).(status := o.status, body := o.body) == kept;
  }

  /** Served again within the window, a request that was answered with a status from 200
      to 299 is answered with that outcome whatever its handler would have done, and
      another body with a conflict; neither changes a record. */
  lemma ServedAgain(records: Records, item: Item, o: Outcome, again: Item, other: Outcome)
    requires CanClaim(records, item) && 200 <= o.status <= 299
    requires again.scope == item.scope && again.createdAt < item.expiresAt
    ensures var stored := Served(records, item, o, 0, false).0;
      Served(stored, again, other, 0, false) == (stored, if again.hash == item.hash then Replayed(o) else Failed(Conflict))
  {
    hide SqlLe;
    ServedOutcome(records, item, o);
    ServedOutcome(Served(records, item, o, 0, false).0, again, other);
  }

  /** A request that was answered with any other status leaves its scope free, and the
      next one executes as if it had never come. */
  lemma FailedServedAgain(records: Records, item: Item, o: Outcome, again: Item, other: Outcome)
    requires CanClaim(records, item) && !(200 <= o.status <= 299) && again.scope == item.scope
    ensures var left := Served(records, item, o, 0, false).0;
      item.scope !in left && CanClaim(left, again) && Served(left, again, other, 0, false).1 == Executed(other)
  {
    hide SqlLe;
    ServedOutcome(records, item, o);
    ServedOutcome(Served(records, item, o, 0, false).0, again, other);
  }

  /** A request whose settlement fails blocks its scope: until the record expires every
      further request gets a conflict and changes nothing. */
  lemma UnsettledBlocks(records: Records, item: Item, o: Outcome, again: Item, other: Outcome)
    requires CanClaim(records, item) && again.scope == item.scope && again.createdAt < item.expiresAt
    ensures var left := Served(records, item, o, 0, true).0; Served(left, again, other, 0, false) == (left, Failed(Conflict))
  {
    hide SqlLe;
    ClaimsWhenItCan(records, item);
  }

  // ------------------------------------------------- the same on the machine

  function Alone(records: Records, holders: map<Scope, Id>, item: Item, id: Id): State {
    State(item.createdAt, records, map[id := Inserting(item)], holders, [])
  }

  /** The four steps before a handler runs, and the two around it; those that find
      nothing to do change nothing. */
  function Steps(id: Id, o: Outcome, failAt: nat, settleFails: bool): seq<Step> {
    [Proceed(id, failAt == 1), Proceed(id, failAt == 2), Proceed(id, failAt == 3), Proceed(id, failAt == 4)]
    + [Handle(id, o), Proceed(id, settleFails)]
  }

  /** Where the request stands after the claim. */
  function Claimed(item: Item, result: Result<(Record, bool)>): Request {
    match result
    case Err(e) => Finished(item, Failed(e))
    case Ok((existing, mine)) => if mine then Running(item) else Finished(item, Answer(item, existing))
  }

  lemma ClaimRuns(s: State, id: Id, item: Item, failAt: nat)
    requires s.requests == map[id := Inserting(item)]
    requires item.scope in s.records ==> item.scope in s.holders
    ensures var s' := Next(Next(Next(Next(s, Proceed(id, failAt == 1)), Proceed(id, failAt == 2)), Proceed(id, failAt == 3)), Proceed(id, failAt == 4));
      var (claimed, result) := ClaimedTo(s.records, item, failAt);
      id in s'.requests && s'.requests[id] == Claimed(item, result) && s'.records == claimed
  {
    hide SqlLe;
    if item.scope in s.records && failAt != 1 {
      var s1 := With(s, id, Reading(item));
      assert Next(s, Proceed(id, failAt == 1)) == s1;
      if item.createdAt >= s.records[item.scope].expiresAt && failAt != 2 {
        var s2 := With(s1, id, Deleting(item, s.records[item.scope], s.holders[item.scope]));
        assert Next(s1, Proceed(id, failAt == 2)) == s2;
        if DueInSql(s.records, item) && failAt != 3 {
          var s3 := With(s2, id, Inserting(item)).(records := s.records - {item.scope});
          assert Next(s2, Proceed(id, failAt == 3)) == s3;
          assert (s.records - {item.scope})[item.scope := Fresh(item)] == s.records[item.scope := Fresh(item)];
        }
      }
    }
  }

  lemma OutcomeRuns(s: State, id: Id, item: Item, o: Outcome, settleFails: bool)
    requires id in s.requests && s.requests[id] == Running(item)
    requires item.scope in s.records && s.records[item.scope] == Fresh(item)
    ensures var s' := Next(Next(s, Handle(id, o)), Proceed(id, settleFails));
      && id in s'.requests
      && s'.requests[id] == Finished(item, if settleFails && Successful(o.status) then Failed(Internal) else Executed(o))
      && s'.records == if settleFails then s.records
                       else if Successful(o.status) then s.records[item.scope := Fresh(item).(status := o.status, body := o.body)]
                       else s.records - {item.scope}
  {
    hide SqlLe;
    var s1 := Next(s, Handle(id, o));
    assert s1 == With(s, id, if Successful(o.status) then Completing(item, o) else Abandoning(item, o));
    if Successful(o.status) && !settleFails {
      assert Next(s1, Proceed(id, settleFails)) == CompleteStep(s1, id, item, o);
    } else if !Successful(o.status) {
      assert Next(s1, Proceed(id, settleFails)) == AbandonStep(s1, id, item, o, settleFails);
    }
  }

  lemma FinishedRests(s: State, id: Id, o: Outcome, fails: bool)
    requires id in s.requests && s.requests[id].Finished?
    ensures Next(Next(s, Handle(id, o)), Proceed(id, fails)) == s
  {
  }

  lemma ClaimHolds(records: Records, item: Item, failAt: nat)
    ensures var (claimed, result) := ClaimedTo(records, item, failAt);
      result.Ok? && result.value.1 ==> item.scope in claimed && claimed[item.scope] == Fresh(item)
  {
    hide SqlLe;
  }

  /** Serving a request without interference, with any storage errors, is a run of the protocol. */
  lemma ServedIsRun(records: Records, holders: map<Scope, Id>, item: Item, id: Id, o: Outcome, failAt: nat, settleFails: bool)
    requires item.scope in records ==> item.scope in holders
    ensures var s := Run(Alone(records, holders, item, id), Steps(id, o, failAt, settleFails));
      && s.records == Served(records, item, o, failAt, settleFails).0
      && id in s.requests && s.requests[id] == Finished(item, Served(records, item, o, failAt, settleFails).1)
  {
    hide Next, SqlLe, ClaimedTo, Answer, Run;
    var s := Alone(records, holders, item, id);
    var p1, p2, p3, p4 := Proceed(id, failAt == 1), Proceed(id, failAt == 2), Proceed(id, failAt == 3), Proceed(id, failAt == 4);
    Lifetimes.RunConcat(s, [p1, p2, p3, p4], [Handle(id, o), Proceed(id, settleFails)]);
    Lifetimes.RunFour(s, p1, p2, p3, p4);
    ClaimRuns(s, id, item, failAt);
    ClaimHolds(records, item, failAt);
    var s4 := Next(Next(Next(Next(s, p1), p2), p3), p4);
    Lifetimes.RunTwo(s4, Handle(id, o), Proceed(id, settleFails));
    if s4.requests[id].Running? {
      OutcomeRuns(s4, id, item, o, settleFails);
    } else {
      FinishedRests(s4, id, o, settleFails);
    }
  }

  // -------------------------------------------------------------- the buffer

  /** What a handler does with its response writer. */
  datatype Act = WriteHeader(status: int) | Write(data: string)

  /** The first status that was set, where a first write sets 200. */
  function StatusOf(acts: seq<Act>): int {
    if acts == [] then 0
    else if acts[0].Write? then 200
    else if acts[0].status != 0 then acts[0].status
    else StatusOf(acts[1..])
  }

  function BodyOf(acts: seq<Act>): string {
    if acts == [] then ""
    else (if acts[0].Write? then acts[0].data else "") + BodyOf(acts[1..])
  }

  /** What the handler comes to: a status that was never set is 200. */
  function OutcomeOf(acts: seq<Act>): Outcome {
    Outcome(if StatusOf(acts) == 0 then 200 else StatusOf(acts), BodyOf(acts))
  }

  lemma {:induction false} OneMoreAct(acts: seq<Act>, act: Act)
    ensures StatusOf(acts + [act]) == if StatusOf(acts) != 0 then StatusOf(acts) else if act.Write? then 200 else act.status
    ensures BodyOf(acts + [act]) == BodyOf(acts) + if act.Write? then act.data else ""
    decreases |acts|
  {
    if acts == [] {
      assert acts + [act] == [act] && [act][1..] == [];
    } else {
      assert (acts + [act])[0] == acts[0] && (acts + [act])[1..] == acts[1..] + [act];
      OneMoreAct(acts[1..], act);
    }
  }

  /** The first status that is set, by itself or with a first write, is the outcome's;
      a handler that sets none has answered 200. */
  lemma {:induction false} FirstStatusStays(acts: seq<Act>, first: Act, rest: seq<Act>)
    requires forall a :: a in acts ==> a == WriteHeader(0)
    ensures OutcomeOf(acts).status == 200 && OutcomeOf(acts).body == ""
    ensures first.Write? ==> OutcomeOf(acts + [first] + rest).status == 200
    ensures first.WriteHeader? && first.status != 0 ==> OutcomeOf(acts + [first] + rest).status == first.status
    decreases |acts|
  {
    var all := acts + [first] + rest;
    if acts == [] {
      assert all[0] == first;
    } else {
      assert all[0] == acts[0] && all[1..] == acts[1..] + [first] + rest;
      assert acts[0] in acts && forall a :: a in acts[1..] ==> a in acts;
      FirstStatusStays(acts[1..], first, rest);
    }
  }

  /** The body is all that was written, in order. */
  lemma {:induction false} BodiesAppend(a: seq<Act>, b: seq<Act>, data: string)
    ensures OutcomeOf(a + b).body == OutcomeOf(a).body + OutcomeOf(b).body
    ensures OutcomeOf([Write(data)]).body == data
    decreases |a|
  {
    assert [Write(data)][1..] == [];
    if a == [] {
      assert a + b == b;
    } else {
      assert (a + b)[0] == a[0] && (a + b)[1..] == a[1..] + b;
      BodiesAppend(a[1..], b, data);
    }
  }

  class BufferedResponse {
    var status: int
    var body: string

    constructor ()
      ensures status == 0 && body == ""
    {
      status, body := 0, "";
    }

    method WriteHeader(status: int)
      modifies this
      ensures this.status == if old(this.status) == 0 then status else old(this.status)
      ensures body == old(body)
    {
      if this.status == 0 {
        this.status := status;
      }
    }

    method Write(data: string)
      modifies this
      ensures status == if old(status) == 0 then 200 else old(status)
      ensures body == old(body) + data
    {
      if status == 0 {
        status := 200;
      }
      body := body + data;
    }
  }

  /** The handler at work on the buffer. */
  method ServeHTTP(buffer: BufferedResponse, acts: seq<Act>)
    requires buffer.status == 0 && buffer.body == ""
    modifies buffer
    ensures buffer.status == StatusOf(acts) && buffer.body == BodyOf(acts)
  {
    for i := 0 to |acts|
      invariant buffer.status == StatusOf(acts[..i]) && buffer.body == BodyOf(acts[..i])
    {
      OneMoreAct(acts[..i], acts[i]);
      assert acts[..i + 1] == acts[..i] + [acts[i]];
      match acts[i]
      case WriteHeader(status) => buffer.WriteHeader(status);
      case Write(data) => buffer.Write(data);
    }
    assert acts[..|acts|] == acts;
  }

  // --------------------------------------------------------------- the store

  class RecordStore {
    var records: Records

    constructor ()
      ensures records == map[]
    {
      records := map[];
    }

    /** Inserts a record, or reads the one that is there; an expired one is deleted
        and the claim starts over. */
    method ClaimIdempotency(item: Item, failAt: nat) returns (r: Result<(Record, bool)>)
      modifies this
      ensures (records, r) == ClaimedTo(old(records), item, failAt)
      decreases item.scope in records
    {
      hide SqlLe;
      if failAt == 1 { return Err(Internal); }
      if item.scope !in records {
        records := records[item.scope := Fresh(item)];
        return Ok((Fresh(item), true));
      }
      if failAt == 2 { return Err(Internal); }
      var existing := records[item.scope];
      if item.createdAt >= existing.expiresAt {
        if failAt == 3 { return Err(Internal); }
        var count := 0;
        if SqlLe(records[item.scope].expiresAt, item.createdAt) {
          records := records - {item.scope};
          count := 1;
        }
        if count == 1 {
          ghost var left := records;
          r := ClaimIdempotency(item, if failAt > 3 then failAt - 3 else 0);
          assert left[item.scope := Fresh(item)] == old(records)[item.scope := Fresh(item)];
          return;
        }
      }
      return Ok((existing, false));
    }

    method CompleteIdempotency(scope: Scope, status: int, body: string, fails: bool) returns (err: Option<Error>)
      modifies this
      ensures err == if !(200 <= status <= 299) then Some(Invalid) else if fails then Some(Internal)
                     else if !Unsettled(old(records), scope) then Some(Conflict) else None
      ensures records == if err.None? then Completed(old(records), scope, Outcome(status, body)) else old(records)
    {
      if status < 200 || status >= 300 { return Some(Invalid); }
      if fails { return Some(Internal); }
      if scope !in records || records[scope].status != 0 { return Some(Conflict); }
      records := records[scope := records[scope].(status := status, body := body)];
      return None;
    }

    method AbandonIdempotency(scope: Scope, fails: bool) returns (err: Option<Error>)
      modifies this
      ensures err == if fails then Some(Internal) else None
      ensures records == if fails then old(records) else Abandoned(old(records), scope)
    {
      if fails { return Some(Internal); }
      if scope in records && records[scope].status == 0 {
        records := records - {scope};
      }
      return None;
    }
  }

  // -------------------------------------------------------------- the wrapper

  const MAX_BODY: nat := 0x10_0000

  /** A scope needs every part, and a key of 8 to 200 characters. */
  function NewScope(actor: Id, method_: string, path: string, key: string): Result<Scope> {
    if actor == "" || method_ == "" || path == "" || |key| < 8 || |key| > 200 then Err(Invalid)
    else Ok(Scope(actor, Upper(method_), path, key))
  }

  /** `strings.ToUpper`, on ASCII letters. */
  function Upper(s: string): (u: string)
    ensures |u| == |s|
  {
    seq(|s|, i requires 0 <= i < |s| => if 'a' <= s[i] <= 'z' then s[i] - 32 as char else s[i])
  }

  /** The claim that a request makes, if it may make one. */
  function ItemOf(actor: Option<Id>, method_: string, path: string, key: string, body: string, now: Instant): Result<Item> {
    if key == "" then Err(Invalid)
    else if actor.None? then Err(Unauthorized)
    else if |body| > MAX_BODY then Err(Invalid)
    else match NewScope(actor.value, method_, path, key)
      case Err(e) => Err(e)
      case Ok(scope) => Ok(Item(scope, body, now, now + WINDOW))
  }

  /** A request claims for one day if it is signed in, has a key of 8 to 200 characters
      and a body of at most a mebibyte; the case of its method makes no difference. */
  lemma ItemOfExactly(actor: Option<Id>, method_: string, path: string, key: string, body: string, now: Instant)
    ensures ItemOf(actor, method_, path, key, body, now) ==
      if key != "" && actor.None? then Err(Unauthorized)
      else if actor.None? || actor.value == "" || method_ == "" || path == "" || !(8 <= |key| <= 200) || |body| > 1_048_576 then Err(Invalid)
      else Ok(Item(Scope(actor.value, Upper(method_), path, key), body, now, now + 86_400 * 1_000_000_000))
    ensures Upper(Upper(method_)) == Upper(method_)
  {
  }

  function Settled(err: Option<Error>, o: Outcome): Reply { if err.Some? then Failed(err.value) else Executed(o) }

  /** Claims, runs the handler in a buffer, completes or abandons, and answers; or
      replays what is stored. */
  method Idempotent(store: RecordStore, actor: Option<Id>, method_: string, path: string, key: string, body: string,
                    now: Instant, acts: seq<Act>, failAt: nat, settleFails: bool)
    returns (reply: Reply)
    modifies store
    ensures match ItemOf(actor, method_, path, key, body, now)
      case Err(e) => reply == Failed(e) && store.records == old(store.records)
      case Ok(item) => (store.records, reply) == Served(old(store.records), item, OutcomeOf(acts), failAt, settleFails)
  {
    hide SqlLe, ClaimedTo;
    if key == "" { return Failed(Invalid); }
    if actor.None? { return Failed(Unauthorized); }
    if |body| > MAX_BODY { return Failed(Invalid); }
    var scope := NewScope(actor.value, method_, path, key);
    if scope.Err? { return Failed(scope.error); }
    var item := Item(scope.value, body, now, now + WINDOW);
    ClaimHolds(store.records, item, failAt);
    var r := store.ClaimIdempotency(item, failAt);
    if r.Err? { return Failed(r.error); }
    var (existing, claimed) := r.value;
    if !claimed {
      if existing.hash != item.hash { return Failed(Conflict); }
      if existing.status == 0 { return Failed(Conflict); }
      return Replayed(Outcome(existing.status, existing.body));
    }
    var buffer := new BufferedResponse();
    ServeHTTP(buffer, acts);
    var status := if buffer.status == 0 then 200 else buffer.status;
    var err := None;
    if Successful(status) {
      err := store.CompleteIdempotency(item.scope, status, buffer.body, settleFails);
    } else {
      var _ := store.AbandonIdempotency(item.scope, settleFails);
    }
    return Settled(err, Outcome(status, buffer.body));
  }
}
