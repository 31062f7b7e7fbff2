/** The idempotency protocol: a claim inserts a record, or reads the one that is
    there and deletes it if it has expired; the claimant runs the handler and then
    completes or abandons the record.  Each database call is one atomic step and
    any number of requests are in flight.  Scopes and body hashes are taken as
    injective, so they stand as the values that are hashed. */
module Idempotency {
  import opened Basics
  import opened Timestamps

  datatype Scope = Scope(actor: Id, method_: string, path: string, key: string)

  /** A stored record; status 0 means that no outcome has been stored yet. */
  datatype Record = Record(hash: string, status: int, body: string, expiresAt: Instant, createdAt: Instant)

  /** What a request wants to claim. */
  datatype Item = Item(scope: Scope, hash: string, createdAt: Instant, expiresAt: Instant)

  const WINDOW: nat := DAY * NANOS

  datatype Outcome = Outcome(status: int, body: string)

  datatype Reply = Executed(outcome: Outcome) | Replayed(outcome: Outcome) | Failed(error: Error)

  /** Where a request stands.  `holder` remembers whose record was read. */
  datatype Request =
    | Inserting(item: Item)
    | Reading(item: Item)
    | Deleting(item: Item, existing: Record, holder: Id)
    | Running(item: Item)
    | Completing(item: Item, outcome: Outcome)
    | Abandoning(item: Item, outcome: Outcome)
    | Finished(item: Item, reply: Reply)

  type Records = map<Scope, Record>

  function Fresh(item: Item): Record { Record(item.hash, 0, "", item.expiresAt, item.createdAt) }

  predicate Successful(status: int) { 200 <= status < 300 }

  // --------------------------------------------------------- single statements

  /** `INSERT … ON CONFLICT DO NOTHING`. */
  function Inserted(records: Records, item: Item): Records {
    if item.scope in records then records else records[item.scope := Fresh(item)]
  }

  predicate DueInSql(records: Records, item: Item) {
    item.scope in records && SqlLe(records[item.scope].expiresAt, item.createdAt)
  }

  function Expired(records: Records, item: Item): Records {
    if DueInSql(records, item) then records - {item.scope} else records
  }

  predicate Unsettled(records: Records, scope: Scope) { scope in records && records[scope].status == 0 }

  function Completed(records: Records, scope: Scope, o: Outcome): Records {
    if Unsettled(records, scope) then records[scope := records[scope].(status := o.status, body := o.body)] else records
  }

  function Abandoned(records: Records, scope: Scope): Records {
    if Unsettled(records, scope) then records - {scope} else records
  }

  /** What a request that did not claim makes of the record it read. */
  function Answer(item: Item, existing: Record): Reply {
    if existing.hash != item.hash then Failed(Conflict)
    else if existing.status == 0 then Failed(Conflict)
    else Replayed(Outcome(existing.status, existing.body))
  }

  // -------------------------------------------------------------- the machine

  /** `Success` is a handler run whose outcome was stored; a claimant's id names the
      lifetime of the record it inserted. */
  datatype Event =
    | Success(scope: Scope, claimant: Id, outcome: Outcome)
    | Replay(scope: Scope, holder: Id, hash: string, outcome: Outcome)

  /** `holders` and `log` are history: whose record stands, and what happened. */
  datatype State = State(clock: Instant, records: Records, requests: map<Id, Request>, holders: map<Scope, Id>, log: seq<Event>)

  datatype Step =
    | Arrive(id: Id, scope: Scope, hash: string)
    | Proceed(id: Id, fails: bool)
    | Handle(id: Id, outcome: Outcome)
    | Vanish(id: Id)
    | Tick(to: Instant)

  const START := State(0, map[], map[], map[], [])

  function With(s: State, id: Id, r: Request): State { s.(requests := s.requests[id := r]) }

  function InsertStep(s: State, id: Id, item: Item): State {
    if item.scope in s.records then With(s, id, Reading(item))
    else With(s, id, Running(item)).(records := Inserted(s.records, item), holders := s.holders[item.scope := id])
  }

  /** The answer to a request that did not claim, entered in the history if it is a replay. */
  function AnswerStep(s: State, id: Id, item: Item, existing: Record, holder: Id): State {
    var reply := Answer(item, existing);
    var s' := With(s, id, Finished(item, reply));
    if reply.Replayed? then s'.(log := s.log + [Replay(item.scope, holder, item.hash, reply.outcome)]) else s'
  }

  function ReadStep(s: State, id: Id, item: Item): State {
    if item.scope !in s.records then With(s, id, Finished(item, Failed(NotFound)))
    else
      var existing := s.records[item.scope];
      var holder := if item.scope in s.holders then s.holders[item.scope] else "";
      if item.createdAt < existing.expiresAt then AnswerStep(s, id, item, existing, holder)
      else With(s, id, Deleting(item, existing, holder))
  }

  function DeleteStep(s: State, id: Id, item: Item, existing: Record, holder: Id): State {
    if DueInSql(s.records, item) then With(s, id, Inserting(item)).(records := Expired(s.records, item))
    else AnswerStep(s, id, item, existing, holder)
  }

  function CompleteStep(s: State, id: Id, item: Item, o: Outcome): State {
    if Unsettled(s.records, item.scope) then
      With(s, id, Finished(item, Executed(o))).(records := Completed(s.records, item.scope, o),
                                                log := s.log + [Success(item.scope, id, o)])
    else With(s, id, Finished(item, Failed(Conflict)))
  }

  /** Errors of an abandonment are ignored: the handler's answer goes out. */
  function AbandonStep(s: State, id: Id, item: Item, o: Outcome, fails: bool): State {
    With(s, id, Finished(item, Executed(o))).(records := if fails then s.records else Abandoned(s.records, item.scope))
  }

  function ProceedStep(s: State, id: Id, r: Request, fails: bool): State {
    match r
    case Running(_) => s
    case Finished(_, _) => s
    case Abandoning(item, o) => AbandonStep(s, id, item, o, fails)
    case _ =>
      if fails then With(s, id, Finished(r.item, Failed(Internal)))
      else match r
        case Inserting(item) => InsertStep(s, id, item)
        case Reading(item) => ReadStep(s, id, item)
        case Deleting(item, existing, holder) => DeleteStep(s, id, item, existing, holder)
        case Completing(item, o) => CompleteStep(s, id, item, o)
        case _ => s
  }

  function Next(s: State, step: Step): State {
    match step
    case Arrive(id, scope, hash) =>
      if id in s.requests then s
      else With(s, id, Inserting(Item(scope, hash, s.clock, s.clock + WINDOW)))
    case Proceed(id, fails) => if id in s.requests then ProceedStep(s, id, s.requests[id], fails) else s
    case Handle(id, o) =>
      if id in s.requests && s.requests[id].Running? then
        With(s, id, if Successful(o.status) then Completing(s.requests[id].item, o) else Abandoning(s.requests[id].item, o))
      else s
    case Vanish(id) =>
      if id in s.requests then With(s, id, Finished(s.requests[id].item, Failed(Internal))) else s
    case Tick(to) => if s.clock <= to then s.(clock := to) else s
  }

  function Run(s: State, steps: seq<Step>): State
    decreases |steps|
  {
    if steps == [] then s else Run(Next(s, steps[0]), steps[1..])
  }

  // ------------------------------------------------------ care and punctuality

  /** Has claimed and not yet settled. */
  predicate Claimant(r: Request) { r.Running? || r.Completing? || r.Abandoning? }

  /** The step does not delete the record of a claimant in flight as due. */
  ghost predicate Careful(s: State, step: Step) {
    step.Proceed? && !step.fails && step.id in s.requests && s.requests[step.id].Deleting?
    && DueInSql(s.records, s.requests[step.id].item)
    ==> forall c :: c in s.requests && Claimant(s.requests[c]) ==> s.requests[c].item.scope != s.requests[step.id].item.scope
  }

  ghost predicate AllCareful(s: State, steps: seq<Step>)
    decreases |steps|
  {
    steps == [] || (Careful(s, steps[0]) && AllCareful(Next(s, steps[0]), steps[1..]))
  }

  /** Every claimant still in flight is before the second in which its record expires. */
  ghost predicate Punctual(s: State) {
    forall id :: id in s.requests && Claimant(s.requests[id]) ==> InTime(s.clock, s.requests[id].item)
  }

  predicate InTime(clock: Instant, item: Item) { InRange(item.expiresAt) && Sec(clock) < Sec(item.expiresAt) }

  ghost predicate AllPunctual(s: State, steps: seq<Step>)
    decreases |steps|
  {
    Punctual(s) && (steps == [] || AllPunctual(Next(s, steps[0]), steps[1..]))
  }

  // ----------------------------------------------------------------- invariant

  /** A claimant's record stands, untouched. */
  predicate Stands(s: State, id: Id, r: Request) {
    Claimant(r) ==>
      && r.item.scope in s.records && s.records[r.item.scope] == Fresh(r.item)
      && r.item.scope in s.holders && s.holders[r.item.scope] == id
      && (r.Completing? ==> Successful(r.outcome.status))
  }

  predicate Dated(s: State, r: Request) { r.item.createdAt <= s.clock }

  ghost predicate Stored(log: seq<Event>, scope: Scope, holder: Id, o: Outcome) {
    exists i :: 0 <= i < |log| && log[i] == Success(scope, holder, o)
  }

  /** A record with an outcome, under its holder's id and body hash, holds what the
      holder's run stored. */
  ghost predicate Backed(s: State, scope: Scope, holder: Id, rec: Record) {
    && holder in s.requests && s.requests[holder].item.scope == scope && s.requests[holder].item.hash == rec.hash
    && (rec.status != 0 ==> Stored(s.log, scope, holder, Outcome(rec.status, rec.body)))
  }

  ghost predicate RecordsBacked(s: State) {
    forall k :: k in s.records ==> k in s.holders && Backed(s, k, s.holders[k], s.records[k])
  }

  ghost predicate ReadsBacked(s: State) {
    forall id :: id in s.requests && s.requests[id].Deleting? ==>
      Backed(s, s.requests[id].item.scope, s.requests[id].holder, s.requests[id].existing)
  }

  /** Every replay repeats an earlier stored outcome of the record it found, for the same body. */
  ghost predicate ReplayBacked(s: State, i: nat)
    requires i < |s.log|
  {
    s.log[i].Replay? ==>
      && Stored(s.log[..i], s.log[i].scope, s.log[i].holder, s.log[i].outcome)
      && s.log[i].holder in s.requests && s.requests[s.log[i].holder].item.hash == s.log[i].hash
  }

  /** A claimant succeeds once, and is finished then. */
  ghost predicate SucceedsOnce(s: State) {
    && (forall i :: 0 <= i < |s.log| && s.log[i].Success? ==>
         s.log[i].claimant in s.requests && s.requests[s.log[i].claimant].Finished?)
    && (forall i, j :: 0 <= i < j < |s.log| && s.log[i].Success? && s.log[j].Success? ==> s.log[i].claimant != s.log[j].claimant)
  }

  ghost predicate Inv(s: State) {
    && (forall id :: id in s.requests ==> Stands(s, id, s.requests[id]) && Dated(s, s.requests[id]))
    && RecordsBacked(s)
    && ReadsBacked(s)
    && (forall i: nat :: i < |s.log| ==> ReplayBacked(s, i))
    && SucceedsOnce(s)
  }
}
