/** What the ticks of a worker's timer bring about, one after another: each claims the
    first due job if there is one, and at a standing clock enough of them leave the
    queue idle and all capacity back. */
module Ticks {
  import opened Basics
  import opened Timestamps
  import opened Domain
  import opened Transactions
  import opened Queue
  import opened Calls
  import opened Invariants
  import opened System
  import opened Convergence
  import opened Completion

  /** A tick claims nothing, which without a storage error means that nothing is due,
      or runs one round on the first due job. */
  ghost predicate Ticked(s: State, owner: Id, lease: nat, draw: Draw, claimed: Option<Id>, s': State) {
    match claimed
    case None => s' == s && (draw.claimFault == NoFault ==> Idle(s.db.jobs, draw.now))
    case Some(id) => id in s.db.jobs && IsNext(s.db.jobs, draw.now, id) && s' == Run(s, StepsOf(owner, lease, id, draw))
  }

  /** The states between the ticks, in all of which the worker rests. */
  ghost predicate Lives(states: seq<State>, owner: Id, lease: nat, ticks: seq<Draw>, claims: seq<Option<Id>>) {
    && |states| == |ticks| + 1 && |claims| == |ticks|
    && (forall i :: 0 <= i < |states| ==> WorkerOf(states[i], owner).Resting?)
    && (forall i :: 0 <= i < |ticks| ==> Ticked(states[i], owner, lease, ticks[i], claims[i], states[i + 1]))
  }

  // ----------------------------------------------------------- claims by ticks

  function ClaimsBy(log: seq<Event>, owner: Id): nat {
    if log == [] then 0
    else ClaimsBy(log[..|log| - 1], owner) + if log[|log| - 1].ClaimEvent? && log[|log| - 1].owner == owner then 1 else 0
  }

  function Claims(claims: seq<Option<Id>>): nat {
    if claims == [] then 0 else Claims(claims[..|claims| - 1]) + if claims[|claims| - 1].Some? then 1 else 0
  }

  lemma ClaimLogs(s: State, owner: Id, id: Id, now: Instant, lease: nat)
    requires WorkerOf(s, owner).Resting? && id in s.db.jobs && IsNext(s.db.jobs, now, id)
    ensures var j := s.db.jobs[id];
      Next(s, Claim(owner, id, now, lease, NoFault)).log
        == s.log + [ClaimEvent(id, owner, j.attempts + 1, now, j.availableAt, if j.status == JobRunning then j.leaseUntil else None)]
  {
    hide CallStep, IsNext;
  }

  lemma OthersLogNothing(s: State, step: Step)
    requires step.Handle? || step.HandlerStep?
    ensures Next(s, step).log == s.log
  {
    hide CallStep, IsNext, HandlerOp;
  }

  lemma SettleLogs(s: State, owner: Id, now: Instant, fault: Fault) returns (tail: seq<Event>)
    ensures Next(s, Settle(owner, now, fault)).log == s.log + tail
    ensures |tail| <= 1 && forall e :: e in tail ==> e.SettleEvent? && e.owner == owner
  {
    hide CallStep, IsNext, SettledJobs;
    tail := Next(s, Settle(owner, now, fault)).log[|s.log|..];
  }

  lemma SixSteps(s: State, a: Step, b: Step, c: Step, d: Step, e: Step, f: Step)
    ensures Run(s, [a, b, c, d, e, f]) == Next(Next(Next(Next(Next(Next(s, a), b), c), d), e), f)
  {
    hide Next;
    var steps := [a, b, c, d, e, f];
    assert steps[1..] == [b, c, d, e, f] && [b, c, d, e, f][1..] == [c, d, e, f] && [c, d, e, f][1..] == [d, e, f]
        && [d, e, f][1..] == [e, f] && [e, f][1..] == [f] && [f][1..] == [];
    var s1 := Next(s, a);
    var s2 := Next(s1, b);
    var s3 := Next(s2, c);
    var s4 := Next(s3, d);
    assert Run(s, steps) == Run(s1, [b, c, d, e, f]) == Run(s2, [c, d, e, f]) == Run(s3, [d, e, f]) == Run(s4, [e, f]);
    assert Run(s4, [e, f]) == Run(Next(s4, e), [f]) == Run(Next(Next(s4, e), f), []);
  }

  /** A tick that claims makes one entry for the claim, and at most one for its settlement. */
  lemma TickLogs(s: State, owner: Id, lease: nat, draw: Draw, id: Id, s': State) returns (tail: seq<Event>)
    requires WorkerOf(s, owner).Resting? && Ticked(s, owner, lease, draw, Some(id), s')
    ensures id in s.db.jobs
    ensures var j := s.db.jobs[id];
      s'.log == s.log + [ClaimEvent(id, owner, j.attempts + 1, draw.now, j.availableAt, if j.status == JobRunning then j.leaseUntil else None)] + tail
    ensures |tail| <= 1 && forall e :: e in tail ==> e.SettleEvent? && e.owner == owner
  {
    hide Next, IsNext, Run;
    var steps := StepsOf(owner, lease, id, draw);
    SixSteps(s, steps[0], steps[1], steps[2], steps[3], steps[4], steps[5]);
    ClaimLogs(s, owner, id, draw.now, lease);
    var s1 := Next(s, steps[0]);
    OthersLogNothing(s1, steps[1]);
    var s2 := Next(s1, steps[1]);
    OthersLogNothing(s2, steps[2]);
    var s3 := Next(s2, steps[2]);
    OthersLogNothing(s3, steps[3]);
    var s4 := Next(s3, steps[3]);
    OthersLogNothing(s4, steps[4]);
    tail := SettleLogs(Next(s4, steps[4]), owner, draw.settledAt, draw.settleFault);
  }

  lemma CountOneMore(log: seq<Event>, e: Event, tail: seq<Event>, owner: Id)
    requires e.ClaimEvent? && e.owner == owner && |tail| <= 1 && forall x :: x in tail ==> x.SettleEvent?
    ensures ClaimsBy(log + [e] + tail, owner) == ClaimsBy(log, owner) + 1
  {
    assert (log + [e])[..|log|] == log;
    if tail == [] {
      assert log + [e] + tail == log + [e];
    } else {
      assert tail[0] in tail;
      assert (log + [e] + tail)[..|log| + 1] == log + [e];
    }
  }

  /** The worker's claims in the history number the ticks that found something due. */
  lemma {:induction false} ClaimsAreCounted(states: seq<State>, owner: Id, lease: nat, ticks: seq<Draw>, claims: seq<Option<Id>>)
    requires Lives(states, owner, lease, ticks, claims)
    ensures ClaimsBy(states[|ticks|].log, owner) == ClaimsBy(states[0].log, owner) + Claims(claims)
    decreases |ticks|
  {
    hide Ticked;
    if ticks != [] {
      var n := |ticks| - 1;
      ClaimsAreCounted(states[..n + 1], owner, lease, ticks[..n], claims[..n]);
      TickCounts(states[n], owner, lease, ticks[n], claims[n], states[n + 1]);
    }
  }

  lemma TickCounts(s: State, owner: Id, lease: nat, draw: Draw, claimed: Option<Id>, s': State)
    requires WorkerOf(s, owner).Resting? && Ticked(s, owner, lease, draw, claimed, s')
    ensures ClaimsBy(s'.log, owner) == ClaimsBy(s.log, owner) + if claimed.Some? then 1 else 0
  {
    hide IsNext, Run;
    if claimed.Some? {
      var tail := TickLogs(s, owner, lease, draw, claimed.value, s');
      CountOneMore(s.log, s'.log[|s.log|], tail, owner);
    }
  }

  // ------------------------------------------------------ ticks at one instant

  /** The clock stands still, and no storage error strikes. */
  predicate Standing(ticks: seq<Draw>, now: Instant) {
    forall d | d in ticks :: d.now == d.settledAt == now && d.claimFault == d.first == d.second == d.settleFault == NoFault
  }

  function InputOf(lease: nat, id: Id, draw: Draw): RoundInput { RoundInput(id, lease, draw.env, draw.cleanup) }

  lemma TickIsRound(s: State, owner: Id, lease: nat, draw: Draw, now: Instant, id: Id, s': State)
    requires Ticked(s, owner, lease, draw, Some(id), s') && Standing([draw], now)
    ensures s' == Round(s, owner, now, InputOf(lease, id, draw))
  {
    assert draw in [draw];
    hide IsNext, Run;
    assert draw == Draw(now, draw.env, draw.cleanup, now, NoFault, NoFault, NoFault, NoFault);
  }

  /** A standing tick uses up one due job, unless there is none. */
  lemma TickDrains(s: State, owner: Id, lease: nat, draw: Draw, now: Instant, claimed: Option<Id>, s': State)
    requires WorkerOf(s, owner).Resting? && Ticked(s, owner, lease, draw, claimed, s') && Standing([draw], now) && ClockInRange(now)
    requires Inv(s)
    ensures Inv(s') && s'.db.jobs.Keys == s.db.jobs.Keys
    ensures if Idle(s.db.jobs, now) then s' == s else |DueJobs(s'.db.jobs, now)| == |DueJobs(s.db.jobs, now)| - 1
  {
    assert draw in [draw];
    hide Inv, ClockInRange, Round, Run, DueJobs, Claimable, JobsOk, Succeeds, SameExpiries;
    if claimed.Some? {
      var r := InputOf(lease, claimed.value, draw);
      TickIsRound(s, owner, lease, draw, now, claimed.value, s');
      NextIsDue(s, now, claimed.value);
      DrainRoundJobs(s, owner, now, r);
      DrainRoundTables(s, owner, now, r);
    }
  }

  lemma IdleIfNoneDue(jobs: Jobs, now: Instant)
    ensures Idle(jobs, now) <==> DueJobs(jobs, now) == {}
  {
    hide Claimable;
    forall k | k in jobs ensures Claimable(jobs[k], now) <==> k in DueJobs(jobs, now) {
    }
  }

  lemma {:induction false} TicksDrain(states: seq<State>, owner: Id, lease: nat, ticks: seq<Draw>, claims: seq<Option<Id>>, now: Instant)
    requires Lives(states, owner, lease, ticks, claims) && Standing(ticks, now) && ClockInRange(now)
    requires Inv(states[0])
    ensures Inv(states[|ticks|]) && states[|ticks|].db.jobs.Keys == states[0].db.jobs.Keys
    ensures Idle(states[|ticks|].db.jobs, now) || |ticks| + |DueJobs(states[|ticks|].db.jobs, now)| == |DueJobs(states[0].db.jobs, now)|
    decreases |ticks|
  {
    hide Ticked, Inv, ClockInRange, DueJobs, Idle;
    if ticks != [] {
      var n := |ticks| - 1;
      assert ticks[n] in ticks;
      TicksDrain(states[..n + 1], owner, lease, ticks[..n], claims[..n], now);
      TickDrains(states[n], owner, lease, ticks[n], now, claims[n], states[n + 1]);
      assert states[..n + 1][n] == states[n] && states[|ticks|] == states[n + 1];
      assert Idle(states[n].db.jobs, now) ==> Idle(states[n + 1].db.jobs, now);
    }
  }

  /** As many ticks as there are jobs leave nothing due. */
  lemma EnoughTicks(states: seq<State>, owner: Id, lease: nat, ticks: seq<Draw>, claims: seq<Option<Id>>, now: Instant)
    requires Lives(states, owner, lease, ticks, claims) && Standing(ticks, now) && ClockInRange(now)
    requires |states[0].db.jobs| <= |ticks|
    requires Inv(states[0])
    ensures Idle(states[|ticks|].db.jobs, now)
  {
    assert |states| == |ticks| + 1;
    hide Lives, Inv, ClockInRange, Claimable, Idle;
    TicksDrain(states, owner, lease, ticks, claims, now);
    SubsetSize(DueJobs(states[0].db.jobs, now), states[0].db.jobs.Keys);
    assert |states[0].db.jobs.Keys| == |states[0].db.jobs|;
    IdleIfNoneDue(states[|ticks|].db.jobs, now);
  }

  // -------------------------------------------------- ticks as a drain's rounds

  /** The environments have the same clock and new event ids. */
  ghost predicate NewEvents(states: seq<State>, ticks: seq<Draw>, now: Instant)
    requires |states| == |ticks| + 1
  {
    forall i :: 0 <= i < |ticks| ==>
      ticks[i].env.now == now && ticks[i].env.later == now && ticks[i].env.eventId !in states[i].db.audit
  }

  lemma {:induction false} TicksAreRounds(states: seq<State>, owner: Id, lease: nat, ticks: seq<Draw>, claims: seq<Option<Id>>, now: Instant)
    returns (rounds: seq<RoundInput>)
    requires Lives(states, owner, lease, ticks, claims) && Standing(ticks, now) && NewEvents(states, ticks, now)
    ensures AllEnabled(states[0], owner, now, rounds) && Rounds(states[0], owner, now, rounds) == states[|ticks|]
    decreases |ticks|
  {
    hide AllEnabled, Rounds, Round, IsNext, Run;
    if ticks == [] {
      rounds := [];
      NoRounds(states[0], owner, now);
    } else {
      var n := |ticks| - 1;
      assert ticks[n] in ticks;
      rounds := TicksAreRounds(states[..n + 1], owner, lease, ticks[..n], claims[..n], now);
      if claims[n].Some? {
        var r := InputOf(lease, claims[n].value, ticks[n]);
        TickIsRound(states[n], owner, lease, ticks[n], now, claims[n].value, states[n + 1]);
        OneRound(states[n], owner, now, r);
        EnabledConcat(states[0], owner, now, rounds, [r]);
        rounds := rounds + [r];
      }
    }
  }

  lemma NoRounds(s: State, owner: Id, now: Instant)
    ensures AllEnabled(s, owner, now, []) && Rounds(s, owner, now, []) == s
  {
  }

  lemma OneRound(s: State, owner: Id, now: Instant, r: RoundInput)
    requires Enabled(s, now, r)
    ensures AllEnabled(s, owner, now, [r]) && Rounds(s, owner, now, [r]) == Round(s, owner, now, r)
  {
    hide Round, Enabled;
    assert [r][1..] == [];
    NoRounds(Round(s, owner, now, r), owner, now);
    assert Rounds(s, owner, now, [r]) == Rounds(Round(s, owner, now, r), owner, now, []);
  }

  /** As many ticks as there are jobs, past every due time and lease of the expiry jobs,
      bring all capacity back but what had been given up before. */
  lemma TicksReturn(states: seq<State>, owner: Id, lease: nat, ticks: seq<Draw>, claims: seq<Option<Id>>, now: Instant)
    requires Lives(states, owner, lease, ticks, claims) && Standing(ticks, now) && NewEvents(states, ticks, now) && ClockInRange(now)
    requires |states[0].db.jobs| <= |ticks| && ExpiriesDue(states[0].db, now)
    requires Inv(states[0])
    ensures ReturnedBut(states[0].db, states[|ticks|].db)
  {
    assert WorkerOf(states[0], owner).Resting?;
    hide Lives, Inv, ClockInRange, ExpiriesDue, Idle, AllEnabled, Rounds, ReturnedBut, Standing, NewEvents;
    EnoughTicks(states, owner, lease, ticks, claims, now);
    var rounds := TicksAreRounds(states, owner, lease, ticks, claims, now);
    EveryDrainEnds(states[0], owner, now);
  }
}
