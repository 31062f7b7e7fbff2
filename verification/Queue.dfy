/** The durable job queue: one row's life under claim, completion, retry and
    cancellation, with every due time compared as stored text. */
module Queue {
  import opened Basics
  import opened Timestamps
  import opened Domain

  type Jobs = map<Id, Job>

  /** The WHERE clause of the claiming SELECT. */
  predicate Claimable(j: Job, now: Instant) {
    && (j.status == JobPending || j.status == JobRunning)
    && SqlLe(j.availableAt, now)
    && (j.status == JobPending || j.leaseUntil.None? || SqlLe(j.leaseUntil.value, now))
  }

  /** `ORDER BY available_at, id`. */
  predicate Before(a: Job, b: Job) {
    || TextLess(Timestamp(a.availableAt), Timestamp(b.availableAt))
    || (Timestamp(a.availableAt) == Timestamp(b.availableAt) && !TextLess(b.id, a.id))
  }

  /** The row that the claiming SELECT returns. */
  predicate IsNext(jobs: Jobs, now: Instant, id: Id) {
    && id in jobs && Claimable(jobs[id], now)
    && forall k | k in jobs :: Claimable(jobs[k], now) ==> Before(jobs[id], jobs[k])
  }

  predicate Idle(jobs: Jobs, now: Instant) { forall k | k in jobs :: !Claimable(jobs[k], now) }

  function ClaimedRow(j: Job, owner: Id, now: Instant, lease: nat): Job {
    j.(status := JobRunning, attempts := j.attempts + 1, leaseOwner := Some(owner),
       leaseUntil := Some(now + lease), updatedAt := now)
  }

  function Claimed(jobs: Jobs, id: Id, owner: Id, now: Instant, lease: nat): Jobs
    requires id in jobs
  {
    jobs[id := ClaimedRow(jobs[id], owner, now, lease)]
  }

  /** The fence of every settling UPDATE. */
  predicate OwnedBy(jobs: Jobs, id: Id, owner: Id) {
    id in jobs && jobs[id].status == JobRunning && jobs[id].leaseOwner == Some(owner)
  }

  function CompletedRow(j: Job, now: Instant): Job {
    j.(status := JobSucceeded, leaseOwner := None, leaseUntil := None, lastError := None, updatedAt := now)
  }

  function Completed(jobs: Jobs, id: Id, owner: Id, now: Instant): Jobs {
    if OwnedBy(jobs, id, owner) then jobs[id := CompletedRow(jobs[id], now)] else jobs
  }

  function Backoff(attempt: int): (d: nat)
    ensures NANOS <= d <= 128 * NANOS
  {
    var a := if attempt < 1 then 1 else if attempt > 8 then 8 else attempt;
    Seconds(Power2(a - 1))
  }

  function Power2(n: nat): (p: nat)
    ensures p >= 1
    ensures n <= 7 ==> p == [1, 2, 4, 8, 16, 32, 64, 128][n]
  {
    if n == 0 then 1 else 2 * Power2(n - 1)
  }

  /** `job` is the row as it was claimed; only the fence looks at the stored row. */
  function RetriedRow(j: Job, job: Job, error: Error, now: Instant): Job {
    var last := job.attempts >= job.maxAttempts;
    j.(status := if last then JobFailed else JobPending,
       availableAt := if last then now else now + Backoff(job.attempts),
       leaseOwner := None, leaseUntil := None, lastError := Some(error), updatedAt := now)
  }

  function Retried(jobs: Jobs, job: Job, owner: Id, error: Error, now: Instant): Jobs {
    if OwnedBy(jobs, job.id, owner) then jobs[job.id := RetriedRow(jobs[job.id], job, error, now)] else jobs
  }

  predicate Live(j: Job) { j.status == JobPending || j.status == JobRunning }

  function Cancelled(jobs: Jobs, id: Id, now: Instant): Jobs {
    if id in jobs && Live(jobs[id])
    then jobs[id := jobs[id].(status := JobCancelled, leaseOwner := None, leaseUntil := None, updatedAt := now)]
    else jobs
  }

  // ----------------------------------------------------- what claims return

  lemma BeforeTransitive(a: Job, b: Job, c: Job)
    requires Before(a, b) && Before(b, c)
    ensures Before(a, c)
  {
    var x, y, z := Timestamp(a.availableAt), Timestamp(b.availableAt), Timestamp(c.availableAt);
    if TextLess(x, y) && TextLess(y, z) {
      TextTransitive(x, y, z);
    }
    TextTrichotomy(a.id, b.id);
    TextTrichotomy(b.id, c.id);
    TextTrichotomy(a.id, c.id);
    if x == y && y == z && TextLess(c.id, a.id) && TextLess(a.id, b.id) {
      TextTransitive(c.id, a.id, b.id);
    }
  }

  lemma BeforeTotal(a: Job, b: Job)
    ensures Before(a, b) || Before(b, a)
    ensures Before(a, a)
  {
    TextTrichotomy(Timestamp(a.availableAt), Timestamp(b.availableAt));
    TextTrichotomy(a.id, b.id);
    TextTrichotomy(a.id, a.id);
  }

  /** One more row: the better of it and the next of the others comes next. */
  lemma NextOfMore(jobs: Jobs, now: Instant, k: Id, n: Id)
    requires k in jobs && Claimable(jobs[k], now) && IsNext(jobs - {k}, now, n)
    ensures IsNext(jobs, now, if Before(jobs[n], jobs[k]) then n else k)
  {
    BeforeTotal(jobs[k], jobs[n]);
    BeforeTotal(jobs[k], jobs[k]);
    var best := if Before(jobs[n], jobs[k]) then n else k;
    forall m | m in jobs && Claimable(jobs[m], now) ensures Before(jobs[best], jobs[m]) {
      if m != k {
        assert m in jobs - {k} && Before(jobs[n], jobs[m]);
        if best == k {
          BeforeTransitive(jobs[k], jobs[n], jobs[m]);
        }
      }
    }
    hide Before, Claimable;
  }

  lemma NextOfOne(jobs: Jobs, now: Instant, k: Id)
    requires k in jobs && Claimable(jobs[k], now) && Idle(jobs - {k}, now)
    ensures IsNext(jobs, now, k)
  {
    BeforeTotal(jobs[k], jobs[k]);
    hide Before, Claimable;
    forall m | m in jobs && Claimable(jobs[m], now) ensures Before(jobs[k], jobs[m]) {
      assert m == k || m in jobs - {k};
    }
  }

  /** A queue with anything claimable has a next row. */
  lemma {:induction false} NextExists(jobs: Jobs, now: Instant)
    requires !Idle(jobs, now)
    ensures exists id :: IsNext(jobs, now, id)
    decreases |jobs|
  {
    var k :| k in jobs && Claimable(jobs[k], now);
    hide IsNext, Claimable;
    if Idle(jobs - {k}, now) {
      NextOfOne(jobs, now, k);
    } else {
      NextExists(jobs - {k}, now);
      var n :| IsNext(jobs - {k}, now, n);
      NextOfMore(jobs, now, k, n);
    }
  }

  /** With distinct ids the next row is unique, so the queue order is a function
      of the stored rows. */
  lemma NextUnique(jobs: Jobs, now: Instant, a: Id, b: Id)
    requires forall k :: k in jobs ==> jobs[k].id == k
    requires IsNext(jobs, now, a) && IsNext(jobs, now, b)
    ensures a == b
  {
    TextTrichotomy(Timestamp(jobs[a].availableAt), Timestamp(jobs[b].availableAt));
    TextTrichotomy(a, b);
  }

  /** `a` is due no later than `b` by the clock, unless the two texts are inverted, and
      so never in a later second; of two due at one time it has the lesser id. */
  predicate NoLater(a: Job, b: Job) {
    && (InRange(a.availableAt) && InRange(b.availableAt) ==>
         && Sec(a.availableAt) <= Sec(b.availableAt)
         && (a.availableAt <= b.availableAt || Inverted(a.availableAt, b.availableAt)))
    && (a.availableAt == b.availableAt ==> a.id == b.id || TextLess(a.id, b.id))
  }

  /** The next row is due no later than any other that can be claimed. */
  lemma NextIsEarliest(jobs: Jobs, now: Instant, id: Id, k: Id)
    requires IsNext(jobs, now, id) && k in jobs && Claimable(jobs[k], now)
    ensures NoLater(jobs[id], jobs[k])
  {
    var a, b := jobs[id].availableAt, jobs[k].availableAt;
    TextTrichotomy(Timestamp(a), Timestamp(b));
    TextTrichotomy(jobs[id].id, jobs[k].id);
    hide InRange, Inverted, Timestamp;
    if InRange(a) && InRange(b) {
      TextOrderIsTimeOrder(a, b);
      TextOrderIsTimeOrder(b, a);
      SqlLeAcrossSeconds(a, b);
    }
  }

  /** Unless texts are inverted a job can be claimed exactly when it is waiting, or its
      lease has run out, and the clock has reached its due time. */
  lemma ClaimableByTheClock(j: Job, now: Instant)
    requires InRange(now) && InRange(j.availableAt) && !Inverted(now, j.availableAt)
    requires j.leaseUntil.Some? ==> InRange(j.leaseUntil.value) && !Inverted(now, j.leaseUntil.value)
    ensures Claimable(j, now) <==>
      j.availableAt <= now
      && (j.status == JobPending || (j.status == JobRunning && (j.leaseUntil.None? || j.leaseUntil.value <= now)))
  {
    hide InRange, Inverted, Timestamp;
    TextOrderIsTimeOrder(now, j.availableAt);
    if j.leaseUntil.Some? {
      TextOrderIsTimeOrder(now, j.leaseUntil.value);
    }
  }

  // ------------------------------------------------------- backoff schedule

  /** Total delay scheduled by the failures of attempts 1 to n. */
  function TotalBackoff(n: nat): nat {
    if n == 0 then 0 else TotalBackoff(n - 1) + Backoff(n)
  }

  lemma {:induction false} TotalBackoffClosedForm(n: nat)
    ensures n <= 8 ==> TotalBackoff(n) == Seconds(Power2(n) - 1)
    ensures n >= 8 ==> TotalBackoff(n) == Seconds(255 + 128 * (n - 8))
  {
    assert Power2(8) == 256;
    if n > 0 {
      TotalBackoffClosedForm(n - 1);
      if n <= 8 {
        assert Power2(n) == 2 * Power2(n - 1);
      } else {
        assert Power2(7) == 128;
      }
    }
  }

  /** A job that is claimed as soon as it is due and fails after `work[i]`: the
      row after every attempt in `work` has failed. */
  function FailingLife(j: Job, work: seq<nat>, owner: Id, lease: nat, error: Error): Job
    decreases |work|
  {
    if work == [] then j
    else
      var claimed := ClaimedRow(j, owner, j.availableAt, lease);
      FailingLife(RetriedRow(claimed, claimed, error, j.availableAt + work[0]), work[1..], owner, lease, error)
  }

  function Sum(s: seq<nat>): nat { if s == [] then 0 else s[0] + Sum(s[1..]) }

  /** Over its whole life a job that always fails is delayed by the backoffs of
      all but its last attempt, and then fails for good. */
  lemma {:induction false} FailingLifeSchedule(j: Job, work: seq<nat>, owner: Id, lease: nat, error: Error)
    requires 0 <= j.attempts < j.maxAttempts && |work| == j.maxAttempts - j.attempts
    ensures var end := FailingLife(j, work, owner, lease, error);
      && end.status == JobFailed && end.attempts == end.maxAttempts == j.maxAttempts
      && end.availableAt - j.availableAt == Sum(work) + TotalBackoff(j.maxAttempts - 1) - TotalBackoff(j.attempts)
    decreases |work|
  {
    var claimed := ClaimedRow(j, owner, j.availableAt, lease);
    var next := RetriedRow(claimed, claimed, error, j.availableAt + work[0]);
    assert FailingLife(j, work, owner, lease, error) == FailingLife(next, work[1..], owner, lease, error);
    assert Sum(work) == work[0] + Sum(work[1..]);
    assert TotalBackoff(claimed.attempts) == TotalBackoff(j.attempts) + Backoff(claimed.attempts);
    hide Backoff;
    if |work| == 1 {
      assert work[1..] == [];
      assert FailingLife(next, work[1..], owner, lease, error) == next;
    } else {
      FailingLifeSchedule(next, work[1..], owner, lease, error);
    }
  }

  /** The delays of the service's own jobs, which allow five attempts. */
  lemma ServiceJobDelay(j: Job, work: seq<nat>, owner: Id, lease: nat, error: Error)
    requires j.attempts == 0 && j.maxAttempts == 5 && |work| == 5
    ensures FailingLife(j, work, owner, lease, error).availableAt == j.availableAt + Sum(work) + Seconds(15)
  {
    FailingLifeSchedule(j, work, owner, lease, error);
    TotalBackoffClosedForm(4);
    assert Power2(4) == 16;
  }

  /** A failed attempt that may be repeated is due only in a later whole second,
      so the stored texts agree that it is not due yet. */
  lemma RetryIsLater(j: Job, job: Job, error: Error, now: Instant)
    requires InRange(now) && InRange(now + Backoff(job.attempts))
    requires job.attempts < job.maxAttempts
    ensures var r := RetriedRow(j, job, error, now); r.availableAt > now && !SqlLe(r.availableAt, now)
  {
    SqlLeAcrossSeconds(now, now + Backoff(job.attempts));
  }
}
