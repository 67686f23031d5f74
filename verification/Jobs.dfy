/** The durable job queue: leases with fencing tokens, bounded attempts and back-off (infrastructure/jobs.py). */
module Jobs {
  import opened Common

  type JobId = nat
  type Token = nat
  /** Microseconds since the epoch. */
  type Time = int

  const SECOND: int := 1000000

  /** A dedupe key: free text, or `kind:slot` as periodic scheduling builds it. */
  datatype DedupeKey = Named(text: string) | Slot(kind: string, start: Time)

  datatype JobState = Pending | Running | Done | Failed

  datatype Job = Job(
    kind: string, payload: string, key: DedupeKey, state: JobState, attempts: nat, maxAttempts: nat,
    nextRunAt: Time, token: Option<Token>, until: Option<Time>, error: Option<string>)

  type Table = map<JobId, Job>

  datatype Lease = Lease(job: JobId, token: Token, kind: string, payload: string, seconds: nat)

  function ValueError(): AppError { AppError(500, "VALUE_ERROR") }

  // ---- enqueue ----

  ghost predicate UniqueKeys(jobs: Table) {
    forall i, j :: i in jobs && j in jobs && jobs[i].key == jobs[j].key ==> i == j
  }

  function NewJob(kind: string, payload: string, key: DedupeKey, runAt: Time): Job {
    Job(kind, payload, key, Pending, 0, 5, runAt, None, None, None)
  }

  ghost predicate HasKey(jobs: Table, key: DedupeKey) {
    exists i :: i in jobs && jobs[i].key == key
  }

  ghost function WithKey(jobs: Table, key: DedupeKey): (i: JobId)
    requires HasKey(jobs, key)
    ensures i in jobs && jobs[i].key == key
  {
    var i :| i in jobs && jobs[i].key == key; i
  }

  ghost function Enqueued(jobs: Table, id: JobId, job: Job): Table {
    if HasKey(jobs, job.key) then jobs else jobs[id := job]
  }

  ghost function EnqueueResult(jobs: Table, id: JobId, job: Job): Result<JobId> {
    if !HasKey(jobs, job.key) then Ok(id)
    else
      var row := WithKey(jobs, job.key);
      if jobs[row].kind != job.kind || jobs[row].payload != job.payload then Err(ValueError()) else Ok(row)
  }

  // ---- claim ----

  predicate Expired(job: Job, now: Time) {
    job.state.Running? && job.until.Some? && job.until.value <= now
  }

  predicate Exhausted(job: Job, now: Time) {
    Expired(job, now) && job.attempts >= job.maxAttempts
  }

  function Sweep(jobs: Table, now: Time): Table {
    map i | i in jobs ::
      if Exhausted(jobs[i], now)
      then jobs[i].(state := Failed, token := None, until := None, error := Some("LEASE_EXHAUSTED"))
      else jobs[i]
  }

  predicate Claimable(job: Job, now: Time) {
    job.attempts < job.maxAttempts && ((job.state.Pending? && job.nextRunAt <= now) || Expired(job, now))
  }

  predicate Before(jobs: Table, i: JobId, j: JobId)
    requires i in jobs && j in jobs
  {
    jobs[i].nextRunAt < jobs[j].nextRunAt || (jobs[i].nextRunAt == jobs[j].nextRunAt && i <= j)
  }

  /** The row `ORDER BY next_run_at, id ... SKIP LOCKED LIMIT 1` selects. */
  predicate IsNext(jobs: Table, now: Time, locked: set<JobId>, i: JobId) {
    && i in jobs && i !in locked && Claimable(jobs[i], now)
    && forall j :: j in jobs && j !in locked && Claimable(jobs[j], now) ==> Before(jobs, i, j)
  }

  ghost predicate HasNext(jobs: Table, now: Time, locked: set<JobId>) {
    exists i :: IsNext(jobs, now, locked, i)
  }

  ghost function Next(jobs: Table, now: Time, locked: set<JobId>): (i: JobId)
    requires HasNext(jobs, now, locked)
    ensures IsNext(jobs, now, locked, i)
  {
    var i :| IsNext(jobs, now, locked, i); i
  }

  function Taken(job: Job, now: Time, seconds: nat, token: Token): Job {
    job.(state := Running, attempts := job.attempts + 1, token := Some(token), until := Some(now + seconds * SECOND))
  }

  predicate LeaseLength(seconds: nat) { 10 <= seconds <= 3600 }

  /** The row claimed and the table left behind by `claim`. */
  ghost function Claimed(jobs: Table, now: Time, seconds: nat, token: Token, locked: set<JobId>): (Table,
                         Option<JobId>) {
    var swept := Sweep(jobs, now);
    if !HasNext(swept, now, locked) then (swept, None)
    else var i := Next(swept, now, locked); (swept[i := Taken(swept[i], now, seconds, token)], Some(i))
  }

  // ---- renew and finish ----

  predicate Holds(jobs: Table, lease: Lease, now: Time) {
    && lease.job in jobs && jobs[lease.job].state.Running? && jobs[lease.job].token == Some(lease.token)
    && jobs[lease.job].until.Some? && jobs[lease.job].until.value > now
  }

  function Renewed(jobs: Table, lease: Lease, now: Time): Table {
    if Holds(jobs, lease, now)
    then jobs[lease.job := jobs[lease.job].(until := Some(now + lease.seconds * SECOND))]
    else jobs
  }

  function Exp2(n: nat): (p: nat)
    ensures p >= 1 && p > n
  {
    if n == 0 then 1 else 2 * Exp2(n - 1)
  }

  function Delay(attempts: nat): (seconds: nat)
    ensures attempts >= 1 ==> 2 <= seconds <= 60
  {
    if Exp2(attempts) < 60 then Exp2(attempts) else 60
  }

  function Closed(job: Job, now: Time, error: Option<string>): Job {
    var closed := job.(token := None, until := None);
    if error.None? then closed.(state := Done, error := None)
    else closed.(
      state := if job.attempts >= job.maxAttempts || error.value == "UNKNOWN_HANDLER" then Failed else Pending,
      error := Some(if |error.value| > 80 then error.value[..80] else error.value),
      nextRunAt := now + Delay(job.attempts) * SECOND)
  }

  function Finished(jobs: Table, lease: Lease, now: Time, error: Option<string>): Table {
    if Holds(jobs, lease, now) then jobs[lease.job := Closed(jobs[lease.job], now, error)] else jobs
  }

  /** Some claimable row exists exactly when the ordered query returns one. */
  lemma NextExists(jobs: Table, now: Time, locked: set<JobId>)
    ensures HasNext(jobs, now, locked) <==> exists i :: i in jobs && i !in locked && Claimable(jobs[i], now)
  {
    var rows := set i | i in jobs && i !in locked && Claimable(jobs[i], now);
    if i :| i in rows {
      var first := LeastRow(jobs, rows);
      assert IsNext(jobs, now, locked, first);
    } else {
      assert forall i :: i in jobs && i !in locked && Claimable(jobs[i], now) ==> i in rows;
    }
  }

  lemma {:induction false} LeastRow(jobs: Table, rows: set<JobId>) returns (first: JobId)
    requires rows != {} && rows <= jobs.Keys
    ensures first in rows && forall j :: j in rows ==> Before(jobs, first, j)
    decreases |rows|
  {
    first :| first in rows;
    var rest := rows - {first};
    if rest != {} {
      var other := LeastRow(jobs, rest);
      assert forall j :: j in rows ==> j == first || j in rest;
      if Before(jobs, other, first) {
        first := other;
      }
    }
  }

  lemma NextUnique(jobs: Table, now: Time, locked: set<JobId>, i: JobId, j: JobId)
    requires IsNext(jobs, now, locked, i) && IsNext(jobs, now, locked, j)
    ensures i == j
  {
    assert Before(jobs, i, j) && Before(jobs, j, i);
  }

  /** Row by row, a claim sweeps and then hands at most one claimable row to the new lease. */
  lemma ClaimedRow(jobs: Table, now: Time, seconds: nat, token: Token, locked: set<JobId>, i: JobId)
    requires i in jobs
    ensures var (table, taken) := Claimed(jobs, now, seconds, token, locked);
      && table.Keys == jobs.Keys
      && table[i] == (if taken == Some(i) then Taken(jobs[i], now, seconds, token) else Sweep(jobs, now)[i])
      && (taken == Some(i) ==> i !in locked && Claimable(jobs[i], now))
  {
  }

  /** The table behind one database; each method is one transaction. */
  class JobStore {
    var jobs: Table

    ghost predicate Valid()
      reads this
    {
      UniqueKeys(jobs)
    }

    constructor ()
      ensures Valid() && jobs == map[]
    {
      jobs := map[];
    }

    method Enqueue(id: JobId, kind: string, payload: string, key: DedupeKey, runAt: Option<Time>, now: Time)
      returns (r: Result<JobId>)
      requires Valid() && id !in jobs
      modifies this
      ensures Valid()
      ensures var job := NewJob(kind, payload, key, if runAt.Some? then runAt.value else now);
              jobs == Enqueued(old(jobs), id, job) && r == EnqueueResult(old(jobs), id, job)
    {
      var job := NewJob(kind, payload, key, if runAt.Some? then runAt.value else now);
      if row :| row in jobs && jobs[row].key == key {
        assert row == WithKey(jobs, key);
        if jobs[row].kind != kind || jobs[row].payload != payload {
          return Err(ValueError());
        }
        return Ok(row);
      }
      jobs := jobs[id := job];
      return Ok(id);
    }

    method Claim(seconds: nat, now: Time, token: Token, locked: set<JobId>) returns (r: Result<Option<Lease>>)
      requires Valid()
      modifies this
      ensures Valid()
      ensures !LeaseLength(seconds) ==> r == Err(ValueError()) && jobs == old(jobs)
      ensures LeaseLength(seconds) ==>
                var (table, taken) := Claimed(old(jobs), now, seconds, token, locked);
                && jobs == table
                && r == Ok(if taken.None? then None
                           else Some(Lease(taken.value, token, table[taken.value].kind, table[taken.value].payload,
                               seconds)))
    {
      if !LeaseLength(seconds) {
        return Err(ValueError());
      }
      jobs := Sweep(jobs, now);
      if i :| i in jobs && IsNext(jobs, now, locked, i) {
        NextUnique(jobs, now, locked, i, Next(jobs, now, locked));
        jobs := jobs[i := Taken(jobs[i], now, seconds, token)];
        return Ok(Some(Lease(i, token, jobs[i].kind, jobs[i].payload, seconds)));
      }
      return Ok(None);
    }

    method Renew(lease: Lease, now: Time) returns (held: bool)
      requires Valid()
      modifies this
      ensures Valid() && jobs == Renewed(old(jobs), lease, now) && held == old(Holds(jobs, lease, now))
    {
      held := Holds(jobs, lease, now);
      if held {
        jobs := jobs[lease.job := jobs[lease.job].(until := Some(now + lease.seconds * SECOND))];
      }
    }

    method Finish(lease: Lease, now: Time, error: Option<string>) returns (held: bool)
      requires Valid()
      modifies this
      ensures Valid() && jobs == Finished(old(jobs), lease, now, error) && held == old(Holds(jobs, lease, now))
    {
      if !Holds(jobs, lease, now) {
        return false;
      }
      var job := jobs[lease.job];
      if error.None? {
        job := job.(state := Done, error := None);
      } else {
        if job.attempts >= job.maxAttempts || error.value == "UNKNOWN_HANDLER" {
          job := job.(state := Failed);
        } else {
          job := job.(state := Pending);
        }
        job := job.(error := Some(if |error.value| > 80 then error.value[..80] else error.value));
        job := job.(nextRunAt := now + Delay(job.attempts) * SECOND);
      }
      jobs := jobs[lease.job := job.(until := None, token := None)];
      return true;
    }
  }
}
