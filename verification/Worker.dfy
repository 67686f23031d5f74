/** Periodic jobs: time slots, the re-arming transaction and the cadence it keeps (worker.py). */
module Worker {
  import opened Common
  import opened Jobs

  /** Kind to period in seconds. */
  type Periods = map<string, nat>

  const NO_PAYLOAD := "{}"

  /** Whole seconds, truncated toward zero as `int(now.timestamp())` does. */
  function Seconds(now: Time): int {
    if now >= 0 then now / SECOND else -(-now / SECOND)
  }

  function SlotStart(now: Time, period: nat): Time
    requires period > 0
  {
    Seconds(now) / period * period * SECOND
  }

  function SlotJob(kind: string, start: Time): Job {
    NewJob(kind, NO_PAYLOAD, Slot(kind, start), start)
  }

  lemma Multiples(t: int, p: int)
    requires p > 0
    ensures t / p * p <= t < t / p * p + p && (t / p * p) % p == 0
  {
  }

  /** A slot contains its moment after the epoch, and the slot one period ahead always starts strictly later than
      now. */
  lemma SlotBounds(now: Time, period: nat)
    requires period > 0
    ensures now >= 0 ==> SlotStart(now, period) <= now < SlotStart(now, period) + period * SECOND
    ensures SlotStart(now + period * SECOND, period) > now
  {
    Multiples(Seconds(now), period);
    var later := now + period * SECOND;
    Multiples(Seconds(later), period);
    var q := Seconds(later) / period * period;
    assert q * SECOND >= (Seconds(later) - period + 1) * SECOND;
  }

  lemma {:induction false} SlotGap(x: int, y: int, p: int)
    requires x < y && p > 0
    ensures y * p * SECOND >= x * p * SECOND + p * SECOND
    decreases y - x
  {
    assert y * p == (y - 1) * p + p;
    if x < y - 1 {
      SlotGap(x, y - 1, p);
    }
  }

  /** Two moments share a dedupe key exactly when no slot boundary separates them. */
  lemma SameSlot(a: Time, b: Time, period: nat)
    requires period > 0 && 0 <= a <= b
    ensures SlotStart(a, period) == SlotStart(b, period) <==> b < SlotStart(a, period) + period * SECOND
  {
    SlotBounds(a, period);
    SlotBounds(b, period);
    var x, y := Seconds(a) / period, Seconds(b) / period;
    if x < y {
      SlotGap(x, y, period);
    } else if y < x {
      SlotGap(y, x, period);
    }
  }

  datatype Event =
    | Enqueue(now: Time, id: JobId, kind: string, payload: string, name: string, runAt: Time)
    | Claim(now: Time, seconds: nat, token: Token, locked: set<JobId>)
    | Renew(now: Time, lease: Lease)
    /** `finish` and, when it succeeds for a periodic kind, `schedule`: one transaction that reads both clocks. */
    | Close(now: Time, wall: Time, lease: Lease, error: Option<string>, id: JobId)
    | Seed(now: Time, id: JobId, kind: string)

  datatype Sys = Sys(jobs: Table, clock: Time)

  function EndOf(e: Event): Time { if e.Close? then e.wall else e.now }

  ghost predicate Enabled(s: Sys, e: Event, periodic: Periods) {
    match e
    case Enqueue(_, id, _, _, _, _) => id !in s.jobs
    case Claim(_, seconds, _, _) => LeaseLength(seconds)
    case Renew(_, lease) => true
    case Close(now, wall, lease, _, id) =>
      id !in s.jobs && now <= wall && (lease.job in s.jobs ==> lease.kind == s.jobs[lease.job].kind)
    case Seed(_, id, kind) => id !in s.jobs && kind in periodic
  }

  ghost function CloseRun(jobs: Table, now: Time, wall: Time, lease: Lease, error: Option<string>, id: JobId,
                          periodic: Periods): Table
    requires Periodic(periodic)
  {
    var closed := Finished(jobs, lease, now, error);
    if Holds(jobs, lease, now) && lease.kind in periodic then
      var job := SlotJob(lease.kind, SlotStart(wall + periodic[lease.kind] * SECOND, periodic[lease.kind]));
      if EnqueueResult(closed, id, job).Err? then jobs else Enqueued(closed, id, job)
    else closed
  }

  predicate Periodic(periodic: Periods) { forall kind :: kind in periodic ==> periodic[kind] > 0 }

  ghost function Step(s: Sys, e: Event, periodic: Periods): Sys
    requires Periodic(periodic)
  {
    if !Enabled(s, e, periodic) then s
    else
      var jobs := match e
        case Enqueue(_, id, kind, payload, name, runAt) =>
            Enqueued(s.jobs, id, NewJob(kind, payload, Named(name), runAt))
        case Claim(now, seconds, token, locked) => Claimed(s.jobs, now, seconds, token, locked).0
        case Renew(now, lease) => Renewed(s.jobs, lease, now)
        case Close(now, wall, lease, error, id) => CloseRun(s.jobs, now, wall, lease, error, id, periodic)
        case Seed(now, id, kind) => Enqueued(s.jobs, id, SlotJob(kind, SlotStart(now, periodic[kind])));
      Sys(jobs, EndOf(e))
  }

  ghost function Run(s: Sys, es: seq<Event>, periodic: Periods): Sys
    requires Periodic(periodic)
  {
    if es == [] then s else Step(Run(s, es[..|es| - 1], periodic), es[|es| - 1], periodic)
  }

  ghost predicate Ordered(s: Sys, es: seq<Event>, periodic: Periods)
    requires Periodic(periodic)
  {
    es == [] || (Ordered(s, es[..|es| - 1], periodic) && es[|es| - 1].now >= Run(s, es[..|es| - 1], periodic).clock)
  }

  /** A slot's job is untouched until its slot has started. */
  ghost predicate SlotOk(job: Job, clock: Time) {
    && (job.state.Pending? ==> job.token.None?)
    && (job.state.Running? ==> job.attempts > 0)
    && job.maxAttempts >= 1
    && (job.key.Slot? ==>
        && job.kind == job.key.kind && job.payload == NO_PAYLOAD
        && (job.attempts == 0 ==> job.state.Pending? && job.nextRunAt == job.key.start)
        && (job.attempts > 0 ==> job.key.start <= clock))
  }

  ghost predicate Inv(s: Sys) {
    UniqueKeys(s.jobs) && forall i :: i in s.jobs ==> SlotOk(s.jobs[i], s.clock)
  }

  predicate Alive(job: Job) { job.state.Pending? || job.state.Running? }

  ghost predicate Live(jobs: Table, kind: string) {
    exists i :: i in jobs && jobs[i].kind == kind && Alive(jobs[i])
  }

  lemma EnqueuedInv(s: Sys, id: JobId, job: Job)
    requires Inv(s) && id !in s.jobs && job == NewJob(job.kind, job.payload, job.key, job.nextRunAt)
    requires job.key.Slot? ==> job == SlotJob(job.key.kind, job.key.start)
    ensures Inv(Sys(Enqueued(s.jobs, id, job), s.clock))
  {
  }

  lemma ClaimedInv(s: Sys, now: Time, seconds: nat, token: Token, locked: set<JobId>)
    requires Inv(s) && now >= s.clock
    ensures Inv(Sys(Claimed(s.jobs, now, seconds, token, locked).0, now))
  {
    var jobs := Claimed(s.jobs, now, seconds, token, locked).0;
    forall i | i in jobs ensures i in s.jobs && SlotOk(jobs[i], now) && jobs[i].key == s.jobs[i].key {
      ClaimedRow(s.jobs, now, seconds, token, locked, i);
      assert SlotOk(s.jobs[i], s.clock);
    }
  }

  lemma LeasedInv(s: Sys, lease: Lease, now: Time, error: Option<string>)
    requires Inv(s)
    ensures Inv(Sys(Finished(s.jobs, lease, now, error), s.clock)) && Inv(Sys(Renewed(s.jobs, lease, now), s.clock))
  {
    forall i | i in s.jobs
      ensures SlotOk(Finished(s.jobs, lease, now, error)[i], s.clock) && SlotOk(Renewed(s.jobs, lease, now)[i], s.clock)
    {
      assert SlotOk(s.jobs[i], s.clock);
    }
  }

  lemma ClockInv(s: Sys, now: Time)
    requires Inv(s) && now >= s.clock
    ensures Inv(s.(clock := now))
  {
    assert forall i :: i in s.jobs ==> SlotOk(s.jobs[i], s.clock);
  }

  lemma StepInv(s: Sys, e: Event, periodic: Periods)
    requires Periodic(periodic) && Inv(s) && e.now >= s.clock
    ensures Inv(Step(s, e, periodic)) && Step(s, e, periodic).clock >= s.clock
  {
    if Enabled(s, e, periodic) {
      ClockInv(s, EndOf(e));
      var later := s.(clock := EndOf(e));
      match e
      case Enqueue(now, id, kind, payload, name, runAt) =>
          EnqueuedInv(later, id, NewJob(kind, payload, Named(name), runAt));
      case Claim(now, seconds, token, locked) => ClaimedInv(s, now, seconds, token, locked);
      case Renew(now, lease) => LeasedInv(later, lease, now, None);
      case Close(now, wall, lease, error, id) =>
        LeasedInv(later, lease, now, error);
        if Holds(s.jobs, lease, now) && lease.kind in periodic {
          var start := SlotStart(wall + periodic[lease.kind] * SECOND, periodic[lease.kind]);
          EnqueuedInv(Sys(Finished(s.jobs, lease, now, error), wall), id, SlotJob(lease.kind, start));
        }
      case Seed(now, id, kind) => EnqueuedInv(later, id, SlotJob(kind, SlotStart(now, periodic[kind])));
    }
  }

  /** Scheduling a slot that has not started yet never fails and yields a live job of that kind, new or already
      there. */
  lemma FutureSlotIsLive(s: Sys, id: JobId, kind: string, start: Time)
    requires Inv(s) && id !in s.jobs && start > s.clock
    ensures var r := EnqueueResult(s.jobs, id, SlotJob(kind, start));
            var jobs := Enqueued(s.jobs, id, SlotJob(kind, start));
      && r.Ok? && r.value in jobs && jobs[r.value].key == Slot(kind, start) && jobs[r.value].kind == kind
      && jobs[r.value].state.Pending? && jobs[r.value].attempts == 0 && jobs[r.value].nextRunAt == start
  {
    if HasKey(s.jobs, Slot(kind, start)) {
      assert SlotOk(s.jobs[WithKey(s.jobs, Slot(kind, start))], s.clock);
    }
  }

  /** Closing a periodic run leaves exactly one row for the next slot, pending and never claimed. */
  lemma CloseRearms(s: Sys, e: Event, periodic: Periods)
    requires Periodic(periodic) && Inv(s) && e.Close? && Enabled(s, e, periodic) && e.now >= s.clock
    requires Holds(s.jobs, e.lease, e.now) && e.lease.kind in periodic
    ensures var next := SlotStart(e.wall + periodic[e.lease.kind] * SECOND, periodic[e.lease.kind]);
            var jobs := Step(s, e, periodic).jobs;
      && next > e.wall && HasKey(jobs, Slot(e.lease.kind, next))
      && (forall i :: i in jobs && jobs[i].key == Slot(e.lease.kind, next) ==>
            i == WithKey(jobs, Slot(e.lease.kind, next))
            && jobs[i].kind == e.lease.kind && jobs[i].state.Pending? && jobs[i].attempts == 0
            && jobs[i].nextRunAt == next)
  {
    SlotBounds(e.wall, periodic[e.lease.kind]);
    ClockInv(s, e.wall);
    LeasedInv(s.(clock := e.wall), e.lease, e.now, e.error);
    var closed := Sys(Finished(s.jobs, e.lease, e.now, e.error), e.wall);
    var next := SlotStart(e.wall + periodic[e.lease.kind] * SECOND, periodic[e.lease.kind]);
    FutureSlotIsLive(closed, e.id, e.lease.kind, next);
    StepInv(s, e, periodic);
  }

  /** The claims whose sweep ends a periodic kind: all that is left of it has run out of both lease and attempts. */
  ghost predicate Sweeps(jobs: Table, e: Event, kind: string) {
    e.Claim? && LeaseLength(e.seconds) && forall i :: i in jobs && jobs[i].kind == kind && Alive(jobs[i]) ==>
        Exhausted(jobs[i], e.now)
  }

  lemma ClaimLive(s: Sys, e: Event, periodic: Periods, kind: string)
    requires Periodic(periodic) && Inv(s) && e.Claim? && Enabled(s, e, periodic) && Live(s.jobs, kind)
    ensures Live(Step(s, e, periodic).jobs, kind) <==> !Sweeps(s.jobs, e, kind)
  {
    var jobs := Step(s, e, periodic).jobs;
    forall i | i in s.jobs
      ensures i in jobs && jobs[i].kind == s.jobs[i].kind
      ensures Alive(jobs[i]) <==> Alive(s.jobs[i]) && !Exhausted(s.jobs[i], e.now)
    {
      ClaimedRow(s.jobs, e.now, e.seconds, e.token, e.locked, i);
    }
    assert jobs.Keys == s.jobs.Keys by {
      var any :| any in s.jobs;
      ClaimedRow(s.jobs, e.now, e.seconds, e.token, e.locked, any);
    }
    if i :| i in s.jobs && s.jobs[i].kind == kind && Alive(s.jobs[i]) && !Exhausted(s.jobs[i], e.now) {
      assert Alive(jobs[i]);
    }
  }

  /** One exact condition: a periodic kind with a live job loses it in a step precisely when that step is such a
      claim. */
  lemma LiveUnlessSwept(s: Sys, e: Event, periodic: Periods, kind: string)
    requires Periodic(periodic) && Inv(s) && e.now >= s.clock && kind in periodic && Live(s.jobs, kind)
    ensures Live(Step(s, e, periodic).jobs, kind) <==> !Sweeps(s.jobs, e, kind)
  {
    var i :| i in s.jobs && s.jobs[i].kind == kind && Alive(s.jobs[i]);
    var jobs := Step(s, e, periodic).jobs;
    if Enabled(s, e, periodic) {
      match e
      case Claim(_, _, _, _) => ClaimLive(s, e, periodic, kind);
      case Close(now, wall, lease, error, id) =>
        if Holds(s.jobs, lease, now) && lease.kind == kind {
          CloseRearms(s, e, periodic);
        } else {
          assert i in jobs && Alive(jobs[i]);
        }
      case _ => assert i in jobs && Alive(jobs[i]);
    }
  }

  ghost predicate NeverSwept(s: Sys, es: seq<Event>, periodic: Periods, kind: string)
    requires Periodic(periodic)
  {
    es == [] || (NeverSwept(s, es[..|es| - 1], periodic, kind)
        && !Sweeps(Run(s, es[..|es| - 1], periodic).jobs, es[|es| - 1], kind))
  }

  /** Once live, a periodic kind stays live over every ordered run without such a claim. */
  lemma {:induction false} CadenceHolds(s: Sys, es: seq<Event>, periodic: Periods, kind: string)
    requires Periodic(periodic) && Inv(s) && kind in periodic && Live(s.jobs, kind)
    requires Ordered(s, es, periodic) && NeverSwept(s, es, periodic, kind)
    ensures Inv(Run(s, es, periodic)) && Live(Run(s, es, periodic).jobs, kind)
  {
    if es != [] {
      CadenceHolds(s, es[..|es| - 1], periodic, kind);
      StepInv(Run(s, es[..|es| - 1], periodic), es[|es| - 1], periodic);
      LiveUnlessSwept(Run(s, es[..|es| - 1], periodic), es[|es| - 1], periodic, kind);
    }
  }

  /** After seeding, a kind is live exactly when the current slot had no row or some row of the kind was alive
      already. */
  lemma SeedMakesLive(s: Sys, e: Event, periodic: Periods)
    requires Periodic(periodic) && Inv(s) && e.Seed? && Enabled(s, e, periodic)
    ensures Live(Step(s, e, periodic).jobs, e.kind)
      <==> !HasKey(s.jobs, Slot(e.kind, SlotStart(e.now, periodic[e.kind]))) || Live(s.jobs, e.kind)
  {
    var jobs := Step(s, e, periodic).jobs;
    if !HasKey(s.jobs, Slot(e.kind, SlotStart(e.now, periodic[e.kind]))) {
      assert Alive(jobs[e.id]);
    } else {
      assert jobs == s.jobs;
    }
  }

  // ---- the stated exception is reachable: five crashed runs and a sixth claim stop the cadence ----

  const KIND := "system.purge_idempotency"
  const HOURLY: Periods := map["system.purge_idempotency" := 3600]

  function CrashEvents(n: nat): seq<Event> {
    if n == 0 then [Seed(0, 0, KIND)] else CrashEvents(n - 1) + [Claim(60 * n * SECOND, 60, n, {})]
  }

  function CrashedJob(n: nat): Job {
    if n == 0 then SlotJob(KIND, 0)
    else SlotJob(KIND, 0).(state := Running, attempts := n, token := Some(n), until := Some(60 * (n + 1) * SECOND))
  }

  lemma CrashStep(n: nat)
    requires 1 <= n <= 5
    ensures Claimed(map[0 := CrashedJob(n - 1)], 60 * n * SECOND, 60, n, {}).0 == map[0 := CrashedJob(n)]
  {
    var jobs, now := map[0 := CrashedJob(n - 1)], 60 * n * SECOND;
    assert Sweep(jobs, now) == jobs;
    assert IsNext(jobs, now, {}, 0);
    ClaimedRow(jobs, now, 60, n, {}, 0);
  }

  lemma {:induction false} CrashRun(n: nat)
    requires n <= 5
    ensures Periodic(HOURLY) && |CrashEvents(n)| == n + 1 && CrashEvents(n)[0].Seed?
    ensures Ordered(Sys(map[], 0), CrashEvents(n), HOURLY)
    ensures Run(Sys(map[], 0), CrashEvents(n), HOURLY) == Sys(map[0 := CrashedJob(n)], 60 * n * SECOND)
  {
    var es := CrashEvents(n);
    if n == 0 {
      assert es[..|es| - 1] == [] && HOURLY[KIND] == 3600 && SlotStart(0, 3600) == 0;
      assert Run(Sys(map[], 0), [], HOURLY) == Sys(map[], 0) && Ordered(Sys(map[], 0), [], HOURLY);
      assert Step(Sys(map[], 0), es[0], HOURLY) == Sys(map[0 := SlotJob(KIND, 0)], 0);
    } else {
      CrashRun(n - 1);
      CrashStep(n);
      assert es[..|es| - 1] == CrashEvents(n - 1);
    }
  }

  lemma LastCrash()
    ensures !Live(Claimed(map[0 := CrashedJob(5)], 360 * SECOND, 60, 6, {}).0, KIND)
  {
    ClaimedRow(map[0 := CrashedJob(5)], 360 * SECOND, 60, 6, {}, 0);
  }

  lemma CadenceCanStop()
    ensures exists es: seq<Event> :: Periodic(HOURLY) && Ordered(Sys(map[], 0), es, HOURLY) && |es| == 7 && es[0].Seed?
                                     && !Live(Run(Sys(map[], 0), es, HOURLY).jobs, KIND)
  {
    CrashRun(5);
    LastCrash();
    var es := CrashEvents(5) + [Claim(360 * SECOND, 60, 6, {})];
    assert es[..|es| - 1] == CrashEvents(5);
    assert Run(Sys(map[], 0), es, HOURLY) == Step(Sys(map[0 := CrashedJob(5)], 300 * SECOND),
        Claim(360 * SECOND, 60, 6, {}), HOURLY);
    assert Ordered(Sys(map[], 0), es, HOURLY);
  }

  /** The transaction that closes a run, against the store; an error inside it rolls the whole transaction back. */
  method CloseTransaction(store: JobStore, periodic: Periods, lease: Lease, error: Option<string>, now: Time,
                          wall: Time, id: JobId)
    returns (r: Result<bool>)
    requires store.Valid() && Periodic(periodic) && id !in store.jobs
    modifies store
    ensures store.Valid() && (r.Ok? ==> r.value == old(Holds(store.jobs, lease, now)))
    ensures store.jobs == CloseRun(old(store.jobs), now, wall, lease, error, id, periodic)
    ensures r.Err? ==> store.jobs == old(store.jobs)
  {
    var saved := store.jobs;
    var held := store.Finish(lease, now, error);
    if held && lease.kind in periodic {
      var period := periodic[lease.kind];
      var armed := Schedule(store, lease.kind, period, wall + period * SECOND, id);
      if armed.Err? {
        store.jobs := saved;
        return Err(armed.error);
      }
    }
    return Ok(held);
  }

  method Schedule(store: JobStore, kind: string, period: nat, now: Time, id: JobId) returns (r: Result<JobId>)
    requires store.Valid() && period > 0 && id !in store.jobs
    modifies store
    ensures store.Valid() && store.jobs == Enqueued(old(store.jobs), id, SlotJob(kind, SlotStart(now, period)))
    ensures r == EnqueueResult(old(store.jobs), id, SlotJob(kind, SlotStart(now, period)))
  {
    var start := SlotStart(now, period);
    r := store.Enqueue(id, kind, NO_PAYLOAD, Slot(kind, start), Some(start), now);
  }
}
