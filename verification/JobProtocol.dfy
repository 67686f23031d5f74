/** Runs of the queue by any number of workers, crashes included: what every interleaving keeps. */
module JobProtocol {
  import opened Common
  import opened Jobs

  /** One claim ever granted: its job, fencing token, and validity interval [from, end) as it stands now. */
  datatype Grant = Grant(job: JobId, token: Token, seconds: nat, from: Time, end: Time)

  datatype Sys = Sys(jobs: Table, grants: seq<Grant>, clock: Time)

  /** A transaction by some worker. A worker acts through a lease it was once granted, as often and as late as it
      likes. */
  datatype Event =
    | EnqueueJob(now: Time, id: JobId, job: Job)
    | ClaimJob(now: Time, seconds: nat, token: Token, locked: set<JobId>)
    | RenewLease(now: Time, grant: nat)
    | FinishLease(now: Time, grant: nat, error: Option<string>)

  const Empty: Sys := Sys(map[], [], 0)

  function LeaseOf(g: Grant): Lease { Lease(g.job, g.token, "", "", g.seconds) }

  ghost predicate Enabled(s: Sys, e: Event) {
    match e
    case EnqueueJob(now, id, job) => id !in s.jobs && job == NewJob(job.kind, job.payload, job.key, job.nextRunAt)
    case ClaimJob(now, seconds, token, locked) =>
      LeaseLength(seconds) && forall g :: 0 <= g < |s.grants| ==> s.grants[g].token != token
    case RenewLease(now, g) => g < |s.grants|
    case FinishLease(now, g, error) => g < |s.grants|
  }

  ghost function Step(s: Sys, e: Event): Sys {
    if !Enabled(s, e) then s
    else match e
      case EnqueueJob(now, id, job) => Sys(Enqueued(s.jobs, id, job), s.grants, now)
      case ClaimJob(now, seconds, token, locked) =>
        var (table, taken) := Claimed(s.jobs, now, seconds, token, locked);
        Sys(table, if taken.None? then s.grants
                   else s.grants + [Grant(taken.value, token, seconds, now, now + seconds * SECOND)], now)
      case RenewLease(now, g) =>
        var lease := LeaseOf(s.grants[g]);
        Sys(Renewed(s.jobs, lease, now),
            if Holds(s.jobs, lease, now) then s.grants[g := s.grants[g].(end := now + lease.seconds * SECOND)]
                else s.grants, now)
      case FinishLease(now, g, error) =>
        var lease := LeaseOf(s.grants[g]);
        Sys(Finished(s.jobs, lease, now, error),
            if Holds(s.jobs, lease, now) then s.grants[g := s.grants[g].(end := now)] else s.grants, now)
  }

  ghost function Run(s: Sys, es: seq<Event>): Sys {
    if es == [] then s else Step(Run(s, es[..|es| - 1]), es[|es| - 1])
  }

  // ---- safety, whatever each transaction reads as the current time ----

  function Claims(grants: seq<Grant>, i: JobId): nat {
    if grants == [] then 0
    else Claims(grants[..|grants| - 1], i) + if grants[|grants| - 1].job == i then 1 else 0
  }

  ghost predicate Current(s: Sys, g: nat)
    requires g < |s.grants|
  {
    s.grants[g].job in s.jobs && s.jobs[s.grants[g].job].token == Some(s.grants[g].token)
  }

  ghost predicate JobSafe(s: Sys, i: JobId)
    requires i in s.jobs
  {
    var job := s.jobs[i];
    && (job.state.Running? <==> job.token.Some?) && (job.state.Running? <==> job.until.Some?)
    && job.attempts == Claims(s.grants, i) <= job.maxAttempts
    && (job.state.Pending? ==> job.attempts < job.maxAttempts)
    && (job.state.Running? ==> exists g: nat :: g < |s.grants| && IsLast(s.grants, g, i) && Current(s, g))
  }

  ghost predicate IsLast(grants: seq<Grant>, g: nat, i: JobId)
    requires g < |grants|
  {
    grants[g].job == i && forall h :: g < h < |grants| ==> grants[h].job != i
  }

  ghost predicate Safe(s: Sys) {
    && UniqueKeys(s.jobs)
    && (forall i :: i in s.jobs ==> JobSafe(s, i))
    && (forall g :: 0 <= g < |s.grants| ==> s.grants[g].job in s.jobs)
    && (forall g, h :: 0 <= g < h < |s.grants| ==> s.grants[g].token != s.grants[h].token)
  }

  lemma {:induction false} ClaimsSameJobs(a: seq<Grant>, b: seq<Grant>, i: JobId)
    requires |a| == |b| && forall k :: 0 <= k < |a| ==> a[k].job == b[k].job
    ensures Claims(a, i) == Claims(b, i)
  {
    if a != [] {
      ClaimsSameJobs(a[..|a| - 1], b[..|b| - 1], i);
    }
  }

  lemma {:induction false} ClaimsOfUnknown(grants: seq<Grant>, i: JobId)
    requires forall k :: 0 <= k < |grants| ==> grants[k].job != i
    ensures Claims(grants, i) == 0
  {
    if grants != [] {
      ClaimsOfUnknown(grants[..|grants| - 1], i);
    }
  }

  lemma EnqueueSafe(s: Sys, e: Event)
    requires Safe(s) && e.EnqueueJob? && Enabled(s, e)
    ensures Safe(Step(s, e))
  {
    var s' := Step(s, e);
    forall i | i in s'.jobs ensures JobSafe(s', i) {
      if i in s.jobs {
        assert JobSafe(s, i);
      } else {
        ClaimsOfUnknown(s.grants, i);
      }
    }
  }

  lemma SweepSafe(s: Sys, now: Time)
    requires Safe(s)
    ensures Safe(s.(jobs := Sweep(s.jobs, now)))
  {
    var s' := s.(jobs := Sweep(s.jobs, now));
    forall i | i in s'.jobs ensures JobSafe(s', i) {
      assert JobSafe(s, i);
      if s'.jobs[i].state.Running? {
        var g: nat :| g < |s.grants| && IsLast(s.grants, g, i) && Current(s, g);
        assert Current(s', g);
      }
    }
  }

  /** The second half of a claim: the selected row is handed to a new lease. */
  ghost function Take(s: Sys, i: JobId, now: Time, seconds: nat, token: Token): Sys
    requires i in s.jobs
  {
    Sys(s.jobs[i := Taken(s.jobs[i], now, seconds, token)],
        s.grants + [Grant(i, token, seconds, now, now + seconds * SECOND)], now)
  }

  lemma ClaimShape(s: Sys, e: Event) returns (swept: Sys, taken: Option<JobId>)
    requires e.ClaimJob? && Enabled(s, e)
    ensures swept == Sys(Sweep(s.jobs, e.now), s.grants, e.now)
    ensures taken.None? ==> Step(s, e) == swept
    ensures taken.Some? ==> taken.value in swept.jobs && Claimable(swept.jobs[taken.value], e.now)
                            && Step(s, e) == Take(swept, taken.value, e.now, e.seconds, e.token)
  {
    swept := Sys(Sweep(s.jobs, e.now), s.grants, e.now);
    taken := Claimed(s.jobs, e.now, e.seconds, e.token, e.locked).1;
  }

  lemma TakeSafe(s: Sys, i: JobId, now: Time, seconds: nat, token: Token)
    requires Safe(s) && i in s.jobs && Claimable(s.jobs[i], now)
    requires forall g :: 0 <= g < |s.grants| ==> s.grants[g].token != token
    ensures Safe(Take(s, i, now, seconds, token))
  {
    var s' := Take(s, i, now, seconds, token);
    assert s'.grants[..|s'.grants| - 1] == s.grants;
    forall j | j in s'.jobs ensures JobSafe(s', j) {
      assert JobSafe(s, j);
      if j == i {
        assert IsLast(s'.grants, |s.grants|, i) && Current(s', |s.grants|);
      } else if s.jobs[j].state.Running? {
        var g: nat :| g < |s.grants| && IsLast(s.grants, g, j) && Current(s, g);
        assert IsLast(s'.grants, g, j) && Current(s', g);
      }
    }
  }

  lemma ClaimSafe(s: Sys, e: Event)
    requires Safe(s) && e.ClaimJob? && Enabled(s, e)
    ensures Safe(Step(s, e))
  {
    SweepSafe(s, e.now);
    ClockSafe(s.(jobs := Sweep(s.jobs, e.now)), e.now);
    var swept, taken := ClaimShape(s, e);
    if taken.Some? {
      TakeSafe(swept, taken.value, e.now, e.seconds, e.token);
    }
  }

  /** A transaction through a lease: the row changes if the lease holds, and its grant ends at `end`. */
  ghost function Touch(s: Sys, g: nat, job: Job, end: Time, now: Time): Sys
    requires g < |s.grants|
  {
    Sys(s.jobs[s.grants[g].job := job], s.grants[g := s.grants[g].(end := end)], now)
  }

  lemma LeaseShape(s: Sys, e: Event) returns (job: Job, end: Time)
    requires (e.RenewLease? || e.FinishLease?) && Enabled(s, e)
    ensures var g := s.grants[e.grant];
      if Holds(s.jobs, LeaseOf(g), e.now) then
        && Step(s, e) == Touch(s, e.grant, job, end, e.now)
        && (e.RenewLease? ==> end == e.now + g.seconds * SECOND && job == s.jobs[g.job].(until := Some(end)))
        && (e.FinishLease? ==> end == e.now && job == Closed(s.jobs[g.job], e.now, e.error))
      else Step(s, e) == s.(clock := e.now)
  {
    var g := s.grants[e.grant];
    if Holds(s.jobs, LeaseOf(g), e.now) {
      end := if e.RenewLease? then e.now + g.seconds * SECOND else e.now;
      job := if e.RenewLease? then s.jobs[g.job].(until := Some(end)) else Closed(s.jobs[g.job], e.now, e.error);
    } else {
      end, job := *, *;
    }
  }

  lemma TouchSafe(s: Sys, g: nat, job: Job, end: Time, now: Time)
    requires Safe(s) && g < |s.grants| && Current(s, g)
    requires var row := s.jobs[s.grants[g].job];
             && job.key == row.key && job.attempts == row.attempts && job.maxAttempts == row.maxAttempts
             && (job.state.Running? ==> job.token == row.token)
             && (job.state.Running? <==> job.token.Some?) && (job.state.Running? <==> job.until.Some?)
             && (job.state.Pending? ==> job.attempts < job.maxAttempts)
    ensures Safe(Touch(s, g, job, end, now))
  {
    var s' := Touch(s, g, job, end, now);
    forall i | i in s'.jobs ensures JobSafe(s', i) {
      assert JobSafe(s, i);
      ClaimsSameJobs(s.grants, s'.grants, i);
      if s'.jobs[i].state.Running? {
        var last: nat :| last < |s.grants| && IsLast(s.grants, last, i) && Current(s, last);
        assert IsLast(s'.grants, last, i) && Current(s', last);
      }
    }
  }

  lemma ClockSafe(s: Sys, now: Time)
    requires Safe(s)
    ensures Safe(s.(clock := now))
  {
    var s' := s.(clock := now);
    forall i | i in s.jobs ensures JobSafe(s', i) {
      assert JobSafe(s, i);
      if s.jobs[i].state.Running? {
        var g: nat :| g < |s.grants| && IsLast(s.grants, g, i) && Current(s, g);
        assert Current(s', g);
      }
    }
  }

  lemma LeaseSafe(s: Sys, e: Event)
    requires Safe(s) && (e.RenewLease? || e.FinishLease?) && Enabled(s, e)
    ensures Safe(Step(s, e))
  {
    var job, end := LeaseShape(s, e);
    if Holds(s.jobs, LeaseOf(s.grants[e.grant]), e.now) {
      assert JobSafe(s, s.grants[e.grant].job);
      TouchSafe(s, e.grant, job, end, e.now);
    } else {
      ClockSafe(s, e.now);
    }
  }

  /** Any transaction, at any reading of the clock, keeps the queue safe. */
  lemma StepSafe(s: Sys, e: Event)
    requires Safe(s)
    ensures Safe(Step(s, e))
  {
    if Enabled(s, e) {
      match e
      case EnqueueJob(_, _, _) => EnqueueSafe(s, e);
      case ClaimJob(_, _, _, _) => ClaimSafe(s, e);
      case RenewLease(_, _) => LeaseSafe(s, e);
      case FinishLease(_, _, _) => LeaseSafe(s, e);
    }
  }

  lemma {:induction false} RunSafe(s: Sys, es: seq<Event>)
    requires Safe(s)
    ensures Safe(Run(s, es))
  {
    if es != [] {
      RunSafe(s, es[..|es| - 1]);
      StepSafe(Run(s, es[..|es| - 1]), es[|es| - 1]);
    }
  }

  /** In every reachable state a job is running exactly when one granted lease is current for it, and never two. */
  lemma RunningIffOneCurrentLease(es: seq<Event>, i: JobId)
    requires i in Run(Empty, es).jobs
    ensures var s := Run(Empty, es);
      && (s.jobs[i].state.Running? <==> exists g: nat :: g < |s.grants| && s.grants[g].job == i && Current(s, g))
      && (forall g: nat, h: nat :: g < h < |s.grants| && s.grants[g].job == i && s.grants[h].job == i ==>
            !Current(s, g) || !Current(s, h))
      && s.jobs[i].attempts == Claims(s.grants, i) <= s.jobs[i].maxAttempts
  {
    RunSafe(Empty, es);
    assert JobSafe(Run(Empty, es), i);
  }

  lemma SupersededStep(s: Sys, e: Event, g: nat)
    requires g < |s.grants| && s.grants[g].job in s.jobs && !Current(s, g)
    ensures g < |Step(s, e).grants| && Step(s, e).grants[g].job == s.grants[g].job
        && Step(s, e).grants[g].token == s.grants[g].token
    ensures s.grants[g].job in Step(s, e).jobs && !Current(Step(s, e), g)
  {
  }

  /** A lease that is no longer current never becomes current again: renewing or finishing through it changes
      nothing, ever. */
  lemma {:induction false} SupersededForEver(s: Sys, es: seq<Event>, g: nat, now: Time, error: Option<string>)
    requires g < |s.grants| && s.grants[g].job in s.jobs && !Current(s, g)
    ensures var t := Run(s, es);
      && g < |t.grants| && t.grants[g].job == s.grants[g].job && t.grants[g].job in t.jobs && !Current(t, g)
      && Renewed(t.jobs, LeaseOf(t.grants[g]), now) == t.jobs
      && Finished(t.jobs, LeaseOf(t.grants[g]), now, error) == t.jobs
  {
    if es != [] {
      SupersededForEver(s, es[..|es| - 1], g, now, error);
      SupersededStep(Run(s, es[..|es| - 1]), es[|es| - 1], g);
    }
  }

  /** Every later claim of the job, every completed finish and the exhaustion sweep supersede the lease. */
  lemma Supersedes(s: Sys, e: Event, g: nat)
    requires Safe(s) && Enabled(s, e) && g < |s.grants|
    requires (e.ClaimJob? && exists h ::
        |s.grants| <= h < |Step(s, e).grants| && Step(s, e).grants[h].job == s.grants[g].job)
          || (e.FinishLease? && s.grants[e.grant].job == s.grants[g].job
              && Holds(s.jobs, LeaseOf(s.grants[e.grant]), e.now))
          || (e.ClaimJob? && Exhausted(s.jobs[s.grants[g].job], e.now))
    ensures !Current(Step(s, e), g)
  {
    assert JobSafe(s, s.grants[g].job);
  }

  // ---- absorbing states and progress ----

  /** All a transaction can do to one row. */
  lemma JobStep(s: Sys, e: Event, i: JobId)
    requires Safe(s) && i in s.jobs
    ensures i in Step(s, e).jobs
    ensures var row, next := s.jobs[i], Step(s, e).jobs[i];
      || next == row
      || (e.ClaimJob? && row.state.Running? && next.state.Failed?)
      || (e.ClaimJob? && Claimable(row, e.now) && next == Taken(row, e.now, e.seconds, e.token))
      || (e.RenewLease? && row.state.Running? && next == row.(until := next.until))
      || (e.FinishLease? && row.state.Running? && next == Closed(row, e.now, e.error))
  {
    if Enabled(s, e) {
      if e.ClaimJob? {
        var swept, taken := ClaimShape(s, e);
      } else if !e.EnqueueJob? {
        var job, end := LeaseShape(s, e);
      }
    }
  }

  lemma {:induction false} TerminalForEver(s: Sys, es: seq<Event>, i: JobId)
    requires Safe(s) && i in s.jobs && (s.jobs[i].state.Done? || s.jobs[i].state.Failed?)
    ensures i in Run(s, es).jobs && Run(s, es).jobs[i] == s.jobs[i]
  {
    if es != [] {
      TerminalForEver(s, es[..|es| - 1], i);
      RunSafe(s, es[..|es| - 1]);
      JobStep(Run(s, es[..|es| - 1]), es[|es| - 1], i);
    }
  }

  /** Claims left, then the state: every transaction but a renewal that touches a job lowers it. */
  function Rank(job: Job): nat {
    match job.state
    case Pending => if job.attempts < job.maxAttempts then 2 * (job.maxAttempts - job.attempts) else 0
    case Running => if job.attempts < job.maxAttempts then 2 * (job.maxAttempts - job.attempts) + 1 else 1
    case _ => 0
  }

  ghost predicate Touches(s: Sys, e: Event, i: JobId) {
    !e.RenewLease? && i in s.jobs && i in Step(s, e).jobs && Step(s, e).jobs[i] != s.jobs[i]
  }

  ghost function Touched(s: Sys, es: seq<Event>, i: JobId): nat {
    if es == [] then 0
    else
      var before := Run(s, es[..|es| - 1]);
      Touched(s, es[..|es| - 1], i) + if Touches(before, es[|es| - 1], i) then 1 else 0
  }

  lemma RankDrops(s: Sys, e: Event, i: JobId)
    requires Safe(s) && i in s.jobs
    ensures i in Step(s, e).jobs
    ensures Touches(s, e, i) ==> Rank(Step(s, e).jobs[i]) < Rank(s.jobs[i])
    ensures Rank(Step(s, e).jobs[i]) <= Rank(s.jobs[i])
  {
    assert JobSafe(s, i);
    JobStep(s, e, i);
  }

  /** However the run interleaves, transactions other than renewals touch a job at most Rank times: ten for a fresh
      job. */
  lemma {:induction false} TouchesAreBounded(s: Sys, es: seq<Event>, i: JobId)
    requires Safe(s) && i in s.jobs
    ensures i in Run(s, es).jobs
    ensures Touched(s, es, i) + Rank(Run(s, es).jobs[i]) <= Rank(s.jobs[i])
    ensures s.jobs[i].state.Pending? ==> Rank(s.jobs[i]) <= 2 * s.jobs[i].maxAttempts
  {
    assert JobSafe(s, i);
    if es != [] {
      TouchesAreBounded(s, es[..|es| - 1], i);
      RunSafe(s, es[..|es| - 1]);
      RankDrops(Run(s, es[..|es| - 1]), es[|es| - 1], i);
    }
  }

  // ---- validity intervals, on one clock that never runs backwards ----

  ghost predicate JobTimed(s: Sys, i: JobId)
    requires i in s.jobs
  {
    var job := s.jobs[i];
    && (job.state.Pending? ==> forall g :: 0 <= g < |s.grants| && s.grants[g].job == i ==>
        s.grants[g].end <= job.nextRunAt)
    && (forall g: nat :: g < |s.grants| && s.grants[g].job == i && Current(s, g) ==>
          job.until == Some(s.grants[g].end) && s.grants[g].end <= s.clock + s.grants[g].seconds * SECOND)
  }

  ghost predicate Timed(s: Sys) {
    && (forall g :: 0 <= g < |s.grants| ==> s.grants[g].from <= s.grants[g].end && s.grants[g].from <= s.clock)
    && (forall g, h :: 0 <= g < h < |s.grants| && s.grants[g].job == s.grants[h].job ==>
        s.grants[g].end <= s.grants[h].from)
    && (forall i :: i in s.jobs ==> JobTimed(s, i))
  }

  ghost predicate Ordered(s: Sys, es: seq<Event>) {
    es == [] || (Ordered(s, es[..|es| - 1]) && es[|es| - 1].now >= Run(s, es[..|es| - 1]).clock)
  }

  lemma SweepTimed(s: Sys, now: Time)
    requires Safe(s) && Timed(s) && now >= s.clock
    ensures Timed(Sys(Sweep(s.jobs, now), s.grants, now))
  {
    var s' := Sys(Sweep(s.jobs, now), s.grants, now);
    forall i | i in s'.jobs ensures JobTimed(s', i) {
      assert JobSafe(s, i) && JobTimed(s, i);
      forall g: nat | g < |s.grants| && s.grants[g].job == i && Current(s', g) ensures Current(s, g) {
      }
    }
  }

  /** By the time a job can be claimed again every earlier lease on it has ended. */
  lemma EarlierLeasesEnded(s: Sys, i: JobId, now: Time, g: nat)
    requires Safe(s) && Timed(s) && now >= s.clock && i in s.jobs && Claimable(s.jobs[i], now)
    requires g < |s.grants| && s.grants[g].job == i
    ensures s.grants[g].end <= now
  {
    assert JobSafe(s, i) && JobTimed(s, i);
    if s.jobs[i].state.Running? {
      var last: nat :| last < |s.grants| && IsLast(s.grants, last, i) && Current(s, last);
      assert g <= last;
    }
  }

  lemma TakeTimed(s: Sys, i: JobId, now: Time, seconds: nat, token: Token)
    requires Safe(s) && Timed(s) && now == s.clock && i in s.jobs && Claimable(s.jobs[i], now)
    requires forall g :: 0 <= g < |s.grants| ==> s.grants[g].token != token
    ensures Timed(Take(s, i, now, seconds, token))
  {
    var s' := Take(s, i, now, seconds, token);
    forall g: nat | g < |s.grants| && s.grants[g].job == i ensures s.grants[g].end <= now {
      EarlierLeasesEnded(s, i, now, g);
    }
    forall j | j in s'.jobs ensures JobTimed(s', j) {
      assert JobTimed(s, j);
      TakeCurrent(s, i, now, seconds, token, j);
    }
  }

  /** The leases current after a claim: the new one on its job, the same ones elsewhere. */
  lemma TakeCurrent(s: Sys, i: JobId, now: Time, seconds: nat, token: Token, j: JobId)
    requires i in s.jobs && j in s.jobs && forall g :: 0 <= g < |s.grants| ==> s.grants[g].token != token
    ensures var s' := Take(s, i, now, seconds, token);
      forall g: nat :: g < |s'.grants| && s'.grants[g].job == j && Current(s', g) ==>
          if j == i then g == |s.grants| else g < |s.grants| && Current(s, g)
  {
  }

  /** The current lease is the latest one on its job. */
  lemma CurrentIsLatest(s: Sys, g: nat, h: nat)
    requires Safe(s) && g < |s.grants| && h < |s.grants| && Current(s, g)
    requires s.grants[h].job == s.grants[g].job
    ensures h <= g && (Current(s, h) ==> h == g)
  {
    assert JobSafe(s, s.grants[g].job);
  }

  lemma TouchTimed(s: Sys, g: nat, job: Job, end: Time, now: Time)
    requires Safe(s) && Timed(s) && g < |s.grants| && Current(s, g) && now >= s.clock && s.grants[g].from <= end
    requires job.token.Some? ==>
        job.token == Some(s.grants[g].token) && job.until == Some(end) && end <= now + s.grants[g].seconds * SECOND
    requires job.state.Pending? ==> end <= job.nextRunAt
    ensures Timed(Touch(s, g, job, end, now))
  {
    var i, s' := s.grants[g].job, Touch(s, g, job, end, now);
    forall h: nat | h < |s.grants| && s.grants[h].job == i
        ensures h <= g && (h < g ==> s.grants[h].end <= s.grants[g].from) {
      CurrentIsLatest(s, g, h);
    }
    forall j | j in s'.jobs ensures JobTimed(s', j) {
      assert JobTimed(s, j);
      forall h: nat | h < |s'.grants| && s'.grants[h].job == j && Current(s', h)
          ensures if j == i then h == g else Current(s, h) {
        if j == i {
          assert s.grants[h].token == s.grants[g].token;
        }
      }
    }
  }

  lemma IdleTimed(s: Sys, jobs: Table, now: Time)
    requires Safe(s) && Timed(s) && now >= s.clock
    requires forall i :: i in jobs ==>
        (i in s.jobs && jobs[i] == s.jobs[i]) || (i !in s.jobs && jobs[i].token.None? && jobs[i].state.Pending?)
    ensures Timed(Sys(jobs, s.grants, now))
  {
    var s' := Sys(jobs, s.grants, now);
    forall i | i in jobs ensures JobTimed(s', i) {
      if i in s.jobs {
        assert JobTimed(s, i);
        forall g: nat | g < |s.grants| && s.grants[g].job == i && Current(s', g) ensures Current(s, g) {
        }
      }
    }
  }

  lemma ClaimTimed(s: Sys, e: Event)
    requires Safe(s) && Timed(s) && e.now >= s.clock && e.ClaimJob? && Enabled(s, e)
    ensures Timed(Step(s, e))
  {
    SweepSafe(s, e.now);
    SweepTimed(s, e.now);
    var swept, taken := ClaimShape(s, e);
    if taken.Some? {
      ClockSafe(s.(jobs := swept.jobs), e.now);
      TakeTimed(swept, taken.value, e.now, e.seconds, e.token);
    }
  }

  lemma LeaseTimed(s: Sys, e: Event)
    requires Safe(s) && Timed(s) && e.now >= s.clock && (e.RenewLease? || e.FinishLease?) && Enabled(s, e)
    ensures Timed(Step(s, e))
  {
    var job, end := LeaseShape(s, e);
    if Holds(s.jobs, LeaseOf(s.grants[e.grant]), e.now) {
      assert JobSafe(s, s.grants[e.grant].job);
      TouchTimed(s, e.grant, job, end, e.now);
    } else {
      IdleTimed(s, s.jobs, e.now);
    }
  }

  lemma StepTimed(s: Sys, e: Event)
    requires Safe(s) && Timed(s) && e.now >= s.clock
    ensures Timed(Step(s, e))
  {
    if Enabled(s, e) {
      match e
      case EnqueueJob(now, id, job) => IdleTimed(s, Step(s, e).jobs, now);
      case ClaimJob(_, _, _, _) => ClaimTimed(s, e);
      case _ => LeaseTimed(s, e);
    }
  }

  lemma {:induction false} RunTimed(s: Sys, es: seq<Event>)
    requires Safe(s) && Timed(s) && Ordered(s, es)
    ensures Timed(Run(s, es))
  {
    if es != [] {
      RunTimed(s, es[..|es| - 1]);
      RunSafe(s, es[..|es| - 1]);
      StepTimed(Run(s, es[..|es| - 1]), es[|es| - 1]);
    }
  }

  /** Two leases on one job never overlap, and the earlier one ends before the later one starts. */
  lemma LeasesAreDisjoint(es: seq<Event>, g: nat, h: nat, t: Time)
    requires Ordered(Empty, es)
    requires var s := Run(Empty, es); g < h < |s.grants| && s.grants[g].job == s.grants[h].job
    ensures var s := Run(Empty, es);
      && s.grants[g].end <= s.grants[h].from
      && !(s.grants[g].from <= t < s.grants[g].end && s.grants[h].from <= t < s.grants[h].end)
  {
    RunTimed(Empty, es);
  }

  /** Superseded, or run out by the clock the database last read. */
  ghost predicate Dead(s: Sys, g: nat)
    requires g < |s.grants|
  {
    s.grants[g].job in s.jobs
        && (!Current(s, g) || (s.jobs[s.grants[g].job].until.Some? && s.jobs[s.grants[g].job].until.value <= s.clock))
  }

  lemma DeadStep(s: Sys, e: Event, g: nat)
    requires Safe(s) && g < |s.grants| && Dead(s, g) && e.now >= s.clock
    ensures g < |Step(s, e).grants| && Step(s, e).grants[g].job == s.grants[g].job
        && Step(s, e).grants[g].token == s.grants[g].token
    ensures Dead(Step(s, e), g)
  {
    if !Current(s, g) {
      SupersededStep(s, e, g);
    } else if Enabled(s, e) {
      assert JobSafe(s, s.grants[g].job);
      if e.ClaimJob? {
        var swept, taken := ClaimShape(s, e);
      } else if !e.EnqueueJob? {
        var job, end := LeaseShape(s, e);
      }
    }
  }

  /** A lease once expired or superseded stays useless at every later time. */
  lemma {:induction false} DeadForEver(s: Sys, es: seq<Event>, g: nat, now: Time, error: Option<string>)
    requires Safe(s) && g < |s.grants| && Dead(s, g) && Ordered(s, es) && now >= Run(s, es).clock
    ensures var t := Run(s, es);
      && g < |t.grants| && t.grants[g].job == s.grants[g].job && t.grants[g].token == s.grants[g].token && Dead(t, g)
      && Renewed(t.jobs, LeaseOf(t.grants[g]), now) == t.jobs
      && Finished(t.jobs, LeaseOf(t.grants[g]), now, error) == t.jobs
  {
    if es != [] {
      var t := Run(s, es[..|es| - 1]);
      DeadForEver(s, es[..|es| - 1], g, t.clock, error);
      RunSafe(s, es[..|es| - 1]);
      DeadStep(t, es[|es| - 1], g);
    }
  }

  /** While it holds, a renewal only moves the end of the lease later. */
  lemma RenewalExtends(s: Sys, e: Event)
    requires Safe(s) && Timed(s) && e.RenewLease? && Enabled(s, e) && e.now >= s.clock
    ensures Step(s, e).grants[e.grant].end >= s.grants[e.grant].end
  {
    assert JobTimed(s, s.grants[e.grant].job);
  }

  /** A failed attempt waits min(2^attempts, 60) seconds: no claim can take the job earlier, and only the claim limit
      or an unknown handler ends it. */
  lemma FailureBacksOff(s: Sys, e: Event, t: Time)
    requires Safe(s) && e.FinishLease? && Enabled(s, e) && e.error.Some?
    requires Holds(s.jobs, LeaseOf(s.grants[e.grant]), e.now)
    ensures var i := s.grants[e.grant].job; var before := s.jobs[i]; var after := Step(s, e).jobs[i];
      && (after.state.Failed? <==> before.attempts == before.maxAttempts || e.error.value == "UNKNOWN_HANDLER")
      && (after.state.Pending? <==> !after.state.Failed?)
      && (after.state.Pending? ==> (Claimable(after, t) <==> t >= e.now + Delay(before.attempts) * SECOND))
  {
    assert JobSafe(s, s.grants[e.grant].job);
  }
}
