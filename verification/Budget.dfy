/** The fixed-window attempt limiter (modules/identity/service.py, take_budget). */
module Budget {
  import opened Common

  type Time = int

  datatype Limit = Limit(start: Time, attempts: nat)

  function RateLimited(): AppError { AppError(429, "AUTH_RATE_LIMITED") }

  /** The row after `now` opened a new window if the stored one is over. */
  function Opened(row: Option<Limit>, window: nat, now: Time): Limit {
    var stored := if row.Some? then row.value else Limit(now, 0);
    if now - stored.start >= window then Limit(now, 0) else stored
  }

  function Take(row: Option<Limit>, maximum: nat, window: nat, now: Time): (Limit, Check) {
    var open := Opened(row, window, now);
    if open.attempts >= maximum then (open, Fail(RateLimited())) else (Limit(open.start, open.attempts + 1), Pass)
  }

  class Limiter {
    var limits: map<string, Limit>

    constructor ()
      ensures limits == map[]
    {
      limits := map[];
    }

    /** The refusal is returned to a caller that commits, so the stored row is the limiter's whole memory. */
    method TakeBudget(key: string, maximum: nat, window: nat, now: Time) returns (r: Check)
      modifies this
      ensures var row := if key in old(limits) then Some(old(limits)[key]) else None;
              limits == old(limits)[key := Take(row, maximum, window, now).0] && r == Take(row, maximum, window, now).1
    {
      if key !in limits {
        limits := limits[key := Limit(now, 0)];
      }
      var record := limits[key];
      if now - record.start >= window {
        record := Limit(now, 0);
      }
      limits := limits[key := record];
      if record.attempts >= maximum {
        return Fail(RateLimited());
      }
      limits := limits[key := record.(attempts := record.attempts + 1)];
      return Pass;
    }
  }

  // ---- runs of one key on a clock that never runs backwards ----

  datatype Trace = Trace(row: Option<Limit>, accepted: seq<Time>)

  predicate Ascending(times: seq<Time>) {
    forall i, j :: 0 <= i < j < |times| ==> times[i] <= times[j]
  }

  function Run(maximum: nat, window: nat, times: seq<Time>): Trace {
    if times == [] then Trace(None, [])
    else
      var before, now := Run(maximum, window, times[..|times| - 1]), times[|times| - 1];
      var (row, r) := Take(before.row, maximum, window, now);
      Trace(Some(row), if r.Pass? then before.accepted + [now] else before.accepted)
  }

  /** Among any 2 * maximum consecutive acceptances the last is a whole window after the first. */
  ghost predicate Spread(accepted: seq<Time>, maximum: nat, window: nat) {
    forall i, j :: 0 <= i < j < |accepted| && j - i >= 2 * maximum - 1 ==> accepted[j] - accepted[i] >= window
  }

  /** The open window starts with its first acceptance; acceptances `maximum` or more before that lie a window
      earlier. */
  ghost predicate WindowOk(accepted: seq<Time>, row: Limit, maximum: nat, window: nat) {
    var k := |accepted| - row.attempts;
    && 1 <= row.attempts <= maximum && 0 <= k
    && accepted[k] == row.start
    && forall i :: 0 <= i < |accepted| && i + maximum <= k ==> accepted[i] <= row.start - window
  }

  ghost predicate Inv(t: Trace, maximum: nat, window: nat, clock: Time) {
    && Ascending(t.accepted) && Spread(t.accepted, maximum, window)
    && (forall i :: 0 <= i < |t.accepted| ==> t.accepted[i] <= clock)
    && (if t.row.None? then t.accepted == [] else WindowOk(t.accepted, t.row.value, maximum, window))
  }

  function Next(t: Trace, maximum: nat, window: nat, now: Time): Trace {
    var (row, r) := Take(t.row, maximum, window, now);
    Trace(Some(row), if r.Pass? then t.accepted + [now] else t.accepted)
  }

  /** Where the open window starts among the acceptances, and what that says of the earlier ones. */
  lemma TakeWindow(t: Trace, maximum: nat, window: nat, clock: Time, now: Time)
    requires Inv(t, maximum, window, clock) && clock <= now && maximum >= 1
    ensures var after := Next(t, maximum, window, now); WindowOk(after.accepted, after.row.value, maximum, window)
  {
    if t.row.Some? {
      var k := |t.accepted| - t.row.value.attempts;
      assert t.accepted[k] == t.row.value.start;
      forall i | 0 <= i < k ensures t.accepted[i] <= t.row.value.start {
        assert t.accepted[i] <= t.accepted[k];
      }
    }
  }

  lemma TakeSpread(t: Trace, maximum: nat, window: nat, clock: Time, now: Time)
    requires Inv(t, maximum, window, clock) && clock <= now && maximum >= 1
    ensures Spread(Next(t, maximum, window, now).accepted, maximum, window)
  {
    var n, after := |t.accepted|, Next(t, maximum, window, now);
    TakeWindow(t, maximum, window, clock, now);
    if after.accepted != t.accepted {
      forall i | 0 <= i < n && n - i >= 2 * maximum - 1 ensures now - t.accepted[i] >= window {
        assert after.accepted[i] == t.accepted[i];
      }
    }
  }

  lemma TakeInv(t: Trace, maximum: nat, window: nat, clock: Time, now: Time)
    requires Inv(t, maximum, window, clock) && clock <= now && maximum >= 1
    ensures Inv(Next(t, maximum, window, now), maximum, window, now)
  {
    TakeWindow(t, maximum, window, clock, now);
    TakeSpread(t, maximum, window, clock, now);
  }

  lemma {:induction false} RunInv(maximum: nat, window: nat, times: seq<Time>, clock: Time)
    requires maximum >= 1 && Ascending(times) && forall i :: 0 <= i < |times| ==> times[i] <= clock
    ensures Inv(Run(maximum, window, times), maximum, window, clock)
  {
    if times != [] {
      var init, now := times[..|times| - 1], times[|times| - 1];
      RunInv(maximum, window, init, now);
      TakeInv(Run(maximum, window, init), maximum, window, now, now);
    }
  }

  function CountIn(times: seq<Time>, from: Time, to: Time): nat {
    if times == [] then 0
    else CountIn(times[..|times| - 1], from, to) + if from <= times[|times| - 1] < to then 1 else 0
  }

  /** More than m hits in an interval put two hits at least m places apart inside it. */
  lemma {:induction false} FarApart(times: seq<Time>, from: Time, to: Time, m: nat) returns (i: nat, j: nat)
    requires Ascending(times) && CountIn(times, from, to) > m
    ensures i <= j < |times| && j - i >= m && from <= times[i] && times[j] < to && from <= times[j]
  {
    var init, last := times[..|times| - 1], times[|times| - 1];
    if from <= last < to && CountIn(init, from, to) <= m {
      j := |times| - 1;
      i := FirstHit(times, from, to);
    } else {
      i, j := FarApart(init, from, to, m);
    }
  }

  lemma {:induction false} FirstHit(times: seq<Time>, from: Time, to: Time) returns (i: nat)
    requires Ascending(times) && CountIn(times, from, to) >= 1
    ensures i < |times| && from <= times[i] < to && i + CountIn(times, from, to) <= |times|
  {
    var init := times[..|times| - 1];
    if CountIn(init, from, to) >= 1 {
      i := FirstHit(init, from, to);
    } else {
      i := |times| - 1;
    }
  }

  /** Any half-open interval of the window's length holds at most 2 * maximum - 1 acceptances. */
  lemma AtMostTwiceLessOne(maximum: nat, window: nat, times: seq<Time>, from: Time)
    requires maximum >= 1 && Ascending(times)
    ensures CountIn(Run(maximum, window, times).accepted, from, from + window) <= 2 * maximum - 1
  {
    var accepted := Run(maximum, window, times).accepted;
    RunInv(maximum, window, times, if times == [] then 0 else times[|times| - 1]);
    if CountIn(accepted, from, from + window) > 2 * maximum - 1 {
      var i, j := FarApart(accepted, from, from + window, 2 * maximum - 1);
    }
  }

  /** A maximum of one is a true cooldown: consecutive acceptances are a window apart. */
  lemma CooldownIsExact(window: nat, times: seq<Time>, i: nat)
    requires Ascending(times) && i + 1 < |Run(1, window, times).accepted|
    ensures Run(1, window, times).accepted[i + 1] >= Run(1, window, times).accepted[i] + window
  {
    RunInv(1, window, times, times[|times| - 1]);
  }

  lemma {:induction false} TailCount(times: seq<Time>, from: Time, to: Time, k: nat)
    requires k <= |times| && forall i :: k <= i < |times| ==> from <= times[i] < to
    ensures CountIn(times, from, to) >= |times| - k
  {
    if k < |times| {
      TailCount(times[..|times| - 1], from, to, k);
    }
  }

  /** A refused attempt finds the stored window still open and full. */
  lemma RefusedWindow(t: Trace, maximum: nat, window: nat, now: Time)
    requires maximum >= 1 && Inv(t, maximum, window, now) && Take(t.row, maximum, window, now).1.Fail?
    ensures t.row.Some? && t.row.value.attempts == maximum && now - t.row.value.start < window
  {
  }

  lemma OpenWindowCount(accepted: seq<Time>, row: Limit, maximum: nat, window: nat, now: Time)
    requires Ascending(accepted) && WindowOk(accepted, row, maximum, window) && now - row.start < window
    requires forall i :: 0 <= i < |accepted| ==> accepted[i] <= now
    ensures CountIn(accepted, now - window + 1, now + 1) >= row.attempts
  {
    var k := |accepted| - row.attempts;
    forall i | k <= i < |accepted| ensures now - window + 1 <= accepted[i] < now + 1 {
      assert accepted[k] <= accepted[i];
    }
    TailCount(accepted, now - window + 1, now + 1, k);
  }

  /** A refusal happens only when the window before it, now included, already holds `maximum` acceptances. */
  lemma RefusalIsEarned(maximum: nat, window: nat, times: seq<Time>, now: Time)
    requires maximum >= 1 && Ascending(times) && forall i :: 0 <= i < |times| ==> times[i] <= now
    requires Take(Run(maximum, window, times).row, maximum, window, now).1.Fail?
    ensures CountIn(Run(maximum, window, times).accepted, now - window + 1, now + 1) >= maximum
  {
    var t := Run(maximum, window, times);
    RunInv(maximum, window, times, now);
    RefusedWindow(t, maximum, window, now);
    OpenWindowCount(t.accepted, t.row.value, maximum, window, now);
  }

  // ---- the bound is reached ----

  lemma RunStep(maximum: nat, window: nat, times: seq<Time>, now: Time)
    ensures Run(maximum, window, times + [now]) == Next(Run(maximum, window, times), maximum, window, now)
  {
    assert (times + [now])[..|times|] == times;
  }

  function Burst(t: Trace, now: Time, n: nat): Trace
    requires t.row.Some?
  {
    Trace(Some(Limit(t.row.value.start, t.row.value.attempts + n)), t.accepted + Repeat(now, n))
  }

  lemma BurstStep(t: Trace, maximum: nat, window: nat, now: Time, n: nat)
    requires t.row.Some? && now - t.row.value.start < window && t.row.value.attempts + n < maximum
    ensures Next(Burst(t, now, n), maximum, window, now) == Burst(t, now, n + 1)
  {
    assert t.accepted + Repeat(now, n) + [now] == t.accepted + Repeat(now, n + 1);
  }

  /** n attempts at one moment, all within the open window's allowance, are all accepted. */
  lemma {:induction false} BurstAccepted(maximum: nat, window: nat, times: seq<Time>, now: Time, n: nat)
    requires var row := Run(maximum, window, times).row;
             row.Some? && now - row.value.start < window && row.value.attempts + n <= maximum
    ensures Run(maximum, window, times + Repeat(now, n)) == Burst(Run(maximum, window, times), now, n)
  {
    if n == 0 {
      assert times + Repeat(now, 0) == times;
      assert Run(maximum, window, times).accepted + Repeat(now, 0) == Run(maximum, window, times).accepted;
    } else {
      var most := times + Repeat(now, n - 1);
      BurstAccepted(maximum, window, times, now, n - 1);
      BurstStep(Run(maximum, window, times), maximum, window, now, n - 1);
      assert Run(maximum, window, times + Repeat(now, n)) == Next(Run(maximum, window, most), maximum, window, now) by {
        RunStep(maximum, window, most, now);
        Glue(times, Repeat(now, n - 1), now);
      }
    }
  }

  lemma Glue(a: seq<Time>, b: seq<Time>, now: Time)
    ensures a + (b + [now]) == a + b + [now]
  {
  }

  function Repeat(t: Time, n: nat): (r: seq<Time>)
    ensures |r| == n && forall i :: 0 <= i < n ==> r[i] == t
  {
    if n == 0 then [] else Repeat(t, n - 1) + [t]
  }

  /** One attempt, maximum - 1 more as its window ends, and maximum as the next one opens. */
  function Tight(maximum: nat, window: nat): (times: seq<Time>)
    requires maximum >= 1 && window >= 2
    ensures |times| == 2 * maximum && times[0] == 0
    ensures Ascending(times) && forall i :: 1 <= i < |times| ==> 1 <= times[i] < 1 + window
  {
    [0] + Repeat(window - 1, maximum - 1) + [window] + Repeat(window, maximum - 1)
  }

  lemma FirstAccepted(maximum: nat, window: nat)
    requires maximum >= 1 && window >= 1
    ensures Run(maximum, window, [0]) == Trace(Some(Limit(0, 1)), [0])
  {
    RunStep(maximum, window, [], 0);
    assert [] + [0] == [0];
  }

  /** The first window ends full. */
  lemma FullWindow(maximum: nat, window: nat)
    requires maximum >= 1 && window >= 2
    ensures var late := [0] + Repeat(window - 1, maximum - 1);
            Run(maximum, window, late) == Trace(Some(Limit(0, maximum)), late)
  {
    FirstAccepted(maximum, window);
    BurstAccepted(maximum, window, [0], window - 1, maximum - 1);
  }

  lemma NextWindow(maximum: nat, window: nat, late: seq<Time>)
    requires maximum >= 1 && window >= 2
    requires Run(maximum, window, late) == Trace(Some(Limit(0, maximum)), late)
    ensures var times := late + [window] + Repeat(window, maximum - 1); Run(maximum, window, times).accepted == times
  {
    RunStep(maximum, window, late, window);
    BurstAccepted(maximum, window, late + [window], window, maximum - 1);
  }

  lemma TightAccepted(maximum: nat, window: nat)
    requires maximum >= 1 && window >= 2
    ensures Run(maximum, window, Tight(maximum, window)).accepted == Tight(maximum, window)
  {
    FullWindow(maximum, window);
    NextWindow(maximum, window, [0] + Repeat(window - 1, maximum - 1));
  }

  lemma BoundIsReached(maximum: nat, window: nat)
    requires maximum >= 1 && window >= 2
    ensures var times := Tight(maximum, window);
            Ascending(times) && CountIn(Run(maximum, window, times).accepted, 1, 1 + window) == 2 * maximum - 1
  {
    TightAccepted(maximum, window);
    TailCount(Tight(maximum, window), 1, 1 + window, 1);
    AtMostTwiceLessOne(maximum, window, Tight(maximum, window), 1);
  }
}
