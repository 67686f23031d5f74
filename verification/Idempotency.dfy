/** The replay cache for idempotent commands, and how it composes with If-Match (infrastructure/idempotency.py). */
module Idempotency {
  import opened Common
  import Http

  /** Seconds since the epoch. */
  type Time = int

  datatype Scope = Scope(actor: nat, verb: string, path: string, key: string)

  datatype Response = Response(status: nat, body: string, headers: map<string, string>)

  datatype Record = Record(fingerprint: string, response: Option<Response>, expires: Time)

  /** A command either commits a new world with its response, or raises and changes nothing. */
  datatype Outcome<+W> = Applied(world: W, response: Response) | Raised(error: AppError)

  datatype Store<+W> = Store(world: W, records: map<Scope, Record>)

  const WINDOW: int := 24 * 3600

  predicate ValidKey(key: string) {
    16 <= |key| <= 128 && forall i :: 0 <= i < |key| ==> '!' <= key[i] <= '~'
  }

  function Lower(s: string): string {
    seq(|s|, i requires 0 <= i < |s| => if 'A' <= s[i] <= 'Z' then s[i] + 32 as char else s[i])
  }

  function Allowed(headers: map<string, string>): map<string, string> {
    map k | k in headers && Lower(k) in {"etag", "location"} :: headers[k]
  }

  function Stored(r: Response): Response { r.(headers := Allowed(r.headers)) }

  /** `execute_once` inside its caller's transaction; a raised error rolls everything back. */
  function ExecuteOnce<W>(st: Store<W>, scope: Scope, fingerprint: string, authorize: W -> Check,
                          command: W -> Outcome<W>, now: Time)
    : (Store<W>, Result<Response>)
  {
    if authorize(st.world).Fail? then (st, Err(authorize(st.world).error))
    else if !ValidKey(scope.key) then (st, Err(AppError(400, "INVALID_IDEMPOTENCY_KEY")))
    else
      var record := if scope in st.records then st.records[scope] else Record(fingerprint, None, now + WINDOW);
      if record.fingerprint != fingerprint then (st, Err(Conflict("IDEMPOTENCY_CONFLICT")))
      else if record.response.Some? then (st, Ok(record.response.value))
      else
        var outcome := command(st.world);
        if outcome.Raised? then (st, Err(outcome.error))
        else if !(200 <= outcome.response.status < 300) then (st, Err(AppError(500, "VALUE_ERROR")))
        else
          var response := Stored(outcome.response);
          (Store(outcome.world, st.records[scope := record.(response := Some(response))]), Ok(response))
  }

  function PurgeExpired<W>(st: Store<W>, now: Time): Store<W> {
    st.(records := map k | k in st.records && st.records[k].expires > now :: st.records[k])
  }

  datatype Event<!W> =
    | Request(scope: Scope, fingerprint: string, authorize: W -> Check, command: W -> Outcome<W>, now: Time)
    | Purge(now: Time)

  function Step<W>(st: Store<W>, e: Event<W>): Store<W> {
    match e
    case Request(scope, fingerprint, authorize, command, now) =>
        ExecuteOnce(st, scope, fingerprint, authorize, command, now).0
    case Purge(now) => PurgeExpired(st, now)
  }

  function Run<W>(st: Store<W>, es: seq<Event<W>>): Store<W> {
    if es == [] then st else Step(Run(st, es[..|es| - 1]), es[|es| - 1])
  }

  /** The response a request event delivers, if it succeeds. */
  function Delivered<W>(st: Store<W>, e: Event<W>): Result<Response>
    requires e.Request?
  {
    ExecuteOnce(st, e.scope, e.fingerprint, e.authorize, e.command, e.now).1
  }

  /** The request runs its command to success instead of being answered from the cache. */
  predicate Applies<W>(st: Store<W>, e: Event<W>) {
    e.Request? && Delivered(st, e).Ok? && (e.scope in st.records ==> st.records[e.scope].response.None?)
  }

  predicate Complete<W>(st: Store<W>) {
    forall k :: k in st.records ==> st.records[k].response.Some?
  }

  lemma {:induction false} RunComplete<W>(st: Store<W>, es: seq<Event<W>>)
    requires Complete(st)
    ensures Complete(Run(st, es))
  {
    if es != [] {
      RunComplete(st, es[..|es| - 1]);
    }
  }

  // ---- between purges of a scope ----

  /** Exactly when a request is answered, from what, and when it conflicts: authorization comes first, for replays
      too. */
  lemma AnswerExact<W>(st: Store<W>, scope: Scope, fingerprint: string, authorize: W -> Check,
                       command: W -> Outcome<W>, now: Time)
    requires Complete(st)
    ensures var r := ExecuteOnce(st, scope, fingerprint, authorize, command, now).1;
            var admitted := authorize(st.world).Pass? && ValidKey(scope.key);
      && (r.Ok? <==> (admitted && if scope in st.records then st.records[scope].fingerprint == fingerprint
                                  else command(st.world).Applied? && 200 <= command(st.world).response.status < 300))
      && (admitted && scope in st.records && st.records[scope].fingerprint != fingerprint ==>
          r == Err(Conflict("IDEMPOTENCY_CONFLICT")))
      && (admitted && scope in st.records && st.records[scope].fingerprint == fingerprint ==>
          st.records[scope].response == Some(r.value))
      && (r.Ok? && scope !in st.records ==>
            && r.value.status == command(st.world).response.status && r.value.body == command(st.world).response.body
            && forall h :: h in r.value.headers ==> Lower(h) in {"etag", "location"})
  {
  }

  /** No purge in the run removes the scope's record. */
  ghost predicate Unpurged<W>(st: Store<W>, es: seq<Event<W>>, scope: Scope) {
    es == []
    || (Unpurged(st, es[..|es| - 1], scope)
        && (scope in Run(st, es[..|es| - 1]).records ==> scope in Run(st, es).records))
  }

  function Applications<W>(st: Store<W>, es: seq<Event<W>>, scope: Scope): nat {
    if es == [] then 0
    else
      var e := es[|es| - 1];
      Applications(st, es[..|es| - 1], scope) + if Applies(Run(st, es[..|es| - 1]), e) && e.scope == scope then 1 else 0
  }

  /** Every success delivered for the scope, in order, with the fingerprint it was asked under. */
  function Successes<W>(st: Store<W>, es: seq<Event<W>>, scope: Scope): seq<(string, Response)> {
    if es == [] then []
    else
      var before, e := Run(st, es[..|es| - 1]), es[|es| - 1];
      Successes(st, es[..|es| - 1], scope)
      + if e.Request? && e.scope == scope && Delivered(before, e).Ok? then [(e.fingerprint, Delivered(before, e).value)]
          else []
  }

  lemma StepRecord<W>(st: Store<W>, e: Event<W>, scope: Scope)
    requires Complete(st) && (scope in st.records ==> scope in Step(st, e).records)
    ensures scope in st.records ==> Step(st, e).records[scope] == st.records[scope]
    ensures e.Request? && e.scope == scope && Delivered(st, e).Ok? ==>
              scope in Step(st, e).records && Step(st, e).records[scope].response == Some(Delivered(st, e).value)
              && Step(st, e).records[scope].fingerprint == e.fingerprint
    ensures Applies(st, e) && e.scope == scope ==> Step(st, e).records[scope].expires == e.now + WINDOW
    ensures Applies(st, e) && e.scope == scope <==> scope in Step(st, e).records && scope !in st.records
  {
  }

  /** Between purges the effect happens once at most, and every success for the scope carries that one's fingerprint
      and response. */
  lemma {:induction false} ReplaysAgree<W>(st: Store<W>, es: seq<Event<W>>, scope: Scope)
    requires Complete(st) && Unpurged(st, es, scope)
    ensures var end := Run(st, es);
      && Applications(st, es, scope) == (if scope in end.records && scope !in st.records then 1 else 0)
      && (forall d :: d in Successes(st, es, scope) ==>
            scope in end.records && end.records[scope].fingerprint == d.0 && end.records[scope].response == Some(d.1))
      && (scope in st.records ==> scope in end.records && end.records[scope] == st.records[scope])
  {
    RunComplete(st, es);
    if es != [] {
      var init, e := es[..|es| - 1], es[|es| - 1];
      ReplaysAgree(st, init, scope);
      RunComplete(st, init);
      StepRecord(Run(st, init), e, scope);
      forall d | d in Successes(st, es, scope)
        ensures d in Successes(st, init, scope)
                || (e.Request? && e.scope == scope && e.fingerprint == d.0 && Delivered(Run(st, init), e) == Ok(d.1))
      {
      }
    }
  }

  /** A record survives every sweep made before it expires, a day after the command was applied. */
  lemma {:induction false} KeptUntilExpiry<W>(st: Store<W>, es: seq<Event<W>>, scope: Scope)
    requires Complete(st) && scope in st.records
    requires forall i :: 0 <= i < |es| && es[i].Purge? ==> es[i].now < st.records[scope].expires
    ensures Unpurged(st, es, scope) && scope in Run(st, es).records && Run(st, es).records[scope] == st.records[scope]
  {
    if es != [] {
      KeptUntilExpiry(st, es[..|es| - 1], scope);
      RunComplete(st, es[..|es| - 1]);
      StepRecord(Run(st, es[..|es| - 1]), es[|es| - 1], scope);
    }
  }

  /** Answering from the cache changes nothing, and a failed request leaves no trace: only applied commands move the
      world. */
  lemma OnlyApplicationsChange<W>(st: Store<W>, e: Event<W>)
    requires e.Request? && !Applies(st, e)
    ensures Step(st, e) == st
  {
  }

  // ---- across purges: commands guarded by If-Match ----

  /** A command that applies only at version v of the resource, and leaves a later version. */
  ghost predicate Guarded<W(!new)>(command: W -> Outcome<W>, version: W -> nat, v: nat) {
    forall w :: command(w).Applied? ==> version(w) == v < version(command(w).world)
  }

  ghost predicate NeverLowers<W(!new)>(command: W -> Outcome<W>, version: W -> nat) {
    forall w :: command(w).Applied? ==> version(w) <= version(command(w).world)
  }

  /** The command as the routes build it: the version check first, then the change. */
  function WithIfMatch<W>(ifMatch: Option<string>, version: W -> nat, change: W -> Outcome<W>): W -> Outcome<W> {
    w => var check := Http.RequireVersion(ifMatch, version(w));
      if check.Fail? then Raised(check.error) else change(w)
  }

  lemma IfMatchGuards<W(!new)>(ifMatch: Option<string>, version: W -> nat, change: W -> Outcome<W>) returns (v: nat)
    requires forall w :: change(w).Applied? ==> version(w) < version(change(w).world)
    ensures Guarded(WithIfMatch(ifMatch, version, change), version, v)
    ensures Http.Version(v) ==> ifMatch == Some(Http.ETag(v))
  {
    if n: nat :| Http.Version(n) && ifMatch == Some(Http.ETag(n)) {
      v := n;
      forall w ensures Http.RequireVersion(ifMatch, version(w)).Pass? ==> version(w) == v {
        Http.RequireVersionExact(ifMatch, version(w));
        if Http.RequireVersion(ifMatch, version(w)).Pass? {
          Http.ETagInjective(version(w), v);
        }
      }
    } else {
      v := 0;
      forall w ensures Http.RequireVersion(ifMatch, version(w)).Fail? {
        Http.RequireVersionExact(ifMatch, version(w));
      }
    }
  }

  /** Every command of the run keeps the resource's version from going back. */
  ghost predicate Monotone<W(!new)>(es: seq<Event<W>>, version: W -> nat) {
    forall i :: 0 <= i < |es| && es[i].Request? ==> NeverLowers(es[i].command, version)
  }

  ghost function GuardedApplications<W(!new)>(st: Store<W>, es: seq<Event<W>>, version: W -> nat, v: nat): nat {
    if es == [] then 0
    else
      var before, e := Run(st, es[..|es| - 1]), es[|es| - 1];
      GuardedApplications(st, es[..|es| - 1], version, v)
      + if e.Request? && Guarded(e.command, version, v) && Applies(before, e) then 1 else 0
  }

  /** Whatever is retried, failed or purged, under any key or scope: at most one command guarded by version v ever
      takes effect. */
  lemma {:induction false} GuardedOnceForEver<W(!new)>(st: Store<W>, es: seq<Event<W>>, version: W -> nat, v: nat)
    requires Monotone(es, version)
    ensures GuardedApplications(st, es, version, v) <= 1
    ensures GuardedApplications(st, es, version, v) == 1 ==> version(Run(st, es).world) > v
    ensures version(Run(st, es).world) >= version(st.world)
  {
    if es != [] {
      var init, e := es[..|es| - 1], es[|es| - 1];
      assert Monotone(init, version) by {
        forall i | 0 <= i < |init| && init[i].Request? ensures NeverLowers(init[i].command, version) {
          assert init[i] == es[i];
        }
      }
      GuardedOnceForEver(st, init, version, v);
      var before := Run(st, init);
      if e.Request? && Applies(before, e) {
        assert NeverLowers(e.command, version);
        assert e.command(before.world).Applied?;
      } else if e.Request? {
        OnlyApplicationsChange(before, e);
      }
    }
  }

  class ReplayCache<W> {
    var world: W
    var records: map<Scope, Record>

    ghost function View(): Store<W>
      reads this
    {
      Store(world, records)
    }

    constructor (initial: W)
      ensures View() == Store(initial, map[])
    {
      world, records := initial, map[];
    }

    method Execute(scope: Scope, fingerprint: string, authorize: W -> Check, command: W -> Outcome<W>, now: Time)
      returns (r: Result<Response>)
      modifies this
      ensures (View(), r) == ExecuteOnce(old(View()), scope, fingerprint, authorize, command, now)
    {
      var allowed := authorize(world);
      if allowed.Fail? {
        return Err(allowed.error);
      }
      if !ValidKey(scope.key) {
        return Err(AppError(400, "INVALID_IDEMPOTENCY_KEY"));
      }
      var record := Record(fingerprint, None, now + WINDOW);
      if scope in records {
        record := records[scope];
      }
      if record.fingerprint != fingerprint {
        return Err(Conflict("IDEMPOTENCY_CONFLICT"));
      }
      if record.response.Some? {
        return Ok(record.response.value);
      }
      var outcome := command(world);
      if outcome.Raised? {
        return Err(outcome.error);
      }
      if outcome.response.status < 200 || outcome.response.status >= 300 {
        return Err(AppError(500, "VALUE_ERROR"));
      }
      var response := outcome.response.(headers := Allowed(outcome.response.headers));
      records := records[scope := record.(response := Some(response))];
      world := outcome.world;
      return Ok(response);
    }

    method Purge(now: Time) returns (removed: nat)
      modifies this`records
      ensures View() == PurgeExpired(old(View()), now) && removed == |old(records)| - |records|
    {
      var expired := set k | k in records && records[k].expires <= now;
      removed := |expired|;
      assert (records - expired).Keys == records.Keys - expired;
      records := records - expired;
    }
  }
}
