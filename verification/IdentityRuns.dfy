/** What every run of the identity and case administration routes keeps. */
module IdentityRuns {
  import opened Common
  import opened Identity
  import Http

  datatype Event =
    | Registered(now: Time, previous: Token, user: UserId, token: Token)
    | Reset(now: Time, user: UserId)
    | LoggedIn(now: Time, previous: Token, user: UserId, token: Token)
    | Anonymous(now: Time, token: Token)
    | Touched(now: Time, token: Token)
    | LoggedOut(now: Time, actor: Actor, token: Token)
    | Submitted(now: Time, actor: Actor, ifMatch: Option<string>)
    | Reviewed(now: Time, actor: Actor, user: UserId, decision: Decision, ifMatch: Option<string>)
    | StatusSet(now: Time, actor: Actor, user: UserId, active: bool, ifMatch: Option<string>)
    | Assigned(now: Time, actor: Actor, c: CaseId, counselor: UserId, grant: bool, ifMatch: Option<string>)
    | Operated(now: Time, user: UserId, desired: bool)
    /** Cases are opened, matched and closed elsewhere; a case's learner never changes. */
    | CaseOpened(now: Time, c: CaseId, learner: UserId)
    | CaseMoved(now: Time, c: CaseId, lifecycle: Lifecycle)

  datatype Sys = Sys(state: State, clock: Time)

  const Empty: Sys := Sys(State(map[], map[], map[], map[], map[], map[]), 0)

  ghost predicate Fresh(s: State, e: Event) {
    match e
    case Registered(_, _, user, token) => user !in s.users && user !in s.certs && token !in s.sessions
    case LoggedIn(_, _, _, token) => token !in s.sessions
    case Anonymous(_, token) => token !in s.sessions
    case CaseOpened(_, c, _) => c !in s.cases && forall k :: k in s.grants ==> k.0 != c
    case _ => true
  }

  function Execute(s: State, e: Event): Result<State> {
    match e
    case Registered(now, previous, user, token) => Register(s, previous, user, token, now)
    case Reset(_, user) => ResetPassword(s, user)
    case LoggedIn(now, previous, user, token) => Login(s, previous, user, token, now)
    case Anonymous(now, token) => Ok(AnonymousSession(s, token, now))
    case Touched(now, token) => Touch(s, token, now)
    case LoggedOut(now, a, token) => Logout(s, a, token, now)
    case Submitted(_, a, ifMatch) => SubmitCertification(s, a, ifMatch)
    case Reviewed(_, a, user, d, ifMatch) => ReviewRoute(s, a, user, d, ifMatch)
    case StatusSet(_, a, user, active, ifMatch) => StatusRoute(s, a, user, active, ifMatch)
    case Assigned(_, a, c, counselor, grant, ifMatch) => Assign(s, a, c, counselor, grant, ifMatch)
    case Operated(_, user, desired) => OperatorGrant(s, user, desired)
    case CaseOpened(_, c, learner) => Ok(s.(cases := s.cases[c := Case(learner, PendingMatch, 1)]))
    case CaseMoved(_, c, lifecycle) =>
      if c !in s.cases then Err(NotFound())
      else
        var row := s.cases[c].(lifecycle := lifecycle, version := s.cases[c].version + 1);
        Ok(s.(cases := s.cases[c := row]))
  }

  ghost function Step(s: Sys, e: Event): Sys {
    if Fresh(s.state, e) && e.now >= s.clock && Execute(s.state, e).Ok? then Sys(Execute(s.state, e).value, e.now)
        else s
  }

  ghost function Run(s: Sys, es: seq<Event>): Sys {
    if es == [] then s else Step(Run(s, es[..|es| - 1]), es[|es| - 1])
  }

  // ---- certification, roles and live grants ----

  ghost predicate RolesOk(users: map<UserId, User>, certs: map<UserId, Cert>) {
    && (forall u :: u in certs ==> u in users)
    && forall u :: u in users ==>
         && Learner in users[u].roles && users[u].profiled
         && (Counselor in users[u].roles <==> u in certs && certs[u].state == Approved)
  }

  /** What a live grant promises: an eligible counselor who is not the case's learner. */
  ghost predicate GrantOk(s: State, c: CaseId, u: UserId) {
    c in s.cases && s.cases[c].learner != u && u in s.users && CertifiedCounselor(s, u)
  }

  ghost predicate GrantsOk(s: State) {
    Linked(s) && forall c, u :: Live(s, c, u) ==> GrantOk(s, c, u)
  }

  // ---- sessions ----

  /** A session's credential generation is never ahead of its user's, and matches only while the account is active. */
  ghost predicate SessionOk(users: map<UserId, User>, clock: Time, r: Session) {
    && r.created <= r.lastSeen <= clock
    && (r.user.Some? ==>
          && r.user.value in users && r.credential <= users[r.user.value].credential
          && (r.credential == users[r.user.value].credential ==> users[r.user.value].active))
  }

  ghost predicate SessionsOk(users: map<UserId, User>, sessions: map<Token, Session>, clock: Time) {
    forall t :: t in sessions ==> SessionOk(users, clock, sessions[t])
  }

  ghost predicate Inv(s: Sys) {
    RolesOk(s.state.users, s.state.certs) && GrantsOk(s.state) && SessionsOk(s.state.users, s.state.sessions, s.clock)
  }

  // ---- every step keeps the invariant ----

  /** Creating an account or bumping its generation keeps every session honest. */
  lemma UserMoved(users: map<UserId, User>, sessions: map<Token, Session>, clock: Time, now: Time, u: UserId, v: User)
    requires SessionsOk(users, sessions, clock) && clock <= now
    requires u in users ==> users[u].credential < v.credential
    ensures SessionsOk(users[u := v], sessions, now)
  {
    forall t | t in sessions ensures SessionOk(users[u := v], now, sessions[t]) {
      assert SessionOk(users, clock, sessions[t]);
    }
  }

  lemma SessionPut(users: map<UserId, User>, sessions: map<Token, Session>, clock: Time, now: Time, t: Token,
                   r: Session)
    requires SessionsOk(users, sessions, clock) && clock <= now && SessionOk(users, now, r)
    ensures SessionsOk(users, sessions[t := r], now)
  {
    var after := sessions[t := r];
    forall x | x in after ensures SessionOk(users, now, after[x]) {
      assert x != t ==> SessionOk(users, clock, sessions[x]);
    }
  }

  lemma GrantsFrame(s: State, after: State)
    requires GrantsOk(s) && s.grants == after.grants && s.cases.Keys <= after.cases.Keys
    requires forall c :: c in s.cases ==> after.cases[c].learner == s.cases[c].learner
    requires forall c, u :: Live(s, c, u) && u in s.users && CertifiedCounselor(s, u) ==>
        u in after.users && CertifiedCounselor(after, u)
    ensures GrantsOk(after)
  {
    forall c: CaseId, u: UserId | Live(after, c, u) ensures GrantOk(after, c, u) {
      assert Live(s, c, u) && GrantOk(s, c, u);
    }
  }

  lemma WithoutGrantsExact(s: State, user: UserId)
    ensures forall c, u :: Live(WithoutGrants(s, user), c, u) <==> Live(s, c, u) && u != user
    ensures Linked(s) ==> Linked(WithoutGrants(s, user))
    ensures WithoutGrants(s, user).cases.Keys == s.cases.Keys
    ensures forall c :: c in s.cases ==> WithoutGrants(s, user).cases[c].learner == s.cases[c].learner
  {
    assert forall k :: k in WithoutGrants(s, user).grants <==> k in s.grants;
  }

  /** Changing one account, with its live grants gone or its eligibility kept. */
  lemma GrantsAfterUser(s: State, after: State, user: UserId)
    requires GrantsOk(s) && Linked(after) && s.cases.Keys <= after.cases.Keys
    requires forall c :: c in s.cases ==> after.cases[c].learner == s.cases[c].learner
    requires forall c, u :: Live(after, c, u) ==> Live(s, c, u)
    requires forall u :: u in s.users ==>
        u in after.users && (u != user && CertifiedCounselor(s, u) ==> CertifiedCounselor(after, u))
    requires (forall c :: !Live(after, c, user))
        || (user in s.users && CertifiedCounselor(s, user) ==> CertifiedCounselor(after, user))
    ensures GrantsOk(after)
  {
    forall c: CaseId, u: UserId | Live(after, c, u) ensures GrantOk(after, c, u) {
      assert Live(s, c, u) && GrantOk(s, c, u);
    }
  }

  lemma ReviewInv(s: Sys, e: Event)
    requires Inv(s) && e.Reviewed? && e.now >= s.clock && Execute(s.state, e).Ok?
    ensures Inv(Sys(Execute(s.state, e).value, e.now))
  {
    var mid, after := ReviewCertification(s.state, e.actor, e.user, e.decision, e.ifMatch).value,
        Execute(s.state, e).value;
    UserMoved(s.state.users, s.state.sessions, s.clock, e.now, e.user, mid.users[e.user]);
    WithoutGrantsExact(mid, e.user);
    ReviewEligibility(s.state, e);
    GrantsAfterUser(s.state, after, e.user);
    ReviewRoles(s.state, e);
  }

  lemma ReviewRoles(s: State, e: Event)
    requires RolesOk(s.users, s.certs) && e.Reviewed? && Execute(s, e).Ok?
    ensures RolesOk(Execute(s, e).value.users, Execute(s, e).value.certs)
  {
  }

  /** A review changes nobody's eligibility but the reviewed user's. */
  lemma ReviewEligibility(s: State, e: Event)
    requires e.Reviewed? && Execute(s, e).Ok?
    ensures var after := Execute(s, e).value;
      forall u :: u in s.users ==>
          u in after.users && (u != e.user && CertifiedCounselor(s, u) ==> CertifiedCounselor(after, u))
  {
  }

  lemma StatusInv(s: Sys, e: Event)
    requires Inv(s) && e.StatusSet? && e.now >= s.clock && Execute(s.state, e).Ok?
    ensures Inv(Sys(Execute(s.state, e).value, e.now))
  {
    var mid, after := SetStatus(s.state, e.actor, e.user, e.active, e.ifMatch).value, Execute(s.state, e).value;
    UserMoved(s.state.users, s.state.sessions, s.clock, e.now, e.user, mid.users[e.user]);
    WithoutGrantsExact(mid, e.user);
    forall u | u in s.state.users
        ensures u in after.users && (u != e.user && CertifiedCounselor(s.state, u) ==> CertifiedCounselor(after, u)) {
    }
    GrantsAfterUser(s.state, after, e.user);
  }

  lemma AccountInv(s: Sys, e: Event)
    requires Inv(s) && (e.Registered? || e.Reset? || e.Operated?) && e.now >= s.clock && Fresh(s.state, e)
        && Execute(s.state, e).Ok?
    ensures Inv(Sys(Execute(s.state, e).value, e.now))
  {
    var after := Execute(s.state, e).value;
    UserMoved(s.state.users, s.state.sessions, s.clock, e.now, e.user, after.users[e.user]);
    if e.Registered? {
      var ended := s.state.sessions[e.previous].(revoked := true);
      SessionPut(after.users, s.state.sessions, e.now, e.now, e.previous, ended);
      SessionPut(after.users, s.state.sessions[e.previous := ended], e.now, e.now, e.token,
          Issued(Some(e.user), 1, e.now));
    }
    GrantsFrame(s.state, after);
  }

  lemma SessionInv(s: Sys, e: Event)
    requires Inv(s) && (e.LoggedIn? || e.Anonymous? || e.Touched? || e.LoggedOut?) && e.now >= s.clock
        && Execute(s.state, e).Ok?
    ensures Inv(Sys(Execute(s.state, e).value, e.now))
  {
    var users, rows, after := s.state.users, s.state.sessions, Execute(s.state, e).value;
    if e.LoggedIn? {
      var ended := rows[e.previous].(revoked := true);
      SessionPut(users, rows, s.clock, e.now, e.previous, ended);
      SessionPut(users, rows[e.previous := ended], e.now, e.now, e.token, after.sessions[e.token]);
    } else {
      SessionPut(users, rows, s.clock, e.now, e.token, after.sessions[e.token]);
    }
    GrantsFrame(s.state, after);
  }

  lemma CaseInv(s: Sys, e: Event)
    requires Inv(s) && (e.CaseOpened? || e.CaseMoved? || e.Submitted?) && e.now >= s.clock && Fresh(s.state, e)
        && Execute(s.state, e).Ok?
    ensures Inv(Sys(Execute(s.state, e).value, e.now))
  {
    var after := Execute(s.state, e).value;
    GrantsFrame(s.state, after);
    forall t | t in after.sessions ensures SessionOk(after.users, e.now, after.sessions[t]) {
      assert SessionOk(s.state.users, s.clock, s.state.sessions[t]);
    }
  }

  lemma AssignInv(s: Sys, e: Event)
    requires Inv(s) && e.Assigned? && e.now >= s.clock && Execute(s.state, e).Ok?
    ensures Inv(Sys(Execute(s.state, e).value, e.now))
  {
    var after := Execute(s.state, e).value;
    forall c: CaseId, u: UserId | Live(after, c, u) ensures GrantOk(after, c, u) {
      if (c, u) != (e.c, e.counselor) { assert Live(s.state, c, u) && GrantOk(s.state, c, u); }
    }
    forall t | t in after.sessions ensures SessionOk(after.users, e.now, after.sessions[t]) {
      assert SessionOk(s.state.users, s.clock, s.state.sessions[t]);
    }
  }

  lemma StepInv(s: Sys, e: Event)
    requires Inv(s)
    ensures Inv(Step(s, e)) && s.clock <= Step(s, e).clock
  {
    if Fresh(s.state, e) && e.now >= s.clock && Execute(s.state, e).Ok? {
      match e {
        case Registered(_, _, _, _) | Reset(_, _) | Operated(_, _, _) => AccountInv(s, e);
        case LoggedIn(_, _, _, _) | Anonymous(_, _) | Touched(_, _) | LoggedOut(_, _, _) => SessionInv(s, e);
        case Reviewed(_, _, _, _, _) => ReviewInv(s, e);
        case StatusSet(_, _, _, _, _) => StatusInv(s, e);
        case Assigned(_, _, _, _, _, _) => AssignInv(s, e);
        case CaseOpened(_, _, _) | CaseMoved(_, _, _) | Submitted(_, _, _) => CaseInv(s, e);
      }
    }
  }

  lemma {:induction false} RunInv(s: Sys, es: seq<Event>)
    requires Inv(s)
    ensures Inv(Run(s, es)) && s.clock <= Run(s, es).clock
  {
    if es != [] {
      RunInv(s, es[..|es| - 1]);
      StepInv(Run(s, es[..|es| - 1]), es[|es| - 1]);
    }
  }

  /** From an empty store: who may hold a live grant, and who holds the counselor role. */
  lemma LiveGrantsAreEligible(es: seq<Event>, c: CaseId, u: UserId)
    ensures var s := Run(Empty, es).state;
      && (Live(s, c, u) ==>
            && c in s.cases && s.cases[c].learner != u && u in s.users && s.users[u].active
            && u in s.certs && s.certs[u].state == Approved && Counselor in s.users[u].roles)
      && (u in s.users ==> (Counselor in s.users[u].roles <==> u in s.certs && s.certs[u].state == Approved))
  {
    RunInv(Empty, es);
    var s := Run(Empty, es).state;
    assert Live(s, c, u) ==> GrantOk(s, c, u);
  }

  /** Suspension and revocation end every grant of that counselor and no other. */
  lemma SuspensionEndsGrants(s: Sys, e: Event)
    requires Inv(s) && Fresh(s.state, e) && e.now >= s.clock && Execute(s.state, e).Ok?
    requires (e.StatusSet? && !e.active) || (e.Reviewed? && e.decision == Revoke)
    ensures forall c :: !Live(Step(s, e).state, c, e.user)
    ensures forall c, u :: u != e.user ==> (Live(Step(s, e).state, c, u) <==> Live(s.state, c, u))
  {
    var mid := if e.StatusSet? then SetStatus(s.state, e.actor, e.user, e.active, e.ifMatch).value
      else ReviewCertification(s.state, e.actor, e.user, e.decision, e.ifMatch).value;
    WithoutGrantsExact(mid, e.user);
  }

  // ---- a refused session stays refused ----

  /** Why an issued session can no longer be resolved. */
  ghost predicate Dead(s: Sys, t: Token)
    requires t in s.state.sessions && SessionOk(s.state.users, s.clock, s.state.sessions[t])
  {
    var r := s.state.sessions[t];
    r.user.None? || r.credential < s.state.users[r.user.value].credential || r.revoked || r.expires <= s.clock
    || s.clock - r.created >= 12 * HOUR || s.clock - r.lastSeen >= 2 * HOUR
  }

  lemma RefusedIffDead(s: Sys, t: Token)
    requires Inv(s) && t in s.state.sessions
    ensures SessionOk(s.state.users, s.clock, s.state.sessions[t])
    ensures ResolveActor(s.state, t, s.clock).Err? <==> Dead(s, t)
  {
    assert SessionOk(s.state.users, s.clock, s.state.sessions[t]);
    var r := s.state.sessions[t];
    if r.user.Some? { assert Learner in s.state.users[r.user.value].roles; }
  }

  ghost predicate Grown(users: map<UserId, User>, after: map<UserId, User>) {
    forall u :: u in users ==> u in after && users[u].credential <= after[u].credential
  }

  lemma ReviewGrows(s: State, a: Actor, user: UserId, d: Decision, ifMatch: Option<string>)
    requires ReviewRoute(s, a, user, d, ifMatch).Ok?
    ensures Grown(s.users, ReviewRoute(s, a, user, d, ifMatch).value.users)
    ensures ReviewRoute(s, a, user, d, ifMatch).value.sessions == s.sessions
  {
  }

  lemma StatusGrows(s: State, a: Actor, user: UserId, active: bool, ifMatch: Option<string>)
    requires StatusRoute(s, a, user, active, ifMatch).Ok?
    ensures Grown(s.users, StatusRoute(s, a, user, active, ifMatch).value.users)
    ensures StatusRoute(s, a, user, active, ifMatch).value.sessions == s.sessions
  {
  }

  lemma ExecuteGrows(s: State, e: Event)
    requires Fresh(s, e) && Execute(s, e).Ok? && !e.Reviewed? && !e.StatusSet?
    ensures Grown(s.users, Execute(s, e).value.users)
  {
  }

  /** No step removes an account or takes a credential generation back. */
  lemma CredentialsGrow(s: Sys, e: Event)
    ensures Grown(s.state.users, Step(s, e).state.users)
  {
    if Fresh(s.state, e) && e.now >= s.clock && Execute(s.state, e).Ok? {
      match e {
        case Reviewed(_, a, user, d, ifMatch) => ReviewGrows(s.state, a, user, d, ifMatch);
        case StatusSet(_, a, user, active, ifMatch) => StatusGrows(s.state, a, user, active, ifMatch);
        case _ => ExecuteGrows(s.state, e);
      }
    }
  }

  /** A row only changes by revocation, or by a touch while it is still valid. */
  ghost predicate Kept(r: Session, q: Session, now: Time) {
    && q.(lastSeen := r.lastSeen, revoked := r.revoked) == r && (r.revoked ==> q.revoked)
    && (q.lastSeen != r.lastSeen ==> ValidAt(r, now) && r.expires > now)
  }

  ghost predicate AllKept(rows: map<Token, Session>, after: map<Token, Session>, now: Time) {
    forall t :: t in rows ==> t in after && Kept(rows[t], after[t], now)
  }

  lemma ExecuteKeeps(s: State, e: Event)
    requires Fresh(s, e) && Execute(s, e).Ok? && !e.Reviewed? && !e.StatusSet?
    ensures AllKept(s.sessions, Execute(s, e).value.sessions, e.now)
  {
  }

  lemma SessionStep(s: Sys, e: Event)
    requires Fresh(s.state, e) && e.now >= s.clock && Execute(s.state, e).Ok?
    ensures AllKept(s.state.sessions, Step(s, e).state.sessions, e.now)
  {
    match e {
      case Reviewed(_, a, user, d, ifMatch) => ReviewGrows(s.state, a, user, d, ifMatch);
      case StatusSet(_, a, user, active, ifMatch) => StatusGrows(s.state, a, user, active, ifMatch);
      case _ => ExecuteKeeps(s.state, e);
    }
  }

  lemma DeadStep(s: Sys, e: Event, t: Token)
    requires Inv(s) && t in s.state.sessions && ResolveActor(s.state, t, s.clock).Err?
    ensures t in Step(s, e).state.sessions && ResolveActor(Step(s, e).state, t, Step(s, e).clock).Err?
  {
    if !(Fresh(s.state, e) && e.now >= s.clock && Execute(s.state, e).Ok?) { return; }
    StepInv(s, e);
    SessionStep(s, e);
    RefusedIffDead(s, t);
    RefusedIffDead(Step(s, e), t);
    var r := s.state.sessions[t];
    CredentialsGrow(s, e);
    assert Kept(r, Step(s, e).state.sessions[t], e.now);
  }

  lemma {:induction false} DeadRun(s: Sys, es: seq<Event>, t: Token)
    requires Inv(s) && t in s.state.sessions && ResolveActor(s.state, t, s.clock).Err?
    ensures t in Run(s, es).state.sessions && ResolveActor(Run(s, es).state, t, Run(s, es).clock).Err?
  {
    if es != [] {
      DeadRun(s, es[..|es| - 1], t);
      RunInv(s, es[..|es| - 1]);
      DeadStep(Run(s, es[..|es| - 1]), es[|es| - 1], t);
    }
  }

  lemma Later(s: Sys, now: Time)
    requires Inv(s) && now >= s.clock
    ensures Inv(Sys(s.state, now))
  {
    forall t | t in s.state.sessions ensures SessionOk(s.state.users, now, s.state.sessions[t]) {
      assert SessionOk(s.state.users, s.clock, s.state.sessions[t]);
    }
  }

  /** Once an issued session is refused, no run of the system makes it resolve again, at any later time. */
  lemma RefusedForEver(before: seq<Event>, now: Time, after: seq<Event>, t: Token, later: Time)
    requires var s := Run(Empty, before);
      t in s.state.sessions && now >= s.clock && ResolveActor(s.state, t, now).Err?
    requires later >= Run(Sys(Run(Empty, before).state, now), after).clock
    ensures ResolveActor(Run(Sys(Run(Empty, before).state, now), after).state, t, later).Err?
  {
    RunInv(Empty, before);
    var s := Sys(Run(Empty, before).state, now);
    Later(Run(Empty, before), now);
    DeadRun(s, after, t);
    RunInv(s, after);
    var end := Run(s, after);
    RefusedIffDead(end, t);
    Later(end, later);
    RefusedIffDead(Sys(end.state, later), t);
  }

  /** On every reachable state a login that passes the password check succeeds, resolves, and ends the old session. */
  lemma LoginResolves(s: Sys, previous: Token, user: UserId, token: Token, now: Time)
    requires Inv(s) && now >= s.clock && token !in s.state.sessions
    requires Recorded(s.state, previous, now) && user in s.state.users && s.state.users[user].active
    ensures var r := Login(s.state, previous, user, token, now);
      && r.Ok? && ResolveActor(r.value, token, now) == Ok(Actor(user, s.state.users[user].credential))
      && forall later :: ResolveActor(r.value, previous, later).Err?
  {
    assert Learner in s.state.users[user].roles;
  }

  /** A privilege change invalidates every session issued before it: approval, rejection, revocation, suspension and
      operator changes. */
  lemma PrivilegeChangeSignsOut(s: Sys, e: Event, t: Token)
    requires Inv(s) && e.now >= s.clock && Execute(s.state, e).Ok?
    requires e.Reset? || e.Reviewed? || e.StatusSet? || e.Operated?
    requires t in s.state.sessions && s.state.sessions[t].user == Some(e.user)
    ensures ResolveActor(Step(s, e).state, t, e.now).Err?
  {
    assert SessionOk(s.state.users, s.clock, s.state.sessions[t]);
    GenerationBumped(s.state, e);
  }

  lemma GenerationBumped(s: State, e: Event)
    requires (e.Reset? || e.Reviewed? || e.StatusSet? || e.Operated?) && Execute(s, e).Ok?
    ensures Bumped(s, Execute(s, e).value, e.user)
  {
    match e {
      case Reviewed(_, a, user, d, ifMatch) => ReviewBumps(s, a, user, d, ifMatch);
      case StatusSet(_, a, user, active, ifMatch) => StatusBumps(s, a, user, active, ifMatch);
      case _ =>
    }
  }

  ghost predicate Bumped(s: State, after: State, user: UserId) {
    && after.sessions == s.sessions && user in s.users && user in after.users
    && after.users[user].credential > s.users[user].credential
  }

  lemma ReviewBumps(s: State, a: Actor, user: UserId, d: Decision, ifMatch: Option<string>)
    requires ReviewRoute(s, a, user, d, ifMatch).Ok?
    ensures Bumped(s, ReviewRoute(s, a, user, d, ifMatch).value, user)
  {
  }

  lemma StatusBumps(s: State, a: Actor, user: UserId, active: bool, ifMatch: Option<string>)
    requires StatusRoute(s, a, user, active, ifMatch).Ok?
    ensures Bumped(s, StatusRoute(s, a, user, active, ifMatch).value, user)
  {
  }

  // ---- no management write is lost ----

  /** The rows that management requests guard with If-Match. */
  datatype Guard = Certification(user: UserId) | Account(user: UserId) | Assignment(c: CaseId)

  function VersionOf(s: State, g: Guard): nat {
    match g
    case Certification(u) => if u in s.certs then s.certs[u].version else 1
    case Account(u) => if u in s.users then s.users[u].management else 1
    case Assignment(c) => if c in s.cases then s.cases[c].version else 1
  }

  function GuardOf(e: Event): Option<(Guard, Option<string>)> {
    match e
    case Submitted(_, a, ifMatch) => Some((Certification(a.user), ifMatch))
    case Reviewed(_, _, user, _, ifMatch) => Some((Certification(user), ifMatch))
    case StatusSet(_, _, user, _, ifMatch) => Some((Account(user), ifMatch))
    case Assigned(_, _, c, _, _, ifMatch) => Some((Assignment(c), ifMatch))
    case _ => None
  }

  ghost predicate Succeeds(s: Sys, e: Event) {
    Fresh(s.state, e) && e.now >= s.clock && Execute(s.state, e).Ok?
  }

  /** Success needs the current version's ETag and moves the version on. */
  lemma GuardedWrite(s: Sys, e: Event)
    requires GuardOf(e).Some? && Succeeds(s, e)
    ensures var (g, ifMatch) := GuardOf(e).value;
      ifMatch == Some(Http.ETag(VersionOf(s.state, g))) && VersionOf(Step(s, e).state, g) > VersionOf(s.state, g)
  {
    var (g, ifMatch) := GuardOf(e).value;
    Http.RequireVersionExact(ifMatch, VersionOf(s.state, g));
    match e {
      case Reviewed(_, a, user, d, header) => ReviewVersions(s.state, a, user, d, header);
      case StatusSet(_, a, user, active, header) => StatusVersions(s.state, a, user, active, header);
      case Submitted(_, a, header) => SubmitVersions(s.state, a, header);
      case Assigned(_, a, c, counselor, grant, header) => AssignVersions(s.state, a, c, counselor, grant, header);
    }
  }

  lemma SubmitVersions(s: State, a: Actor, ifMatch: Option<string>)
    requires SubmitCertification(s, a, ifMatch).Ok?
    ensures Http.RequireVersion(ifMatch, VersionOf(s, Certification(a.user))).Pass?
    ensures VersionOf(SubmitCertification(s, a, ifMatch).value, Certification(a.user))
      == VersionOf(s, Certification(a.user)) + 1
  {
  }

  lemma AssignVersions(s: State, a: Actor, c: CaseId, counselor: UserId, grant: bool, ifMatch: Option<string>)
    requires Assign(s, a, c, counselor, grant, ifMatch).Ok?
    ensures Http.RequireVersion(ifMatch, VersionOf(s, Assignment(c))).Pass?
    ensures VersionOf(Assign(s, a, c, counselor, grant, ifMatch).value, Assignment(c))
      == VersionOf(s, Assignment(c)) + 1
  {
  }

  ghost predicate NoneLower(s: State, after: State) {
    forall g: Guard :: VersionOf(s, g) <= VersionOf(after, g)
  }

  lemma ReviewVersions(s: State, a: Actor, user: UserId, d: Decision, ifMatch: Option<string>)
    requires ReviewRoute(s, a, user, d, ifMatch).Ok?
    ensures Http.RequireVersion(ifMatch, VersionOf(s, Certification(user))).Pass?
    ensures NoneLower(s, ReviewRoute(s, a, user, d, ifMatch).value)
    ensures VersionOf(ReviewRoute(s, a, user, d, ifMatch).value, Certification(user))
      == VersionOf(s, Certification(user)) + 1
  {
  }

  lemma StatusVersions(s: State, a: Actor, user: UserId, active: bool, ifMatch: Option<string>)
    requires StatusRoute(s, a, user, active, ifMatch).Ok?
    ensures Http.RequireVersion(ifMatch, VersionOf(s, Account(user))).Pass?
    ensures NoneLower(s, StatusRoute(s, a, user, active, ifMatch).value)
    ensures VersionOf(StatusRoute(s, a, user, active, ifMatch).value, Account(user)) == VersionOf(s, Account(user)) + 1
  {
  }

  lemma VersionStep(s: Sys, e: Event)
    ensures NoneLower(s.state, Step(s, e).state)
  {
    if Succeeds(s, e) {
      match e {
        case Reviewed(_, a, user, d, ifMatch) => ReviewVersions(s.state, a, user, d, ifMatch);
        case StatusSet(_, a, user, active, ifMatch) => StatusVersions(s.state, a, user, active, ifMatch);
        case _ => ExecuteVersions(s.state, e);
      }
    }
  }

  lemma ExecuteVersions(s: State, e: Event)
    requires Fresh(s, e) && Execute(s, e).Ok? && !e.Reviewed? && !e.StatusSet?
    ensures NoneLower(s, Execute(s, e).value)
  {
  }

  lemma {:induction false} VersionsGrow(s: Sys, es: seq<Event>)
    ensures NoneLower(s.state, Run(s, es).state)
  {
    if es != [] {
      VersionsGrow(s, es[..|es| - 1]);
      VersionStep(Run(s, es[..|es| - 1]), es[|es| - 1]);
    }
  }

  /** Two successful writes to one certification, account or case never carried the same If-Match header. */
  lemma OneWinnerPerVersion(s: Sys, first: Event, es: seq<Event>, second: Event)
    requires GuardOf(first).Some? && GuardOf(second).Some? && GuardOf(first).value.0 == GuardOf(second).value.0
    requires Succeeds(s, first) && Succeeds(Run(Step(s, first), es), second)
    ensures GuardOf(first).value.1 != GuardOf(second).value.1
  {
    var g, later := GuardOf(first).value.0, Run(Step(s, first), es);
    GuardedWrite(s, first);
    GuardedWrite(later, second);
    VersionsGrow(Step(s, first), es);
    assert VersionOf(Step(s, first).state, g) <= VersionOf(later.state, g);
    if GuardOf(first).value.1 == GuardOf(second).value.1 {
      Http.ETagInjective(VersionOf(s.state, g), VersionOf(later.state, g));
    }
  }

  // ---- exactly when a management write succeeds ----

  predicate Matches(version: nat, ifMatch: Option<string>) {
    Http.Version(version) && ifMatch == Some(Http.ETag(version))
  }

  /** On reachable states an assignment needs an active counselor with an approved certification, who is not the
      learner, and an open case. */
  lemma AssignSucceedsIff(s: Sys, a: Actor, c: CaseId, counselor: UserId, grant: bool, ifMatch: Option<string>)
    requires Inv(s)
    ensures Assign(s.state, a, c, counselor, grant, ifMatch).Ok? <==>
        && IsAdministrator(s.state, a) && counselor in s.state.users && c in s.state.cases
        && counselor != a.user && s.state.cases[c].learner != a.user && s.state.cases[c].learner != counselor
        && Matches(s.state.cases[c].version, ifMatch)
        && (grant ==>
              && s.state.users[counselor].active && counselor in s.state.certs
              && s.state.certs[counselor].state == Approved
              && s.state.cases[c].lifecycle != Closed)
  {
    if c in s.state.cases { Http.RequireVersionExact(ifMatch, s.state.cases[c].version); }
  }

  /** A review succeeds exactly on another user's pending certification, or approved one for a revocation; ending the
      grants afterwards cannot fail. */
  lemma ReviewSucceedsIff(s: Sys, a: Actor, user: UserId, d: Decision, ifMatch: Option<string>)
    requires Inv(s)
    ensures ReviewRoute(s.state, a, user, d, ifMatch).Ok? <==>
        && IsAdministrator(s.state, a) && user != a.user && user in s.state.certs
        && Matches(s.state.certs[user].version, ifMatch)
        && s.state.certs[user].state == (if d == Revoke then Approved else Pending)
        && (d == Approve ==> s.state.users[user].active)
  {
    if user in s.state.certs { Http.RequireVersionExact(ifMatch, s.state.certs[user].version); }
  }

  /** A status change succeeds exactly for another account that is no administrator; ending the grants afterwards
      cannot fail. */
  lemma StatusSucceedsIff(s: Sys, a: Actor, user: UserId, active: bool, ifMatch: Option<string>)
    ensures StatusRoute(s.state, a, user, active, ifMatch).Ok? <==>
        && IsAdministrator(s.state, a) && user != a.user && user in s.state.users
        && !(user in s.state.administrators && s.state.administrators[user])
        && Matches(s.state.users[user].management, ifMatch)
  {
    if user in s.state.users { Http.RequireVersionExact(ifMatch, s.state.users[user].management); }
    if SetStatus(s.state, a, user, active, ifMatch).Ok? {
      StillAdministrator(s.state, a, user, SetStatus(s.state, a, user, active, ifMatch).value);
    }
  }

  /** Changing another account leaves the administrator one. */
  lemma StillAdministrator(s: State, a: Actor, user: UserId, after: State)
    requires IsAdministrator(s, a) && user != a.user && after.administrators == s.administrators
    requires a.user in after.users && after.users[a.user] == s.users[a.user]
    ensures forall u :: RevokeGrants(after, a, u).Ok?
  {
  }
}
