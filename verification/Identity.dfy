/** Accounts, certification, case grants and sessions (modules/identity, modules/cases/administration.py,
    core/security.py). */
module Identity {
  import opened Common
  import Http

  type UserId = nat
  type CaseId = nat
  type Token = nat
  /** Seconds since the epoch. */
  type Time = int

  const HOUR: int := 3600

  datatype Role = Learner | Counselor

  /** `profiled` says that the account has its profile row. */
  datatype User = User(active: bool, credential: nat, management: nat, roles: set<Role>, profiled: bool)

  datatype CertState = Pending | Approved | Rejected | Revoked

  datatype Cert = Cert(state: CertState, version: nat)

  datatype Lifecycle = PendingMatch | Active | Closed

  datatype Case = Case(learner: UserId, lifecycle: Lifecycle, version: nat)

  datatype Session = Session(user: Option<UserId>, created: Time, lastSeen: Time, expires: Time, revoked: bool,
      credential: nat)

  /** A grant row is live while its revocation time is unset. */
  datatype State = State(
    users: map<UserId, User>, certs: map<UserId, Cert>, cases: map<CaseId, Case>, grants: map<(CaseId, UserId), bool>,
    administrators: map<UserId, bool>, sessions: map<Token, Session>)

  datatype Actor = Actor(user: UserId, credential: nat)

  datatype Decision = Approve | Reject | Revoke

  // ---- queries.py ----

  predicate IsAdministrator(s: State, a: Actor) {
    && a.user in s.users && s.users[a.user].active && a.credential == s.users[a.user].credential
    && a.user in s.administrators && s.administrators[a.user]
  }

  predicate CertifiedCounselor(s: State, u: UserId)
    requires u in s.users
  {
    s.users[u].active && u in s.certs && s.certs[u].state == Approved && Counselor in s.users[u].roles
  }

  /** security.py: SessionWindow.valid_at. */
  predicate ValidAt(r: Session, now: Time) {
    !r.revoked && r.created <= r.lastSeen <= now && now - r.created < 12 * HOUR && now - r.lastSeen < 2 * HOUR
  }

  function ResolveActor(s: State, token: Token, now: Time): Result<Actor> {
    if token !in s.sessions || s.sessions[token].user.None? then Err(Unauthenticated())
    else
      var r := s.sessions[token];
      if r.user.value !in s.users then Err(Unauthenticated())
      else
        var user := s.users[r.user.value];
        if !user.active || user.credential != r.credential then Err(Unauthenticated())
        else if !ValidAt(r, now) || r.expires <= now then Err(Unauthenticated())
        else if user.roles == {} then Err(Unauthenticated())
        else Ok(Actor(r.user.value, user.credential))
  }

  /** service.py: session_record, with the clock already read. */
  predicate Recorded(s: State, token: Token, now: Time) {
    token in s.sessions && s.sessions[token].expires > now && ValidAt(s.sessions[token], now)
  }

  // ---- service.py and registration.py ----

  function Issued(user: Option<UserId>, credential: nat, now: Time): Session {
    Session(user, now, now, if user.Some? then now + 12 * HOUR else now + HOUR / 4, false, credential)
  }

  /** A registered address signs in at once; the visitor's anonymous session ends. */
  function Register(s: State, previous: Token, user: UserId, token: Token, now: Time): Result<State> {
    if !Recorded(s, previous, now) then Err(Unauthenticated())
    else
      var ended := s.sessions[previous := s.sessions[previous].(revoked := true)];
      Ok(s.(users := s.users[user := User(true, 1, 1, {Learner}, true)],
            sessions := ended[token := Issued(Some(user), 1, now)]))
  }

  function ResetPassword(s: State, user: UserId): Result<State> {
    if user !in s.users || !s.users[user].active then Err(AppError(400, "INVALID_CHALLENGE"))
    else Ok(s.(users := s.users[user := s.users[user].(credential := s.users[user].credential + 1)]))
  }

  /** Login after the budgets and the password check: the old session is revoked and a new one issued, or nothing
      happens. */
  function Login(s: State, previous: Token, user: UserId, token: Token, now: Time): Result<State> {
    if !Recorded(s, previous, now) then Err(Unauthenticated())
    else if user !in s.users || !s.users[user].active then Err(AppError(401, "INVALID_CREDENTIALS"))
    else
      var ended := s.sessions[previous := s.sessions[previous].(revoked := true)];
      var after := s.(sessions := ended[token := Issued(Some(user), s.users[user].credential, now)]);
      if ResolveActor(after, token, now).Err? || !s.users[user].profiled then Err(AppError(401, "INVALID_CREDENTIALS"))
          else Ok(after)
  }

  function AnonymousSession(s: State, token: Token, now: Time): State {
    s.(sessions := s.sessions[token := Issued(None, 1, now)])
  }

  function Touch(s: State, token: Token, now: Time): Result<State> {
    if !Recorded(s, token, now) then Err(Unauthenticated())
    else
      var r := s.sessions[token];
      Ok(s.(sessions := s.sessions[token := r.(lastSeen := if now > r.lastSeen then now else r.lastSeen)]))
  }

  function Logout(s: State, a: Actor, token: Token, now: Time): Result<State> {
    if !Recorded(s, token, now) || s.sessions[token].user != Some(a.user) then Err(Unauthenticated())
    else Ok(s.(sessions := s.sessions[token := s.sessions[token].(revoked := true)]))
  }

  // ---- management.py ----

  function SubmitCertification(s: State, a: Actor, ifMatch: Option<string>): Result<State> {
    if a.user !in s.users || !s.users[a.user].active || a.credential != s.users[a.user].credential then
        Err(Unauthenticated())
    else
      var row := if a.user in s.certs then Some(s.certs[a.user]) else None;
      var current := if row.Some? then row.value.version else 1;
      var version := Http.RequireVersion(ifMatch, current);
      if version.Fail? then Err(version.error)
      else if row.Some? && row.value.state in {Pending, Approved} then Err(Conflict("CERTIFICATION_NOT_EDITABLE"))
      else Ok(s.(certs := s.certs[a.user := Cert(Pending, current + 1)]))
  }

  function Outcome(d: Decision): CertState {
    match d case Approve => Approved case Reject => Rejected case Revoke => Revoked
  }

  function RolesAfter(roles: set<Role>, d: Decision): set<Role> {
    match d
    case Approve => roles + {Counselor}
    case Reject => roles
    case Revoke => roles + {Learner} - {Counselor}
  }

  function ReviewCertification(s: State, a: Actor, user: UserId, d: Decision, ifMatch: Option<string>): Result<State> {
    if !IsAdministrator(s, a) || user == a.user then Err(Forbidden())
    else if user !in s.users || user !in s.certs then Err(NotFound())
    else
      var u, row := s.users[user], s.certs[user];
      var version := Http.RequireVersion(ifMatch, row.version);
      if version.Fail? then Err(version.error)
      else if (if d == Revoke then row.state != Approved else row.state != Pending) then
          Err(Conflict("INVALID_CERTIFICATION_TRANSITION"))
      else if d == Approve && !u.active then Err(Conflict("ACCOUNT_INACTIVE"))
      else Ok(s.(certs := s.certs[user := Cert(Outcome(d), row.version + 1)],
                 users := s.users[user := u.(roles := RolesAfter(u.roles, d), credential := u.credential + 1)]))
  }

  function SetStatus(s: State, a: Actor, user: UserId, active: bool, ifMatch: Option<string>): Result<State> {
    if !IsAdministrator(s, a) || user == a.user then Err(Forbidden())
    else if user !in s.users then Err(NotFound())
    else if user in s.administrators && s.administrators[user] then Err(Forbidden())
    else
      var u := s.users[user];
      var version := Http.RequireVersion(ifMatch, u.management);
      if version.Fail? then Err(version.error)
      else Ok(s.(users := s.users[user := u.(active := active, management := u.management + 1,
          credential := u.credential + 1)]))
  }

  // ---- administration.py ----

  predicate Live(s: State, c: CaseId, u: UserId) { (c, u) in s.grants && s.grants[(c, u)] }

  /** The grant table's foreign key. */
  ghost predicate Linked(s: State) { forall k :: k in s.grants ==> k.0 in s.cases }

  function WithoutGrants(s: State, user: UserId): State {
    s.(grants := map k | k in s.grants :: s.grants[k] && k.1 != user,
       cases := map c | c in s.cases :: if Live(s, c, user) then s.cases[c].(version := s.cases[c].version + 1)
           else s.cases[c])
  }

  function RevokeGrants(s: State, a: Actor, user: UserId): Result<State> {
    if !IsAdministrator(s, a) then Err(Forbidden()) else Ok(WithoutGrants(s, user))
  }

  function Assign(s: State, a: Actor, c: CaseId, counselor: UserId, grant: bool,
                  ifMatch: Option<string>): Result<State> {
    if !IsAdministrator(s, a) || counselor == a.user then Err(Forbidden())
    else if counselor !in s.users || c !in s.cases then Err(NotFound())
    else if s.cases[c].learner in {a.user, counselor} then Err(Forbidden())
    else
      var row := s.cases[c];
      var version := Http.RequireVersion(ifMatch, row.version);
      if version.Fail? then Err(version.error)
      else if grant && (!CertifiedCounselor(s, counselor) || row.lifecycle == Closed) then
          Err(Conflict("COUNSELOR_NOT_ELIGIBLE"))
      else Ok(s.(cases := s.cases[c := row.(version := row.version + 1)],
                 grants := if grant || (c, counselor) in s.grants then s.grants[(c, counselor) := grant] else s.grants))
  }

  /** web/management.py: the review and status routes revoke grants in the same transaction. */
  function ReviewRoute(s: State, a: Actor, user: UserId, d: Decision, ifMatch: Option<string>): Result<State> {
    var reviewed := ReviewCertification(s, a, user, d, ifMatch);
    if reviewed.Ok? && d == Revoke then RevokeGrants(reviewed.value, a, user) else reviewed
  }

  function StatusRoute(s: State, a: Actor, user: UserId, active: bool, ifMatch: Option<string>): Result<State> {
    var changed := SetStatus(s, a, user, active, ifMatch);
    if changed.Ok? && !active then RevokeGrants(changed.value, a, user) else changed
  }

  /** tools/manage_administrator.py. */
  function OperatorGrant(s: State, user: UserId, desired: bool): Result<State> {
    var current := user in s.administrators && s.administrators[user];
    if user !in s.users || (desired && !s.users[user].active) || current == desired then Err(Forbidden())
    else Ok(s.(administrators := s.administrators[user := desired],
               users := s.users[user := s.users[user].(credential := s.users[user].credential + 1)]))
  }

  // ---- the services over stored rows ----

  /** The grant and case tables once the cases in `done` have been handled. */
  ghost function GrantsWithout(grants: map<(CaseId, UserId), bool>, user: UserId, done: set<CaseId>)
    : map<(CaseId, UserId), bool>
  {
    map k | k in grants :: grants[k] && !(k.1 == user && k.0 in done)
  }

  ghost function Bumped(cases: map<CaseId, Case>, done: set<CaseId>): map<CaseId, Case> {
    map c | c in cases :: if c in done then cases[c].(version := cases[c].version + 1) else cases[c]
  }

  lemma DropStep(grants: map<(CaseId, UserId), bool>, cases: map<CaseId, Case>, user: UserId, done: set<CaseId>,
                 c: CaseId)
    requires c in cases && c !in done && (c, user) in grants
    ensures GrantsWithout(grants, user, done)[(c, user) := false] == GrantsWithout(grants, user, done + {c})
    ensures Bumped(cases, done)[c := cases[c].(version := cases[c].version + 1)] == Bumped(cases, done + {c})
  {
  }

  function LiveCases(s: State, user: UserId): set<CaseId> {
    set c | c in s.cases && Live(s, c, user)
  }

  lemma DropNone(s: State, user: UserId)
    ensures GrantsWithout(s.grants, user, {}) == s.grants && Bumped(s.cases, {}) == s.cases
  {
  }

  lemma DropAll(s: State, user: UserId)
    requires Linked(s)
    ensures var done := LiveCases(s, user);
      s.(grants := GrantsWithout(s.grants, user, done), cases := Bumped(s.cases, done)) == WithoutGrants(s, user)
  {
    assert GrantsWithout(s.grants, user, LiveCases(s, user)) == WithoutGrants(s, user).grants;
    assert Bumped(s.cases, LiveCases(s, user)) == WithoutGrants(s, user).cases;
  }

  class IdentityStore {
    var users: map<UserId, User>
    var certs: map<UserId, Cert>
    var cases: map<CaseId, Case>
    var grants: map<(CaseId, UserId), bool>
    var administrators: map<UserId, bool>
    var sessions: map<Token, Session>

    function View(): State reads this { State(users, certs, cases, grants, administrators, sessions) }

    constructor ()
      ensures View() == State(map[], map[], map[], map[], map[], map[])
    {
      users, certs, cases, grants, administrators, sessions := map[], map[], map[], map[], map[], map[];
    }

    method RevokeCounselorGrants(actor: Actor, user: UserId) returns (r: Result<()>)
      requires Linked(View())
      modifies this`grants, this`cases
      ensures match RevokeGrants(old(View()), actor, user)
              case Ok(s) => View() == s && r.Ok?
              case Err(e) => View() == old(View()) && r == Err(e)
    {
      if !IsAdministrator(View(), actor) { return Err(Forbidden()); }
      RevokeGrantRows(user);
      r := Ok(());
    }

    method RevokeGrantRows(user: UserId)
      requires Linked(View())
      modifies this`grants, this`cases
      ensures View() == WithoutGrants(old(View()), user)
    {
      ghost var before := View();
      var rows := LiveCases(View(), user);
      ghost var target, done: set<CaseId> := rows, {};
      DropNone(before, user);
      while rows != {}
        invariant rows == target - done && done <= target
        invariant grants == GrantsWithout(before.grants, user, done)
        invariant cases == Bumped(before.cases, done)
        decreases rows
      {
        var c: CaseId :| c in rows;
        assert c in target && c !in done;
        DropStep(before.grants, before.cases, user, done, c);
        grants, cases := grants[(c, user) := false], cases[c := cases[c].(version := cases[c].version + 1)];
        rows, done := rows - {c}, done + {c};
      }
      assert done == target;
      DropAll(before, user);
    }

    method Review(actor: Actor, user: UserId, d: Decision, ifMatch: Option<string>) returns (r: Result<Cert>)
      modifies this`certs, this`users
      ensures match ReviewCertification(old(View()), actor, user, d, ifMatch)
              case Ok(s) => View() == s && user in certs && r == Ok(certs[user])
              case Err(e) => View() == old(View()) && r == Err(e)
    {
      if !IsAdministrator(View(), actor) || user == actor.user { return Err(Forbidden()); }
      if user !in users || user !in certs { return Err(NotFound()); }
      var version := Http.RequireVersion(ifMatch, certs[user].version);
      if version.Fail? { return Err(version.error); }
      if (d != Revoke && certs[user].state != Pending) || (d == Revoke && certs[user].state != Approved) {
        return Err(Conflict("INVALID_CERTIFICATION_TRANSITION"));
      }
      if d == Approve && !users[user].active { return Err(Conflict("ACCOUNT_INACTIVE")); }
      var row := certs[user].(state := Outcome(d));
      certs := certs[user := row.(version := row.version + 1)];
      var roles := users[user].roles;
      if d == Approve && Counselor !in roles {
        roles := roles + {Counselor};
      } else if d == Revoke {
        if Learner !in roles { roles := roles + {Learner}; }
        roles := roles - {Counselor};
      }
      assert roles == RolesAfter(users[user].roles, d);
      users := users[user := users[user].(roles := roles, credential := users[user].credential + 1)];
      r := Ok(certs[user]);
    }

    method ChangeStatus(actor: Actor, user: UserId, active: bool, ifMatch: Option<string>) returns (r: Result<User>)
      modifies this`users
      ensures match SetStatus(old(View()), actor, user, active, ifMatch)
              case Ok(s) => View() == s && user in users && r == Ok(users[user])
              case Err(e) => View() == old(View()) && r == Err(e)
    {
      if !IsAdministrator(View(), actor) || user == actor.user { return Err(Forbidden()); }
      if user !in users { return Err(NotFound()); }
      if user in administrators && administrators[user] { return Err(Forbidden()); }
      var version := Http.RequireVersion(ifMatch, users[user].management);
      if version.Fail? { return Err(version.error); }
      var row := users[user].(active := active);
      row := row.(management := row.management + 1);
      row := row.(credential := row.credential + 1);
      users := users[user := row];
      r := Ok(row);
    }

    method Submit(actor: Actor, ifMatch: Option<string>) returns (r: Result<Cert>)
      modifies this`certs
      ensures match SubmitCertification(old(View()), actor, ifMatch)
              case Ok(s) => View() == s && actor.user in certs && r == Ok(certs[actor.user])
              case Err(e) => View() == old(View()) && r == Err(e)
    {
      if actor.user !in users || !users[actor.user].active || actor.credential != users[actor.user].credential {
        return Err(Unauthenticated());
      }
      var version := Http.RequireVersion(ifMatch, if actor.user in certs then certs[actor.user].version else 1);
      if version.Fail? { return Err(version.error); }
      if actor.user in certs && certs[actor.user].state in {Pending, Approved} {
        return Err(Conflict("CERTIFICATION_NOT_EDITABLE"));
      }
      var row := if actor.user in certs then certs[actor.user] else Cert(Pending, 1);
      row := row.(state := Pending);
      row := row.(version := row.version + 1);
      certs := certs[actor.user := row];
      r := Ok(row);
    }

    method AssignCounselor(actor: Actor, c: CaseId, counselor: UserId, grant: bool, ifMatch: Option<string>)
      returns (r: Result<Case>)
      modifies this`cases, this`grants
      ensures match Assign(old(View()), actor, c, counselor, grant, ifMatch)
              case Ok(s) => View() == s && c in cases && r == Ok(cases[c])
              case Err(e) => View() == old(View()) && r == Err(e)
    {
      if !IsAdministrator(View(), actor) || counselor == actor.user { return Err(Forbidden()); }
      if counselor !in users { return Err(NotFound()); }
      var eligible := CertifiedCounselor(View(), counselor);
      if c !in cases { return Err(NotFound()); }
      if cases[c].learner in {actor.user, counselor} { return Err(Forbidden()); }
      var version := Http.RequireVersion(ifMatch, cases[c].version);
      if version.Fail? { return Err(version.error); }
      if grant && (!eligible || cases[c].lifecycle == Closed) { return Err(Conflict("COUNSELOR_NOT_ELIGIBLE")); }
      if grant {
        grants := grants[(c, counselor) := true];
      } else if (c, counselor) in grants {
        grants := grants[(c, counselor) := false];
      }
      cases := cases[c := cases[c].(version := cases[c].version + 1)];
      r := Ok(cases[c]);
    }

    method TouchSession(token: Token, now: Time) returns (r: Result<()>)
      modifies this`sessions
      ensures match Touch(old(View()), token, now)
              case Ok(s) => View() == s && r.Ok?
              case Err(e) => View() == old(View()) && r == Err(e)
    {
      if !Recorded(View(), token, now) { return Err(Unauthenticated()); }
      var seen := sessions[token].lastSeen;
      sessions := sessions[token := sessions[token].(lastSeen := if now > seen then now else seen)];
      r := Ok(());
    }

    /** The new session is issued inside a savepoint: a refusal restores the old one. */
    method SignIn(previous: Token, user: UserId, token: Token, now: Time) returns (r: Result<Actor>)
      modifies this`sessions
      ensures match Login(old(View()), previous, user, token, now)
              case Ok(s) => View() == s && r == ResolveActor(s, token, now)
              case Err(e) => View() == old(View()) && r == Err(e)
    {
      if !Recorded(View(), previous, now) { return Err(Unauthenticated()); }
      if user !in users || !users[user].active { return Err(AppError(401, "INVALID_CREDENTIALS")); }
      var savepoint := sessions;
      sessions := sessions[previous := sessions[previous].(revoked := true)];
      sessions := sessions[token := Issued(Some(user), users[user].credential, now)];
      r := ResolveActor(View(), token, now);
      if r.Err? || !users[user].profiled {
        sessions := savepoint;
        r := Err(AppError(401, "INVALID_CREDENTIALS"));
      }
    }

    method SignOut(actor: Actor, token: Token, now: Time) returns (r: Result<()>)
      modifies this`sessions
      ensures match Logout(old(View()), actor, token, now)
              case Ok(s) => View() == s && r.Ok?
              case Err(e) => View() == old(View()) && r == Err(e)
    {
      if !Recorded(View(), token, now) || sessions[token].user != Some(actor.user) { return Err(Unauthenticated()); }
      sessions := sessions[token := sessions[token].(revoked := true)];
      r := Ok(());
    }
  }
}
