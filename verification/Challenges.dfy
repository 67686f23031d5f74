/** Emailed registration codes and reset links (modules/identity/registration.py). */
module Challenges {
  import opened Common

  type Email = string
  type Secret = nat
  type UserId = nat
  /** Seconds since the epoch. */
  type Time = int

  const MINUTE: int := 60

  datatype Purpose = Registration | Reset

  /** `issue` numbers the mails sent; it is not stored, and tells one secret from the next in the same row. */
  datatype Challenge = Challenge(secret: Secret, user: Option<UserId>, expires: Time, consumed: bool, attempts: nat,
      issue: nat)

  datatype Account = Account(login: Email, active: bool, credential: nat)

  /** What is compared with a secret, and what a secret brings about. */
  datatype Entry = Guessed(issue: nat, at: Time) | Accepted(issue: nat, at: Time)

  datatype State = State(rows: map<(Email, Purpose), Challenge>, accounts: map<UserId, Account>, issued: nat,
      log: seq<Entry>)

  function Invalid(): AppError { AppError(400, "INVALID_CHALLENGE") }

  // ---- specification: the answer and the committed state; an error still commits what was written before it ----

  predicate Registered(s: State, email: Email) {
    exists u :: u in s.accounts && s.accounts[u].login == email
  }

  ghost predicate Owns(s: State, email: Email, user: Option<UserId>) {
    match user
    case Some(u) => u in s.accounts && s.accounts[u].login == email && s.accounts[u].active
    case None => forall u :: u in s.accounts && s.accounts[u].login == email ==> !s.accounts[u].active
  }

  /** A new mail replaces whatever the row held. */
  function Requested(s: State, email: Email, purpose: Purpose, secret: Secret, user: Option<UserId>, now: Time): State {
    var expires := now + if purpose == Registration then 5 * MINUTE else 15 * MINUTE;
    var row := Challenge(secret, if purpose == Reset then user else None, expires, false, 0, s.issued);
    s.(rows := s.rows[(email, purpose) := row], issued := s.issued + 1)
  }

  predicate Usable(s: State, email: Email, now: Time) {
    var k := (email, Registration);
    k in s.rows && !s.rows[k].consumed && s.rows[k].expires > now && s.rows[k].attempts < 5
  }

  function Attempted(s: State, email: Email, now: Time): State
    requires Usable(s, email, now)
  {
    var k := (email, Registration);
    s.(rows := s.rows[k := s.rows[k].(attempts := s.rows[k].attempts + 1)],
        log := s.log + [Guessed(s.rows[k].issue, now)])
  }

  function Joined(t: State, email: Email, user: UserId, now: Time): State
    requires (email, Registration) in t.rows
  {
    var k := (email, Registration);
    t.(rows := t.rows[k := t.rows[k].(consumed := true)], accounts := t.accounts[user := Account(email, true, 1)],
       log := t.log + [Accepted(t.rows[k].issue, now)])
  }

  /** A code is compared only after the attempt is counted; the account and the consumption share a savepoint. */
  function Register(s: State, email: Email, code: Secret, named: bool, user: UserId, now: Time): (State, Result<()>) {
    if !Usable(s, email, now) then (s, Err(Invalid()))
    else
      var k, t := (email, Registration), Attempted(s, email, now);
      if code != s.rows[k].secret then (t, Err(Invalid()))
      else if !named then (t, Err(AppError(422, "VALIDATION_ERROR")))
      else if Registered(s, email) then (t, Err(Conflict("EMAIL_REGISTERED")))
      else (Joined(t, email, user, now), Ok(()))
  }

  /** The row a reset link belongs to is found by its token alone. */
  function ResetPassword(s: State, email: Email, token: Secret, now: Time): (State, Result<()>) {
    var k := (email, Reset);
    if k !in s.rows || s.rows[k].secret != token then (s, Err(Invalid()))
    else if s.rows[k].consumed || s.rows[k].expires <= now || s.rows[k].user.None? then (s, Err(Invalid()))
    else
      var u := s.rows[k].user.value;
      if u !in s.accounts || !s.accounts[u].active then (s, Err(Invalid()))
      else (s.(rows := s.rows[k := s.rows[k].(consumed := true)],
               accounts := s.accounts[u := s.accounts[u].(credential := s.accounts[u].credential + 1)],
               log := s.log + [Accepted(s.rows[k].issue, now)]), Ok(()))
  }

  // ---- runs ----

  datatype Event =
    | Mail(email: Email, purpose: Purpose, secret: Secret, owner: Option<UserId>, now: Time)
    | Try(email: Email, code: Secret, named: bool, user: UserId, now: Time)
    | Use(email: Email, token: Secret, now: Time)
    /** Accounts are switched on and off elsewhere. */
    | Switch(user: UserId, active: bool)

  /** New accounts get fresh identifiers, and a reset mail names the address's active account, if any. */
  ghost function Step(s: State, e: Event): State {
    match e
    case Mail(email, purpose, secret, user, now) =>
        if Owns(s, email, user) then Requested(s, email, purpose, secret, user, now) else s
    case Try(email, code, named, user, now) =>
        if user in s.accounts then s else Register(s, email, code, named, user, now).0
    case Use(email, token, now) => ResetPassword(s, email, token, now).0
    case Switch(user, active) =>
      if user in s.accounts then s.(accounts := s.accounts[user := s.accounts[user].(active := active)]) else s
  }

  ghost function Run(s: State, es: seq<Event>): State {
    if es == [] then s else Step(Run(s, es[..|es| - 1]), es[|es| - 1])
  }

  const Empty: State := State(map[], map[], 0, [])

  function Count(log: seq<Entry>, e: nat, accepted: bool): nat {
    if log == [] then 0
    else
      var last := log[|log| - 1];
      Count(log[..|log| - 1], e, accepted) + if last.issue == e && last.Accepted? == accepted then 1 else 0
  }

  ghost predicate RowOk(log: seq<Entry>, issued: nat, k: (Email, Purpose), r: Challenge) {
    && r.issue < issued && r.attempts <= 5
    && Count(log, r.issue, false) == r.attempts && Count(log, r.issue, true) == (if r.consumed then 1 else 0)
    && (k.1 == Reset ==> r.attempts == 0)
  }

  ghost predicate RowsOk(s: State) {
    && (forall k :: k in s.rows ==> RowOk(s.log, s.issued, k, s.rows[k]))
    && forall k, l :: k in s.rows && l in s.rows && s.rows[k].issue == s.rows[l].issue ==> k == l
  }

  ghost predicate LogOk(log: seq<Entry>, issued: nat) {
    && (forall n :: Count(log, n, false) <= 5 && Count(log, n, true) <= 1)
    && forall n :: n >= issued ==> Count(log, n, false) == 0 && Count(log, n, true) == 0
  }

  ghost predicate LoginsOk(accounts: map<UserId, Account>) {
    forall u, v :: u in accounts && v in accounts && accounts[u].login == accounts[v].login ==> u == v
  }

  ghost predicate Inv(s: State) {
    RowsOk(s) && LogOk(s.log, s.issued) && LoginsOk(s.accounts)
  }

  lemma CountAppend(log: seq<Entry>, x: Entry)
    ensures forall n, a :: Count(log + [x], n, a) == Count(log, n, a) + if x.issue == n && x.Accepted? == a then 1
        else 0
  {
    assert (log + [x])[..|log|] == log;
  }

  /** Writing one row and one log entry about it. */
  lemma LogStep(s: State, k: (Email, Purpose), r: Challenge, x: Entry)
    requires RowsOk(s) && LogOk(s.log, s.issued) && k in s.rows && x.issue == s.rows[k].issue == r.issue
    requires RowOk(s.log + [x], s.issued, k, r)
    ensures RowsOk(s.(rows := s.rows[k := r], log := s.log + [x])) && LogOk(s.log + [x], s.issued)
  {
    CountAppend(s.log, x);
    var after := s.(rows := s.rows[k := r], log := s.log + [x]);
    forall l | l in after.rows ensures RowOk(after.log, after.issued, l, after.rows[l]) {
      if l != k { assert s.rows[l].issue != x.issue && RowOk(s.log, s.issued, l, s.rows[l]); }
    }
  }

  lemma MailInv(s: State, e: Event)
    requires Inv(s) && e.Mail?
    ensures Inv(Step(s, e))
  {
    var after := Step(s, e);
    forall k | k in after.rows ensures RowOk(after.log, after.issued, k, after.rows[k]) {
      if k != (e.email, e.purpose) { assert RowOk(s.log, s.issued, k, s.rows[k]); }
    }
    forall k, l | k in after.rows && l in after.rows && after.rows[k].issue == after.rows[l].issue ensures k == l {
      assert k in s.rows ==> s.rows[k].issue < s.issued;
      assert l in s.rows ==> s.rows[l].issue < s.issued;
    }
  }

  lemma AttemptInv(s: State, email: Email, now: Time)
    requires Inv(s) && Usable(s, email, now)
    ensures Inv(Attempted(s, email, now))
  {
    var k, t := (email, Registration), Attempted(s, email, now);
    var x := Guessed(s.rows[k].issue, now);
    assert RowOk(s.log, s.issued, k, s.rows[k]);
    CountAppend(s.log, x);
    LogStep(s, k, t.rows[k], x);
  }

  lemma JoinedInv(t: State, email: Email, user: UserId, now: Time)
    requires Inv(t) && (email, Registration) in t.rows && !t.rows[(email, Registration)].consumed
        && !Registered(t, email) && user !in t.accounts
    ensures Inv(Joined(t, email, user, now))
  {
    var k := (email, Registration);
    var y := Accepted(t.rows[k].issue, now);
    assert RowOk(t.log, t.issued, k, t.rows[k]);
    CountAppend(t.log, y);
    LogStep(t, k, t.rows[k].(consumed := true), y);
  }

  lemma TryInv(s: State, e: Event)
    requires Inv(s) && e.Try?
    ensures Inv(Step(s, e))
  {
    if Usable(s, e.email, e.now) && e.user !in s.accounts {
      AttemptInv(s, e.email, e.now);
      if Register(s, e.email, e.code, e.named, e.user, e.now).1.Ok? {
        JoinedInv(Attempted(s, e.email, e.now), e.email, e.user, e.now);
      }
    }
  }

  lemma UseInv(s: State, e: Event)
    requires Inv(s) && e.Use?
    ensures Inv(Step(s, e))
  {
    var k := (e.email, Reset);
    if ResetPassword(s, e.email, e.token, e.now).1.Ok? {
      var x := Accepted(s.rows[k].issue, e.now);
      assert RowOk(s.log, s.issued, k, s.rows[k]);
      CountAppend(s.log, x);
      LogStep(s, k, s.rows[k].(consumed := true), x);
    }
  }

  lemma {:induction false} RunInv(es: seq<Event>)
    ensures Inv(Run(Empty, es))
  {
    if es != [] {
      RunInv(es[..|es| - 1]);
      var s, e := Run(Empty, es[..|es| - 1]), es[|es| - 1];
      match e {
        case Mail(_, _, _, _, _) => MailInv(s, e);
        case Try(_, _, _, _, _) => TryInv(s, e);
        case Use(_, _, _) => UseInv(s, e);
        case Switch(_, _) =>
      }
    }
  }

  /** Over every run: five guesses at most for each mailed secret, one acceptance at most, and one account per
      address. */
  lemma SecretsAreSpentOnce(es: seq<Event>, issue: nat, u: UserId, v: UserId)
    ensures var s := Run(Empty, es);
      && Count(s.log, issue, false) <= 5 && Count(s.log, issue, true) <= 1
      && (u in s.accounts && v in s.accounts && s.accounts[u].login == s.accounts[v].login ==> u == v)
  {
    RunInv(es);
  }

  /** Once accepted, a secret changes no account again, whoever presents it and whenever. */
  lemma SpentStaysSpent(es: seq<Event>, k: (Email, Purpose), e: Event)
    requires k in Run(Empty, es).rows && Count(Run(Empty, es).log, Run(Empty, es).rows[k].issue, true) == 1
    requires (e.Try? && k == (e.email, Registration)) || (e.Use? && k == (e.email, Reset))
    ensures Step(Run(Empty, es), e) == Run(Empty, es)
  {
    RunInv(es);
    var s := Run(Empty, es);
    assert RowOk(s.log, s.issued, k, s.rows[k]);
  }

  /** After five guesses the right code is refused like a wrong one, until a new mail is sent. */
  lemma FiveGuessesEnd(es: seq<Event>, e: Event)
    requires e.Try? && (e.email, Registration) in Run(Empty, es).rows
    requires Count(Run(Empty, es).log, Run(Empty, es).rows[(e.email, Registration)].issue, false) == 5
    ensures Register(Run(Empty, es), e.email, e.code, e.named, e.user, e.now) == (Run(Empty, es), Err(Invalid()))
  {
    RunInv(es);
    var s, k := Run(Empty, es), (e.email, Registration);
    assert RowOk(s.log, s.issued, k, s.rows[k]);
  }

  // ---- the service over stored rows ----

  class ChallengeStore {
    var rows: map<(Email, Purpose), Challenge>
    var accounts: map<UserId, Account>
    var issued: nat
    ghost var log: seq<Entry>

    ghost function View(): State reads this { State(rows, accounts, issued, log) }

    constructor ()
      ensures View() == Empty
    {
      rows, accounts, issued, log := map[], map[], 0, [];
    }

    /** The mail is sent inside a savepoint: when delivery fails the previous row is back. */
    method RequestEmail(email: Email, purpose: Purpose, secret: Secret, user: Option<UserId>, delivered: bool,
                        now: Time)
      modifies this`rows, this`issued
      ensures View() == if delivered then Requested(old(View()), email, purpose, secret, user, now) else old(View())
    {
      var savepoint := rows;
      var k := (email, purpose);
      var row := if k in rows then rows[k] else Challenge(secret, None, now, false, 0, issued);
      row := row.(consumed := false, attempts := 0, issue := issued, secret := secret);
      row := if purpose == Registration then row.(user := None, expires := now + 5 * MINUTE)
          else row.(user := user, expires := now + 15 * MINUTE);
      rows := rows[k := row];
      if delivered { issued := issued + 1; } else { rows := savepoint; }
    }

    method SignUp(email: Email, code: Secret, named: bool, user: UserId, now: Time) returns (r: Result<()>)
      modifies this`rows, this`accounts, this`log
      ensures (View(), r) == Register(old(View()), email, code, named, user, now)
    {
      var k := (email, Registration);
      if k !in rows || rows[k].consumed || rows[k].expires <= now || rows[k].attempts >= 5 { return Err(Invalid()); }
      rows := rows[k := rows[k].(attempts := rows[k].attempts + 1)];
      log := log + [Guessed(rows[k].issue, now)];
      if code != rows[k].secret { return Err(Invalid()); }
      if !named { return Err(AppError(422, "VALIDATION_ERROR")); }
      if exists u :: u in accounts && accounts[u].login == email { return Err(Conflict("EMAIL_REGISTERED")); }
      accounts := accounts[user := Account(email, true, 1)];
      rows := rows[k := rows[k].(consumed := true)];
      log := log + [Accepted(rows[k].issue, now)];
      r := Ok(());
    }

    method ChangePassword(email: Email, token: Secret, now: Time) returns (r: Result<()>)
      modifies this`rows, this`accounts, this`log
      ensures (View(), r) == ResetPassword(old(View()), email, token, now)
    {
      var k := (email, Reset);
      if k !in rows || rows[k].secret != token { return Err(Invalid()); }
      if rows[k].consumed || rows[k].expires <= now || rows[k].user.None? { return Err(Invalid()); }
      var u := rows[k].user.value;
      if u !in accounts || !accounts[u].active { return Err(Invalid()); }
      accounts := accounts[u := accounts[u].(credential := accounts[u].credential + 1)];
      rows := rows[k := rows[k].(consumed := true)];
      log := log + [Accepted(rows[k].issue, now)];
      r := Ok(());
    }
  }
}
