/** The SQLite identity store: rows under a primary key and unique constraints, changed by single statements. */
module SqliteIdentity {
  import opened Json
  import opened Identity

  predicate Verifies(hash: Hash, password: string) {
    hash.Salted? && hash == Salted(hash.salt, password)
  }

  ghost function AfterAuthenticate(accounts: Accounts, email: string, password: string): Reply {
    if id :| id in accounts && accounts[id].view.email == email then
      var row := accounts[id];
      if row.view.active && Verifies(row.hash, password) then Found(row.view) else Nothing
    else Nothing
  }

  /** INSERT: None when the primary key or the unique email is taken. */
  function Insert(accounts: Accounts, row: Account): Option<Accounts> {
    if row.view.id in accounts || EmailTaken(accounts, row.view.email) then None
    else Some(accounts[row.view.id := row])
  }

  /** UPDATE under the primary key and a revision: the rows it changes, None when the email belongs to another row. */
  function Update(accounts: Accounts, row: Account, expected: nat): Option<(Accounts, nat)> {
    var view := row.view;
    if view.id !in accounts || accounts[view.id].view.revision != expected then Some((accounts, 0))
    else if TakenByOther(accounts, view.id, view.email) then None
    else Some((accounts[view.id := row], 1))
  }

  /** INSERT OR REPLACE: rows that share the primary key or the unique session identifier go. */
  function Replace(sessions: Sessions, session: Session): Sessions {
    (sessions - Named(sessions, session.sessionId))[session.token := session]
  }

  ghost function Apply(rules: Rules, s: Store, op: Op): (Store, Reply) {
    match op
    case Create(id, email, password, profile, salt, at) =>
      var view := NewView(rules, id, email, profile, at);
      if !rules.accepts(view.email, profile) then (s, Failed(InvalidProfile))
      else
        (match Insert(s.accounts, Account(view, Salted(salt, password)))
         case None => (s, Nothing)
         case Some(accounts) => (s.(accounts := accounts), Found(view)))
    case Seed(id, email, password, profile, salt, at) =>
      var view := NewView(rules, id, email, profile, at);
      if TakenByOther(s.accounts, id, view.email) then (s, Failed(SeedEmailTaken))
      else if id in s.accounts then (s, Found(s.accounts[id].view))
      else if !rules.accepts(view.email, profile) then (s, Failed(InvalidProfile))
      else
        (match Insert(s.accounts, Account(view, Salted(salt, password)))
         case None => (s, Failed(SeedEmailTaken))
         case Some(accounts) => (s.(accounts := accounts), Found(view)))
    case Save(view, hashes, expected) =>
      if !rules.accepts(view.email, view.profile) then (s, Failed(InvalidProfile))
      else
        (match Update(s.accounts, Account(view, hashes.sqlite), expected)
         case None => (s, Failed(DuplicateEmail))
         case Some((accounts, changed)) =>
           if changed == 1 then (s.(accounts := accounts), Finished)
           else if view.id !in s.accounts then (s, Failed(Missing))
           else (s, Failed(Conflict(s.accounts[view.id].view.revision))))
    case Authenticate(email, password) => (s, AfterAuthenticate(s.accounts, rules.normalise(email), password))
    case SaveSession(session) => (s.(sessions := Replace(s.sessions, session)), Finished)
    case GetSession(token, at) => (s, Live(s.sessions, token, at))
    case Revoke(token, at) => (s.(sessions := AfterRevoke(s.sessions, token, at).0), AfterRevoke(s.sessions, token, at).1)
    case RevokeById(sessionId, expected, at) =>
      var (sessions, reply) := AfterRevokeById(s.sessions, sessionId, expected, at);
      (s.(sessions := sessions), reply)
  }

  class SQLiteIdentityRepository {
    const rules: Rules
    var accounts: Accounts
    var sessions: Sessions

    ghost function State(): Store
      reads this
    {
      Store(accounts, sessions)
    }

    ghost predicate Valid()
      reads this
    {
      Sound(State())
    }

    constructor (rules: Rules)
      ensures this.rules == rules && State() == Store(map[], map[]) && Valid()
    {
      this.rules := rules;
      accounts, sessions := map[], map[];
    }

    method CreateAccount(
      id: Id, email: string, password: string, profile: Profile, salt: string, at: int) returns (reply: Reply)
      modifies this`accounts
      ensures (State(), reply) == Apply(rules, old(State()), Create(id, email, password, profile, salt, at))
    {
      var view := View(id, rules.normalise(email), profile, true, 1, at);
      if !rules.accepts(view.email, profile) {
        return Failed(InvalidProfile);
      }
      var inserted := Insert(accounts, Account(view, Salted(salt, password)));
      if inserted.None? {
        return Nothing;
      }
      accounts := inserted.value;
      return Found(view);
    }

    method EnsureSeedAccount(
      id: Id, email: string, password: string, profile: Profile, salt: string, at: int) returns (reply: Reply)
      modifies this`accounts
      ensures (State(), reply) == Apply(rules, old(State()), Seed(id, email, password, profile, salt, at))
    {
      var normalised := rules.normalise(email);
      if TakenByOther(accounts, id, normalised) {
        return Failed(SeedEmailTaken);
      }
      if id in accounts {
        return Found(accounts[id].view);
      }
      var view := View(id, normalised, profile, true, 1, at);
      if !rules.accepts(normalised, profile) {
        return Failed(InvalidProfile);
      }
      var inserted := Insert(accounts, Account(view, Salted(salt, password)));
      if inserted.None? {
        return Failed(SeedEmailTaken);
      }
      accounts := inserted.value;
      return Found(view);
    }

    /** Every column is set, the password hash included. */
    method SaveAccount(account: Account, expected: nat, ghost elsewhere: Hash) returns (reply: Reply)
      modifies this`accounts
      ensures (State(), reply) ==
        Apply(rules, old(State()), Save(account.view, Hashes(elsewhere, account.hash), expected))
    {
      var view := account.view;
      if !rules.accepts(view.email, view.profile) {
        return Failed(InvalidProfile);
      }
      var updated := Update(accounts, account, expected);
      if updated.None? {
        return Failed(DuplicateEmail);
      }
      if updated.value.1 != 1 {
        if view.id !in accounts {
          return Failed(Missing);
        }
        return Failed(Conflict(accounts[view.id].view.revision));
      }
      accounts := updated.value.0;
      return Finished;
    }

    method Login(email: string, password: string) returns (reply: Reply)
      requires Valid()
      ensures reply == Apply(rules, State(), Authenticate(email, password)).1
    {
      var normalised := rules.normalise(email);
      if !exists id | id in accounts :: accounts[id].view.email == normalised {
        return Nothing;
      }
      var id :| id in accounts && accounts[id].view.email == normalised;
      var row := accounts[id];
      if !row.view.active || !Verifies(row.hash, password) {
        return Nothing;
      }
      return Found(row.view);
    }

    method StoreSession(session: Session)
      modifies this`sessions
      ensures (State(), Finished) == Apply(rules, old(State()), SaveSession(session))
    {
      sessions := Replace(sessions, session);
    }

    method FindSession(token: Token, at: int) returns (reply: Reply)
      ensures (State(), reply) == Apply(rules, State(), GetSession(token, at))
    {
      if token !in sessions {
        return Nothing;
      }
      var row := sessions[token];
      if row.revokedAt.Some? || row.expiresAt <= at {
        return Nothing;
      }
      return FoundSession(row);
    }

    method RevokeSession(token: Token, at: int) returns (reply: Reply)
      modifies this`sessions
      ensures (State(), reply) == Apply(rules, old(State()), Revoke(token, at))
    {
      var matched := set t | t in sessions && t == token && sessions[t].revokedAt.None?;
      sessions := map t | t in sessions :: if t in matched then Revoked(sessions[t], at) else sessions[t];
      if token in matched {
        assert matched == {token};
        assert sessions == old(sessions)[token := Revoked(old(sessions)[token], at)];
      } else {
        assert matched == {};
        assert sessions == old(sessions);
      }
      return Answer(|matched| == 1);
    }

    /** One UPDATE under the session identifier and revision; the reason for changing no row is looked up afterwards. */
    method RevokeSessionById(sessionId: string, expected: nat, at: int) returns (reply: Reply)
      requires Valid()
      modifies this`sessions
      ensures (State(), reply) == Apply(rules, old(State()), RevokeById(sessionId, expected, at))
    {
      ghost var named := Named(sessions, sessionId);
      var matched := set t |
        t in sessions && sessions[t].sessionId == sessionId && sessions[t].revision == expected && sessions[t].revokedAt.None?;
      assert matched <= named;
      if matched == {} {
        if !exists t | t in sessions :: sessions[t].sessionId == sessionId {
          assert named == {};
          return Failed(Missing);
        }
        var token :| token in sessions && sessions[token].sessionId == sessionId;
        assert token in named;
        return Failed(if sessions[token].revision != expected then Stale else NotActive);
      }
      var token :| token in matched;
      assert token in named;
      sessions := map t | t in sessions :: if t in matched then Revoked(sessions[t], at) else sessions[t];
      assert matched == {token} == named;
      assert sessions == old(sessions)[token := Revoked(old(sessions)[token], at)];
      return FoundSession(sessions[token]);
    }
  }
}
