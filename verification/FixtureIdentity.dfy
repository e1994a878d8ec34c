/** The in-memory identity store: dictionaries of accounts and sessions. */
module FixtureIdentity {
  import opened Json
  import opened Identity

  predicate Opens(account: Account, email: string, password: string) {
    account.view.active && account.view.email == email && account.hash == ByCustomer(account.view.id, password)
  }

  ghost function AfterAuthenticate(accounts: Accounts, email: string, password: string): Reply {
    if id :| id in accounts && Opens(accounts[id], email, password) then Found(accounts[id].view) else Nothing
  }

  /** One operation on the dictionaries. */
  ghost function Apply(rules: Rules, s: Store, op: Op): (Store, Reply) {
    match op
    case Create(id, email, password, profile, _, at) =>
      var view := NewView(rules, id, email, profile, at);
      if EmailTaken(s.accounts, view.email) then (s, Nothing)
      else if !rules.accepts(view.email, profile) then (s, Failed(InvalidProfile))
      else (s.(accounts := s.accounts[id := Account(view, ByCustomer(id, password))]), Found(view))
    case Seed(id, email, password, profile, _, at) =>
      var view := NewView(rules, id, email, profile, at);
      if TakenByOther(s.accounts, id, view.email) then (s, Failed(SeedEmailTaken))
      else if id in s.accounts then (s, Found(s.accounts[id].view))
      else if !rules.accepts(view.email, profile) then (s, Failed(InvalidProfile))
      else (s.(accounts := s.accounts[id := Account(view, ByCustomer(id, password))]), Found(view))
    case Save(view, hashes, expected) =>
      if !rules.accepts(view.email, view.profile) then (s, Failed(InvalidProfile))
      else if view.id !in s.accounts then (s, Failed(Missing))
      else
        var current := s.accounts[view.id];
        if current.view.revision != expected || view.revision != expected + 1 then
          (s, Failed(Conflict(current.view.revision)))
        else if TakenByOther(s.accounts, view.id, view.email) then (s, Failed(DuplicateEmail))
        else (s.(accounts := s.accounts[view.id := Account(view, hashes.fixture)]), Finished)
    case Authenticate(email, password) => (s, AfterAuthenticate(s.accounts, rules.normalise(email), password))
    case SaveSession(session) => (s.(sessions := s.sessions[session.token := session]), Finished)
    case GetSession(token, at) => (s, Live(s.sessions, token, at))
    case Revoke(token, at) => (s.(sessions := AfterRevoke(s.sessions, token, at).0), AfterRevoke(s.sessions, token, at).1)
    case RevokeById(sessionId, expected, at) =>
      var (sessions, reply) := AfterRevokeById(s.sessions, sessionId, expected, at);
      (s.(sessions := sessions), reply)
  }

  class FixtureIdentityRepository {
    const rules: Rules
    var accounts: Accounts
    var sessions: Sessions

    ghost predicate Valid()
      reads this
    {
      Sound(State())
    }

    ghost function State(): Store
      reads this
    {
      Store(accounts, sessions)
    }

    constructor (rules: Rules)
      ensures this.rules == rules && State() == Store(map[], map[]) && Valid()
    {
      this.rules := rules;
      accounts, sessions := map[], map[];
    }

    method CreateAccount(
      id: Id, email: string, password: string, profile: Profile, ghost salt: string, at: int) returns (reply: Reply)
      modifies this`accounts
      ensures (State(), reply) == Apply(rules, old(State()), Create(id, email, password, profile, salt, at))
    {
      var normalised := rules.normalise(email);
      if exists other | other in accounts :: accounts[other].view.email == normalised {
        return Nothing;
      }
      var view := View(id, normalised, profile, true, 1, at);
      if !rules.accepts(normalised, profile) {
        return Failed(InvalidProfile);
      }
      accounts := accounts[id := Account(view, ByCustomer(id, password))];
      return Found(view);
    }

    method EnsureSeedAccount(id: Id, email: string, password: string, profile: Profile, ghost salt: string, at: int)
      returns (reply: Reply)
      modifies this`accounts
      ensures (State(), reply) == Apply(rules, old(State()), Seed(id, email, password, profile, salt, at))
    {
      var normalised := rules.normalise(email);
      if exists other | other in accounts :: other != id && accounts[other].view.email == normalised {
        return Failed(SeedEmailTaken);
      }
      if id in accounts {
        return Found(accounts[id].view);
      }
      var view := View(id, normalised, profile, true, 1, at);
      if !rules.accepts(normalised, profile) {
        return Failed(InvalidProfile);
      }
      accounts := accounts[id := Account(view, ByCustomer(id, password))];
      return Found(view);
    }

    /** The whole record is stored, its password hash included. */
    method SaveAccount(account: Account, expected: nat, ghost elsewhere: Hash) returns (reply: Reply)
      modifies this`accounts
      ensures (State(), reply) ==
        Apply(rules, old(State()), Save(account.view, Hashes(account.hash, elsewhere), expected))
    {
      var view := account.view;
      if !rules.accepts(view.email, view.profile) {
        return Failed(InvalidProfile);
      }
      if view.id !in accounts {
        return Failed(Missing);
      }
      var current := accounts[view.id];
      if current.view.revision != expected || view.revision != expected + 1 {
        return Failed(Conflict(current.view.revision));
      }
      if exists other | other in accounts :: other != view.id && accounts[other].view.email == view.email {
        return Failed(DuplicateEmail);
      }
      accounts := accounts[view.id := account];
      return Finished;
    }

    /** Looks through the accounts one by one. */
    method Login(email: string, password: string) returns (reply: Reply)
      requires Valid()
      ensures reply == Apply(rules, State(), Authenticate(email, password)).1
    {
      var normalised := rules.normalise(email);
      var todo := accounts.Keys;
      while todo != {}
        invariant todo <= accounts.Keys
        invariant forall id | id in accounts.Keys - todo :: !Opens(accounts[id], normalised, password)
        decreases todo
      {
        var id :| id in todo;
        var account := accounts[id];
        if account.view.active && account.view.email == normalised &&
          account.hash == ByCustomer(account.view.id, password)
        {
          return Found(account.view);
        }
        todo := todo - {id};
      }
      return Nothing;
    }

    method StoreSession(session: Session)
      modifies this`sessions
      ensures (State(), Finished) == Apply(rules, old(State()), SaveSession(session))
    {
      sessions := sessions[session.token := session];
    }

    method FindSession(token: Token, at: int) returns (reply: Reply)
      ensures (State(), reply) == Apply(rules, State(), GetSession(token, at))
    {
      if token !in sessions || sessions[token].revokedAt.Some? || sessions[token].expiresAt <= at {
        return Nothing;
      }
      return FoundSession(sessions[token]);
    }

    method RevokeSession(token: Token, at: int) returns (reply: Reply)
      modifies this`sessions
      ensures (State(), reply) == Apply(rules, old(State()), Revoke(token, at))
    {
      if token !in sessions || sessions[token].revokedAt.Some? {
        return Answer(false);
      }
      var s := sessions[token];
      sessions := sessions[token := s.(revokedAt := Some(at), revision := s.revision + 1, updatedAt := at)];
      return Answer(true);
    }

    method RevokeSessionById(sessionId: string, expected: nat, at: int) returns (reply: Reply)
      requires Valid()
      modifies this`sessions
      ensures (State(), reply) == Apply(rules, old(State()), RevokeById(sessionId, expected, at))
    {
      if !exists t | t in sessions :: sessions[t].sessionId == sessionId {
        assert Named(sessions, sessionId) == {};
        return Failed(Missing);
      }
      var token :| token in sessions && sessions[token].sessionId == sessionId;
      assert token in Named(sessions, sessionId);
      var s := sessions[token];
      if s.revision != expected {
        return Failed(Stale);
      }
      if s.revokedAt.Some? {
        return Failed(NotActive);
      }
      var revoked := s.(revokedAt := Some(at), revision := s.revision + 1, updatedAt := at);
      sessions := sessions[token := revoked];
      return FoundSession(revoked);
    }
  }
}
