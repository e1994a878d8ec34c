/** Claimant accounts and sessions, as both identity stores know them. */
module Identity {
  import opened Json

  type Id = string
  type Token = string

  /** The hash texts that the fixture can compare; beyond ASCII its comparison raises an exception. */
  type Ascii = s: string | forall c | c in s :: c < '\U{80}'

  /**
   Hashing is taken to be injective: the fixture salts with the customer, SQLite with random bytes. Any
   other text verifies no password in either store.
   */
  datatype Hash =
    | ByCustomer(customer: Id, password: string)
    | Salted(salt: string, password: string)
    | OtherText(text: Ascii)

  datatype Profile = Profile(displayName: string, legalName: string, phone: string)

  /** An account without its credentials. */
  datatype View = View(id: Id, email: string, profile: Profile, active: bool, revision: nat, updatedAt: int)

  datatype Account = Account(view: View, hash: Hash)

  /** The credentials of a saved account, as the caller has them for each of the stores. */
  datatype Hashes = Hashes(fixture: Hash, sqlite: Hash)

  /** The password that a stored hash verifies, in the one store and in the other. */
  function FixturePassword(id: Id, h: Hash): Option<string> {
    if h.ByCustomer? && h.customer == id then Some(h.password) else None
  }

  function SqlitePassword(h: Hash): Option<string> {
    if h.Salted? then Some(h.password) else None
  }

  datatype Session = Session(
    token: Token, sessionId: string, customer: Id, createdAt: int, expiresAt: int, revokedAt: Option<int>, revision: nat,
    updatedAt: int)

  /** How emails are normalised, and which profiles the domain accepts. */
  datatype Rules = Rules(normalise: string -> string, accepts: (string, Profile) -> bool)

  datatype Op =
    | Create(id: Id, email: string, password: string, profile: Profile, salt: string, at: int)
    | Seed(id: Id, email: string, password: string, profile: Profile, salt: string, at: int)
    | Save(account: View, hashes: Hashes, expected: nat)
    | Authenticate(email: string, password: string)
    | SaveSession(session: Session)
    | GetSession(token: Token, at: int)
    | Revoke(token: Token, at: int)
    | RevokeById(sessionId: string, expected: nat, at: int)

  datatype Error =
    InvalidProfile | SeedEmailTaken | Missing | Conflict(revision: nat) | DuplicateEmail | Stale | NotActive

  datatype Reply =
    | Found(account: View)
    | FoundSession(session: Session)
    | Nothing
    | Finished
    | Answer(yes: bool)
    | Failed(error: Error)

  type Accounts = map<Id, Account>
  type Sessions = map<Token, Session>

  datatype Store = Store(accounts: Accounts, sessions: Sessions)

  predicate EmailTaken(accounts: Accounts, email: string) {
    exists id | id in accounts :: accounts[id].view.email == email
  }

  predicate TakenByOther(accounts: Accounts, id: Id, email: string) {
    exists other | other in accounts :: other != id && accounts[other].view.email == email
  }

  function NewView(rules: Rules, id: Id, email: string, profile: Profile, at: int): View {
    View(id, rules.normalise(email), profile, true, 1, at)
  }

  function Revoked(s: Session, at: int): Session {
    s.(revokedAt := Some(at), revision := s.revision + 1, updatedAt := at)
  }

  /** The sessions that a session identifier names. */
  function Named(sessions: Sessions, sessionId: string): set<Token> {
    set t | t in sessions && sessions[t].sessionId == sessionId
  }

  ghost predicate UniqueEmails(accounts: Accounts) {
    forall a, b | a in accounts && b in accounts && accounts[a].view.email == accounts[b].view.email :: a == b
  }

  ghost predicate UniqueSessionIds(sessions: Sessions) {
    forall a, b | a in sessions && b in sessions && sessions[a].sessionId == sessions[b].sessionId :: a == b
  }

  ghost predicate Keyed(s: Store) {
    (forall id | id in s.accounts :: s.accounts[id].view.id == id) && forall t | t in s.sessions :: s.sessions[t].token == t
  }

  /** What both stores keep. */
  ghost predicate Sound(s: Store) {
    UniqueEmails(s.accounts) && UniqueSessionIds(s.sessions) && Keyed(s)
  }

  // Sessions, which both stores keep alike.

  function Live(sessions: Sessions, token: Token, at: int): Reply {
    if token in sessions && sessions[token].revokedAt.None? && sessions[token].expiresAt > at then
      FoundSession(sessions[token])
    else Nothing
  }

  function AfterRevoke(sessions: Sessions, token: Token, at: int): (Sessions, Reply) {
    if token in sessions && sessions[token].revokedAt.None? then
      (sessions[token := Revoked(sessions[token], at)], Answer(true))
    else (sessions, Answer(false))
  }

  ghost function AfterRevokeById(sessions: Sessions, sessionId: string, expected: nat, at: int): (Sessions, Reply) {
    if Named(sessions, sessionId) == {} then (sessions, Failed(Missing))
    else
      var token :| token in Named(sessions, sessionId);
      var s := sessions[token];
      if s.revision != expected then (sessions, Failed(Stale))
      else if s.revokedAt.Some? then (sessions, Failed(NotActive))
      else (sessions[token := Revoked(s, at)], FoundSession(Revoked(s, at)))
  }
}
