/** The two identity stores agree: exactly when each operation stays within what both of them check. */
module IdentitySimulation {
  import opened Identity
  import Fixture = FixtureIdentity
  import Sqlite = SqliteIdentity

  /** The same account, whose hashes verify the same password, each in its store, or none in either. */
  predicate SameAccount(f: Account, s: Account) {
    f.view == s.view && SamePassword(f.view.id, Hashes(f.hash, s.hash))
  }

  predicate SamePassword(id: Id, hashes: Hashes) {
    FixturePassword(id, hashes.fixture) == SqlitePassword(hashes.sqlite)
  }

  ghost predicate Related(f: Store, s: Store) {
    f.sessions == s.sessions && f.accounts.Keys == s.accounts.Keys &&
    forall id | id in f.accounts :: SameAccount(f.accounts[id], s.accounts[id])
  }

  /** New account identifiers are random and have not been seen. */
  predicate Fresh(s: Store, op: Op) {
    op.Create? ==> op.id !in s.accounts
  }

  /** The saved profile is acceptable and its account stands at the expected revision. */
  predicate Admitted(rules: Rules, s: Store, view: View, expected: nat) {
    rules.accepts(view.email, view.profile) && view.id in s.accounts && s.accounts[view.id].view.revision == expected
  }

  /**
   What a caller must see to before the call: a created account's profile is acceptable or its email
   free, a saved account carries the next revision and, if its email is free, credentials of one
   password for both stores, a session identifier names one session.
   */
  predicate Proper(rules: Rules, s: Store, op: Op) {
    match op
    case Create(_, email, _, profile, _, _) =>
      rules.accepts(rules.normalise(email), profile) || !EmailTaken(s.accounts, rules.normalise(email))
    case Save(view, hashes, expected) =>
      Admitted(rules, s, view, expected) ==>
        view.revision == expected + 1 &&
        (TakenByOther(s.accounts, view.id, view.email) || SamePassword(view.id, hashes))
    case SaveSession(session) => Named(s.sessions, session.sessionId) <= {session.token}
    case _ => true
  }

  ghost predicate Agree(rules: Rules, f: Store, s: Store, op: Op) {
    var (f', reply) := Fixture.Apply(rules, f, op);
    Sqlite.Apply(rules, s, op).1 == reply && Related(f', Sqlite.Apply(rules, s, op).0)
  }

  lemma {:induction false} SameEmails(f: Store, s: Store)
    requires Related(f, s)
    ensures forall email :: EmailTaken(f.accounts, email) <==> EmailTaken(s.accounts, email)
    ensures forall id, email :: TakenByOther(f.accounts, id, email) <==> TakenByOther(s.accounts, id, email)
  {
  }

  lemma {:induction false} CreateAgrees(rules: Rules, f: Store, s: Store, op: Op)
    requires Related(f, s) && Sound(f) && Fresh(f, op) && op.Create?
    ensures Agree(rules, f, s, op) <==> Proper(rules, f, op)
  {
  }

  lemma {:induction false} SeedAgrees(rules: Rules, f: Store, s: Store, op: Op)
    requires Related(f, s) && Sound(f) && op.Seed?
    ensures Agree(rules, f, s, op)
  {
    SameEmails(f, s);
    if op.id in f.accounts {
      assert SameAccount(f.accounts[op.id], s.accounts[op.id]);
    } else if EmailTaken(s.accounts, rules.normalise(op.email)) {
      assert TakenByOther(s.accounts, op.id, rules.normalise(op.email));
    }
  }

  lemma {:induction false} SaveAgrees(rules: Rules, f: Store, s: Store, op: Op)
    requires Related(f, s) && Sound(f) && op.Save?
    ensures Agree(rules, f, s, op) <==> Proper(rules, f, op)
  {
    SameEmails(f, s);
    var view := op.account;
    if view.id in f.accounts {
      assert SameAccount(f.accounts[view.id], s.accounts[view.id]);
    }
    if Admitted(rules, f, view, op.expected) && view.revision == op.expected + 1 &&
      !TakenByOther(f.accounts, view.id, view.email)
    {
      SavedRelated(f, s, view, op.hashes);
    }
  }

  lemma {:induction false} SavedRelated(f: Store, s: Store, view: View, hashes: Hashes)
    requires Related(f, s)
    ensures
      var f' := f.(accounts := f.accounts[view.id := Account(view, hashes.fixture)]);
      var s' := s.(accounts := s.accounts[view.id := Account(view, hashes.sqlite)]);
      Related(f', s') <==> SamePassword(view.id, hashes)
  {
    var saved := f.accounts[view.id := Account(view, hashes.fixture)];
    assert view.id in saved && saved[view.id] == Account(view, hashes.fixture);
  }

  lemma {:induction false} AuthenticateAgrees(rules: Rules, f: Store, s: Store, op: Op)
    requires Related(f, s) && Sound(f) && Sound(s) && op.Authenticate?
    ensures Agree(rules, f, s, op)
  {
  }

  lemma {:induction false} SaveSessionAgrees(rules: Rules, f: Store, s: Store, op: Op)
    requires Related(f, s) && op.SaveSession?
    ensures Agree(rules, f, s, op) <==> Proper(rules, f, op)
  {
    var session := op.session;
    var kept, replaced := f.sessions[session.token := session], Sqlite.Replace(f.sessions, session);
    if Proper(rules, f, op) {
      assert kept == replaced;
    } else {
      var other :| other in Named(f.sessions, session.sessionId) && other != session.token;
      assert other in kept && other !in replaced;
    }
  }

  /** The stores answer alike and stay alike exactly when the operation is proper. */
  lemma {:induction false} AgreeExactlyWhenProper(rules: Rules, f: Store, s: Store, op: Op)
    requires Related(f, s) && Sound(f) && Sound(s) && Fresh(f, op)
    ensures Agree(rules, f, s, op) <==> Proper(rules, f, op)
  {
    match op
    case Create(_, _, _, _, _, _) => CreateAgrees(rules, f, s, op);
    case Seed(_, _, _, _, _, _) => SeedAgrees(rules, f, s, op);
    case Save(_, _, _) => SaveAgrees(rules, f, s, op);
    case Authenticate(_, _) => AuthenticateAgrees(rules, f, s, op);
    case SaveSession(_) => SaveSessionAgrees(rules, f, s, op);
    case _ =>
  }

  // What the operations keep.

  lemma {:induction false} SessionsSound(s: Store, op: Op, sessions: Sessions)
    requires Sound(s)
    requires
      match op
      case Revoke(token, at) => sessions == AfterRevoke(s.sessions, token, at).0
      case RevokeById(id, expected, at) => sessions == AfterRevokeById(s.sessions, id, expected, at).0
      case _ => false
    ensures Sound(s.(sessions := sessions))
  {
  }

  lemma {:induction false} FixtureSound(rules: Rules, s: Store, op: Op)
    requires Sound(s) && Fresh(s, op) && Proper(rules, s, op)
    ensures Sound(Fixture.Apply(rules, s, op).0)
  {
    match op
    case SaveSession(session) =>
      forall t | t in s.sessions && s.sessions[t].sessionId == session.sessionId ensures t == session.token {
        assert t in Named(s.sessions, session.sessionId);
      }
    case Revoke(_, _) => SessionsSound(s, op, Fixture.Apply(rules, s, op).0.sessions);
    case RevokeById(_, _, _) => SessionsSound(s, op, Fixture.Apply(rules, s, op).0.sessions);
    case _ =>
  }

  /** SQLite keeps emails and session identifiers unique whatever is asked of it. */
  lemma {:induction false} SqliteSound(rules: Rules, s: Store, op: Op)
    requires Sound(s)
    ensures Sound(Sqlite.Apply(rules, s, op).0)
  {
    match op
    case SaveSession(session) =>
      var replaced := Sqlite.Replace(s.sessions, session);
      forall t | t in replaced && replaced[t].sessionId == session.sessionId ensures t == session.token {
        assert t in s.sessions && t != session.token ==> t in Named(s.sessions, session.sessionId);
      }
    case Revoke(_, _) => SessionsSound(s, op, Sqlite.Apply(rules, s, op).0.sessions);
    case RevokeById(_, _, _) => SessionsSound(s, op, Sqlite.Apply(rules, s, op).0.sessions);
    case _ =>
  }

  // Runs of the two stores, side by side.

  datatype Run = Run(fixture: seq<Store>, sqlite: seq<Store>)

  ghost predicate Runs(rules: Rules, run: Run, ops: seq<Op>) {
    |run.fixture| == |ops| + 1 && |run.sqlite| == |ops| + 1 &&
    run.fixture[0] == Store(map[], map[]) && run.sqlite[0] == Store(map[], map[]) &&
    forall i | 0 <= i < |ops| ::
      run.fixture[i + 1] == Fixture.Apply(rules, run.fixture[i], ops[i]).0 &&
      run.sqlite[i + 1] == Sqlite.Apply(rules, run.sqlite[i], ops[i]).0
  }

  ghost predicate AllProper(rules: Rules, run: Run, ops: seq<Op>)
    requires |run.fixture| == |ops| + 1
  {
    forall i | 0 <= i < |ops| :: Fresh(run.fixture[i], ops[i]) && Proper(rules, run.fixture[i], ops[i])
  }

  /** From the empty store, any number of proper operations leaves the stores alike and sound. */
  lemma {:induction false} StoresStayAlike(rules: Rules, run: Run, ops: seq<Op>, i: nat)
    requires Runs(rules, run, ops) && AllProper(rules, run, ops) && i <= |ops|
    ensures Related(run.fixture[i], run.sqlite[i]) && Sound(run.fixture[i]) && Sound(run.sqlite[i])
  {
    if i > 0 {
      StoresStayAlike(rules, run, ops, i - 1);
      AgreeExactlyWhenProper(rules, run.fixture[i - 1], run.sqlite[i - 1], ops[i - 1]);
      FixtureSound(rules, run.fixture[i - 1], ops[i - 1]);
      SqliteSound(rules, run.sqlite[i - 1], ops[i - 1]);
    }
  }

  /** Every reply of every such run is the same from both stores. */
  lemma {:induction false} RepliesAreTheSame(rules: Rules, run: Run, ops: seq<Op>, i: nat)
    requires Runs(rules, run, ops) && AllProper(rules, run, ops) && i < |ops|
    ensures Fixture.Apply(rules, run.fixture[i], ops[i]).1 == Sqlite.Apply(rules, run.sqlite[i], ops[i]).1
  {
    StoresStayAlike(rules, run, ops, i);
    AgreeExactlyWhenProper(rules, run.fixture[i], run.sqlite[i], ops[i]);
  }

  /** The account is as it was, or was saved under a higher revision. */
  ghost predicate Kept(was: Account, now: Account) {
    now == was || (now.view.id == was.view.id && now.view.revision > was.view.revision)
  }

  lemma {:induction false} FixtureKeepsAccount(rules: Rules, s: Store, op: Op, id: Id)
    requires Sound(s) && Fresh(s, op) && Proper(rules, s, op) && id in s.accounts
    ensures
      var next := Fixture.Apply(rules, s, op).0;
      id in next.accounts && Kept(s.accounts[id], next.accounts[id]) &&
      (next.accounts[id] != s.accounts[id] ==>
         op.Save? && op.account.id == id && op.expected == s.accounts[id].view.revision &&
         next.accounts[id].hash == op.hashes.fixture)
  {
  }

  lemma {:induction false} KeptTwice(a: Account, b: Account, c: Account)
    requires Kept(a, b) && Kept(b, c)
    ensures Kept(a, c)
  {
  }

  /**
   Accounts never go, are never reset by seeding, and change only by saves that name their current
   revision and raise it.
   */
  lemma {:induction false} RevisionsOnlyRise(rules: Rules, run: Run, ops: seq<Op>, i: nat, j: nat, id: Id)
    requires Runs(rules, run, ops) && AllProper(rules, run, ops) && i <= j <= |ops| && id in run.fixture[i].accounts
    ensures id in run.fixture[j].accounts && Kept(run.fixture[i].accounts[id], run.fixture[j].accounts[id])
    decreases j
  {
    if i < j {
      RevisionsOnlyRise(rules, run, ops, i, j - 1, id);
      StoresStayAlike(rules, run, ops, j - 1);
      FixtureKeepsAccount(rules, run.fixture[j - 1], ops[j - 1], id);
      KeptTwice(run.fixture[i].accounts[id], run.fixture[j - 1].accounts[id], run.fixture[j].accounts[id]);
    }
  }

  /** The same of the rows of the database, which are at all times those of the dictionary. */
  lemma {:induction false} RowRevisionsOnlyRise(rules: Rules, run: Run, ops: seq<Op>, i: nat, j: nat, id: Id)
    requires Runs(rules, run, ops) && AllProper(rules, run, ops) && i <= j <= |ops| && id in run.sqlite[i].accounts
    ensures id in run.sqlite[j].accounts && run.sqlite[i].accounts[id].view.id == run.sqlite[j].accounts[id].view.id
    ensures
      var was, now := run.sqlite[i].accounts[id], run.sqlite[j].accounts[id];
      now.view.revision > was.view.revision ||
      (now.view == was.view && SqlitePassword(now.hash) == SqlitePassword(was.hash))
  {
    StoresStayAlike(rules, run, ops, i);
    StoresStayAlike(rules, run, ops, j);
    RevisionsOnlyRise(rules, run, ops, i, j, id);
    assert SameAccount(run.fixture[i].accounts[id], run.sqlite[i].accounts[id]);
    assert SameAccount(run.fixture[j].accounts[id], run.sqlite[j].accounts[id]);
  }

  /** The save carries the password its account has, as the services' saves do, which copy what they read. */
  ghost predicate SavesSamePassword(s: Store, op: Op, id: Id) {
    op.Save? && op.account.id == id && id in s.accounts ==>
      FixturePassword(id, op.hashes.fixture) == FixturePassword(id, s.accounts[id].hash)
  }

  lemma {:induction false} FixturePasswordsStay(rules: Rules, run: Run, ops: seq<Op>, i: nat, j: nat, id: Id)
    requires Runs(rules, run, ops) && AllProper(rules, run, ops) && i <= j <= |ops| && id in run.fixture[i].accounts
    requires forall k | i <= k < j :: SavesSamePassword(run.fixture[k], ops[k], id)
    ensures
      id in run.fixture[j].accounts &&
      FixturePassword(id, run.fixture[j].accounts[id].hash) == FixturePassword(id, run.fixture[i].accounts[id].hash)
    decreases j
  {
    if i < j {
      FixturePasswordsStay(rules, run, ops, i, j - 1, id);
      StoresStayAlike(rules, run, ops, j - 1);
      FixtureKeepsAccount(rules, run.fixture[j - 1], ops[j - 1], id);
    }
  }

  lemma {:induction false} RelatedPassword(f: Store, s: Store, id: Id)
    requires Related(f, s) && Sound(f) && id in f.accounts
    ensures id in s.accounts && FixturePassword(id, f.accounts[id].hash) == SqlitePassword(s.accounts[id].hash)
  {
    assert SameAccount(f.accounts[id], s.accounts[id]);
  }

  /** Nothing but a save that carries another password changes a password, in either store. */
  lemma {:induction false} PasswordsStay(rules: Rules, run: Run, ops: seq<Op>, i: nat, j: nat, id: Id)
    requires Runs(rules, run, ops) && AllProper(rules, run, ops) && i <= j <= |ops| && id in run.fixture[i].accounts
    requires forall k | i <= k < j :: SavesSamePassword(run.fixture[k], ops[k], id)
    ensures id in run.fixture[j].accounts && id in run.sqlite[i].accounts && id in run.sqlite[j].accounts
    ensures
      var password := FixturePassword(id, run.fixture[i].accounts[id].hash);
      FixturePassword(id, run.fixture[j].accounts[id].hash) == password &&
      SqlitePassword(run.sqlite[i].accounts[id].hash) == password &&
      SqlitePassword(run.sqlite[j].accounts[id].hash) == password
  {
    FixturePasswordsStay(rules, run, ops, i, j, id);
    StoresStayAlike(rules, run, ops, i);
    StoresStayAlike(rules, run, ops, j);
    RelatedPassword(run.fixture[i], run.sqlite[i], id);
    RelatedPassword(run.fixture[j], run.sqlite[j], id);
  }

  /**
   Without the condition on credentials: both stores accept a save that hands them one and the same
   hash in the fixture's format, and then only the fixture lets its owner in.
   */
  lemma {:induction false} SharedHashLocksOneStore(
    rules: Rules, f: Store, s: Store, view: View, password: string, expected: nat, login: string)
    requires Related(f, s) && Sound(f) && Sound(s) && Admitted(rules, f, view, expected) && view.active
    requires view.revision == expected + 1 && !TakenByOther(f.accounts, view.id, view.email)
    requires rules.normalise(login) == view.email
    ensures
      var hash := ByCustomer(view.id, password);
      var save := Save(view, Hashes(hash, hash), expected);
      var (f', replyF) := Fixture.Apply(rules, f, save);
      var (s', replyS) := Sqlite.Apply(rules, s, save);
      replyF == Finished && replyS == Finished &&
      Fixture.Apply(rules, f', Authenticate(login, password)).1 == Found(view) &&
      Sqlite.Apply(rules, s', Authenticate(login, password)).1 == Nothing
  {
    var hash := ByCustomer(view.id, password);
    var save := Save(view, Hashes(hash, hash), expected);
    SameEmails(f, s);
    assert SameAccount(f.accounts[view.id], s.accounts[view.id]);
    var after, rows := Fixture.Apply(rules, f, save).0.accounts, Sqlite.Apply(rules, s, save).0.accounts;
    assert after == f.accounts[view.id := Account(view, hash)];
    assert rows == s.accounts[view.id := Account(view, hash)];
    assert Fixture.Opens(after[view.id], view.email, password);
    assert forall id | id in after && after[id].view.email == view.email :: id == view.id;
    assert rows[view.id].view.email == view.email;
    assert forall id | id in rows && rows[id].view.email == view.email :: id == view.id;
  }
}
