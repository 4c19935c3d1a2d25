// The SQLite backend: three tables, a cascading foreign key, and the statement
// sequence behind each call. The main result is that it refines the in-memory
// store, sessions being rebuilt by joining `sessions` with `session_dnas`.

module SqliteStore {
  import opened Wrappers
  import opened Types
  import opened SessionStore

  type Text = string

  // How identifiers and capability sets become TEXT columns and come back.
  datatype Codec = Codec(
    agentText: AgentPubKey -> Text, parseAgent: Text -> Option<AgentPubKey>,
    dnaText: DnaHash -> Text, parseDna: Text -> Option<DnaHash>,
    capsText: set<Capability> -> Text, parseCaps: Text -> set<Capability>)

  ghost predicate RoundTrips(c: Codec) {
    && (forall a :: c.parseAgent(c.agentText(a)) == Some(a))
    && (forall d :: c.parseDna(c.dnaText(d)) == Some(d))
    && (forall s :: c.parseCaps(c.capsText(s)) == s)
  }

  datatype AllowedRow = AllowedRow(capabilities: Text, agentLabel: Option<Text>)

  datatype SessionRow = SessionRow(agentPubkey: Text, capabilities: Text)

  datatype DnaKey = DnaKey(token: Text, dnaHash: Text)

  // Each table is keyed by its primary key; `sessionDnas` maps to its agent_pubkey column.
  datatype Database = Database(
    allowedAgents: map<Text, AllowedRow>,
    sessions: map<Text, SessionRow>,
    sessionDnas: map<DnaKey, Text>)

  datatype Statement =
    | UpsertAllowed(pk: Text, allowedRow: AllowedRow)
    | DeleteDnasOfAgent(pk: Text)
    | DeleteSessionsOfAgent(pk: Text)
    | DeleteAllowed(pk: Text)
    | InsertSession(token: Text, sessionRow: SessionRow)
    | DeleteSession(token: Text)
    | InsertDnasForAgent(dnaHash: Text, pk: Text)

  // ON DELETE CASCADE: only rows whose session survives stay.
  function Cascade(dnas: map<DnaKey, Text>, sessions: map<Text, SessionRow>): map<DnaKey, Text> {
    map k | k in dnas && k.token in sessions :: dnas[k]
  }

  // The database after one statement and the number of rows it touched; None is a key violation.
  function Execute(db: Database, stmt: Statement): Option<(Database, nat)> {
    match stmt
    case UpsertAllowed(pk, row) =>
      Some((db.(allowedAgents := db.allowedAgents[pk := row]), 1))
    case DeleteDnasOfAgent(pk) =>
      Some((db.(sessionDnas := map k | k in db.sessionDnas && db.sessionDnas[k] != pk :: db.sessionDnas[k]),
            |set k | k in db.sessionDnas && db.sessionDnas[k] == pk|))
    case DeleteSessionsOfAgent(pk) =>
      var sessions := map t | t in db.sessions && db.sessions[t].agentPubkey != pk :: db.sessions[t];
      Some((db.(sessions := sessions, sessionDnas := Cascade(db.sessionDnas, sessions)),
            |set t | t in db.sessions && db.sessions[t].agentPubkey == pk|))
    case DeleteAllowed(pk) =>
      Some((db.(allowedAgents := db.allowedAgents - {pk}), if pk in db.allowedAgents then 1 else 0))
    case InsertSession(token, row) =>
      if token in db.sessions then None
      else Some((db.(sessions := db.sessions[token := row]), 1))
    case DeleteSession(token) =>
      var sessions := db.sessions - {token};
      Some((db.(sessions := sessions, sessionDnas := Cascade(db.sessionDnas, sessions)),
            if token in db.sessions then 1 else 0))
    case InsertDnasForAgent(dnaHash, pk) =>
      // INSERT OR IGNORE ... SELECT: an existing (token, dna_hash) row wins.
      var selected := map t | t in db.sessions && db.sessions[t].agentPubkey == pk :: DnaKey(t, dnaHash) := pk;
      Some((db.(sessionDnas := selected + db.sessionDnas), |selected.Keys - db.sessionDnas.Keys|))
  }

  // Every prefix of these is a state another process may find after a crash: no transaction wraps them.
  function RemoveAgentStatements(pk: Text): seq<Statement> {
    [DeleteDnasOfAgent(pk), DeleteSessionsOfAgent(pk), DeleteAllowed(pk)]
  }

  function ExecuteAll(db: Database, stmts: seq<Statement>): Option<Database>
    decreases |stmts|
  {
    if stmts == [] then Some(db)
    else
      match Execute(db, stmts[0])
      case None => None
      case Some((db1, _)) => ExecuteAll(db1, stmts[1..])
  }

  // Each DNA row names an existing session of the same agent; each session's agent is allowed.
  ghost predicate StoreInvariant(db: Database) {
    && (forall k :: k in db.sessionDnas ==>
          k.token in db.sessions && db.sessions[k.token].agentPubkey == db.sessionDnas[k])
    && (forall t :: t in db.sessions ==> db.sessions[t].agentPubkey in db.allowedAgents)
  }

  // Every stored key column was written by the codec.
  ghost predicate WellEncoded(c: Codec, db: Database) {
    && (forall pk :: pk in db.allowedAgents ==> IsAgentText(c, pk))
    && (forall k :: k in db.sessionDnas ==> IsDnaText(c, k.dnaHash))
  }

  ghost predicate IsAgentText(c: Codec, text: Text) {
    exists a :: text == c.agentText(a)
  }

  ghost predicate IsDnaText(c: Codec, text: Text) {
    exists d :: text == c.dnaText(d)
  }

  ghost predicate Invariant(c: Codec, db: Database) {
    StoreInvariant(db) && WellEncoded(c, db)
  }

  // One call, statement by statement, with its reply.
  function Call(c: Codec, db: Database, op: Op): (Database, Reply) {
    match op
    case AddAgent(info) =>
      var row := AllowedRow(c.capsText(info.capabilities), info.agentLabel);
      (Execute(db, UpsertAllowed(c.agentText(info.agentPubkey), row)).value.0, Done)
    case RemoveAgent(agent) => CallRemoveAgent(db, c.agentText(agent))
    case ListAgents => (db, Agents(SelectAgents(c, db)))
    case IsAgentAllowed(agent) => (db, Flag(c.agentText(agent) in db.allowedAgents))
    case GetAgent(agent) => (db, Agent(SelectAgent(c, db, agent)))
    case CreateSession(agent, token) => CallCreateSession(db, c.agentText(agent), token)
    case ValidateSession(token) => (db, Session(Joined(c, db, token)))
    case RevokeSession(token) =>
      var (db', rows) := Execute(db, DeleteSession(token)).value;
      (db', Flag(rows > 0))
    case RegisterDna(agent, dna) =>
      (Execute(db, InsertDnasForAgent(c.dnaText(dna), c.agentText(agent))).value.0, Done)
    case RevokeSessionsForAgent(agent) =>
      var (db', rows) := Execute(db, DeleteSessionsOfAgent(c.agentText(agent))).value;
      (db', Count(rows))
    case SessionCount => (db, Count(|db.sessions|))
  }

  function CallRemoveAgent(db: Database, pk: Text): (Database, Reply) {
    var stmts := RemoveAgentStatements(pk);
    var db1 := Execute(db, stmts[0]).value.0;
    var db2 := Execute(db1, stmts[1]).value.0;
    var (db3, rows) := Execute(db2, stmts[2]).value;
    (db3, Flag(rows > 0))
  }

  function CallCreateSession(db: Database, pk: Text, token: Token): (Database, Reply) {
    if pk !in db.allowedAgents then (db, Created(None))
    else
      match Execute(db, InsertSession(token, SessionRow(pk, db.allowedAgents[pk].capabilities)))
      case None => (db, DatabaseError)
      case Some((db', _)) => (db', Created(Some(token)))
  }

  function SelectAgents(c: Codec, db: Database): set<AllowedAgent> {
    set pk | pk in db.allowedAgents && c.parseAgent(pk).Some? ::
      RowToAgent(c, c.parseAgent(pk).value, db.allowedAgents[pk])
  }

  function SelectAgent(c: Codec, db: Database, agent: AgentPubKey): Option<AllowedAgent> {
    var pk := c.agentText(agent);
    if pk in db.allowedAgents then Some(RowToAgent(c, agent, db.allowedAgents[pk])) else None
  }

  function RowToAgent(c: Codec, agent: AgentPubKey, row: AllowedRow): AllowedAgent {
    AllowedAgent(agent, c.parseCaps(row.capabilities), row.agentLabel)
  }

  // SELECT from sessions joined with session_dnas; a key that does not parse hides the session.
  function Joined(c: Codec, db: Database, token: Token): Option<SessionInfo> {
    if token !in db.sessions then None
    else
      var row := db.sessions[token];
      match c.parseAgent(row.agentPubkey)
      case None => None
      case Some(agent) => Some(SessionInfo(agent, c.parseCaps(row.capabilities), JoinedDnas(c, db, token)))
  }

  function JoinedDnas(c: Codec, db: Database, token: Token): set<DnaHash> {
    ParsedDnas(c, set k | k in db.sessionDnas && k.token == token)
  }

  function ParsedDnas(c: Codec, keys: set<DnaKey>): set<DnaHash> {
    set k | k in keys && c.parseDna(k.dnaHash).Some? :: c.parseDna(k.dnaHash).value
  }

  lemma ParsedOneMore(c: Codec, keys: set<DnaKey>, k: DnaKey)
    ensures var parsed := c.parseDna(k.dnaHash);
            ParsedDnas(c, keys + {k}) == ParsedDnas(c, keys) + if parsed.Some? then {parsed.value} else {}
  {
  }

  // The in-memory store a database stands for.
  function Abstract(c: Codec, db: Database): Store {
    Store(
      map a | a in AllowedKeys(c, db) && c.agentText(a) in db.allowedAgents ::
        RowToAgent(c, a, db.allowedAgents[c.agentText(a)]),
      map t | t in db.sessions && Joined(c, db, t).Some? :: Joined(c, db, t).value)
  }

  function AllowedKeys(c: Codec, db: Database): set<AgentPubKey> {
    set pk | pk in db.allowedAgents && c.parseAgent(pk).Some? :: c.parseAgent(pk).value
  }

  // ---- Reading the abstraction back from the tables ----

  lemma AgentTextInjective(c: Codec, a: AgentPubKey, b: AgentPubKey)
    requires RoundTrips(c)
    ensures c.agentText(a) == c.agentText(b) <==> a == b
  {
    assert c.parseAgent(c.agentText(a)) == Some(a) && c.parseAgent(c.agentText(b)) == Some(b);
  }

  lemma AllowedLookup(c: Codec, db: Database, a: AgentPubKey)
    requires RoundTrips(c)
    ensures a in Abstract(c, db).allowed <==> c.agentText(a) in db.allowedAgents
    ensures c.agentText(a) in db.allowedAgents ==>
              Abstract(c, db).allowed[a] == RowToAgent(c, a, db.allowedAgents[c.agentText(a)])
  {
    var pk := c.agentText(a);
    if pk in db.allowedAgents {
      assert c.parseAgent(pk) == Some(a);
      assert a in AllowedKeys(c, db);
    }
  }

  lemma DnaLookup(c: Codec, db: Database, t: Token, d: DnaHash)
    requires RoundTrips(c) && WellEncoded(c, db)
    ensures d in JoinedDnas(c, db, t) <==> DnaKey(t, c.dnaText(d)) in db.sessionDnas
  {
    assert c.parseDna(c.dnaText(d)) == Some(d);
    if d in JoinedDnas(c, db, t) {
      var k :| k in db.sessionDnas && k.token == t && c.parseDna(k.dnaHash).Some? && c.parseDna(k.dnaHash).value == d;
      var d' :| k.dnaHash == c.dnaText(d');
      assert c.parseDna(c.dnaText(d')) == Some(d');
      assert k == DnaKey(t, c.dnaText(d));
    }
    if DnaKey(t, c.dnaText(d)) in db.sessionDnas {
      var k := DnaKey(t, c.dnaText(d));
      assert k.token == t && c.parseDna(k.dnaHash).Some?;
    }
  }

  lemma SessionLookup(c: Codec, db: Database, t: Token)
    requires RoundTrips(c) && Invariant(c, db)
    ensures t in Abstract(c, db).sessions <==> t in db.sessions
    ensures t in db.sessions ==>
              && Joined(c, db, t) == Some(Abstract(c, db).sessions[t])
              && c.agentText(Abstract(c, db).sessions[t].agentPubkey) == db.sessions[t].agentPubkey
              && Abstract(c, db).sessions[t].capabilities == c.parseCaps(db.sessions[t].capabilities)
              && Abstract(c, db).sessions[t].registeredDnas == JoinedDnas(c, db, t)
  {
    if t in db.sessions {
      var a :| db.sessions[t].agentPubkey == c.agentText(a);
      assert c.parseAgent(c.agentText(a)) == Some(a);
    }
  }

  // ---- Each statement keeps the tables consistent ----

  // What a statement must respect for the tables to stay consistent.
  ghost predicate Respects(c: Codec, db: Database, stmt: Statement) {
    match stmt
    case UpsertAllowed(pk, _) => IsAgentText(c, pk)
    case DeleteAllowed(pk) => forall t :: t in db.sessions ==> db.sessions[t].agentPubkey != pk
    case InsertSession(_, row) => row.agentPubkey in db.allowedAgents
    case InsertDnasForAgent(dnaHash, _) => IsDnaText(c, dnaHash)
    case _ => true
  }

  lemma StatementKeepsInvariant(c: Codec, db: Database, stmt: Statement)
    requires Invariant(c, db) && Respects(c, db, stmt)
    ensures Execute(db, stmt).Some? ==> Invariant(c, Execute(db, stmt).value.0)
  {
    match stmt
    case UpsertAllowed(_, _) => PermissionKeepsInvariant(c, db, stmt);
    case DeleteAllowed(_) => PermissionKeepsInvariant(c, db, stmt);
    case DeleteDnasOfAgent(_) => DeletedDnasKeepInvariant(c, db, stmt);
    case DeleteSessionsOfAgent(_) => CascadeKeepsInvariant(c, db, Execute(db, stmt).value.0.sessions);
    case DeleteSession(_) => CascadeKeepsInvariant(c, db, Execute(db, stmt).value.0.sessions);
    case InsertSession(_, _) => InsertedSessionKeepsInvariant(c, db, stmt);
    case InsertDnasForAgent(_, _) => InsertedDnasKeepInvariant(c, db, stmt);
  }

  lemma PermissionKeepsInvariant(c: Codec, db: Database, stmt: Statement)
    requires Invariant(c, db) && Respects(c, db, stmt) && (stmt.UpsertAllowed? || stmt.DeleteAllowed?)
    ensures Invariant(c, Execute(db, stmt).value.0)
  {
  }

  lemma DeletedDnasKeepInvariant(c: Codec, db: Database, stmt: Statement)
    requires Invariant(c, db) && stmt.DeleteDnasOfAgent?
    ensures Invariant(c, Execute(db, stmt).value.0)
  {
  }

  // Deleting sessions takes their DNA rows along.
  lemma CascadeKeepsInvariant(c: Codec, db: Database, left: map<Text, SessionRow>)
    requires Invariant(c, db)
    requires forall t :: t in left ==> t in db.sessions && left[t] == db.sessions[t]
    ensures Invariant(c, db.(sessions := left, sessionDnas := Cascade(db.sessionDnas, left)))
  {
  }

  lemma InsertedSessionKeepsInvariant(c: Codec, db: Database, stmt: Statement)
    requires Invariant(c, db) && Respects(c, db, stmt) && stmt.InsertSession?
    ensures Execute(db, stmt).Some? ==> Invariant(c, Execute(db, stmt).value.0)
  {
  }

  lemma InsertedDnasKeepInvariant(c: Codec, db: Database, stmt: Statement)
    requires Invariant(c, db) && Respects(c, db, stmt) && stmt.InsertDnasForAgent?
    ensures Invariant(c, Execute(db, stmt).value.0)
  {
  }

  // Why remove_agent deletes the permission last: deleting it is safe exactly
  // when no session of that agent is left.
  lemma DeleteAllowedKeepsInvariantIff(db: Database, pk: Text)
    requires StoreInvariant(db)
    ensures StoreInvariant(Execute(db, DeleteAllowed(pk)).value.0)
            <==> forall t :: t in db.sessions ==> db.sessions[t].agentPubkey != pk
  {
    var db' := Execute(db, DeleteAllowed(pk)).value.0;
    assert db'.sessions == db.sessions && pk !in db'.allowedAgents;
  }

  // Stopping remove_agent between any two of its statements leaves consistent
  // tables, so no session ever outlives its agent's permission.
  lemma RemoveAgentPrefixKeepsInvariant(c: Codec, db: Database, pk: Text, n: nat)
    requires Invariant(c, db) && n <= 3
    ensures var stopped := ExecuteAll(db, RemoveAgentStatements(pk)[..n]);
            && stopped.Some? && Invariant(c, stopped.value)
            && (n == 3 ==> pk !in stopped.value.allowedAgents)
  {
    var db1 := Execute(db, DeleteDnasOfAgent(pk)).value.0;
    var db2 := Execute(db1, DeleteSessionsOfAgent(pk)).value.0;
    var db3 := Execute(db2, DeleteAllowed(pk)).value.0;
    StatementKeepsInvariant(c, db, DeleteDnasOfAgent(pk));
    StatementKeepsInvariant(c, db1, DeleteSessionsOfAgent(pk));
    StatementKeepsInvariant(c, db2, DeleteAllowed(pk));
    ExecutePrefix(db, db1, db2, db3, DeleteDnasOfAgent(pk), DeleteSessionsOfAgent(pk), DeleteAllowed(pk), n);
  }

  lemma ExecutePrefix(db: Database, db1: Database, db2: Database, db3: Database,
                      s0: Statement, s1: Statement, s2: Statement, n: nat)
    requires n <= 3
    requires Execute(db, s0).Some? && Execute(db, s0).value.0 == db1
    requires Execute(db1, s1).Some? && Execute(db1, s1).value.0 == db2
    requires Execute(db2, s2).Some? && Execute(db2, s2).value.0 == db3
    ensures ExecuteAll(db, [s0, s1, s2][..n])
            == Some(if n == 0 then db else if n == 1 then db1 else if n == 2 then db2 else db3)
  {
    if n == 0 {
      assert [s0, s1, s2][..n] == [];
    } else {
      assert [s0, s1, s2][..n] == [s0] + [s1, s2][..n - 1];
      ExecuteCons(db, s0, [s1, s2][..n - 1]);
      if n == 1 {
        assert [s1, s2][..n - 1] == [];
      } else {
        assert [s1, s2][..n - 1] == [s1] + [s2][..n - 2];
        ExecuteCons(db1, s1, [s2][..n - 2]);
        assert [s2][..n - 2] == if n == 2 then [] else [s2] + [];
        ExecuteCons(db2, s2, []);
      }
    }
  }

  lemma ExecuteCons(db: Database, stmt: Statement, rest: seq<Statement>)
    requires Execute(db, stmt).Some?
    ensures ExecuteAll(db, [stmt] + rest) == ExecuteAll(Execute(db, stmt).value.0, rest)
  {
    assert ([stmt] + rest)[1..] == rest;
  }

  lemma CallKeepsInvariant(c: Codec, db: Database, op: Op)
    requires Invariant(c, db)
    ensures Invariant(c, Call(c, db, op).0)
  {
    match op
    case AddAgent(info) =>
      var row := AllowedRow(c.capsText(info.capabilities), info.agentLabel);
      StatementKeepsInvariant(c, db, UpsertAllowed(c.agentText(info.agentPubkey), row));
    case RemoveAgent(agent) =>
      var stmts := RemoveAgentStatements(c.agentText(agent));
      StatementKeepsInvariant(c, db, stmts[0]);
      var db1 := Execute(db, stmts[0]).value.0;
      StatementKeepsInvariant(c, db1, stmts[1]);
      StatementKeepsInvariant(c, Execute(db1, stmts[1]).value.0, stmts[2]);
    case CreateSession(agent, token) =>
      var pk := c.agentText(agent);
      if pk in db.allowedAgents {
        StatementKeepsInvariant(c, db, InsertSession(token, SessionRow(pk, db.allowedAgents[pk].capabilities)));
      }
    case RevokeSession(token) => StatementKeepsInvariant(c, db, DeleteSession(token));
    case RegisterDna(agent, dna) =>
      StatementKeepsInvariant(c, db, InsertDnasForAgent(c.dnaText(dna), c.agentText(agent)));
    case RevokeSessionsForAgent(agent) => StatementKeepsInvariant(c, db, DeleteSessionsOfAgent(c.agentText(agent)));
    case _ =>
  }

  // ---- Refinement of the in-memory store ----

  // The tables, read column by column, say what `st` says.
  ghost predicate Represents(c: Codec, db: Database, st: Store) {
    && RepresentsAllowed(c, db.allowedAgents, st.allowed)
    && RepresentsSessions(c, db.sessions, st.sessions)
    && RepresentsDnas(c, db.sessionDnas, st.sessions)
  }

  ghost predicate RepresentsAllowed(c: Codec, rows: map<Text, AllowedRow>, allowed: map<AgentPubKey, AllowedAgent>) {
    && (forall a :: a in allowed <==> c.agentText(a) in rows)
    && (forall a :: a in allowed ==> allowed[a] == RowToAgent(c, a, rows[c.agentText(a)]))
  }

  ghost predicate RepresentsSessions(c: Codec, rows: map<Text, SessionRow>, sessions: map<Token, SessionInfo>) {
    && (forall t :: t in sessions <==> t in rows)
    && (forall t :: t in sessions ==>
          && c.agentText(sessions[t].agentPubkey) == rows[t].agentPubkey
          && sessions[t].capabilities == c.parseCaps(rows[t].capabilities))
  }

  ghost predicate RepresentsDnas(c: Codec, rows: map<DnaKey, Text>, sessions: map<Token, SessionInfo>) {
    forall t, d :: t in sessions ==>
      (d in sessions[t].registeredDnas <==> DnaKey(t, c.dnaText(d)) in rows)
  }

  lemma AbstractRepresents(c: Codec, db: Database)
    requires RoundTrips(c) && Invariant(c, db)
    ensures Represents(c, db, Abstract(c, db))
  {
    forall a { AllowedLookup(c, db, a); }
    forall t { SessionLookup(c, db, t); }
    forall t, d { DnaLookup(c, db, t, d); }
  }

  lemma RepresentedIsAbstract(c: Codec, db: Database, st: Store)
    requires RoundTrips(c) && Invariant(c, db) && Represents(c, db, st)
    ensures Abstract(c, db) == st
  {
    var abs := Abstract(c, db);
    RepresentedAllowed(c, db, st);
    forall t ensures t in abs.sessions <==> t in st.sessions
             ensures t in st.sessions ==> abs.sessions[t] == st.sessions[t]
    {
      RepresentedSession(c, db, st, t);
    }
    assert abs.sessions == st.sessions;
  }

  lemma RepresentedAllowed(c: Codec, db: Database, st: Store)
    requires RoundTrips(c) && RepresentsAllowed(c, db.allowedAgents, st.allowed)
    ensures Abstract(c, db).allowed == st.allowed
  {
    var allowed := Abstract(c, db).allowed;
    forall a ensures a in allowed <==> a in st.allowed
             ensures a in st.allowed ==> allowed[a] == st.allowed[a]
    {
      AllowedLookup(c, db, a);
    }
  }

  lemma RepresentedSession(c: Codec, db: Database, st: Store, t: Token)
    requires RoundTrips(c) && Invariant(c, db) && Represents(c, db, st)
    ensures t in Abstract(c, db).sessions <==> t in st.sessions
    ensures t in st.sessions ==> Abstract(c, db).sessions[t] == st.sessions[t]
  {
    SessionLookup(c, db, t);
    if t in st.sessions {
      var session := Abstract(c, db).sessions[t];
      AgentTextInjective(c, session.agentPubkey, st.sessions[t].agentPubkey);
      forall d ensures d in session.registeredDnas <==> d in st.sessions[t].registeredDnas {
        DnaLookup(c, db, t, d);
      }
      assert session.registeredDnas == st.sessions[t].registeredDnas;
    }
  }

  // Drawing a token that some live session already holds: the only call on which the backends differ.
  predicate TokenClash(st: Store, op: Op) {
    op.CreateSession? && op.agent in st.allowed && op.token in st.sessions
  }

  lemma AddRepresents(c: Codec, db: Database, st: Store, info: AllowedAgent)
    requires RoundTrips(c) && Invariant(c, db) && Represents(c, db, st)
    ensures Represents(c, Call(c, db, AddAgent(info)).0, Apply(st, AddAgent(info)).0)
  {
  }

  // What the three statements leave, row by row.
  lemma RemovedRows(db: Database, pk: Text)
    requires StoreInvariant(db)
    ensures var db' := CallRemoveAgent(db, pk).0;
            && db'.allowedAgents == db.allowedAgents - {pk}
            && (forall t :: t in db'.sessions <==> t in db.sessions && db.sessions[t].agentPubkey != pk)
            && (forall t :: t in db'.sessions ==> db'.sessions[t] == db.sessions[t])
            && (forall k :: k in db'.sessionDnas <==> k in db.sessionDnas && db.sessions[k.token].agentPubkey != pk)
  {
  }

  lemma RemovedSessions(c: Codec, db: Database, st: Store, agent: AgentPubKey)
    requires RoundTrips(c) && StoreInvariant(db) && Represents(c, db, st)
    ensures Apply(st, RemoveAgent(agent)).0 == Store(st.allowed - {agent}, WithoutSessionsOf(st.sessions, agent))
    ensures forall t :: t in st.sessions ==>
                          (st.sessions[t].agentPubkey != agent <==> db.sessions[t].agentPubkey != c.agentText(agent))
  {
    forall t | t in st.sessions
      ensures st.sessions[t].agentPubkey != agent <==> db.sessions[t].agentPubkey != c.agentText(agent)
    {
      AgentTextInjective(c, st.sessions[t].agentPubkey, agent);
    }
    if agent !in st.allowed {
      assert c.agentText(agent) !in db.allowedAgents;
      assert WithoutSessionsOf(st.sessions, agent) == st.sessions;
    }
  }

  lemma RemoveRepresentsAllowed(c: Codec, rows: map<Text, AllowedRow>, allowed: map<AgentPubKey, AllowedAgent>,
                                agent: AgentPubKey)
    requires RoundTrips(c) && RepresentsAllowed(c, rows, allowed)
    ensures RepresentsAllowed(c, rows - {c.agentText(agent)}, allowed - {agent})
  {
    forall a ensures c.agentText(a) == c.agentText(agent) <==> a == agent {
      AgentTextInjective(c, a, agent);
    }
  }

  lemma RemoveRepresents(c: Codec, db: Database, st: Store, agent: AgentPubKey)
    requires RoundTrips(c) && Invariant(c, db) && Represents(c, db, st)
    ensures Represents(c, Call(c, db, RemoveAgent(agent)).0, Apply(st, RemoveAgent(agent)).0)
  {
    var db', st' := CallRemoveAgent(db, c.agentText(agent)).0, Apply(st, RemoveAgent(agent)).0;
    RemovedRows(db, c.agentText(agent));
    RemovedSessions(c, db, st, agent);
    RemoveRepresentsAllowed(c, db.allowedAgents, st.allowed, agent);
    RemainingRepresented(c, db, db', st.sessions, st'.sessions, c.agentText(agent));
  }

  lemma RemainingRepresented(c: Codec, db: Database, db': Database, sessions: map<Token, SessionInfo>,
                             sessions': map<Token, SessionInfo>, pk: Text)
    requires RepresentsSessions(c, db.sessions, sessions) && RepresentsDnas(c, db.sessionDnas, sessions)
    requires StoreInvariant(db)
    requires forall t :: t in db'.sessions <==> t in db.sessions && db.sessions[t].agentPubkey != pk
    requires forall t :: t in db'.sessions ==> db'.sessions[t] == db.sessions[t]
    requires forall k :: k in db'.sessionDnas <==> k in db.sessionDnas && db.sessions[k.token].agentPubkey != pk
    requires forall t :: t in sessions' <==> t in sessions && db.sessions[t].agentPubkey != pk
    requires forall t :: t in sessions' ==> sessions'[t] == sessions[t]
    ensures RepresentsSessions(c, db'.sessions, sessions') && RepresentsDnas(c, db'.sessionDnas, sessions')
  {
    forall t, d | t in sessions'
      ensures d in sessions'[t].registeredDnas <==> DnaKey(t, c.dnaText(d)) in db'.sessionDnas
    {
      assert DnaKey(t, c.dnaText(d)).token == t;
    }
  }

  lemma CreateRepresents(c: Codec, db: Database, st: Store, agent: AgentPubKey, token: Token)
    requires RoundTrips(c) && Invariant(c, db) && Represents(c, db, st) && !TokenClash(st, CreateSession(agent, token))
    ensures Represents(c, Call(c, db, CreateSession(agent, token)).0, Apply(st, CreateSession(agent, token)).0)
  {
    if agent in st.allowed {
      var row := SessionRow(c.agentText(agent), db.allowedAgents[c.agentText(agent)].capabilities);
      var info := SessionInfo(agent, st.allowed[agent].capabilities, {});
      assert info.capabilities == c.parseCaps(row.capabilities);
      NewSessionRepresented(c, db, st, token, row, info);
    }
  }

  lemma NewSessionRepresented(c: Codec, db: Database, st: Store, token: Token, row: SessionRow, info: SessionInfo)
    requires Represents(c, db, st) && StoreInvariant(db) && token !in db.sessions
    requires c.agentText(info.agentPubkey) == row.agentPubkey
    requires info.capabilities == c.parseCaps(row.capabilities) && info.registeredDnas == {}
    ensures Represents(c, db.(sessions := db.sessions[token := row]), st.(sessions := st.sessions[token := info]))
  {
    forall d ensures DnaKey(token, c.dnaText(d)) !in db.sessionDnas {
      assert DnaKey(token, c.dnaText(d)).token == token;
    }
  }

  lemma RevokeRepresents(c: Codec, db: Database, st: Store, token: Token)
    requires RoundTrips(c) && Invariant(c, db) && Represents(c, db, st)
    ensures Represents(c, Call(c, db, RevokeSession(token)).0, Apply(st, RevokeSession(token)).0)
  {
  }

  lemma RegisterRepresents(c: Codec, db: Database, st: Store, agent: AgentPubKey, dna: DnaHash)
    requires RoundTrips(c) && Represents(c, db, st)
    ensures Represents(c, Execute(db, InsertDnasForAgent(c.dnaText(dna), c.agentText(agent))).value.0,
                       st.(sessions := ScopeSessions(st.sessions, agent, dna)))
  {
    var db' := Execute(db, InsertDnasForAgent(c.dnaText(dna), c.agentText(agent))).value.0;
    assert db'.allowedAgents == db.allowedAgents && db'.sessions == db.sessions;
    RegisterRepresentsDnas(c, db, st, agent, dna);
    ScopingRepresentsSessions(c, db.sessions, st.sessions, agent, dna);
  }

  lemma ScopingRepresentsSessions(c: Codec, rows: map<Text, SessionRow>, sessions: map<Token, SessionInfo>,
                                  agent: AgentPubKey, dna: DnaHash)
    requires RepresentsSessions(c, rows, sessions)
    ensures RepresentsSessions(c, rows, ScopeSessions(sessions, agent, dna))
  {
    forall t | t in sessions
      ensures ScopeSessions(sessions, agent, dna)[t].agentPubkey == sessions[t].agentPubkey
      ensures ScopeSessions(sessions, agent, dna)[t].capabilities == sessions[t].capabilities
    {
    }
  }

  lemma RegisterRepresentsDnas(c: Codec, db: Database, st: Store, agent: AgentPubKey, dna: DnaHash)
    requires RoundTrips(c) && Represents(c, db, st)
    ensures RepresentsDnas(c, Execute(db, InsertDnasForAgent(c.dnaText(dna), c.agentText(agent))).value.0.sessionDnas,
                           ScopeSessions(st.sessions, agent, dna))
  {
    var sessions' := ScopeSessions(st.sessions, agent, dna);
    forall t, d | t in sessions'
      ensures d in sessions'[t].registeredDnas <==>
                DnaKey(t, c.dnaText(d)) in
                  Execute(db, InsertDnasForAgent(c.dnaText(dna), c.agentText(agent))).value.0.sessionDnas
    {
      RegisteredRow(c, db, st, agent, dna, t, d);
    }
  }

  lemma RegisteredRow(c: Codec, db: Database, st: Store, agent: AgentPubKey, dna: DnaHash, t: Token, d: DnaHash)
    requires RoundTrips(c) && Represents(c, db, st) && t in st.sessions
    ensures d in Scoped(st.sessions[t], agent, dna).registeredDnas <==>
              DnaKey(t, c.dnaText(d)) in
                Execute(db, InsertDnasForAgent(c.dnaText(dna), c.agentText(agent))).value.0.sessionDnas
  {
    AgentTextInjective(c, st.sessions[t].agentPubkey, agent);
    assert c.parseDna(c.dnaText(d)) == Some(d) && c.parseDna(c.dnaText(dna)) == Some(dna);
    InsertedDnaRows(db, c.dnaText(dna), c.agentText(agent), DnaKey(t, c.dnaText(d)));
  }

  lemma InsertedDnaRows(db: Database, dnaHash: Text, pk: Text, k: DnaKey)
    ensures k in Execute(db, InsertDnasForAgent(dnaHash, pk)).value.0.sessionDnas <==>
              k in db.sessionDnas
              || (k.dnaHash == dnaHash && k.token in db.sessions && db.sessions[k.token].agentPubkey == pk)
  {
  }

  lemma RevokeAllRepresents(c: Codec, db: Database, st: Store, agent: AgentPubKey)
    requires RoundTrips(c) && Invariant(c, db) && Represents(c, db, st)
    ensures Represents(c, Call(c, db, RevokeSessionsForAgent(agent)).0, Apply(st, RevokeSessionsForAgent(agent)).0)
  {
  }

  lemma CallRepresents(c: Codec, db: Database, st: Store, op: Op)
    requires RoundTrips(c) && Invariant(c, db) && Represents(c, db, st) && !TokenClash(st, op)
    ensures Represents(c, Call(c, db, op).0, Apply(st, op).0)
  {
    match op
    case AddAgent(info) => AddRepresents(c, db, st, info);
    case RemoveAgent(agent) => RemoveRepresents(c, db, st, agent);
    case CreateSession(agent, token) => CreateRepresents(c, db, st, agent, token);
    case RevokeSession(token) => RevokeRepresents(c, db, st, token);
    case RegisterDna(agent, dna) => RegisterRepresents(c, db, st, agent, dna);
    case RevokeSessionsForAgent(agent) => RevokeAllRepresents(c, db, st, agent);
    case _ =>
  }

  lemma CallReplies(c: Codec, db: Database, st: Store, op: Op)
    requires RoundTrips(c) && Invariant(c, db) && Represents(c, db, st) && !TokenClash(st, op)
    ensures Call(c, db, op).1 == Apply(st, op).1
  {
    match op
    case ListAgents => ListedAgents(c, db, st);
    case ValidateSession(token) => ValidatedSession(c, db, st, token);
    case RevokeSessionsForAgent(agent) => RevokedCount(c, db, st, agent);
    case SessionCount => CountedSessions(c, db, st);
    case RemoveAgent(agent) => RemovedFlag(c, db, st, agent);
    case CreateSession(agent, token) => CreatedToken(c, db, st, agent, token);
    case GetAgent(agent) => FetchedAgent(c, db, st, agent);
    case _ =>
  }

  lemma CountedSessions(c: Codec, db: Database, st: Store)
    requires RepresentsSessions(c, db.sessions, st.sessions)
    ensures Call(c, db, SessionCount).1 == Apply(st, SessionCount).1
  {
    assert db.sessions.Keys == st.sessions.Keys;
  }

  lemma CreatedToken(c: Codec, db: Database, st: Store, agent: AgentPubKey, token: Token)
    requires Represents(c, db, st) && !TokenClash(st, CreateSession(agent, token))
    ensures Call(c, db, CreateSession(agent, token)).1 == Apply(st, CreateSession(agent, token)).1
  {
  }

  lemma FetchedAgent(c: Codec, db: Database, st: Store, agent: AgentPubKey)
    requires Represents(c, db, st)
    ensures Call(c, db, GetAgent(agent)).1 == Apply(st, GetAgent(agent)).1
  {
  }

  lemma RemovedFlag(c: Codec, db: Database, st: Store, agent: AgentPubKey)
    requires Represents(c, db, st)
    ensures Call(c, db, RemoveAgent(agent)).1 == Apply(st, RemoveAgent(agent)).1
  {
  }

  lemma ValidatedSession(c: Codec, db: Database, st: Store, token: Token)
    requires RoundTrips(c) && Invariant(c, db) && Represents(c, db, st)
    ensures Joined(c, db, token) == if token in st.sessions then Some(st.sessions[token]) else None
  {
    RepresentedIsAbstract(c, db, st);
    SessionLookup(c, db, token);
  }

  lemma RevokedCount(c: Codec, db: Database, st: Store, agent: AgentPubKey)
    requires RoundTrips(c) && RepresentsSessions(c, db.sessions, st.sessions)
    ensures Call(c, db, RevokeSessionsForAgent(agent)).1 == Apply(st, RevokeSessionsForAgent(agent)).1
  {
    var pk := c.agentText(agent);
    var rows := set t | t in db.sessions && db.sessions[t].agentPubkey == pk;
    var held := set t | t in st.sessions && st.sessions[t].agentPubkey == agent;
    forall t ensures t in rows <==> t in held {
      if t in st.sessions {
        AgentTextInjective(c, st.sessions[t].agentPubkey, agent);
      }
    }
    assert rows == held;
  }

  lemma ListedAgents(c: Codec, db: Database, st: Store)
    requires RoundTrips(c) && Invariant(c, db) && Represents(c, db, st)
    ensures Call(c, db, ListAgents).1 == Agents(st.allowed.Values)
  {
    var listed := Call(c, db, ListAgents).1.agents;
    forall x ensures x in listed <==> x in st.allowed.Values {
      if x in listed {
        var pk :| pk in db.allowedAgents && c.parseAgent(pk).Some?
                  && x == RowToAgent(c, c.parseAgent(pk).value, db.allowedAgents[pk]);
        var a :| pk == c.agentText(a);
        assert a in st.allowed && st.allowed[a] == x;
      }
      if x in st.allowed.Values {
        var a :| a in st.allowed && st.allowed[a] == x;
        var pk := c.agentText(a);
        assert pk in db.allowedAgents && c.parseAgent(pk) == Some(a);
      }
    }
  }

  // One call: same reply and same abstract state as the in-memory store, except
  // on a token clash, where SQLite reports a key violation and changes nothing.
  lemma SqliteRefinesMemory(c: Codec, db: Database, op: Op)
    requires RoundTrips(c) && Invariant(c, db)
    ensures Invariant(c, Call(c, db, op).0)
    ensures (Abstract(c, Call(c, db, op).0), Call(c, db, op).1) == Apply(Abstract(c, db), op)
            <==> !TokenClash(Abstract(c, db), op)
    ensures TokenClash(Abstract(c, db), op) ==> Call(c, db, op) == (db, DatabaseError)
  {
    var st := Abstract(c, db);
    AbstractRepresents(c, db);
    CallKeepsInvariant(c, db, op);
    if !TokenClash(st, op) {
      CallRepresents(c, db, st, op);
      RepresentedIsAbstract(c, Call(c, db, op).0, Apply(st, op).0);
      CallReplies(c, db, st, op);
    } else {
      ClashingInsertFails(c, db, op.agent, op.token);
    }
  }

  lemma ClashingInsertFails(c: Codec, db: Database, agent: AgentPubKey, token: Token)
    requires RoundTrips(c) && Invariant(c, db) && TokenClash(Abstract(c, db), CreateSession(agent, token))
    ensures Call(c, db, CreateSession(agent, token)) == (db, DatabaseError)
  {
    AllowedLookup(c, db, agent);
    SessionLookup(c, db, token);
  }

  lemma JoinedIsLookup(c: Codec, db: Database, token: Token)
    requires RoundTrips(c) && Invariant(c, db)
    ensures Session(Joined(c, db, token)) == Apply(Abstract(c, db), ValidateSession(token)).1
  {
    SqliteRefinesMemory(c, db, ValidateSession(token));
  }

  function CallAll(c: Codec, db: Database, ops: seq<Op>): (Database, seq<Reply>)
    decreases |ops|
  {
    if ops == [] then (db, [])
    else
      var (db1, reply) := Call(c, db, ops[0]);
      var (db2, replies) := CallAll(c, db1, ops[1..]);
      (db2, [reply] + replies)
  }

  // No call of the run draws a token that is live in the in-memory store at that point.
  predicate FreshTokens(st: Store, ops: seq<Op>)
    decreases |ops|
  {
    ops == [] || (!TokenClash(st, ops[0]) && FreshTokens(Apply(st, ops[0]).0, ops[1..]))
  }

  // Any run of calls: the replies match the in-memory store's exactly when the
  // drawn tokens are fresh, and then the final states match too.
  lemma {:induction false} RunsRefine(c: Codec, db: Database, ops: seq<Op>)
    requires RoundTrips(c) && Invariant(c, db)
    ensures Invariant(c, CallAll(c, db, ops).0)
    ensures CallAll(c, db, ops).1 == ApplyAll(Abstract(c, db), ops).1 <==> FreshTokens(Abstract(c, db), ops)
    ensures FreshTokens(Abstract(c, db), ops) ==>
              Abstract(c, CallAll(c, db, ops).0) == ApplyAll(Abstract(c, db), ops).0
    decreases |ops|
  {
    if ops != [] {
      SqliteRefinesMemory(c, db, ops[0]);
      RunsRefine(c, Call(c, db, ops[0]).0, ops[1..]);
      var sql, mem := CallAll(c, db, ops).1, ApplyAll(Abstract(c, db), ops).1;
      assert sql[0] == Call(c, db, ops[0]).1 && mem[0] == Apply(Abstract(c, db), ops[0]).1;
      assert sql[1..] == CallAll(c, Call(c, db, ops[0]).0, ops[1..]).1;
      assert mem[1..] == ApplyAll(Apply(Abstract(c, db), ops[0]).0, ops[1..]).1;
    }
  }

  const EMPTY_DATABASE := Database(map[], map[], map[])

  // A store opened on an empty file starts out as the empty in-memory store.
  lemma EmptyDatabaseAbstraction(c: Codec)
    ensures Invariant(c, EMPTY_DATABASE) && Abstract(c, EMPTY_DATABASE) == EMPTY_STORE
  {
    assert Abstract(c, EMPTY_DATABASE).allowed == map[];
    assert Abstract(c, EMPTY_DATABASE).sessions == map[];
  }

  // The statements of one connection, run under its lock. Each call does to the
  // store it stands for what the in-memory store would do.
  class SqliteSessionStore {
    const codec: Codec
    var db: Database

    ghost predicate Valid()
      reads this
    {
      RoundTrips(codec) && Invariant(codec, db)
    }

    ghost function View(): Store
      reads this
    {
      Abstract(codec, db)
    }

    constructor (codec: Codec)
      requires RoundTrips(codec)
      ensures this.codec == codec && Valid() && View() == EMPTY_STORE
    {
      this.codec := codec;
      db := EMPTY_DATABASE;
      new;
      EmptyDatabaseAbstraction(codec);
    }

    method Run(stmt: Statement) returns (rows: Option<nat>)
      modifies this
      ensures rows.Some? <==> Execute(old(db), stmt).Some?
      ensures rows.Some? ==> Some((db, rows.value)) == Execute(old(db), stmt)
      ensures rows.None? ==> db == old(db)
    {
      match Execute(db, stmt)
      case None => rows := None;
      case Some((after, touched)) =>
        db := after;
        rows := Some(touched);
    }

    method AddAgent(info: AllowedAgent)
      requires Valid()
      modifies this
      ensures Valid() && View() == Apply(old(View()), Op.AddAgent(info)).0
    {
      ghost var before := db;
      var _ := Run(UpsertAllowed(codec.agentText(info.agentPubkey),
                                 AllowedRow(codec.capsText(info.capabilities), info.agentLabel)));
      assert db == Call(codec, before, Op.AddAgent(info)).0;
      SqliteRefinesMemory(codec, before, Op.AddAgent(info));
    }

    method IsAgentAllowed(agent: AgentPubKey) returns (allowed: bool)
      requires Valid()
      ensures (View(), Flag(allowed)) == Apply(View(), Op.IsAgentAllowed(agent))
    {
      AllowedLookup(codec, db, agent);
      allowed := codec.agentText(agent) in db.allowedAgents;
    }

    method RemoveAgent(agent: AgentPubKey) returns (removed: bool)
      requires Valid()
      modifies this
      ensures Valid() && (View(), Flag(removed)) == Apply(old(View()), Op.RemoveAgent(agent))
    {
      ghost var before := db;
      var pk := codec.agentText(agent);
      var _ := Run(DeleteDnasOfAgent(pk));
      var _ := Run(DeleteSessionsOfAgent(pk));
      var rows := Run(DeleteAllowed(pk));
      removed := rows.value > 0;
      assert (db, Flag(removed)) == CallRemoveAgent(before, pk);
      SqliteRefinesMemory(codec, before, Op.RemoveAgent(agent));
    }

    // Drawing a token that is live is the one call that differs: it fails and changes nothing.
    method CreateSession(agent: AgentPubKey, token: Token) returns (created: Result<Option<Token>, ()>)
      requires Valid()
      modifies this
      ensures Valid()
      ensures created.Err? <==> TokenClash(old(View()), Op.CreateSession(agent, token))
      ensures created.Err? ==> View() == old(View())
      ensures created.Ok? ==> (View(), Created(created.value)) == Apply(old(View()), Op.CreateSession(agent, token))
    {
      ghost var before := db;
      var pk := codec.agentText(agent);
      if pk in db.allowedAgents {
        var rows := Run(InsertSession(token, SessionRow(pk, db.allowedAgents[pk].capabilities)));
        created := if rows.Some? then Ok(Some(token)) else Err(());
      } else {
        created := Ok(None);
      }
      assert (db, if created.Ok? then Created(created.value) else DatabaseError)
          == CallCreateSession(before, pk, token);
      SqliteRefinesMemory(codec, before, Op.CreateSession(agent, token));
    }

    // Looks the session up, then collects its DNA rows one at a time; rows that do not parse are skipped.
    method ValidateSession(token: Token) returns (session: Option<SessionInfo>)
      requires Valid()
      ensures session == Joined(codec, db, token)
      ensures (View(), Session(session)) == Apply(View(), Op.ValidateSession(token))
    {
      JoinedIsLookup(codec, db, token);
      if token !in db.sessions {
        return None;
      }
      var row := db.sessions[token];
      var parsed := codec.parseAgent(row.agentPubkey);
      if parsed.None? {
        return None;
      }
      var unread := set k | k in db.sessionDnas && k.token == token;
      ghost var selected := unread;
      var registered: set<DnaHash> := {};
      while unread != {}
        invariant unread <= selected
        invariant registered == ParsedDnas(codec, selected - unread)
        decreases unread
      {
        var k :| k in unread;
        var dna := codec.parseDna(k.dnaHash);
        assert selected - (unread - {k}) == (selected - unread) + {k};
        ParsedOneMore(codec, selected - unread, k);
        unread := unread - {k};
        if dna.Some? {
          registered := registered + {dna.value};
        }
      }
      assert selected - {} == selected;
      session := Some(SessionInfo(parsed.value, codec.parseCaps(row.capabilities), registered));
    }

    method RevokeSession(token: Token) returns (existed: bool)
      requires Valid()
      modifies this
      ensures Valid() && (View(), Flag(existed)) == Apply(old(View()), Op.RevokeSession(token))
    {
      ghost var before := db;
      var rows := Run(DeleteSession(token));
      existed := rows.value > 0;
      assert db == Call(codec, before, Op.RevokeSession(token)).0;
      SqliteRefinesMemory(codec, before, Op.RevokeSession(token));
    }

    method RegisterDnaForAgent(agent: AgentPubKey, dna: DnaHash)
      requires Valid()
      modifies this
      ensures Valid() && View() == Apply(old(View()), Op.RegisterDna(agent, dna)).0
    {
      ghost var before := db;
      var _ := Run(InsertDnasForAgent(codec.dnaText(dna), codec.agentText(agent)));
      assert db == Call(codec, before, Op.RegisterDna(agent, dna)).0;
      SqliteRefinesMemory(codec, before, Op.RegisterDna(agent, dna));
    }

    method RevokeSessionsForAgent(agent: AgentPubKey) returns (revoked: nat)
      requires Valid()
      modifies this
      ensures Valid() && (View(), Count(revoked)) == Apply(old(View()), Op.RevokeSessionsForAgent(agent))
    {
      ghost var before := db;
      var rows := Run(DeleteSessionsOfAgent(codec.agentText(agent)));
      revoked := rows.value;
      assert db == Call(codec, before, Op.RevokeSessionsForAgent(agent)).0;
      SqliteRefinesMemory(codec, before, Op.RevokeSessionsForAgent(agent));
    }
  }
}
