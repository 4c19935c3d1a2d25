// The connection protocol as a transition system. Any number of WebSocket
// tasks run the handlers of one linker at the same time; a task gives way at
// every `.await` on a shared lock, so each step below is one lock-protected
// access together with the local code around it.

module Protocol {
  import opened Wrappers
  import opened Types
  import opened SessionStore

  // What the linker was started with. `verify` covers decoding the signature
  // text and checking it against the challenge and the agent's key.
  datatype Config = Config(
    authEnabled: bool, kitsuneEnabled: bool, verify: (AgentPubKey, Nonce, string) -> bool)

  // Parsed client messages; None stands for text that does not parse.
  datatype ClientMessage =
    | Auth(agentPubkey: Option<AgentPubKey>)
    | AuthChallengeResponse(signature: string)
    | Register(dnaHash: Option<DnaHash>, agentPubkey: Option<AgentPubKey>)
    | Unregister(dnaHash: Option<DnaHash>, agentPubkey: Option<AgentPubKey>)
    | Ping
    | SignResponse(requestId: string, signed: Option<Option<seq<nat>>>, error: Option<string>)
    | SendRemoteSignal(dnaHash: Option<DnaHash>, signals: seq<Signal>)

  type Url = nat
  type Payload = nat

  // One signal of a batch and what its sending meets: a target that may not
  // parse, room in a browser's channel, a space that may fail to open, a peer
  // that may have no url, and the outcomes of encoding and sending.
  datatype Signal = Signal(
    target: Option<AgentPubKey>, payload: Payload, room: bool,
    spaceOk: bool, peerUrl: Option<Url>, encodes: bool, sendOk: bool)

  // A signal for an agent not registered here leaves through the DNA's space.
  predicate NeedsSpace(proxy: map<Cell, ConnId>, dna: DnaHash, signal: Signal) {
    signal.target.Some? && Cell(dna, signal.target.value) !in proxy
  }

  datatype ConnectionState = ConnectionState(
    authenticated: bool,
    registrations: seq<Cell>,
    pendingAuthAgent: Option<AgentPubKey>,
    pendingChallenge: Option<Nonce>,
    authenticatedAgent: Option<AgentPubKey>)

  const FRESH_CONNECTION := ConnectionState(false, [], None, None, None)

  // Where a connection's task is. `closing` tells the socket cleanup from an Unregister.
  datatype Phase =
    | Idle
    // Register: proxy entry, session scope, then agent_join and get_or_create_space
    | Proxying(cell: Cell)
    | Scoping(cell: Cell)
    | JoinChecking(cell: Cell)
    | SpaceLookup(cell: Cell)
    | SpaceCreating(cell: Cell)
    | Joining(cell: Cell)
    // Unregister, and the cleanup of a closed socket: proxy entries, then agent_leave per cell
    | Unproxying(cell: Cell)
    | UnproxyingAll
    | Leaving(todo: seq<Cell>, closing: bool)
    | CleanupChecking(dna: DnaHash, todo: seq<Cell>, closing: bool)
    | CleanupRemoving(dna: DnaHash, todo: seq<Cell>, closing: bool)
    | Detaching
    | Closed
    // AuthChallengeResponse: the two lock sections of create_session, then register_ws_sender
    | CreatingSession(agent: AgentPubKey, nonce: Nonce, signature: string)
    | InsertingSession(agent: AgentPubKey, nonce: Nonce, signature: string, capabilities: set<Capability>)
    | Attaching(agent: AgentPubKey, token: Token)
    // SendRemoteSignal: one signal after the other
    | Signalling(dna: DnaHash, signals: seq<Signal>)

  datatype Conn = Conn(phase: Phase, state: ConnectionState)

  datatype Shared = Shared(
    proxy: map<Cell, ConnId>,                    // AgentProxyManager.registrations
    joined: set<Cell>,                           // GatewayKitsune.agents
    spaces: set<DnaHash>,                        // GatewayKitsune.spaces
    store: Store,                                // AuthStore.store
    wsSenders: Senders)                          // AuthStore.ws_senders

  // History variable: what happened, in order. The linker itself keeps no such log.
  datatype LogEntry =
    | Challenged(conn: ConnId, agent: AgentPubKey, nonce: Nonce)
    | CapabilitiesRead(conn: ConnId, agent: AgentPubKey, nonce: Nonce, capabilities: set<Capability>)
    | SessionCreated(conn: ConnId, agent: AgentPubKey, nonce: Nonce, signature: string,
                     capabilities: set<Capability>, token: Token)
    | AuthOk(conn: ConnId, agent: AgentPubKey, token: Token)
    | DnaScoped(conn: ConnId, agent: AgentPubKey, dna: DnaHash)
    | Detached(conn: ConnId, agent: AgentPubKey)
    | AgentAdded(info: AllowedAgent)
    | AgentRemoved(agent: AgentPubKey)
    | SendersDropped(agent: AgentPubKey)
    | SessionRevoked(token: Token)
    | AgentSessionsRevoked(agent: AgentPubKey)

  // `removals`: admin tasks between removing an agent and dropping its senders.
  datatype System = System(
    conns: map<ConnId, Conn>, shared: Shared, log: seq<LogEntry>, removals: multiset<AgentPubKey>)

  const EMPTY_SHARED := Shared(map[], {}, {}, EMPTY_STORE, map[])
  const START := System(map[], EMPTY_SHARED, [], multiset{})

  datatype Event =
    | Open(conn: ConnId)
    | Receive(conn: ConnId, msg: ClientMessage, nonce: Nonce)  // nonce: drawn if the message is Auth
    | Advance(conn: ConnId, kitsuneOk: bool, token: Token)     // outcome of a kitsune call, drawn token
    | Hangup(conn: ConnId)                                     // the socket loop ends
    | AdminAddAgent(info: AllowedAgent)
    | AdminRemoveAgent(agent: AgentPubKey)
    | FinishRemoval(agent: AgentPubKey)
    | RevokeOne(token: Token)
    | RevokeAllOf(agent: AgentPubKey)
    | SpaceOpened(dna: DnaHash)                                // a query, publish or signal needed a space

  // One await step of a task: its new state, the shared state, and what to log.
  datatype Outcome = Outcome(conn: Conn, shared: Shared, logged: seq<LogEntry>)

  function Goto(cn: Conn, phase: Phase, sh: Shared): Outcome {
    Outcome(cn.(phase := phase), sh, [])
  }

  // agent_join runs only when kitsune2 is configured.
  function AfterRegister(cfg: Config, cell: Cell): Phase {
    if cfg.kitsuneEnabled then JoinChecking(cell) else Idle
  }

  // The synchronous start of handle_client_message, up to its first shared write.
  function Start(cfg: Config, c: ConnId, cn: Conn, sh: Shared, msg: ClientMessage, nonce: Nonce): Outcome {
    var st := cn.state;
    match msg
    case Auth(None) => Outcome(cn, sh, [])
    case Auth(Some(agent)) =>
      if !cfg.authEnabled then
        Outcome(cn.(state := st.(authenticated := true, authenticatedAgent := Some(agent))), sh, [])
      else if agent !in sh.store.allowed then Outcome(cn, sh, [])
      else
        Outcome(cn.(state := st.(pendingAuthAgent := Some(agent), pendingChallenge := Some(nonce))), sh,
                [Challenged(c, agent, nonce)])
    case AuthChallengeResponse(signature) =>
      if st.pendingAuthAgent.None? then Outcome(cn, sh, [])
      else if st.pendingChallenge.None? then Outcome(cn.(state := st.(pendingAuthAgent := None)), sh, [])
      else
        var (agent, nonce) := (st.pendingAuthAgent.value, st.pendingChallenge.value);
        var taken := cn.(state := st.(pendingAuthAgent := None, pendingChallenge := None));
        if cfg.verify(agent, nonce, signature)
        then Goto(taken, CreatingSession(agent, nonce, signature), sh)
        else Outcome(taken, sh, [])
    case Register(dna, agent) =>
      if !st.authenticated || dna.None? || agent.None? then Outcome(cn, sh, [])
      else if cfg.authEnabled && st.authenticatedAgent.Some? && agent != st.authenticatedAgent then
        Outcome(cn, sh, [])
      else
        var cell := Cell(dna.value, agent.value);
        var listed := if cell in st.registrations then st.registrations else st.registrations + [cell];
        Goto(cn.(state := st.(registrations := listed)), Proxying(cell), sh)
    case Unregister(dna, agent) =>
      if !st.authenticated || dna.None? || agent.None? then Outcome(cn, sh, [])
      else
        var cell := Cell(dna.value, agent.value);
        Goto(cn.(state := st.(registrations := Filter(st.registrations, r => r != cell))), Unproxying(cell), sh)
    case Ping => Outcome(cn, sh, [])
    case SignResponse(_, _, _) => Outcome(cn, sh, [])
    case SendRemoteSignal(dna, signals) =>
      if !st.authenticated || !cfg.kitsuneEnabled || dna.None? then Outcome(cn, sh, [])
      else Goto(cn, Signalling(dna.value, signals), sh)
  }

  // The next shared access of a task that is inside a handler or its cleanup.
  function Continue(cfg: Config, c: ConnId, cn: Conn, sh: Shared, kitsuneOk: bool, token: Token): Outcome {
    match cn.phase
    case Idle | Closed => Outcome(cn, sh, [])
    case Proxying(cell) =>
      Goto(cn, if cfg.authEnabled then Scoping(cell) else AfterRegister(cfg, cell),
           sh.(proxy := sh.proxy[cell := c]))
    case Scoping(cell) =>
      Outcome(cn.(phase := AfterRegister(cfg, cell)),
              sh.(store := Apply(sh.store, RegisterDna(cell.agent, cell.dna)).0),
              [DnaScoped(c, cell.agent, cell.dna)])
    case JoinChecking(cell) => Goto(cn, if cell in sh.joined then Idle else SpaceLookup(cell), sh)
    case SpaceLookup(cell) => Goto(cn, if cell.dna in sh.spaces then Joining(cell) else SpaceCreating(cell), sh)
    case SpaceCreating(cell) =>
      if kitsuneOk then Goto(cn, Joining(cell), sh.(spaces := sh.spaces + {cell.dna})) else Goto(cn, Idle, sh)
    case Joining(cell) =>
      Goto(cn, Idle, if kitsuneOk then sh.(joined := sh.joined + {cell}) else sh)
    case Unproxying(cell) =>
      Goto(cn, if cfg.kitsuneEnabled then Leaving([cell], false) else Idle, sh.(proxy := sh.proxy - {cell}))
    case UnproxyingAll =>
      Goto(cn, if cfg.kitsuneEnabled then Leaving(cn.state.registrations, true) else Detaching,
           sh.(proxy := WithoutSender(sh.proxy, c)))
    case Leaving(todo, closing) =>
      if todo == [] then Goto(cn, if closing then Detaching else Idle, sh)
      else if todo[0] in sh.joined then
        Goto(cn, CleanupChecking(todo[0].dna, todo[1..], closing), sh.(joined := sh.joined - {todo[0]}))
      else Goto(cn, Leaving(todo[1..], closing), sh)
    case CleanupChecking(dna, todo, closing) =>
      Goto(cn, if HasAgents(sh.joined, dna) then Leaving(todo, closing) else CleanupRemoving(dna, todo, closing), sh)
    case CleanupRemoving(dna, todo, closing) =>
      Goto(cn, Leaving(todo, closing), sh.(spaces := sh.spaces - {dna}))
    case Detaching =>
      if cfg.authEnabled && cn.state.authenticatedAgent.Some? then
        var agent := cn.state.authenticatedAgent.value;
        Outcome(cn.(phase := Closed), sh.(wsSenders := DetachSender(sh.wsSenders, agent, c)), [Detached(c, agent)])
      else Goto(cn, Closed, sh)
    case CreatingSession(agent, nonce, signature) =>
      if agent !in sh.store.allowed then Goto(cn, Idle, sh)
      else
        var capabilities := sh.store.allowed[agent].capabilities;
        Outcome(cn.(phase := InsertingSession(agent, nonce, signature, capabilities)), sh,
                [CapabilitiesRead(c, agent, nonce, capabilities)])
    case InsertingSession(agent, nonce, signature, capabilities) =>
      Outcome(cn.(phase := Attaching(agent, token)),
              sh.(store := InsertSession(sh.store, agent, capabilities, token)),
              [SessionCreated(c, agent, nonce, signature, capabilities, token)])
    case Attaching(agent, tok) =>
      Outcome(Conn(Idle, cn.state.(authenticated := true, authenticatedAgent := Some(agent))),
              sh.(wsSenders := AttachSender(sh.wsSenders, agent, c)),
              [AuthOk(c, agent, tok)])
    case Signalling(dna, signals) =>
      if signals == [] then Goto(cn, Idle, sh)
      else
        var opens := NeedsSpace(sh.proxy, dna, signals[0]) && signals[0].spaceOk;
        Goto(cn, Signalling(dna, signals[1..]), if opens then sh.(spaces := sh.spaces + {dna}) else sh)
  }

  function WithoutSender(proxy: map<Cell, ConnId>, c: ConnId): map<Cell, ConnId> {
    map k | k in proxy && proxy[k] != c :: proxy[k]
  }

  predicate HasAgents(joined: set<Cell>, dna: DnaHash) {
    exists k :: k in joined && k.dna == dna
  }

  type Senders = map<AgentPubKey, seq<ConnId>>

  function AttachSender(senders: Senders, agent: AgentPubKey, c: ConnId): Senders {
    senders[agent := (if agent in senders then senders[agent] else []) + [c]]
  }

  // Drops every sender of this connection; an emptied list is dropped with its key.
  function DetachSender(senders: Senders, agent: AgentPubKey, c: ConnId): Senders {
    if agent !in senders then senders
    else
      var kept := Filter(senders[agent], s => s != c);
      if kept == [] then senders - {agent} else senders[agent := kept]
  }

  // Random values are assumed fresh: no two challenges and no two session tokens coincide.
  predicate NonceDrawn(log: seq<LogEntry>, nonce: Nonce) {
    exists e :: e in log && e.Challenged? && e.nonce == nonce
  }

  predicate TokenDrawn(log: seq<LogEntry>, token: Token) {
    exists e :: e in log && e.SessionCreated? && e.token == token
  }

  predicate Enabled(s: System, e: Event) {
    match e
    case Open(c) => c !in s.conns
    case Receive(c, msg, nonce) =>
      c in s.conns && s.conns[c].phase == Idle && (msg.Auth? ==> !NonceDrawn(s.log, nonce))
    case Advance(c, _, token) =>
      c in s.conns && (s.conns[c].phase.InsertingSession? ==> !TokenDrawn(s.log, token))
    case Hangup(c) => c in s.conns && s.conns[c].phase == Idle
    case FinishRemoval(agent) => agent in s.removals
    case _ => true
  }

  function Land(s: System, c: ConnId, o: Outcome): System {
    s.(conns := s.conns[c := o.conn], shared := o.shared, log := s.log + o.logged)
  }

  function AdminApply(s: System, op: Op, entry: LogEntry): System {
    s.(shared := s.shared.(store := Apply(s.shared.store, op).0), log := s.log + [entry])
  }

  function Fire(cfg: Config, s: System, e: Event): System
    requires Enabled(s, e)
  {
    match e
    case Open(c) => s.(conns := s.conns[c := Conn(Idle, FRESH_CONNECTION)])
    case Receive(c, msg, nonce) => Land(s, c, Start(cfg, c, s.conns[c], s.shared, msg, nonce))
    case Advance(c, ok, token) => Land(s, c, Continue(cfg, c, s.conns[c], s.shared, ok, token))
    case Hangup(c) => Land(s, c, Goto(s.conns[c], UnproxyingAll, s.shared))
    case AdminAddAgent(info) => AdminApply(s, AddAgent(info), AgentAdded(info))
    case AdminRemoveAgent(agent) =>
      var s' := AdminApply(s, RemoveAgent(agent), AgentRemoved(agent));
      if agent in s.shared.store.allowed then s'.(removals := s.removals + multiset{agent}) else s'
    case FinishRemoval(agent) =>
      // Dropping the stored senders does not close a socket: each connection holds its own.
      s.(shared := s.shared.(wsSenders := s.shared.wsSenders - {agent}), log := s.log + [SendersDropped(agent)],
         removals := s.removals - multiset{agent})
    case RevokeOne(token) => AdminApply(s, RevokeSession(token), SessionRevoked(token))
    case RevokeAllOf(agent) => AdminApply(s, RevokeSessionsForAgent(agent), AgentSessionsRevoked(agent))
    case SpaceOpened(dna) =>
      if cfg.kitsuneEnabled then s.(shared := s.shared.(spaces := s.shared.spaces + {dna})) else s
  }

  // The admin's calls and what each of them logs.
  predicate IsAdmin(e: Event) {
    e.AdminAddAgent? || e.AdminRemoveAgent? || e.FinishRemoval? || e.RevokeOne? || e.RevokeAllOf?
  }

  function AdminEntry(e: Event): LogEntry
    requires IsAdmin(e)
  {
    match e
    case AdminAddAgent(info) => AgentAdded(info)
    case AdminRemoveAgent(agent) => AgentRemoved(agent)
    case FinishRemoval(agent) => SendersDropped(agent)
    case RevokeOne(token) => SessionRevoked(token)
    case RevokeAllOf(agent) => AgentSessionsRevoked(agent)
  }

  // An event that cannot happen in a state changes nothing.
  function Step(cfg: Config, s: System, e: Event): System {
    if Enabled(s, e) then Fire(cfg, s, e) else s
  }

  // Every interleaving is one event sequence.
  function Run(cfg: Config, events: seq<Event>): System {
    if events == [] then START
    else Step(cfg, Run(cfg, events[..|events| - 1]), events[|events| - 1])
  }

  ghost predicate Reachable(cfg: Config, s: System) {
    exists events :: Run(cfg, events) == s
  }

  lemma ReachableStep(cfg: Config, s: System, e: Event) returns (s': System)
    requires Reachable(cfg, s)
    ensures s' == Step(cfg, s, e) && Reachable(cfg, s')
  {
    s' := Step(cfg, s, e);
    var events :| Run(cfg, events) == s;
    var longer := events + [e];
    assert longer[..|longer| - 1] == events;
    assert Run(cfg, longer) == s';
  }

  lemma StartIsReachable(cfg: Config)
    ensures Reachable(cfg, START)
  {
    assert Run(cfg, []) == START;
  }
}
