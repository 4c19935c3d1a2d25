// The WebSocket handlers themselves, on the shared objects. Each handler is
// proved to do what the protocol's await steps do when nobody interferes, so
// whatever holds of every protocol run holds of the handlers.

module Websocket {
  import opened Wrappers
  import opened Types
  import opened SessionStore
  import opened Protocol
  import opened Registries
  import opened RemoteSignals
  import AgentProxy
  import ProtocolSenders

  datatype ServerMessage =
    | AuthOk(sessionToken: Token)
    | AuthChallenge(challenge: Nonce)
    | AuthError
    | Registered(dnaHash: DnaHash, agentPubkey: AgentPubKey)
    | Unregistered(dnaHash: DnaHash, agentPubkey: AgentPubKey)
    | Pong
    | Error

  // What a handler run meets outside the linker: kitsune2's answers and random draws.
  datatype Surroundings = Surroundings(spaceOk: bool, joinOk: bool, nonce: Nonce, token: Token)

  function KitsuneOk(env: Surroundings, p: Phase): bool {
    if p.SpaceCreating? then env.spaceOk else env.joinOk
  }

  // Steps a task still has to make.
  function Rank(cn: Conn): nat {
    match cn.phase
    case Idle | Closed => 0
    case Detaching => 1
    case Joining(_) | Attaching(_, _) => 1
    case SpaceCreating(_) | InsertingSession(_, _, _, _) => 2
    case SpaceLookup(_) | CreatingSession(_, _, _) => 3
    case JoinChecking(_) => 4
    case Scoping(_) => 5
    case Proxying(_) => 6
    case Leaving(todo, _) => 3 * |todo| + 2
    case CleanupRemoving(_, todo, _) => 3 * |todo| + 3
    case CleanupChecking(_, todo, _) => 3 * |todo| + 4
    case Unproxying(_) => 6
    case UnproxyingAll => 3 * |cn.state.registrations| + 3
    case Signalling(_, signals) => |signals| + 1
  }

  lemma ContinueDescends(cfg: Config, c: ConnId, cn: Conn, sh: Shared, ok: bool, token: Token)
    requires cn.phase != Idle && cn.phase != Closed
    ensures var o := Continue(cfg, c, cn, sh, ok, token);
            && Rank(o.conn) < Rank(cn) && !o.conn.phase.CreatingSession?
            && (o.conn.phase.InsertingSession? ==>
                  cn.phase.CreatingSession? && forall e :: e in o.logged ==> !e.SessionCreated?)
  {
  }

  // Running a task to its next resting place without interference.
  function Finish(cfg: Config, c: ConnId, cn: Conn, sh: Shared, env: Surroundings): (Conn, Shared)
    decreases Rank(cn)
  {
    if cn.phase == Idle || cn.phase == Closed then (cn, sh)
    else
      var o := Continue(cfg, c, cn, sh, KitsuneOk(env, cn.phase), env.token);
      ContinueDescends(cfg, c, cn, sh, KitsuneOk(env, cn.phase), env.token);
      Finish(cfg, c, o.conn, o.shared, env)
  }

  predicate DrawsToken(p: Phase) {
    p.CreatingSession? || p.InsertingSession?
  }

  // An undisturbed handler is one of the protocol's runs.
  lemma {:induction false} FinishIsARun(cfg: Config, s: System, c: ConnId, env: Surroundings)
    requires Reachable(cfg, s) && c in s.conns
    requires DrawsToken(s.conns[c].phase) ==> !TokenDrawn(s.log, env.token)
    ensures exists s' :: Reachable(cfg, s')
                         && (s'.conns, s'.shared)
                            == (var (cn, sh) := Finish(cfg, c, s.conns[c], s.shared, env); (s.conns[c := cn], sh))
    decreases Rank(s.conns[c])
  {
    var cn := s.conns[c];
    if cn.phase == Idle || cn.phase == Closed {
      assert s.conns[c := cn] == s.conns;
    } else {
      var ok := KitsuneOk(env, cn.phase);
      var s1 := ReachableStep(cfg, s, Advance(c, ok, env.token));
      ContinueDescends(cfg, c, cn, s.shared, ok, env.token);
      FinishIsARun(cfg, s1, c, env);
      var (done, sh) := Finish(cfg, c, s1.conns[c], s1.shared, env);
      assert s1.conns[c := done] == s.conns[c := done];
    }
  }

  function WithScope(sh: Shared, cell: Cell): Shared {
    sh.(store := Apply(sh.store, RegisterDna(cell.agent, cell.dna)).0)
  }

  lemma FinishProxying(cfg: Config, c: ConnId, st: ConnectionState, cell: Cell, sh: Shared, env: Surroundings)
    ensures var sh1 := sh.(proxy := sh.proxy[cell := c]);
            var sh2 := if cfg.authEnabled then WithScope(sh1, cell) else sh1;
            Finish(cfg, c, Conn(Proxying(cell), st), sh, env)
            == Finish(cfg, c, Conn(AfterRegister(cfg, cell), st), sh2, env)
  {
    var sh1 := sh.(proxy := sh.proxy[cell := c]);
    if cfg.authEnabled {
      assert Finish(cfg, c, Conn(Proxying(cell), st), sh, env) == Finish(cfg, c, Conn(Scoping(cell), st), sh1, env);
    }
  }

  // ---- Undisturbed kitsune operations ----

  function WithKitsune(sh: Shared, agents: set<Cell>, spaces: set<DnaHash>): Shared {
    sh.(joined := agents, spaces := spaces)
  }

  lemma FinishJoin(cfg: Config, c: ConnId, cn: Conn, sh: Shared, env: Surroundings)
    requires cn.phase.JoinChecking?
    ensures var cell := cn.phase.cell;
            var ok := cell in sh.joined || ((cell.dna in sh.spaces || env.spaceOk) && env.joinOk);
            Finish(cfg, c, cn, sh, env)
            == (cn.(phase := Idle),
                WithKitsune(sh, if ok then sh.joined + {cell} else sh.joined,
                            if cell !in sh.joined && env.spaceOk then sh.spaces + {cell.dna} else sh.spaces))
  {
    var cell := cn.phase.cell;
    if cell in sh.joined {
      assert sh.joined + {cell} == sh.joined;
    } else {
      var looking := cn.(phase := SpaceLookup(cell));
      assert Finish(cfg, c, cn, sh, env) == Finish(cfg, c, looking, sh, env);
      if cell.dna in sh.spaces {
        assert sh.spaces + {cell.dna} == sh.spaces;
        FinishJoining(cfg, c, cn.(phase := Joining(cell)), sh, env);
      } else {
        var creating := cn.(phase := SpaceCreating(cell));
        assert Finish(cfg, c, looking, sh, env) == Finish(cfg, c, creating, sh, env);
        var sh1 := sh.(spaces := sh.spaces + {cell.dna});
        assert Finish(cfg, c, creating, sh, env)
            == if env.spaceOk then Finish(cfg, c, cn.(phase := Joining(cell)), sh1, env) else (cn.(phase := Idle), sh);
        FinishJoining(cfg, c, cn.(phase := Joining(cell)), sh1, env);
      }
    }
  }

  // What a whole undisturbed Register leaves, part by part.
  function WithJoin(sh: Shared, cell: Cell, env: Surroundings): Shared {
    var ok := cell in sh.joined || ((cell.dna in sh.spaces || env.spaceOk) && env.joinOk);
    WithKitsune(sh, if ok then sh.joined + {cell} else sh.joined,
                if cell !in sh.joined && env.spaceOk then sh.spaces + {cell.dna} else sh.spaces)
  }

  function WithEntry(sh: Shared, cell: Cell, c: ConnId): Shared {
    sh.(proxy := sh.proxy[cell := c])
  }

  lemma FinishRegister(cfg: Config, c: ConnId, st: ConnectionState, cell: Cell, sh: Shared, env: Surroundings)
    ensures var sh1 := WithEntry(sh, cell, c);
            var sh2 := if cfg.authEnabled then WithScope(sh1, cell) else sh1;
            var sh3 := if cfg.kitsuneEnabled then WithJoin(sh2, cell, env) else sh2;
            Finish(cfg, c, Conn(Proxying(cell), st), sh, env) == (Conn(Idle, st), sh3)
  {
    FinishProxying(cfg, c, st, cell, sh, env);
    var sh1 := WithEntry(sh, cell, c);
    var sh2 := if cfg.authEnabled then WithScope(sh1, cell) else sh1;
    if cfg.kitsuneEnabled {
      FinishJoin(cfg, c, Conn(JoinChecking(cell), st), sh2, env);
    }
  }

  // What a whole undisturbed cleanup leaves.
  function AfterCleanUp(cfg: Config, c: ConnId, st: ConnectionState, sh: Shared): Shared {
    var sh1 := sh.(proxy := WithoutSender(sh.proxy, c));
    var (agents, spaces) := AfterLeaves(sh.joined, sh.spaces, st.registrations);
    var sh2 := if cfg.kitsuneEnabled then WithKitsune(sh1, agents, spaces) else sh1;
    if cfg.authEnabled && st.authenticatedAgent.Some?
    then sh2.(wsSenders := DetachSender(sh.wsSenders, st.authenticatedAgent.value, c))
    else sh2
  }

  lemma FinishCleanUp(cfg: Config, c: ConnId, st: ConnectionState, sh: Shared, env: Surroundings)
    ensures Finish(cfg, c, Conn(UnproxyingAll, st), sh, env) == (Conn(Closed, st), AfterCleanUp(cfg, c, st, sh))
  {
    var sh1 := sh.(proxy := WithoutSender(sh.proxy, c));
    var (agents, spaces) := AfterLeaves(sh.joined, sh.spaces, st.registrations);
    var sh2 := if cfg.kitsuneEnabled then WithKitsune(sh1, agents, spaces) else sh1;
    if cfg.kitsuneEnabled {
      var leaving := Conn(Leaving(st.registrations, true), st);
      assert Finish(cfg, c, Conn(UnproxyingAll, st), sh, env) == Finish(cfg, c, leaving, sh1, env);
      FinishLeaves(cfg, c, leaving, sh1, env);
    } else {
      assert Finish(cfg, c, Conn(UnproxyingAll, st), sh, env) == Finish(cfg, c, Conn(Detaching, st), sh1, env);
    }
    FinishDetaching(cfg, c, Conn(Detaching, st), sh2, env);
  }

  lemma FinishJoining(cfg: Config, c: ConnId, cn: Conn, sh: Shared, env: Surroundings)
    requires cn.phase.Joining?
    ensures Finish(cfg, c, cn, sh, env)
            == (cn.(phase := Idle), if env.joinOk then sh.(joined := sh.joined + {cn.phase.cell}) else sh)
  {
  }

  lemma FinishDetaching(cfg: Config, c: ConnId, cn: Conn, sh: Shared, env: Surroundings)
    requires cn.phase == Detaching
    ensures Finish(cfg, c, cn, sh, env)
            == (cn.(phase := Closed),
                if cfg.authEnabled && cn.state.authenticatedAgent.Some?
                then sh.(wsSenders := DetachSender(sh.wsSenders, cn.state.authenticatedAgent.value, c))
                else sh)
  {
  }

  lemma FinishCreating(cfg: Config, c: ConnId, cn: Conn, sh: Shared, env: Surroundings)
    requires cn.phase.CreatingSession?
    ensures var agent := cn.phase.agent;
            Finish(cfg, c, cn, sh, env)
            == if agent !in sh.store.allowed then (cn.(phase := Idle), sh)
               else (Conn(Idle, cn.state.(authenticated := true, authenticatedAgent := Some(agent))),
                     sh.(store := Apply(sh.store, CreateSession(agent, env.token)).0,
                         wsSenders := AttachSender(sh.wsSenders, agent, c)))
  {
    var agent := cn.phase.agent;
    if agent in sh.store.allowed {
      var capabilities := sh.store.allowed[agent].capabilities;
      var inserting := cn.(phase := InsertingSession(agent, cn.phase.nonce, cn.phase.signature, capabilities));
      assert Finish(cfg, c, cn, sh, env) == Finish(cfg, c, inserting, sh, env);
      FinishInserting(cfg, c, inserting, sh, env);
    } else {
      assert Finish(cfg, c, cn, sh, env) == Finish(cfg, c, cn.(phase := Idle), sh, env);
    }
  }

  lemma FinishInserting(cfg: Config, c: ConnId, cn: Conn, sh: Shared, env: Surroundings)
    requires cn.phase.InsertingSession?
    ensures var agent := cn.phase.agent;
            Finish(cfg, c, cn, sh, env)
            == (Conn(Idle, cn.state.(authenticated := true, authenticatedAgent := Some(agent))),
                sh.(store := InsertSession(sh.store, agent, cn.phase.capabilities, env.token),
                    wsSenders := AttachSender(sh.wsSenders, agent, c)))
  {
    var agent := cn.phase.agent;
    var sh1 := sh.(store := InsertSession(sh.store, agent, cn.phase.capabilities, env.token));
    var attaching := cn.(phase := Attaching(agent, env.token));
    assert Finish(cfg, c, cn, sh, env) == Finish(cfg, c, attaching, sh1, env);
    var done := Conn(Idle, cn.state.(authenticated := true, authenticatedAgent := Some(agent)));
    var sh2 := sh1.(wsSenders := AttachSender(sh.wsSenders, agent, c));
    assert Finish(cfg, c, attaching, sh1, env) == Finish(cfg, c, done, sh2, env);
  }

  // A batch of signals leaves the space open exactly when it was, or some
  // signal for an agent not registered here opened it.
  lemma {:induction false} FinishSignalling(cfg: Config, c: ConnId, cn: Conn, sh: Shared, env: Surroundings)
    requires cn.phase.Signalling?
    ensures var (dna, signals) := (cn.phase.dna, cn.phase.signals);
            Finish(cfg, c, cn, sh, env)
            == (cn.(phase := Idle),
                sh.(spaces := sh.spaces + if SpaceOpen(sh.proxy, dna, dna in sh.spaces, signals) then {dna} else {}))
    decreases |cn.phase.signals|
  {
    var (dna, signals) := (cn.phase.dna, cn.phase.signals);
    if signals == [] {
      assert sh.spaces + (if dna in sh.spaces then {dna} else {}) == sh.spaces;
      assert Finish(cfg, c, cn, sh, env) == Finish(cfg, c, cn.(phase := Idle), sh, env);
    } else {
      var opens := NeedsSpace(sh.proxy, dna, signals[0]) && signals[0].spaceOk;
      var sh1 := if opens then sh.(spaces := sh.spaces + {dna}) else sh;
      var next := cn.(phase := Signalling(dna, signals[1..]));
      assert Finish(cfg, c, cn, sh, env) == Finish(cfg, c, next, sh1, env);
      FinishSignalling(cfg, c, next, sh1, env);
      SpaceOpenUnfolds(sh.proxy, dna, dna in sh.spaces, signals);
    }
  }

  lemma SpaceOpenUnfolds(registrations: map<Cell, ConnId>, dna: DnaHash, had: bool, signals: seq<Signal>)
    requires signals != []
    ensures SpaceOpen(registrations, dna, had, signals)
            <==> SpaceOpen(registrations, dna,
                           had || (NeedsSpace(registrations, dna, signals[0]) && signals[0].spaceOk), signals[1..])
  {
    assert signals == [signals[0]] + signals[1..];
  }

  // Leaving cells one after the other, then resting or detaching.
  function AfterLeaves(agents: set<Cell>, spaces: set<DnaHash>, todo: seq<Cell>): (set<Cell>, set<DnaHash>) {
    if todo == [] then (agents, spaces)
    else
      var (agents', spaces') := AfterLeave(agents, spaces, todo[0]);
      AfterLeaves(agents', spaces', todo[1..])
  }

  // All of the cells are left, whatever their order; a space stays unless it
  // lost an agent and has none left.
  lemma {:induction false} LeavesInAnyOrder(agents: set<Cell>, spaces: set<DnaHash>, todo: seq<Cell>)
    ensures var (agents', spaces') := AfterLeaves(agents, spaces, todo);
            && agents' == agents - (set cell | cell in todo)
            && forall dna :: dna in spaces' <==>
                 dna in spaces && ((exists cell :: cell in agents' && cell.dna == dna)
                                   || !exists cell :: cell in todo && cell in agents && cell.dna == dna)
    decreases |todo|
  {
    if todo != [] {
      var (agents1, spaces1) := AfterLeave(agents, spaces, todo[0]);
      LeavesInAnyOrder(agents1, spaces1, todo[1..]);
      assert forall cell :: cell in todo <==> cell == todo[0] || cell in todo[1..];
    }
  }

  lemma {:induction false} FinishLeaves(cfg: Config, c: ConnId, cn: Conn, sh: Shared, env: Surroundings)
    requires cn.phase.Leaving?
    ensures var (agents, spaces) := AfterLeaves(sh.joined, sh.spaces, cn.phase.todo);
            Finish(cfg, c, cn, sh, env)
            == Finish(cfg, c, cn.(phase := if cn.phase.closing then Detaching else Idle),
                      WithKitsune(sh, agents, spaces), env)
    decreases |cn.phase.todo|
  {
    var (todo, closing) := (cn.phase.todo, cn.phase.closing);
    if todo == [] {
      assert WithKitsune(sh, sh.joined, sh.spaces) == sh;
    } else {
      var next := cn.(phase := Leaving(todo[1..], closing));
      var (agents, spaces) := AfterLeave(sh.joined, sh.spaces, todo[0]);
      FinishNextLeave(cfg, c, cn, sh, env);
      FinishLeaves(cfg, c, next, WithKitsune(sh, agents, spaces), env);
    }
  }

  lemma FinishOneLeave(cfg: Config, c: ConnId, cn: Conn, sh: Shared, env: Surroundings)
    requires cn.phase.Leaving? && cn.phase.todo != [] && cn.phase.todo[0] in sh.joined
    ensures var (agents, spaces) := AfterLeave(sh.joined, sh.spaces, cn.phase.todo[0]);
            Finish(cfg, c, cn, sh, env)
            == Finish(cfg, c, cn.(phase := Leaving(cn.phase.todo[1..], cn.phase.closing)),
                      WithKitsune(sh, agents, spaces), env)
  {
    var (todo, closing) := (cn.phase.todo, cn.phase.closing);
    var sh1 := sh.(joined := sh.joined - {todo[0]});
    var checking := cn.(phase := CleanupChecking(todo[0].dna, todo[1..], closing));
    assert Finish(cfg, c, cn, sh, env) == Finish(cfg, c, checking, sh1, env);
    if !HasAgents(sh1.joined, todo[0].dna) {
      var removing := cn.(phase := CleanupRemoving(todo[0].dna, todo[1..], closing));
      assert Finish(cfg, c, checking, sh1, env) == Finish(cfg, c, removing, sh1, env);
    }
  }

  // One more cell of a list, whether or not its agent was joined.
  lemma FinishNextLeave(cfg: Config, c: ConnId, cn: Conn, sh: Shared, env: Surroundings)
    requires cn.phase.Leaving? && cn.phase.todo != []
    ensures var (agents, spaces) := AfterLeave(sh.joined, sh.spaces, cn.phase.todo[0]);
            Finish(cfg, c, cn, sh, env)
            == Finish(cfg, c, cn.(phase := Leaving(cn.phase.todo[1..], cn.phase.closing)),
                      WithKitsune(sh, agents, spaces), env)
  {
    if cn.phase.todo[0] in sh.joined {
      FinishOneLeave(cfg, c, cn, sh, env);
    } else {
      assert WithKitsune(sh, sh.joined, sh.spaces) == sh;
    }
  }

  lemma FinishUnproxying(cfg: Config, c: ConnId, st: ConnectionState, cell: Cell, sh: Shared, env: Surroundings)
    ensures var sh1 := sh.(proxy := sh.proxy - {cell});
            var (agents, spaces) := AfterLeave(sh1.joined, sh1.spaces, cell);
            Finish(cfg, c, Conn(Unproxying(cell), st), sh, env)
            == (Conn(Idle, st), if cfg.kitsuneEnabled then WithKitsune(sh1, agents, spaces) else sh1)
  {
    var sh1 := sh.(proxy := sh.proxy - {cell});
    if cfg.kitsuneEnabled {
      var leaving := Conn(Leaving([cell], false), st);
      assert Finish(cfg, c, Conn(Unproxying(cell), st), sh, env) == Finish(cfg, c, leaving, sh1, env);
      FinishNextLeave(cfg, c, leaving, sh1, env);
      assert [cell][1..] == [];
    } else {
      assert Finish(cfg, c, Conn(Unproxying(cell), st), sh, env) == Finish(cfg, c, Conn(Idle, st), sh1, env);
    }
  }

  // ---- What the handlers owe their callers ----

  // The reply to each message, by what the connection and the allow list were
  // when it came. None: nothing is sent back.
  function ReplyTo(cfg: Config, st: ConnectionState, store: Store, msg: ClientMessage, env: Surroundings)
    : Option<ServerMessage>
  {
    match msg
    case Auth(agent) =>
      if agent.None? then Some(AuthError)
      else if !cfg.authEnabled then Some(ServerMessage.AuthOk(""))
      else if agent.value in store.allowed then Some(AuthChallenge(env.nonce))
      else Some(AuthError)
    case AuthChallengeResponse(signature) =>
      if && st.pendingAuthAgent.Some? && st.pendingChallenge.Some?
         && cfg.verify(st.pendingAuthAgent.value, st.pendingChallenge.value, signature)
         && st.pendingAuthAgent.value in store.allowed
      then Some(ServerMessage.AuthOk(env.token))
      else Some(AuthError)
    case Register(dna, agent) =>
      if && st.authenticated && dna.Some? && agent.Some?
         && (!cfg.authEnabled || st.authenticatedAgent.None? || st.authenticatedAgent == agent)
      then Some(Registered(dna.value, agent.value))
      else Some(Error)
    case Unregister(dna, agent) =>
      if st.authenticated && dna.Some? && agent.Some? then Some(Unregistered(dna.value, agent.value)) else Some(Error)
    case Ping => Some(Pong)
    case SignResponse(_, _, _) => None
    case SendRemoteSignal(dna, _) => if st.authenticated && cfg.kitsuneEnabled && dna.Some? then None else Some(Error)
  }

  // The protocol's first step of a handler goes the way the reply says.
  lemma ReplyTellsTheStart(cfg: Config, c: ConnId, st: ConnectionState, sh: Shared, msg: ClientMessage,
                           env: Surroundings)
    ensures var o := Start(cfg, c, Conn(Idle, st), sh, msg, env.nonce);
            var reply := ReplyTo(cfg, st, sh.store, msg, env);
            && (forall cell :: o.conn.phase == Proxying(cell) <==> reply == Some(Registered(cell.dna, cell.agent)))
            && (forall cell :: o.conn.phase == Unproxying(cell) <==> reply == Some(Unregistered(cell.dna, cell.agent)))
            && (forall dna, signals :: o.conn.phase == Signalling(dna, signals)
                                       <==> msg == SendRemoteSignal(Some(dna), signals) && reply.None?)
            && ((exists agent, nonce, signature :: o.conn.phase == CreatingSession(agent, nonce, signature)
                                                   && agent in sh.store.allowed)
                <==> msg.AuthChallengeResponse? && reply == Some(ServerMessage.AuthOk(env.token)))
            && (o.logged != [] <==> reply == Some(AuthChallenge(env.nonce)))
  {
  }

  // A connection's list and the proxy map after Register, and the sessions it scoped.
  ghost predicate Registers(cfg: Config, c: ConnId, cell: Cell, st: ConnectionState, sh: Shared,
                            st': ConnectionState, sh': Shared)
  {
    && st' == st.(registrations := st'.registrations) && cell in st'.registrations
    && st'.registrations == st.registrations + (if cell in st.registrations then [] else [cell])
    && sh'.proxy == sh.proxy[cell := c] && sh'.wsSenders == sh.wsSenders
    && sh'.store.allowed == sh.store.allowed && sh'.store.sessions.Keys == sh.store.sessions.Keys
    && forall token :: token in sh.store.sessions ==>
         var (session, session') := (sh.store.sessions[token], sh'.store.sessions[token]);
         && session'.agentPubkey == session.agentPubkey && session'.capabilities == session.capabilities
         && session'.registeredDnas
            == session.registeredDnas + if cfg.authEnabled && session.agentPubkey == cell.agent then {cell.dna} else {}
  }

  // With kitsune2 the agent is joined if it was, or if its space is there or
  // opens and the join succeeds; a space opened for it stays.
  ghost predicate Joins(cfg: Config, cell: Cell, sh: Shared, sh': Shared, env: Surroundings) {
    var joins := cfg.kitsuneEnabled && cell !in sh.joined && (cell.dna in sh.spaces || env.spaceOk);
    && sh'.joined == sh.joined + (if joins && env.joinOk then {cell} else {})
    && sh'.spaces == sh.spaces + if joins then {cell.dna} else {}
  }

  lemma RegisterLeaves(cfg: Config, c: ConnId, st: ConnectionState, cell: Cell, sh: Shared, env: Surroundings)
    ensures var listed := if cell in st.registrations then st.registrations else st.registrations + [cell];
            var started := st.(registrations := listed);
            var (cn, sh') := Finish(cfg, c, Conn(Proxying(cell), started), sh, env);
            cn == Conn(Idle, started) && Registers(cfg, c, cell, st, sh, started, sh') && Joins(cfg, cell, sh, sh', env)
  {
    var listed := if cell in st.registrations then st.registrations else st.registrations + [cell];
    FinishRegister(cfg, c, st.(registrations := listed), cell, sh, env);
    assert st.registrations + [] == st.registrations;
    assert cell.dna in sh.spaces ==> sh.spaces + {cell.dna} == sh.spaces;
    assert cell in sh.joined ==> sh.joined + {cell} == sh.joined;
  }

  // The cell is off the list, without a change to the others, and off the
  // proxy map whoever registered it; with kitsune2 its agent is not joined any
  // more, and its space is gone if it was the last one joined there.
  ghost predicate Unregisters(cfg: Config, cell: Cell, st: ConnectionState, sh: Shared,
                              st': ConnectionState, sh': Shared)
  {
    && st' == st.(registrations := st'.registrations)
    && st'.registrations == Filter(st.registrations, r => r != cell) && cell !in st'.registrations
    && sh' == sh.(proxy := sh'.proxy, joined := sh'.joined, spaces := sh'.spaces)
    && sh'.proxy == sh.proxy - {cell}
    && sh'.joined == (if cfg.kitsuneEnabled then sh.joined - {cell} else sh.joined)
    && forall dna :: dna in sh'.spaces <==>
         && dna in sh.spaces
         && !(cfg.kitsuneEnabled && dna == cell.dna && cell in sh.joined
              && forall other :: other in sh.joined && other.dna == dna ==> other == cell)
  }

  lemma UnregisterLeaves(cfg: Config, c: ConnId, st: ConnectionState, cell: Cell, sh: Shared, env: Surroundings)
    ensures var started := st.(registrations := Filter(st.registrations, r => r != cell));
            var (cn, sh') := Finish(cfg, c, Conn(Unproxying(cell), started), sh, env);
            cn == Conn(Idle, started) && Unregisters(cfg, cell, st, sh, started, sh')
  {
    FinishUnproxying(cfg, c, st.(registrations := Filter(st.registrations, r => r != cell)), cell, sh, env);
    assert cell !in sh.joined ==> sh.joined - {cell} == sh.joined;
  }

  // What a login leaves: the identity, a session with the agent's present
  // capabilities and no DNA, and the sender on file.
  ghost predicate LogsIn(agent: AgentPubKey, c: ConnId, token: Token, st: ConnectionState, sh: Shared,
                         st': ConnectionState, sh': Shared)
  {
    && st' == st.(authenticated := true, authenticatedAgent := Some(agent)) && agent in sh.store.allowed
    && sh' == sh.(store := sh'.store, wsSenders := sh'.wsSenders)
    && sh'.store.allowed == sh.store.allowed
    && sh'.store.sessions
       == sh.store.sessions[token := SessionInfo(agent, sh.store.allowed[agent].capabilities, {})]
    && sh'.wsSenders == sh.wsSenders[agent := (if agent in sh.wsSenders then sh.wsSenders[agent] else []) + [c]]
  }

  // Equal parts make LogsIn, whichever way they were put together.
  lemma CreatingLogsIn(agent: AgentPubKey, c: ConnId, token: Token, st: ConnectionState, sh: Shared)
    requires agent in sh.store.allowed
    ensures LogsIn(agent, c, token, st, sh, st.(authenticated := true, authenticatedAgent := Some(agent)),
                   sh.(store := Apply(sh.store, CreateSession(agent, token)).0,
                       wsSenders := AttachSender(sh.wsSenders, agent, c)))
  {
  }

  // The cleanup of a closed socket, part by part: its proxy entries, its
  // agents with the spaces they leave empty, and its sender.
  ghost predicate CleansUp(cfg: Config, c: ConnId, st: ConnectionState, sh: Shared, sh': Shared) {
    && sh'.store == sh.store
    && (forall cell :: cell in sh'.proxy <==> cell in sh.proxy && sh.proxy[cell] != c)
    && (forall cell :: cell in sh'.proxy ==> sh'.proxy[cell] == sh.proxy[cell])
    && sh'.joined == (if cfg.kitsuneEnabled then sh.joined - (set cell | cell in st.registrations) else sh.joined)
    && (forall dna :: dna in sh'.spaces <==>
          dna in sh.spaces && ((exists cell :: cell in sh'.joined && cell.dna == dna)
                               || !exists cell :: cell in sh.joined && cell !in sh'.joined && cell.dna == dna))
    && (forall agent, d ::
          ProtocolSenders.Listed(sh'.wsSenders, agent, d)
          <==> && ProtocolSenders.Listed(sh.wsSenders, agent, d)
               && !(cfg.authEnabled && d == c && st.authenticatedAgent == Some(agent)))
  }

  lemma CleanUpLeaves(cfg: Config, c: ConnId, st: ConnectionState, sh: Shared)
    ensures CleansUp(cfg, c, st, sh, AfterCleanUp(cfg, c, st, sh))
  {
    LeavesInAnyOrder(sh.joined, sh.spaces, st.registrations);
  }

  // A response uses up the challenge it answers, whatever comes of it.
  function AfterResponse(st: ConnectionState): ConnectionState {
    if st.pendingAuthAgent.None? then st else st.(pendingAuthAgent := None, pendingChallenge := None)
  }

  // What a batch of signals sends while nobody touches the proxy map.
  ghost function SignalsOut(sh: Shared, dna: DnaHash, signals: seq<Signal>): seq<Delivery> {
    Deliveries(sh.proxy, Undisturbed(sh.proxy, |signals|), dna, dna in sh.spaces, signals, |signals|)
  }

  // ---- The objects ----

  class Connection {
    var authenticated: bool
    var registrations: seq<Cell>
    var pendingAuthAgent: Option<AgentPubKey>
    var pendingChallenge: Option<Nonce>
    var authenticatedAgent: Option<AgentPubKey>

    constructor ()
      ensures View() == FRESH_CONNECTION
    {
      authenticated, registrations := false, [];
      pendingAuthAgent, pendingChallenge, authenticatedAgent := None, None, None;
    }

    function View(): ConnectionState
      reads this
    {
      ConnectionState(authenticated, registrations, pendingAuthAgent, pendingChallenge, authenticatedAgent)
    }
  }

  // The signature or error a browser sent for a sign request.
  function SignResultOf(signed: Option<Option<seq<nat>>>, error: Option<string>): AgentProxy.SignResult {
    match (signed, error)
    case (Some(Some(bytes)), _) => Ok(bytes)
    case (Some(None), _) => Err("Invalid signature encoding")
    case (None, Some(message)) => Err(message)
    case (None, None) => Err("No signature or error provided")
  }

  // Kitsune and authentication are optional parts of the application state.
  class AppState {
    const agentProxy: AgentProxy.AgentProxyManager
    const gatewayKitsune: Option<GatewayKitsune>
    const authStore: Option<AuthStore>
    const verify: (AgentPubKey, Nonce, string) -> bool

    constructor (agentProxy: AgentProxy.AgentProxyManager, gatewayKitsune: Option<GatewayKitsune>,
                 authStore: Option<AuthStore>, verify: (AgentPubKey, Nonce, string) -> bool)
      requires authStore.Some? ==> authStore.value.Valid()
      ensures this.agentProxy == agentProxy && this.gatewayKitsune == gatewayKitsune
      ensures this.authStore == authStore && this.verify == verify && Valid()
    {
      this.agentProxy, this.gatewayKitsune := agentProxy, gatewayKitsune;
      this.authStore, this.verify := authStore, verify;
    }

    function Cfg(): Config {
      Config(authStore.Some?, gatewayKitsune.Some?, verify)
    }

    ghost function Footprint(): set<object> {
      {agentProxy}
      + (if gatewayKitsune.Some? then {gatewayKitsune.value} else {})
      + (if authStore.Some? then authStore.value.Footprint() else {})
    }

    ghost predicate Valid()
      reads Footprint()
    {
      authStore.Some? ==> authStore.value.Valid()
    }

    ghost function View(): Shared
      reads Footprint()
    {
      Shared(agentProxy.registrations,
             if gatewayKitsune.Some? then gatewayKitsune.value.agents else {},
             if gatewayKitsune.Some? then gatewayKitsune.value.spaces else {},
             if authStore.Some? then authStore.value.View() else EMPTY_STORE,
             if authStore.Some? then authStore.value.wsSenders else map[])
    }

    // The rest of the proxy manager: counter, pending sign requests and their history.
    ghost function SignRequests(): (nat, map<string, AgentProxy.CallId>, seq<AgentProxy.Event>)
      reads agentProxy
    {
      (agentProxy.requestCounter, agentProxy.pendingSigns, agentProxy.history)
    }

    // Tokens are drawn at random; the database would refuse one that is live.
    ghost predicate FreshToken(token: Token)
      reads Footprint()
    {
      authStore.Some? && authStore.value.backend.Sqlite? ==> token !in authStore.value.View().sessions
    }

    // Register, once the message is parsed and authorized.
    method RegisterCell(conn: Connection, c: ConnId, cell: Cell, env: Surroundings)
      requires Valid()
      modifies Footprint(), conn
      ensures Valid() && SignRequests() == old(SignRequests())
      ensures var cells := old(conn.registrations);
              var listed := if cell in cells then cells else cells + [cell];
              var started := Conn(Proxying(cell), old(conn.View()).(registrations := listed));
              conn.View() == started.state &&
              (Conn(Idle, conn.View()), View()) == Finish(Cfg(), c, started, old(View()), env)
    {
      ghost var sh := View();
      ListCell(conn, cell);
      ghost var st := conn.View();
      ConnectionsAreApart(conn);
      Proxy(cell, c);
      ScopeSessions(cell);
      Join(cell, env);
      assert conn.View() == st;
      FinishRegister(Cfg(), c, st, cell, sh, env);
    }

    // No connection is part of the shared state.
    lemma ConnectionsAreApart(conn: Connection)
      ensures conn !in Footprint()
    {
    }

    method ListCell(conn: Connection, cell: Cell)
      requires Valid()
      modifies conn`registrations
      ensures Valid() && View() == old(View()) && SignRequests() == old(SignRequests())
      ensures var cells := old(conn.registrations);
              conn.View() == old(conn.View()).(registrations := if cell in cells then cells else cells + [cell])
    {
      ConnectionsAreApart(conn);
      if cell !in conn.registrations {
        conn.registrations := conn.registrations + [cell];
      }
    }

    method DelistCell(conn: Connection, cell: Cell)
      requires Valid()
      modifies conn`registrations
      ensures Valid() && View() == old(View()) && SignRequests() == old(SignRequests())
      ensures conn.View() == old(conn.View()).(registrations := Filter(old(conn.registrations), r => r != cell))
    {
      ConnectionsAreApart(conn);
      conn.registrations := Filter(conn.registrations, r => r != cell);
    }

    // The parts do not overlap, so a change to one leaves the others valid.
    lemma PartsAreApart()
      ensures authStore.Some? ==> agentProxy !in authStore.value.Footprint()
      ensures authStore.Some? && gatewayKitsune.Some? ==> gatewayKitsune.value !in authStore.value.Footprint()
    {
    }

    method Proxy(cell: Cell, c: ConnId)
      requires Valid()
      modifies agentProxy`registrations
      ensures Valid() && SignRequests() == old(SignRequests())
      ensures View() == WithEntry(old(View()), cell, c)
    {
      PartsAreApart();
      agentProxy.Register(cell, c);
      if authStore.Some? {
        authStore.value.StaysValid();
      }
    }

    method Unproxy(cell: Cell)
      requires Valid()
      modifies agentProxy`registrations
      ensures Valid() && SignRequests() == old(SignRequests())
      ensures View() == old(View()).(proxy := old(View()).proxy - {cell})
    {
      PartsAreApart();
      agentProxy.Unregister(cell);
      if authStore.Some? {
        authStore.value.StaysValid();
      }
    }

    method Leave(cell: Cell)
      requires Valid()
      modifies if gatewayKitsune.Some? then {gatewayKitsune.value} else {}
      ensures Valid() && SignRequests() == old(SignRequests())
      ensures var (agents, spaces) := AfterLeave(old(View()).joined, old(View()).spaces, cell);
              View() == if gatewayKitsune.None? then old(View()) else WithKitsune(old(View()), agents, spaces)
    {
      PartsAreApart();
      if gatewayKitsune.Some? {
        gatewayKitsune.value.AgentLeave(cell);
      }
      if authStore.Some? {
        authStore.value.StaysValid();
      }
    }

    method ScopeSessions(cell: Cell)
      requires Valid()
      modifies if authStore.Some? then authStore.value.Footprint() else {}
      ensures Valid() && SignRequests() == old(SignRequests())
      ensures View() == if authStore.Some? then WithScope(old(View()), cell) else old(View())
    {
      if authStore.Some? {
        authStore.value.RegisterDnaForAgent(cell.agent, cell.dna);
      }
    }

    method Join(cell: Cell, env: Surroundings)
      requires Valid()
      modifies if gatewayKitsune.Some? then {gatewayKitsune.value} else {}
      ensures Valid() && SignRequests() == old(SignRequests())
      ensures View() == if gatewayKitsune.Some? then WithJoin(old(View()), cell, env) else old(View())
    {
      PartsAreApart();
      if gatewayKitsune.Some? {
        var _ := gatewayKitsune.value.AgentJoin(cell, env.spaceOk, env.joinOk);
      }
      if authStore.Some? {
        authStore.value.StaysValid();
      }
    }

    // Unregister: forget the cell, whoever's entry the proxy map holds for it.
    method UnregisterCell(conn: Connection, c: ConnId, cell: Cell, env: Surroundings)
      requires Valid()
      modifies Footprint(), conn
      ensures Valid() && SignRequests() == old(SignRequests())
      ensures var kept := Filter(old(conn.registrations), r => r != cell);
              var started := Conn(Unproxying(cell), old(conn.View()).(registrations := kept));
              conn.View() == started.state &&
              (Conn(Idle, conn.View()), View()) == Finish(Cfg(), c, started, old(View()), env)
    {
      ghost var sh := View();
      DelistCell(conn, cell);
      Unproxy(cell);
      Leave(cell);
      FinishUnproxying(Cfg(), c, conn.View(), cell, sh, env);
    }

    method UnproxyAll(c: ConnId)
      requires Valid()
      modifies agentProxy`registrations
      ensures Valid() && SignRequests() == old(SignRequests())
      ensures View() == old(View()).(proxy := WithoutSender(old(View()).proxy, c))
    {
      PartsAreApart();
      agentProxy.UnregisterAll(c);
      if authStore.Some? {
        authStore.value.StaysValid();
      }
    }

    method Detach(agent: AgentPubKey, c: ConnId)
      requires Valid() && authStore.Some?
      modifies authStore.value`wsSenders
      ensures Valid() && SignRequests() == old(SignRequests())
      ensures View() == old(View()).(wsSenders := DetachSender(old(View()).wsSenders, agent, c))
    {
      authStore.value.UnregisterWsSender(agent, c);
    }

    // Leave the space of every cell the connection still lists, in order.
    method LeaveAll(conn: Connection)
      requires Valid() && gatewayKitsune.Some?
      modifies gatewayKitsune.value
      ensures Valid() && SignRequests() == old(SignRequests())
      ensures var (agents, spaces) := AfterLeaves(old(View()).joined, old(View()).spaces, conn.registrations);
              View() == WithKitsune(old(View()), agents, spaces)
    {
      PartsAreApart();
      var kitsune := gatewayKitsune.value;
      ghost var (agents, spaces) := (kitsune.agents, kitsune.spaces);
      var cells := conn.registrations;
      assert cells[0..] == cells;
      for i := 0 to |cells|
        invariant Valid() && View() == WithKitsune(old(View()), kitsune.agents, kitsune.spaces)
        invariant AfterLeaves(kitsune.agents, kitsune.spaces, cells[i..]) == AfterLeaves(agents, spaces, cells)
      {
        kitsune.AgentLeave(cells[i]);
        assert cells[i..][1..] == cells[i + 1..];
      }
      assert cells[|cells|..] == [];
    }

    // The end of handle_socket.
    method CleanUp(conn: Connection, c: ConnId, env: Surroundings)
      requires Valid()
      modifies Footprint()
      ensures Valid() && SignRequests() == old(SignRequests())
      ensures (Conn(Closed, conn.View()), View())
              == Finish(Cfg(), c, Conn(UnproxyingAll, conn.View()), old(View()), env)
      ensures CleansUp(Cfg(), c, conn.View(), old(View()), View())
    {
      ghost var (sh, st) := (View(), conn.View());
      ConnectionsAreApart(conn);
      UnproxyAll(c);
      if gatewayKitsune.Some? {
        LeaveAll(conn);
      }
      if authStore.Some? && conn.authenticatedAgent.Some? {
        Detach(conn.authenticatedAgent.value, c);
      }
      FinishCleanUp(Cfg(), c, st, sh, env);
      CleanUpLeaves(Cfg(), c, st, sh);
      assert View() == AfterCleanUp(Cfg(), c, st, sh);
    }

    // The answer to a challenge, once its signature has verified.
    method FinishHandshake(conn: Connection, c: ConnId, agent: AgentPubKey, nonce: Nonce, signature: string,
                           env: Surroundings)
      returns (reply: ServerMessage)
      requires Valid() && authStore.Some? && FreshToken(env.token)
      modifies Footprint(), conn
      ensures Valid() && SignRequests() == old(SignRequests())
      ensures (Conn(Idle, conn.View()), View())
              == Finish(Cfg(), c, Conn(CreatingSession(agent, nonce, signature), old(conn.View())), old(View()), env)
      ensures reply == if agent in old(View()).store.allowed then ServerMessage.AuthOk(env.token) else AuthError
      ensures if reply == AuthError then conn.View() == old(conn.View()) && View() == old(View())
              else LogsIn(agent, c, env.token, old(conn.View()), old(View()), conn.View(), View())
    {
      ConnectionsAreApart(conn);
      FinishCreating(Cfg(), c, Conn(CreatingSession(agent, nonce, signature), conn.View()), View(), env);
      var created := CreateSession(agent, env.token);
      if created.None? {
        return AuthError;
      }
      CreatingLogsIn(agent, c, env.token, conn.View(), old(View()));
      Attach(agent, c);
      MarkAuthenticated(conn, agent);
      return ServerMessage.AuthOk(created.value);
    }

    method CreateSession(agent: AgentPubKey, token: Token) returns (created: Option<Token>)
      requires Valid() && authStore.Some? && FreshToken(token)
      modifies authStore.value.Footprint()
      ensures Valid() && SignRequests() == old(SignRequests())
      ensures created == if agent in old(View()).store.allowed then Some(token) else None
      ensures created.Some? ==> token in View().store.sessions
      ensures View() == old(View()).(store := Apply(old(View()).store, Op.CreateSession(agent, token)).0)
    {
      created := authStore.value.CreateSession(agent, token);
    }

    method MarkAuthenticated(conn: Connection, agent: AgentPubKey)
      requires Valid()
      modifies conn`authenticated, conn`authenticatedAgent
      ensures Valid() && View() == old(View()) && SignRequests() == old(SignRequests())
      ensures conn.View() == old(conn.View()).(authenticated := true, authenticatedAgent := Some(agent))
    {
      ConnectionsAreApart(conn);
      conn.authenticated := true;
      conn.authenticatedAgent := Some(agent);
    }

    method Attach(agent: AgentPubKey, c: ConnId)
      requires Valid() && authStore.Some?
      modifies authStore.value`wsSenders
      ensures Valid() && SignRequests() == old(SignRequests())
      ensures View() == old(View()).(wsSenders := AttachSender(old(View()).wsSenders, agent, c))
    {
      authStore.value.RegisterWsSender(agent, c);
    }

    // A challenge is only ever pending while authentication is on.
    ghost predicate OnlyChallengedWithAuth(conn: Connection)
      reads conn
    {
      conn.pendingAuthAgent.Some? ==> authStore.Some?
    }

    // What a handler run comes to: the reply that is due, the connection and the
    // shared state that the protocol's `Start` and its undisturbed continuation
    // leave, and a delivered signature taken out of the pending map.
    twostate predicate Handled(conn: Connection, c: ConnId, msg: ClientMessage, env: Surroundings,
                               new reply: Option<ServerMessage>)
      reads conn, Footprint()
    {
      var o := Start(Cfg(), c, Conn(Idle, old(conn.View())), old(View()), msg, env.nonce);
      && (Conn(Idle, conn.View()), View()) == Finish(Cfg(), c, o.conn, o.shared, env)
      && reply == ReplyTo(Cfg(), old(conn.View()), old(View()).store, msg, env)
      && (if msg.SignResponse? then
            var (counter, pending, history) := old(SignRequests());
            var delivery := AgentProxy.DeliveryEvents(pending, msg.requestId, SignResultOf(msg.signed, msg.error));
            SignRequests() == (counter, pending - {msg.requestId}, history + delivery)
          else SignRequests() == old(SignRequests()))
    }

    // handle_client_message.
    method HandleClientMessage(conn: Connection, c: ConnId, msg: ClientMessage, env: Surroundings)
      returns (reply: Option<ServerMessage>, sent: seq<Delivery>)
      requires Valid() && OnlyChallengedWithAuth(conn) && FreshToken(env.token)
      modifies Footprint(), conn
      ensures Valid() && OnlyChallengedWithAuth(conn) && Handled(conn, c, msg, env, reply)
      ensures sent == if msg.SendRemoteSignal? && reply.None?
                      then SignalsOut(old(View()), msg.dnaHash.value, msg.signals) else []
    {
      sent := [];
      match msg
      case Auth(agentPubkey) => reply := HandleAuth(conn, c, agentPubkey, env);
      case AuthChallengeResponse(signature) => reply := HandleAuthChallengeResponse(conn, c, signature, env);
      case Register(dnaHash, agentPubkey) => reply := HandleRegister(conn, c, dnaHash, agentPubkey, env);
      case Unregister(dnaHash, agentPubkey) => reply := HandleUnregister(conn, c, dnaHash, agentPubkey, env);
      case Ping => reply := HandlePing(conn, c, env);
      case SignResponse(requestId, signed, error) =>
        reply := HandleSignResponse(conn, c, requestId, signed, error, env);
      case SendRemoteSignal(dnaHash, signals) =>
        reply, sent := HandleSendRemoteSignal(conn, c, dnaHash, signals, env);
    }

    method HandleRegister(conn: Connection, c: ConnId, dnaHash: Option<DnaHash>, agentPubkey: Option<AgentPubKey>,
                          env: Surroundings)
      returns (reply: Option<ServerMessage>)
      requires Valid() && OnlyChallengedWithAuth(conn)
      modifies Footprint(), conn
      ensures Valid() && OnlyChallengedWithAuth(conn)
      ensures Handled(conn, c, ClientMessage.Register(dnaHash, agentPubkey), env, reply)
      ensures (exists dna, agent :: reply == Some(Registered(dna, agent)))
              <==> && old(conn.authenticated) && dnaHash.Some? && agentPubkey.Some?
                   && (authStore.None? || old(conn.authenticatedAgent).None?
                       || old(conn.authenticatedAgent) == agentPubkey)
      ensures if reply == Some(Error) then conn.View() == old(conn.View()) && View() == old(View())
              else
                && dnaHash.Some? && agentPubkey.Some?
                && reply == Some(Registered(dnaHash.value, agentPubkey.value))
                && var cell := Cell(dnaHash.value, agentPubkey.value);
                   && Registers(Cfg(), c, cell, old(conn.View()), old(View()), conn.View(), View())
                   && Joins(Cfg(), cell, old(View()), View(), env)
    {
      ghost var (st, sh) := (conn.View(), View());
      if !conn.authenticated || dnaHash.None? || agentPubkey.None? {
        return Some(Error);
      }
      if authStore.Some? && conn.authenticatedAgent.Some? && agentPubkey != conn.authenticatedAgent {
        return Some(Error);
      }
      RegisterCell(conn, c, Cell(dnaHash.value, agentPubkey.value), env);
      RegisterLeaves(Cfg(), c, st, Cell(dnaHash.value, agentPubkey.value), sh, env);
      return Some(Registered(dnaHash.value, agentPubkey.value));
    }

    method HandleUnregister(conn: Connection, c: ConnId, dnaHash: Option<DnaHash>, agentPubkey: Option<AgentPubKey>,
                            env: Surroundings)
      returns (reply: Option<ServerMessage>)
      requires Valid() && OnlyChallengedWithAuth(conn)
      modifies Footprint(), conn
      ensures Valid() && OnlyChallengedWithAuth(conn)
      ensures Handled(conn, c, ClientMessage.Unregister(dnaHash, agentPubkey), env, reply)
      ensures if old(conn.authenticated) && dnaHash.Some? && agentPubkey.Some? then
                && reply == Some(Unregistered(dnaHash.value, agentPubkey.value))
                && Unregisters(Cfg(), Cell(dnaHash.value, agentPubkey.value), old(conn.View()), old(View()),
                               conn.View(), View())
              else reply == Some(Error) && conn.View() == old(conn.View()) && View() == old(View())
    {
      ghost var (st, sh) := (conn.View(), View());
      if !conn.authenticated || dnaHash.None? || agentPubkey.None? {
        return Some(Error);
      }
      UnregisterCell(conn, c, Cell(dnaHash.value, agentPubkey.value), env);
      UnregisterLeaves(Cfg(), c, st, Cell(dnaHash.value, agentPubkey.value), sh, env);
      return Some(Unregistered(dnaHash.value, agentPubkey.value));
    }

    method HandlePing(conn: Connection, c: ConnId, env: Surroundings) returns (reply: Option<ServerMessage>)
      ensures Handled(conn, c, Ping, env, reply) && reply == Some(Pong)
    {
      return Some(Pong);
    }

    method HandleSignResponse(conn: Connection, c: ConnId, requestId: string, signed: Option<Option<seq<nat>>>,
                              error: Option<string>, env: Surroundings)
      returns (reply: Option<ServerMessage>)
      requires Valid()
      modifies agentProxy`pendingSigns, agentProxy`history
      ensures Valid() && Handled(conn, c, SignResponse(requestId, signed, error), env, reply)
    {
      var result;
      match signed {
        case Some(decoded) =>
          result := if decoded.Some? then Ok(decoded.value) else Err("Invalid signature encoding");
        case None =>
          result := Err(if error.Some? then error.value else "No signature or error provided");
      }
      TakeSignRequest(requestId, result);
      return None;
    }

    method TakeSignRequest(requestId: string, result: AgentProxy.SignResult)
      requires Valid()
      modifies agentProxy`pendingSigns, agentProxy`history
      ensures Valid() && View() == old(View())
      ensures var (counter, pending, history) := old(SignRequests());
              SignRequests()
              == (counter, pending - {requestId}, history + AgentProxy.DeliveryEvents(pending, requestId, result))
    {
      PartsAreApart();
      var _ := agentProxy.DeliverSignature(requestId, result);
      if authStore.Some? {
        authStore.value.StaysValid();
      }
    }

    method HandleSendRemoteSignal(conn: Connection, c: ConnId, dnaHash: Option<DnaHash>, signals: seq<Signal>,
                                  env: Surroundings)
      returns (reply: Option<ServerMessage>, sent: seq<Delivery>)
      requires Valid()
      modifies Footprint()
      ensures Valid() && Handled(conn, c, SendRemoteSignal(dnaHash, signals), env, reply)
      ensures if conn.authenticated && gatewayKitsune.Some? && dnaHash.Some?
              then reply.None? && sent == SignalsOut(old(View()), dnaHash.value, signals)
              else reply == Some(Error) && sent == [] && View() == old(View())
    {
      if !conn.authenticated || gatewayKitsune.None? || dnaHash.None? {
        return Some(Error), [];
      }
      FinishSignalling(Cfg(), c, Conn(Signalling(dnaHash.value, signals), conn.View()), View(), env);
      sent := Signal(dnaHash.value, signals);
      return None, sent;
    }

    method Signal(dna: DnaHash, signals: seq<Signal>) returns (sent: seq<Delivery>)
      requires Valid() && gatewayKitsune.Some?
      modifies gatewayKitsune.value, agentProxy`registrations
      ensures Valid() && SignRequests() == old(SignRequests())
      ensures var sh := old(View());
              var open := SpaceOpen(sh.proxy, dna, dna in sh.spaces, signals);
              View() == sh.(spaces := sh.spaces + if open then {dna} else {})
      ensures sent == SignalsOut(old(View()), dna, signals)
    {
      PartsAreApart();
      var registrations := agentProxy.registrations;
      var others := Undisturbed(registrations, |signals|);
      UndisturbedSpace(registrations, others, dna, dna in gatewayKitsune.value.spaces, signals);
      var _, _, out := SendRemoteSignals(agentProxy, gatewayKitsune.value, dna, signals, others);
      if authStore.Some? {
        authStore.value.StaysValid();
      }
      return out;
    }

    method HandleAuth(conn: Connection, c: ConnId, agentPubkey: Option<AgentPubKey>, env: Surroundings)
      returns (reply: Option<ServerMessage>)
      requires Valid() && OnlyChallengedWithAuth(conn)
      modifies conn
      ensures Valid() && OnlyChallengedWithAuth(conn) && Handled(conn, c, Auth(agentPubkey), env, reply)
      ensures reply == Some(ServerMessage.AuthOk("")) <==> agentPubkey.Some? && authStore.None?
      ensures reply == Some(AuthChallenge(env.nonce))
              <==> agentPubkey.Some? && authStore.Some? && agentPubkey.value in old(View()).store.allowed
      ensures reply.Some? && View() == old(View())
      ensures var st := old(conn.View());
              match reply.value
              case AuthOk(_) => conn.View() == st.(authenticated := true, authenticatedAgent := agentPubkey)
              case AuthChallenge(nonce) =>
                conn.View() == st.(pendingAuthAgent := agentPubkey, pendingChallenge := Some(nonce))
              case _ => reply == Some(AuthError) && conn.View() == st
    {
      ConnectionsAreApart(conn);
      if agentPubkey.None? {
        return Some(AuthError);
      }
      if authStore.None? {
        conn.authenticated := true;
        conn.authenticatedAgent := agentPubkey;
        return Some(ServerMessage.AuthOk(""));
      }
      var allowed := authStore.value.IsAgentAllowed(agentPubkey.value);
      if !allowed {
        return Some(AuthError);
      }
      conn.pendingAuthAgent := agentPubkey;
      conn.pendingChallenge := Some(env.nonce);
      return Some(AuthChallenge(env.nonce));
    }

    method HandleAuthChallengeResponse(conn: Connection, c: ConnId, signature: string, env: Surroundings)
      returns (reply: Option<ServerMessage>)
      requires Valid() && OnlyChallengedWithAuth(conn) && FreshToken(env.token)
      modifies Footprint(), conn
      ensures Valid() && OnlyChallengedWithAuth(conn)
      ensures Handled(conn, c, AuthChallengeResponse(signature), env, reply)
      ensures reply == Some(ServerMessage.AuthOk(env.token))
              <==> && old(conn.pendingAuthAgent).Some? && old(conn.pendingChallenge).Some?
                   && verify(old(conn.pendingAuthAgent).value, old(conn.pendingChallenge).value, signature)
                   && old(conn.pendingAuthAgent).value in old(View()).store.allowed
      ensures reply != Some(ServerMessage.AuthOk(env.token)) ==> reply == Some(AuthError)
      ensures var st := AfterResponse(old(conn.View()));
              if reply == Some(AuthError) then conn.View() == st && View() == old(View())
              else old(conn.pendingAuthAgent).Some?
                   && LogsIn(old(conn.pendingAuthAgent).value, c, env.token, st, old(View()), conn.View(), View())
    {
      ConnectionsAreApart(conn);
      var agent := conn.pendingAuthAgent;
      conn.pendingAuthAgent := None;
      if agent.None? {
        return Some(AuthError);
      }
      var challenge := conn.pendingChallenge;
      conn.pendingChallenge := None;
      if challenge.None? {
        return Some(AuthError);
      }
      if !verify(agent.value, challenge.value, signature) {
        return Some(AuthError);
      }
      var answer := FinishHandshake(conn, c, agent.value, challenge.value, signature, env);
      return Some(answer);
    }
  }
}
