// What an admitted HTTP request proves about the past of the linker.

module ProtocolAuth {
  import opened Wrappers
  import opened Types
  import opened SessionStore
  import opened Protocol
  import opened Middleware

  // ---- The store is a function of the history ----

  function Effect(st: Store, e: LogEntry): Store {
    match e
    case SessionCreated(_, agent, _, _, capabilities, token) => InsertSession(st, agent, capabilities, token)
    case DnaScoped(_, agent, dna) => Apply(st, RegisterDna(agent, dna)).0
    case AgentAdded(info) => Apply(st, AddAgent(info)).0
    case AgentRemoved(agent) => Apply(st, RemoveAgent(agent)).0
    case SessionRevoked(token) => Apply(st, RevokeSession(token)).0
    case AgentSessionsRevoked(agent) => Apply(st, RevokeSessionsForAgent(agent)).0
    case _ => st
  }

  function Replay(log: seq<LogEntry>): Store {
    if log == [] then EMPTY_STORE else Effect(Replay(log[..|log| - 1]), log[|log| - 1])
  }

  lemma ReplayAppend(log: seq<LogEntry>, e: LogEntry)
    ensures Replay(log + [e]) == Effect(Replay(log), e)
  {
    assert (log + [e])[..|log + [e]| - 1] == log;
  }

  // ---- The allow list, read off the whole log ----

  predicate ChangesPermission(e: LogEntry, agent: AgentPubKey) {
    (e.AgentAdded? && e.info.agentPubkey == agent) || (e.AgentRemoved? && e.agent == agent)
  }

  // Entry k added the agent and nothing has added or removed it since.
  predicate AddedBy(log: seq<LogEntry>, agent: AgentPubKey, k: int) {
    && 0 <= k < |log| && log[k].AgentAdded? && log[k].info.agentPubkey == agent
    && forall j :: k < j < |log| ==> !ChangesPermission(log[j], agent)
  }

  // An agent is allowed exactly when the last change to its permission added
  // it, with the capabilities given then.
  lemma {:induction false} AllowedIffAddedLast(log: seq<LogEntry>, agent: AgentPubKey)
    ensures agent in Replay(log).allowed <==> exists k :: AddedBy(log, agent, k)
    ensures forall k :: AddedBy(log, agent, k) ==> Replay(log).allowed[agent] == log[k].info
  {
    if log != [] {
      var last := |log| - 1;
      var past, e := log[..last], log[last];
      AllowedIffAddedLast(past, agent);
      if ChangesPermission(e, agent) {
        assert e.AgentAdded? ==> AddedBy(log, agent, last);
      } else {
        assert Replay(log).allowed.Keys * {agent} == Replay(past).allowed.Keys * {agent};
        forall k ensures AddedBy(log, agent, k) <==> AddedBy(past, agent, k) {
          assert forall j :: 0 <= j < last ==> past[j] == log[j];
        }
      }
    }
  }

  // ---- Every entry is justified by the entries before it ----

  ghost predicate NonceSpent(log: seq<LogEntry>, nonce: Nonce) {
    exists e :: e in log && e.SessionCreated? && e.nonce == nonce
  }

  // Entry i is the connection's last login, and it was as this agent.
  predicate LastLogin(log: seq<LogEntry>, i: nat, c: ConnId, agent: AgentPubKey) {
    && i < |log| && log[i].AuthOk? && log[i].conn == c && log[i].agent == agent
    && forall j :: i < j < |log| ==> !(log[j].AuthOk? && log[j].conn == c)
  }

  // The connection is at present authenticated as this agent.
  ghost predicate LoggedIn(log: seq<LogEntry>, c: ConnId, agent: AgentPubKey) {
    exists i: nat :: LastLogin(log, i, c, agent)
  }

  ghost predicate SessionIssued(log: seq<LogEntry>, c: ConnId, agent: AgentPubKey, token: Token) {
    exists e :: e in log && e.SessionCreated? && e.conn == c && e.agent == agent && e.token == token
  }

  ghost predicate Justified(cfg: Config, past: seq<LogEntry>, e: LogEntry) {
    match e
    case Challenged(_, agent, nonce) => agent in Replay(past).allowed && !NonceDrawn(past, nonce)
    case CapabilitiesRead(c, agent, nonce, capabilities) =>
      && Challenged(c, agent, nonce) in past
      && agent in Replay(past).allowed && Replay(past).allowed[agent].capabilities == capabilities
    case SessionCreated(c, agent, nonce, signature, capabilities, token) =>
      && Challenged(c, agent, nonce) in past && !NonceSpent(past, nonce)
      && cfg.verify(agent, nonce, signature)
      && CapabilitiesRead(c, agent, nonce, capabilities) in past && !TokenDrawn(past, token)
    case AuthOk(c, agent, token) => SessionIssued(past, c, agent, token)
    case DnaScoped(c, agent, _) => LoggedIn(past, c, agent)
    case _ => true
  }

  ghost predicate History(cfg: Config, log: seq<LogEntry>) {
    log == [] || (History(cfg, log[..|log| - 1]) && Justified(cfg, log[..|log| - 1], log[|log| - 1]))
  }

  lemma HistoryAppend(cfg: Config, log: seq<LogEntry>, e: LogEntry)
    requires History(cfg, log) && Justified(cfg, log, e)
    ensures History(cfg, log + [e])
  {
    assert (log + [e])[..|log + [e]| - 1] == log;
  }

  lemma {:induction false} HistoryAt(cfg: Config, log: seq<LogEntry>, i: nat)
    requires History(cfg, log) && i < |log|
    ensures Justified(cfg, log[..i], log[i]) && History(cfg, log[..i])
  {
    var last := |log| - 1;
    if i < last {
      HistoryAt(cfg, log[..last], i);
      assert log[..last][..i] == log[..i];
    }
  }

  // A nonce is drawn for one challenge only.
  lemma ChallengesAreDistinct(cfg: Config, log: seq<LogEntry>, i: nat, j: nat)
    requires History(cfg, log) && i < |log| && j < |log|
    requires log[i].Challenged? && log[j].Challenged? && log[i].nonce == log[j].nonce
    ensures i == j
  {
    if i < j {
      HistoryAt(cfg, log, j);
    } else if j < i {
      HistoryAt(cfg, log, i);
    }
  }

  // A challenge is consumed by one session only.
  lemma SessionsSpendDistinctNonces(cfg: Config, log: seq<LogEntry>, i: nat, j: nat)
    requires History(cfg, log) && i < |log| && j < |log|
    requires log[i].SessionCreated? && log[j].SessionCreated?
    requires log[i].nonce == log[j].nonce || log[i].token == log[j].token
    ensures i == j
  {
    if i < j {
      HistoryAt(cfg, log, j);
    } else if j < i {
      HistoryAt(cfg, log, i);
    }
  }

  // ---- Where a live session comes from ----

  // Removing an agent that is not allowed at that moment ends nothing.
  predicate Kills(past: seq<LogEntry>, e: LogEntry, agent: AgentPubKey, token: Token) {
    || (e.AgentRemoved? && e.agent == agent && agent in Replay(past).allowed)
    || (e.AgentSessionsRevoked? && e.agent == agent)
    || (e.SessionRevoked? && e.token == token)
  }

  // The session behind `token` was created by entry j and nothing has ended it since.
  predicate LiveSince(log: seq<LogEntry>, token: Token, j: nat) {
    && j < |log| && log[j].SessionCreated? && log[j].token == token
    && forall k :: j < k < |log| ==> !Kills(log[..k], log[k], log[j].agent, token)
  }

  lemma LiveSinceExtends(log: seq<LogEntry>, token: Token, j: nat)
    requires j < |log| - 1
    ensures var (front, e) := (log[..|log| - 1], log[|log| - 1]);
            LiveSince(log, token, j) <==> LiveSince(front, token, j) && !Kills(front, e, log[j].agent, token)
  {
    var front := log[..|log| - 1];
    forall k | j < k < |front| ensures front[..k] == log[..k] && front[k] == log[k] {
    }
    if LiveSince(front, token, j) && !Kills(front, log[|front|], log[j].agent, token) {
      forall k | j < k < |log| ensures !Kills(log[..k], log[k], log[j].agent, token) {
        assert k < |front| ==> !Kills(front[..k], front[k], front[j].agent, token);
      }
    }
    if LiveSince(log, token, j) {
      assert !Kills(log[..|front|], log[|front|], log[j].agent, token);
      forall k | j < k < |front| ensures !Kills(front[..k], front[k], front[j].agent, token) {
        assert !Kills(log[..k], log[k], log[j].agent, token);
      }
    }
  }

  predicate ScopesAgent(e: LogEntry, agent: AgentPubKey) {
    e.DnaScoped? && e.agent == agent
  }

  function DnasScopedSince(log: seq<LogEntry>, j: nat, agent: AgentPubKey): set<DnaHash> {
    set k | j < k < |log| && ScopesAgent(log[k], agent) :: log[k].dna
  }

  lemma {:induction false} SessionOrigin(cfg: Config, log: seq<LogEntry>, token: Token) returns (j: nat)
    requires History(cfg, log) && token in Replay(log).sessions
    ensures LiveSince(log, token, j) && Replay(log).sessions[token].agentPubkey == log[j].agent
  {
    var last := |log| - 1;
    var e := log[last];
    if e.SessionCreated? && e.token == token {
      j := last;
    } else {
      j := SessionOrigin(cfg, log[..last], token);
      LiveSinceExtends(log, token, j);
    }
  }

  // Exactly what such a session grants: the capabilities it was created with,
  // and the DNAs registered for its agent afterwards.
  lemma {:induction false} LiveSessionGrants(cfg: Config, log: seq<LogEntry>, token: Token, j: nat)
    requires History(cfg, log) && LiveSince(log, token, j)
    ensures token in Replay(log).sessions
    ensures Replay(log).sessions[token]
            == SessionInfo(log[j].agent, log[j].capabilities, DnasScopedSince(log, j, log[j].agent))
  {
    var last := |log| - 1;
    var agent := log[j].agent;
    HistoryAt(cfg, log, j);
    if j == last {
      assert DnasScopedSince(log, j, agent) == {};
    } else {
      var front := log[..last];
      LiveSinceExtends(log, token, j);
      LiveSessionGrants(cfg, front, token, j);
      if log[last].SessionCreated? {
        HistoryAt(cfg, log, last);
        assert TokenDrawn(front, token);
      }
      EntryKeepsSession(front, log[last], agent, token);
      ScopedSinceGrows(log, j, agent);
    }
  }

  // An entry that does not end a session at most adds a DNA to it.
  lemma EntryKeepsSession(past: seq<LogEntry>, e: LogEntry, agent: AgentPubKey, token: Token)
    requires token in Replay(past).sessions && Replay(past).sessions[token].agentPubkey == agent
    requires !Kills(past, e, agent, token) && !(e.SessionCreated? && e.token == token)
    ensures var st, after := Replay(past), Effect(Replay(past), e);
            && token in after.sessions
            && after.sessions[token]
               == if ScopesAgent(e, agent)
                  then st.sessions[token].(registeredDnas := st.sessions[token].registeredDnas + {e.dna})
                  else st.sessions[token]
  {
  }

  lemma ScopedSinceGrows(log: seq<LogEntry>, j: nat, agent: AgentPubKey)
    requires j < |log| - 1
    ensures var e := log[|log| - 1];
            DnasScopedSince(log, j, agent)
            == DnasScopedSince(log[..|log| - 1], j, agent) + if ScopesAgent(e, agent) then {e.dna} else {}
  {
    var last := |log| - 1;
    var front := log[..last];
    forall d | d in DnasScopedSince(log, j, agent)
      ensures d in DnasScopedSince(front, j, agent) + if ScopesAgent(log[last], agent) then {log[last].dna} else {}
    {
      var k :| j < k < |log| && ScopesAgent(log[k], agent) && log[k].dna == d;
      if k < last {
        assert front[k] == log[k];
      }
    }
    forall d | d in DnasScopedSince(front, j, agent) ensures d in DnasScopedSince(log, j, agent) {
      var k :| j < k < |front| && ScopesAgent(front[k], agent) && front[k].dna == d;
      assert front[k] == log[k];
    }
  }

  // ---- Each connection's state is backed by the history ----

  ghost predicate OpenChallenge(log: seq<LogEntry>, c: ConnId, agent: AgentPubKey, nonce: Nonce) {
    Challenged(c, agent, nonce) in log && !NonceSpent(log, nonce)
  }

  ghost predicate StateBacked(log: seq<LogEntry>, c: ConnId, st: ConnectionState) {
    && (st.authenticated ==> st.authenticatedAgent.Some?)
    && (st.authenticatedAgent.Some? ==> LoggedIn(log, c, st.authenticatedAgent.value))
    && (st.pendingChallenge.Some? ==>
          st.pendingAuthAgent.Some? && OpenChallenge(log, c, st.pendingAuthAgent.value, st.pendingChallenge.value))
  }

  ghost predicate PhaseBacked(cfg: Config, log: seq<LogEntry>, c: ConnId, cn: Conn) {
    match cn.phase
    case Proxying(cell) => LoggedIn(log, c, cell.agent)
    case Scoping(cell) => LoggedIn(log, c, cell.agent)
    case CreatingSession(agent, nonce, signature) =>
      && OpenChallenge(log, c, agent, nonce) && cfg.verify(agent, nonce, signature)
      && cn.state.pendingChallenge.None?
    case InsertingSession(agent, nonce, signature, capabilities) =>
      && OpenChallenge(log, c, agent, nonce) && cfg.verify(agent, nonce, signature)
      && CapabilitiesRead(c, agent, nonce, capabilities) in log
      && cn.state.pendingChallenge.None?
    case Attaching(agent, token) => SessionIssued(log, c, agent, token)
    case _ => true
  }

  ghost predicate Backed(cfg: Config, log: seq<LogEntry>, c: ConnId, cn: Conn) {
    StateBacked(log, c, cn.state) && PhaseBacked(cfg, log, c, cn)
  }

  ghost predicate AuthInvariant(cfg: Config, s: System) {
    && s.shared.store == Replay(s.log)
    && History(cfg, s.log)
    && (forall c :: c in s.conns ==> Backed(cfg, s.log, c, s.conns[c]))
  }

  // Entries that change what the logging connection itself holds.
  predicate IsOwn(e: LogEntry) {
    e.SessionCreated? || e.AuthOk?
  }

  // A challenge held by one connection is not held by another, so spending one leaves the rest open.
  lemma BackedSurvives(cfg: Config, log: seq<LogEntry>, e: LogEntry, c: ConnId, cn: Conn)
    requires Backed(cfg, log, c, cn) && History(cfg, log) && Justified(cfg, log, e)
    requires IsOwn(e) ==> e.conn != c
    ensures Backed(cfg, log + [e], c, cn)
  {
    forall agent, nonce | OpenChallenge(log, c, agent, nonce)
      ensures OpenChallenge(log + [e], c, agent, nonce)
    {
      if e.SessionCreated? && e.nonce == nonce {
        var i :| 0 <= i < |log| && log[i] == Challenged(c, agent, nonce);
        var j :| 0 <= j < |log| && log[j] == Challenged(e.conn, e.agent, nonce);
        ChallengesAreDistinct(cfg, log, i, j);
      }
    }
    LoggedInSurvives(log, e, c);
    forall agent, token | SessionIssued(log, c, agent, token)
      ensures SessionIssued(log + [e], c, agent, token)
    {
      var x :| x in log && x.SessionCreated? && x.conn == c && x.agent == agent && x.token == token;
      assert x in log + [e];
    }
  }

  lemma LoggedInSurvives(log: seq<LogEntry>, e: LogEntry, c: ConnId)
    requires e.AuthOk? ==> e.conn != c
    ensures forall agent :: LoggedIn(log, c, agent) ==> LoggedIn(log + [e], c, agent)
  {
    forall agent | LoggedIn(log, c, agent) ensures LoggedIn(log + [e], c, agent) {
      var i: nat :| LastLogin(log, i, c, agent);
      assert LastLogin(log + [e], i, c, agent);
    }
  }

  // A step that logs one justified entry and backs its own connection keeps the invariant.
  lemma LandLogging(cfg: Config, s: System, c: ConnId, o: Outcome, e: LogEntry)
    requires AuthInvariant(cfg, s) && c in s.conns && o.logged == [e]
    requires Justified(cfg, s.log, e) && (IsOwn(e) ==> e.conn == c)
    requires o.shared.store == Effect(s.shared.store, e) && Backed(cfg, s.log + [e], c, o.conn)
    ensures AuthInvariant(cfg, Land(s, c, o))
  {
    ReplayAppend(s.log, e);
    HistoryAppend(cfg, s.log, e);
    forall d | d in s.conns && d != c ensures Backed(cfg, s.log + [e], d, s.conns[d]) {
      BackedSurvives(cfg, s.log, e, d, s.conns[d]);
    }
  }

  lemma LandSilent(cfg: Config, s: System, c: ConnId, o: Outcome)
    requires AuthInvariant(cfg, s) && c in s.conns && o.logged == []
    requires o.shared.store == s.shared.store && Backed(cfg, s.log, c, o.conn)
    ensures AuthInvariant(cfg, Land(s, c, o))
  {
    assert s.log + [] == s.log;
  }

  lemma AdminLogging(cfg: Config, s: System, s': System, e: LogEntry)
    requires AuthInvariant(cfg, s) && s'.conns == s.conns && s'.log == s.log + [e]
    requires s'.shared.store == Effect(s.shared.store, e) && Justified(cfg, s.log, e) && !IsOwn(e)
    ensures AuthInvariant(cfg, s')
  {
    ReplayAppend(s.log, e);
    HistoryAppend(cfg, s.log, e);
    forall d | d in s.conns ensures Backed(cfg, s.log + [e], d, s.conns[d]) {
      BackedSurvives(cfg, s.log, e, d, s.conns[d]);
    }
  }

  lemma ReceiveKeepsAuth(cfg: Config, s: System, c: ConnId, msg: ClientMessage, nonce: Nonce)
    requires cfg.authEnabled && AuthInvariant(cfg, s) && Enabled(s, Receive(c, msg, nonce))
    ensures AuthInvariant(cfg, Fire(cfg, s, Receive(c, msg, nonce)))
  {
    var cn := s.conns[c];
    var o := Start(cfg, c, cn, s.shared, msg, nonce);
    if o.logged == [] {
      LandSilent(cfg, s, c, o);
    } else {
      var e := Challenged(c, msg.agentPubkey.value, nonce);
      assert !NonceSpent(s.log, nonce) by {
        if NonceSpent(s.log, nonce) {
          var i :| 0 <= i < |s.log| && s.log[i].SessionCreated? && s.log[i].nonce == nonce;
          HistoryAt(cfg, s.log, i);
        }
      }
      BackedSurvives(cfg, s.log, e, c, cn);
      assert OpenChallenge(s.log + [e], c, e.agent, nonce);
      LandLogging(cfg, s, c, o, e);
    }
  }

  predicate InHandshake(p: Phase) {
    p.CreatingSession? || p.InsertingSession? || p.Attaching?
  }

  lemma AdvanceKeepsAuth(cfg: Config, s: System, c: ConnId, ok: bool, token: Token)
    requires cfg.authEnabled && AuthInvariant(cfg, s) && Enabled(s, Advance(c, ok, token))
    ensures AuthInvariant(cfg, Fire(cfg, s, Advance(c, ok, token)))
  {
    if InHandshake(s.conns[c].phase) {
      HandshakeKeepsAuth(cfg, s, c, ok, token);
    } else {
      var o := Continue(cfg, c, s.conns[c], s.shared, ok, token);
      OutsideHandshakeIsBacked(cfg, s, c, ok, token);
      if o.logged == [] {
        LandSilent(cfg, s, c, o);
      } else {
        LandLogging(cfg, s, c, o, o.logged[0]);
      }
    }
  }

  // Outside a handshake only a scope or a detachment is logged.
  lemma OutsideHandshakeIsBacked(cfg: Config, s: System, c: ConnId, ok: bool, token: Token)
    requires cfg.authEnabled && AuthInvariant(cfg, s) && c in s.conns && !InHandshake(s.conns[c].phase)
    ensures var o := Continue(cfg, c, s.conns[c], s.shared, ok, token);
            if o.logged == [] then
              o.shared.store == s.shared.store && Backed(cfg, s.log, c, o.conn)
            else
              var e := o.logged[0];
              && o.logged == [e] && !IsOwn(e) && Justified(cfg, s.log, e)
              && o.shared.store == Effect(s.shared.store, e) && Backed(cfg, s.log + [e], c, o.conn)
  {
    var cn := s.conns[c];
    match cn.phase
    case Scoping(cell) => BackedSurvives(cfg, s.log, DnaScoped(c, cell.agent, cell.dna), c, cn);
    case Detaching =>
      if cn.state.authenticatedAgent.Some? {
        BackedSurvives(cfg, s.log, Detached(c, cn.state.authenticatedAgent.value), c, cn);
      }
    case _ =>
  }

  lemma OpenSurvivesLogin(log: seq<LogEntry>, e: LogEntry, c: ConnId)
    requires e.AuthOk?
    ensures forall agent, nonce :: OpenChallenge(log, c, agent, nonce) ==> OpenChallenge(log + [e], c, agent, nonce)
  {
  }

  lemma HandshakeKeepsAuth(cfg: Config, s: System, c: ConnId, ok: bool, token: Token)
    requires cfg.authEnabled && AuthInvariant(cfg, s) && Enabled(s, Advance(c, ok, token))
    requires InHandshake(s.conns[c].phase)
    ensures AuthInvariant(cfg, Land(s, c, Continue(cfg, c, s.conns[c], s.shared, ok, token)))
  {
    var cn := s.conns[c];
    var o := Continue(cfg, c, cn, s.shared, ok, token);
    if o.logged == [] {
      LandSilent(cfg, s, c, o);
    } else {
      var e := o.logged[0];
      assert e in s.log + [e];
      if e.SessionCreated? {
        LoggedInSurvives(s.log, e, c);
      } else if e.AuthOk? {
        assert LastLogin(s.log + [e], |s.log|, c, e.agent);
        OpenSurvivesLogin(s.log, e, c);
      } else {
        BackedSurvives(cfg, s.log, e, c, cn);
      }
      LandLogging(cfg, s, c, o, e);
    }
  }

  lemma AdminStepsAreLogged(cfg: Config, s: System, e: Event)
    requires IsAdmin(e) && Enabled(s, e)
    ensures Fire(cfg, s, e).conns == s.conns && Fire(cfg, s, e).log == s.log + [AdminEntry(e)]
  {
  }

  lemma AdminStepsTakeEffect(cfg: Config, s: System, e: Event)
    requires IsAdmin(e) && Enabled(s, e)
    ensures Fire(cfg, s, e).shared.store == Effect(s.shared.store, AdminEntry(e))
  {
  }

  lemma AdminEntriesNeedNoReason(cfg: Config, past: seq<LogEntry>, e: Event)
    requires IsAdmin(e)
    ensures Justified(cfg, past, AdminEntry(e)) && !IsOwn(AdminEntry(e))
  {
  }

  lemma StepKeepsAuth(cfg: Config, s: System, e: Event)
    requires cfg.authEnabled && AuthInvariant(cfg, s)
    ensures AuthInvariant(cfg, Step(cfg, s, e))
  {
    if Enabled(s, e) {
      if IsAdmin(e) {
        AdminStepsAreLogged(cfg, s, e);
        AdminStepsTakeEffect(cfg, s, e);
        AdminEntriesNeedNoReason(cfg, s.log, e);
        AdminLogging(cfg, s, Fire(cfg, s, e), AdminEntry(e));
      } else if e.Receive? {
        ReceiveKeepsAuth(cfg, s, e.conn, e.msg, e.nonce);
      } else if e.Advance? {
        AdvanceKeepsAuth(cfg, s, e.conn, e.kitsuneOk, e.token);
      } else if e.Hangup? {
        LandSilent(cfg, s, e.conn, Goto(s.conns[e.conn], UnproxyingAll, s.shared));
      }
    }
  }

  lemma {:induction false} AuthInvariantHolds(cfg: Config, events: seq<Event>)
    requires cfg.authEnabled
    ensures AuthInvariant(cfg, Run(cfg, events))
  {
    if events != [] {
      AuthInvariantHolds(cfg, events[..|events| - 1]);
      StepKeepsAuth(cfg, Run(cfg, events[..|events| - 1]), events[|events| - 1]);
    }
  }

  // ---- The gate ----

  // The session that a login announces.
  predicate IssuedFor(session: LogEntry, login: LogEntry) {
    && session.SessionCreated? && login.AuthOk?
    && session.conn == login.conn && session.agent == login.agent && session.token == login.token
  }

  // Entry i challenged an agent that was allowed then; entry g, in answer to
  // it, read the capabilities of the agent, still allowed, from the allow list;
  // entry j is the session created with them on the same connection, which
  // alone spent the challenge; entry k, after j, is a Register of the DNA by a
  // connection whose last login before it, entry m, was as that agent, with a
  // session of its own, entry h; nothing has ended the session since.
  ghost predicate Authorizes(
    cfg: Config, log: seq<LogEntry>, token: Token, required: Capability, dna: DnaHash,
    i: nat, g: nat, j: nat, h: nat, m: nat, k: nat)
  {
    && i < g < j < k < |log| && h < m < k
    && LiveSince(log, token, j)
    && var session := log[j];
       && log[i] == Challenged(session.conn, session.agent, session.nonce)
       && cfg.verify(session.agent, session.nonce, session.signature)
       && session.agent in Replay(log[..i]).allowed
       && log[g] == CapabilitiesRead(session.conn, session.agent, session.nonce, session.capabilities)
       && session.agent in Replay(log[..g]).allowed
       && Replay(log[..g]).allowed[session.agent].capabilities == session.capabilities
       && required in session.capabilities
       && ScopesAgent(log[k], session.agent) && log[k].dna == dna
       && LastLogin(log[..k], m, log[k].conn, session.agent)
       && IssuedFor(log[h], log[m])
       && (forall j' :: 0 <= j' < |log| && log[j'].SessionCreated? && log[j'].nonce == session.nonce ==> j' == j)
  }

  // A request passes both layers exactly when the history authorizes it.
  lemma AdmittedIffAuthorized(cfg: Config, events: seq<Event>, token: Token, required: Capability, dna: DnaHash)
    requires cfg.authEnabled
    ensures Admitted(Run(cfg, events).shared.store, Some(BEARER + token), required, dna)
            <==> exists i: nat, g: nat, j: nat, h: nat, m: nat, k: nat ::
                   Authorizes(cfg, Run(cfg, events).log, token, required, dna, i, g, j, h, m, k)
  {
    var s := Run(cfg, events);
    var header := Some(BEARER + token);
    AuthInvariantHolds(cfg, events);
    assert ExtractBearerToken(header) == Some(token);
    if Admitted(s.shared.store, header, required, dna) {
      var i, g, j, h, m, k := TraceBack(cfg, s.log, token, required, dna);
    }
    if i: nat, g: nat, j: nat, h: nat, m: nat, k: nat :|
        Authorizes(cfg, s.log, token, required, dna, i, g, j, h, m, k) {
      LiveSessionGrants(cfg, s.log, token, j);
      assert ScopesAgent(s.log[k], s.log[j].agent);
    }
  }

  lemma TraceBack(cfg: Config, log: seq<LogEntry>, token: Token, required: Capability, dna: DnaHash)
    returns (i: nat, g: nat, j: nat, h: nat, m: nat, k: nat)
    requires History(cfg, log) && Admitted(Replay(log), Some(BEARER + token), required, dna)
    ensures Authorizes(cfg, log, token, required, dna, i, g, j, h, m, k)
  {
    assert ExtractBearerToken(Some(BEARER + token)) == Some(token);
    j := SessionOrigin(cfg, log, token);
    LiveSessionGrants(cfg, log, token, j);
    HistoryAt(cfg, log, j);
    g :| 0 <= g < j && log[g] == CapabilitiesRead(log[j].conn, log[j].agent, log[j].nonce, log[j].capabilities);
    HistoryAt(cfg, log, g);
    i :| 0 <= i < g && log[i] == Challenged(log[j].conn, log[j].agent, log[j].nonce);
    HistoryAt(cfg, log, i);
    k :| j < k < |log| && ScopesAgent(log[k], log[j].agent) && log[k].dna == dna;
    HistoryAt(cfg, log, k);
    m :| LastLogin(log[..k], m, log[k].conn, log[j].agent);
    assert log[..k][m] == log[m];
    HistoryAt(cfg, log, m);
    h :| 0 <= h < m && IssuedFor(log[h], log[m]);
    forall j' | 0 <= j' < |log| && log[j'].SessionCreated? && log[j'].nonce == log[j].nonce ensures j' == j {
      SessionsSpendDistinctNonces(cfg, log, j', j);
    }
  }

  // Every created session is announced: its AuthOk has been sent, or sending it
  // is the very next step of the connection that earned it.
  ghost predicate Announced(s: System) {
    forall e :: e in s.log && e.SessionCreated? ==>
      || AuthOk(e.conn, e.agent, e.token) in s.log
      || (e.conn in s.conns && s.conns[e.conn].phase == Attaching(e.agent, e.token))
  }

  lemma LandKeepsAnnounced(s: System, c: ConnId, o: Outcome)
    requires Announced(s) && c in s.conns
    requires forall x :: x in o.logged && x.SessionCreated? ==>
               x.conn == c && o.conn.phase == Attaching(x.agent, x.token)
    requires s.conns[c].phase.Attaching? ==> AuthOk(c, s.conns[c].phase.agent, s.conns[c].phase.token) in o.logged
    ensures Announced(Land(s, c, o))
  {
    var s' := Land(s, c, o);
    forall x | x in s'.log && x.SessionCreated?
      ensures || AuthOk(x.conn, x.agent, x.token) in s'.log
              || (x.conn in s'.conns && s'.conns[x.conn].phase == Attaching(x.agent, x.token))
    {
      assert x in s.log || x in o.logged;
    }
  }

  lemma AdvanceKeepsAnnounced(cfg: Config, s: System, c: ConnId, ok: bool, token: Token)
    requires Announced(s) && c in s.conns
    ensures Announced(Land(s, c, Continue(cfg, c, s.conns[c], s.shared, ok, token)))
  {
    LandKeepsAnnounced(s, c, Continue(cfg, c, s.conns[c], s.shared, ok, token));
  }

  lemma StepKeepsAnnounced(cfg: Config, s: System, e: Event)
    requires Announced(s)
    ensures Announced(Step(cfg, s, e))
  {
    if Enabled(s, e) {
      match e
      case Receive(c, msg, nonce) => LandKeepsAnnounced(s, c, Start(cfg, c, s.conns[c], s.shared, msg, nonce));
      case Advance(c, ok, token) => AdvanceKeepsAnnounced(cfg, s, c, ok, token);
      case Hangup(c) => LandKeepsAnnounced(s, c, Goto(s.conns[c], UnproxyingAll, s.shared));
      case _ =>
    }
  }

  lemma {:induction false} SessionsAreAnnounced(cfg: Config, events: seq<Event>)
    ensures Announced(Run(cfg, events))
  {
    if events != [] {
      SessionsAreAnnounced(cfg, events[..|events| - 1]);
      StepKeepsAnnounced(cfg, Run(cfg, events[..|events| - 1]), events[|events| - 1]);
    }
  }
}
