// Who gets in: with authentication on, a connection's identity is its last
// login, and a logged-in agent's Register opens the DNA to its session. So the
// exact condition for admission can always be met by an allowed agent.

module ProtocolAccess {
  import opened Wrappers
  import opened Types
  import opened SessionStore
  import opened Middleware
  import opened Protocol
  import opened ProtocolAuth
  import ProtocolSenders

  // ---- Identity ----

  // A connection is authenticated as an agent exactly when its last login was
  // as that agent; one not yet opened has never logged in.
  ghost predicate IdentityIsLastLogin(s: System, c: ConnId) {
    if c in s.conns then
      var st := s.conns[c].state;
      && st.authenticated == st.authenticatedAgent.Some?
      && forall agent :: st.authenticatedAgent == Some(agent) <==> LoggedIn(s.log, c, agent)
    else forall agent :: !LoggedIn(s.log, c, agent)
  }

  predicate IsLogin(e: LogEntry, c: ConnId) {
    e.AuthOk? && e.conn == c
  }

  lemma LoggedInAfter(log: seq<LogEntry>, e: LogEntry, c: ConnId, agent: AgentPubKey)
    ensures LoggedIn(log + [e], c, agent) <==> if IsLogin(e, c) then e.agent == agent else LoggedIn(log, c, agent)
  {
    var longer := log + [e];
    if IsLogin(e, c) {
      assert e.agent == agent ==> LastLogin(longer, |log|, c, agent);
      if i: nat :| LastLogin(longer, i, c, agent) {
        assert longer[|log|] == e;
      }
    } else {
      if i: nat :| LastLogin(log, i, c, agent) {
        assert LastLogin(longer, i, c, agent);
      }
      if i: nat :| LastLogin(longer, i, c, agent) {
        assert forall j :: 0 <= j < |log| ==> longer[j] == log[j];
        assert LastLogin(log, i, c, agent);
      }
    }
  }

  // A step of a handler that leaves the connection's identity alone and logs no login.
  predicate KeepsIdentity(st: ConnectionState, o: Outcome) {
    && o.conn.state.authenticated == st.authenticated && o.conn.state.authenticatedAgent == st.authenticatedAgent
    && |o.logged| <= 1 && (o.logged != [] ==> !o.logged[0].AuthOk?)
  }

  lemma StartKeepsIdentity(cfg: Config, c: ConnId, cn: Conn, sh: Shared, msg: ClientMessage, nonce: Nonce)
    requires cfg.authEnabled
    ensures KeepsIdentity(cn.state, Start(cfg, c, cn, sh, msg, nonce))
  {
  }

  lemma OnlyAttachingLogsIn(cfg: Config, c: ConnId, cn: Conn, sh: Shared, ok: bool, token: Token)
    ensures var o := Continue(cfg, c, cn, sh, ok, token);
            if cn.phase.Attaching? then
              && o.logged == [AuthOk(c, cn.phase.agent, cn.phase.token)]
              && o.conn.state.authenticated && o.conn.state.authenticatedAgent == Some(cn.phase.agent)
            else KeepsIdentity(cn.state, o)
  {
  }

  lemma LandKeepsIdentity(s: System, c: ConnId, o: Outcome, d: ConnId)
    requires c in s.conns && IdentityIsLastLogin(s, d)
    requires |o.logged| <= 1 && (o.logged != [] && o.logged[0].AuthOk? ==> o.logged[0].conn == c)
    requires KeepsIdentity(s.conns[c].state, o)
             || (|o.logged| == 1 && IsLogin(o.logged[0], c)
                 && o.conn.state.authenticated && o.conn.state.authenticatedAgent == Some(o.logged[0].agent))
    ensures IdentityIsLastLogin(Land(s, c, o), d)
  {
    if o.logged == [] {
      assert s.log + [] == s.log;
    } else {
      assert o.logged == [o.logged[0]];
      forall agent
        ensures LoggedIn(s.log + o.logged, d, agent)
                <==> if IsLogin(o.logged[0], d) then o.logged[0].agent == agent else LoggedIn(s.log, d, agent)
      {
        LoggedInAfter(s.log, o.logged[0], d, agent);
      }
    }
  }

  lemma AdminKeepsIdentity(cfg: Config, s: System, e: Event, d: ConnId)
    requires IsAdmin(e) && Enabled(s, e) && IdentityIsLastLogin(s, d)
    ensures IdentityIsLastLogin(Step(cfg, s, e), d)
  {
    ProtocolSenders.AdminStepsAreLogged(cfg, s, e);
    forall agent ensures LoggedIn(s.log + [AdminEntry(e)], d, agent) <==> LoggedIn(s.log, d, agent) {
      LoggedInAfter(s.log, AdminEntry(e), d, agent);
    }
  }

  lemma StepKeepsIdentity(cfg: Config, s: System, e: Event, d: ConnId)
    requires cfg.authEnabled && IdentityIsLastLogin(s, d)
    ensures IdentityIsLastLogin(Step(cfg, s, e), d)
  {
    if Enabled(s, e) {
      if IsAdmin(e) {
        AdminKeepsIdentity(cfg, s, e, d);
      } else if e.Receive? {
        StartKeepsIdentity(cfg, e.conn, s.conns[e.conn], s.shared, e.msg, e.nonce);
        LandKeepsIdentity(s, e.conn, Start(cfg, e.conn, s.conns[e.conn], s.shared, e.msg, e.nonce), d);
      } else if e.Advance? {
        OnlyAttachingLogsIn(cfg, e.conn, s.conns[e.conn], s.shared, e.kitsuneOk, e.token);
        LandKeepsIdentity(s, e.conn, Continue(cfg, e.conn, s.conns[e.conn], s.shared, e.kitsuneOk, e.token), d);
      } else if e.Hangup? {
        LandKeepsIdentity(s, e.conn, Goto(s.conns[e.conn], UnproxyingAll, s.shared), d);
      }
    }
  }

  lemma {:induction false} IdentitiesAreLastLogins(cfg: Config, events: seq<Event>, c: ConnId)
    requires cfg.authEnabled
    ensures IdentityIsLastLogin(Run(cfg, events), c)
  {
    if events != [] {
      IdentitiesAreLastLogins(cfg, events[..|events| - 1], c);
      StepKeepsIdentity(cfg, Run(cfg, events[..|events| - 1]), events[|events| - 1], c);
    }
  }

  // ---- Getting in ----

  // The three steps of a Register up to the scoping of the agent's sessions.
  function RegisterSteps(cfg: Config, s: System, c: ConnId, cell: Cell): System {
    var s1 := Step(cfg, s, Receive(c, Register(Some(cell.dna), Some(cell.agent)), Nonce(0)));
    var s2 := Step(cfg, s1, Advance(c, true, ""));
    Step(cfg, s2, Advance(c, true, ""))
  }

  // From any reachable state, a Register by an idle connection that is logged
  // in as an agent opens the DNA to each of that agent's live sessions, with
  // exactly the capabilities the session has.
  lemma RegisterAdmits(cfg: Config, s: System, c: ConnId, dna: DnaHash, token: Token)
    requires cfg.authEnabled && Reachable(cfg, s) && c in s.conns && s.conns[c].phase == Idle
    requires token in s.shared.store.sessions && LoggedIn(s.log, c, s.shared.store.sessions[token].agentPubkey)
    ensures var session := s.shared.store.sessions[token];
            var s' := RegisterSteps(cfg, s, c, Cell(dna, session.agentPubkey));
            && Reachable(cfg, s')
            && s'.log == s.log + [DnaScoped(c, session.agentPubkey, dna)]
            && token in s'.shared.store.sessions
            && s'.shared.store.sessions[token] == session.(registeredDnas := session.registeredDnas + {dna})
            && forall required ::
                 required in session.capabilities <==> Admitted(s'.shared.store, Some("Bearer " + token), required, dna)
  {
    var session := s.shared.store.sessions[token];
    var agent := session.agentPubkey;
    var cell := Cell(dna, agent);
    var s1 := ListStep(cfg, s, c, cell);
    var s2 := ProxyStep(cfg, s1, c, cell);
    var s3 := ScopeStep(cfg, s2, c, cell, token);
    assert ExtractBearerToken(Some(BEARER + token)) == Some(token);
  }

  lemma ListStep(cfg: Config, s: System, c: ConnId, cell: Cell) returns (s': System)
    requires cfg.authEnabled && Reachable(cfg, s) && c in s.conns && s.conns[c].phase == Idle
    requires LoggedIn(s.log, c, cell.agent)
    ensures s' == Step(cfg, s, Receive(c, Register(Some(cell.dna), Some(cell.agent)), Nonce(0))) && Reachable(cfg, s')
    ensures c in s'.conns && s'.conns[c].phase == Proxying(cell) && s'.shared == s.shared && s'.log == s.log
  {
    var events :| Run(cfg, events) == s;
    IdentitiesAreLastLogins(cfg, events, c);
    s' := ReachableStep(cfg, s, Receive(c, Register(Some(cell.dna), Some(cell.agent)), Nonce(0)));
  }

  lemma ProxyStep(cfg: Config, s: System, c: ConnId, cell: Cell) returns (s': System)
    requires cfg.authEnabled && Reachable(cfg, s) && c in s.conns && s.conns[c].phase == Proxying(cell)
    ensures s' == Step(cfg, s, Advance(c, true, "")) && Reachable(cfg, s')
    ensures c in s'.conns && s'.conns[c].phase == Scoping(cell)
    ensures s'.shared.store == s.shared.store && s'.log == s.log
  {
    s' := ReachableStep(cfg, s, Advance(c, true, ""));
  }

  lemma ScopeStep(cfg: Config, s: System, c: ConnId, cell: Cell, token: Token) returns (s': System)
    requires Reachable(cfg, s) && c in s.conns && s.conns[c].phase == Scoping(cell)
    requires token in s.shared.store.sessions && s.shared.store.sessions[token].agentPubkey == cell.agent
    ensures s' == Step(cfg, s, Advance(c, true, "")) && Reachable(cfg, s')
    ensures s'.log == s.log + [DnaScoped(c, cell.agent, cell.dna)]
    ensures token in s'.shared.store.sessions
    ensures var session := s.shared.store.sessions[token];
            s'.shared.store.sessions[token] == session.(registeredDnas := session.registeredDnas + {cell.dna})
  {
    s' := ReachableStep(cfg, s, Advance(c, true, ""));
  }

  // From any reachable state, an allowed agent that answers a fresh challenge
  // on an idle connection and registers a DNA gets in there, with exactly the
  // capabilities it is allowed.
  lemma AllowedAgentGetsIn(cfg: Config, s: System, c: ConnId, agent: AgentPubKey, nonce: Nonce, signature: string,
                           token: Token, dna: DnaHash)
    requires cfg.authEnabled && Reachable(cfg, s) && c in s.conns && s.conns[c].phase == Idle
    requires agent in s.shared.store.allowed && cfg.verify(agent, nonce, signature)
    requires !NonceDrawn(s.log, nonce) && !TokenDrawn(s.log, token)
    ensures exists s' :: Reachable(cfg, s') && s.log <= s'.log
                         && forall required ::
                              required in s.shared.store.allowed[agent].capabilities
                              <==> Admitted(s'.shared.store, Some("Bearer " + token), required, dna)
  {
    var s1 := ProtocolSenders.Handshake(cfg, s, c, agent, nonce, signature, token);
    assert LastLogin(s1.log, |s1.log| - 1, c, agent);
    RegisterAdmits(cfg, s1, c, dna, token);
    var s2 := RegisterSteps(cfg, s1, c, Cell(dna, agent));
    assert s.log <= s1.log <= s2.log;
  }
}
