// Is every session's agent allowed? create_session of the in-memory store reads
// the capabilities and inserts the session under two locks, so a removal in
// between leaves a session for an agent that is no longer allowed. This module
// says exactly when.

module ProtocolSessions {
  import opened Types
  import opened SessionStore
  import opened Protocol
  import opened ProtocolSenders

  // The insertion of a session whose agent was removed after the check.
  predicate InsertsForRemovedAgent(s: System, e: Event) {
    && e.Advance? && Enabled(s, e) && s.conns[e.conn].phase.InsertingSession?
    && s.conns[e.conn].phase.agent !in s.shared.store.allowed
  }

  lemma StepKeepsSessionsAllowedIff(cfg: Config, s: System, e: Event)
    requires Valid(s.shared.store)
    ensures Valid(Step(cfg, s, e).shared.store) <==> !InsertsForRemovedAgent(s, e)
  {
    if e.Advance? && Enabled(s, e) {
      var p := s.conns[e.conn].phase;
      if p.InsertingSession? {
        LateInsertKeepsValidIff(s.shared.store, p.agent, p.capabilities, e.token);
      } else {
        AdvanceKeepsValid(cfg, e.conn, s.conns[e.conn], s.shared, e.kitsuneOk, e.token);
      }
    }
  }

  lemma AdvanceKeepsValid(cfg: Config, c: ConnId, cn: Conn, sh: Shared, ok: bool, token: Token)
    requires Valid(sh.store) && !cn.phase.InsertingSession?
    ensures Valid(Continue(cfg, c, cn, sh, ok, token).shared.store)
  {
    if cn.phase.Scoping? {
    } else {
      assert Continue(cfg, c, cn, sh, ok, token).shared.store == sh.store;
    }
  }

  // Over a whole run: every session belongs to an allowed agent at every
  // moment, exactly when no session is inserted for an agent removed meanwhile.
  lemma SessionsAllowedThroughoutIff(cfg: Config, events: seq<Event>)
    ensures (forall n :: 0 <= n <= |events| ==> Valid(Run(cfg, events[..n]).shared.store))
            <==> forall n :: 0 <= n < |events| ==> !InsertsForRemovedAgent(Run(cfg, events[..n]), events[n])
  {
    forall n | 0 <= n < |events|
      ensures Run(cfg, events[..n + 1]) == Step(cfg, Run(cfg, events[..n]), events[n])
    {
      assert events[..n + 1][..n] == events[..n];
    }
    if forall n :: 0 <= n <= |events| ==> Valid(Run(cfg, events[..n]).shared.store) {
      forall n | 0 <= n < |events| ensures !InsertsForRemovedAgent(Run(cfg, events[..n]), events[n]) {
        assert Valid(Run(cfg, events[..n + 1]).shared.store);
        StepKeepsSessionsAllowedIff(cfg, Run(cfg, events[..n]), events[n]);
      }
    }
    if forall n :: 0 <= n < |events| ==> !InsertsForRemovedAgent(Run(cfg, events[..n]), events[n]) {
      for n := 0 to |events|
        invariant forall m :: 0 <= m <= n ==> Valid(Run(cfg, events[..m]).shared.store)
      {
        StepKeepsSessionsAllowedIff(cfg, Run(cfg, events[..n]), events[n]);
      }
    }
  }

  // An admin removes the agent while its handshake is between the two locks.
  lemma RemovalDuringHandshakeLeavesSession(cfg: Config, a: AllowedAgent, b: AllowedAgent, signature: string)
    requires cfg.authEnabled && a.agentPubkey != b.agentPubkey && cfg.verify(a.agentPubkey, Nonce(0), signature)
    ensures exists s :: Reachable(cfg, s) && "A" in s.shared.store.sessions
                        && s.shared.store.sessions["A"].agentPubkey == a.agentPubkey
                        && a.agentPubkey !in s.shared.store.allowed
  {
    var agent := a.agentPubkey;
    var s := TwoAllowed(cfg, a, b);
    s := Challenge(cfg, s, 1, agent, Nonce(0));
    s := Respond(cfg, s, 1, agent, Nonce(0), signature);
    s := ReachableStep(cfg, s, Advance(1, true, "A"));
    assert s.conns[1].phase == InsertingSession(agent, Nonce(0), signature, a.capabilities);
    s := RemoveThenInsert(cfg, s, agent, signature, a.capabilities);
  }

  lemma RemoveThenInsert(cfg: Config, s: System, agent: AgentPubKey, signature: string, capabilities: set<Capability>)
    returns (s': System)
    requires Reachable(cfg, s) && agent in s.shared.store.allowed && !TokenDrawn(s.log, "A")
    requires 1 in s.conns && s.conns[1].phase == InsertingSession(agent, Nonce(0), signature, capabilities)
    ensures Reachable(cfg, s') && agent !in s'.shared.store.allowed
    ensures "A" in s'.shared.store.sessions && s'.shared.store.sessions["A"].agentPubkey == agent
  {
    s' := ReachableStep(cfg, s, AdminRemoveAgent(agent));
    assert s'.conns == s.conns && s'.log == s.log + [AgentRemoved(agent)] && !TokenDrawn(s'.log, "A");
    s' := ReachableStep(cfg, s', Advance(1, true, "A"));
  }
}
