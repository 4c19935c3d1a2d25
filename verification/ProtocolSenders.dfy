// The multimap of WebSocket senders kept for forced disconnects. Its cleanup
// looks under the last authenticated agent only, so a connection that
// authenticated as two agents can leave a stale sender behind; and removing an
// agent drops its senders in a second step, which can take a newer one along.

module ProtocolSenders {
  import opened Wrappers
  import opened Types
  import opened SessionStore
  import opened Protocol

  predicate Listed(senders: Senders, agent: AgentPubKey, c: ConnId) {
    agent in senders && c in senders[agent]
  }

  // The history's view: the last entry that concerns this agent and connection decides.
  ghost predicate Attached(log: seq<LogEntry>, agent: AgentPubKey, c: ConnId)
    decreases |log|, 0
  {
    log != [] && AttachedAfter(log[..|log| - 1], log[|log| - 1], agent, c)
  }

  ghost predicate AttachedAfter(past: seq<LogEntry>, e: LogEntry, agent: AgentPubKey, c: ConnId)
    decreases |past|, 1
  {
    match e
    case AuthOk(c', agent', _) => (agent' == agent && c' == c) || Attached(past, agent, c)
    case Detached(c', agent') => !(agent' == agent && c' == c) && Attached(past, agent, c)
    case SendersDropped(agent') => agent' != agent && Attached(past, agent, c)
    case _ => Attached(past, agent, c)
  }

  ghost predicate SendersFollow(senders: Senders, log: seq<LogEntry>) {
    forall agent, c :: Listed(senders, agent, c) <==> Attached(log, agent, c)
  }

  // What logging an entry does to the senders.
  function SendersAfter(senders: Senders, e: LogEntry): Senders {
    match e
    case AuthOk(c, agent, _) => AttachSender(senders, agent, c)
    case Detached(c, agent) => DetachSender(senders, agent, c)
    case SendersDropped(agent) => senders - {agent}
    case _ => senders
  }

  // Appending e and updating the senders as its step does keeps the two in agreement.
  lemma SendersFollowStep(senders: Senders, log: seq<LogEntry>, e: LogEntry)
    requires SendersFollow(senders, log)
    ensures SendersFollow(SendersAfter(senders, e), log + [e])
  {
    var log' := log + [e];
    assert log'[..|log'| - 1] == log && log'[|log'| - 1] == e;
    forall agent, c ensures Listed(SendersAfter(senders, e), agent, c) <==> Attached(log', agent, c) {
      assert Attached(log', agent, c) == AttachedAfter(log, e, agent, c);
      assert Listed(senders, agent, c) <==> Attached(log, agent, c);
    }
  }

  // A task's step changes the senders only by what it logs.
  lemma StepsAreLogged(cfg: Config, c: ConnId, cn: Conn, sh: Shared, ok: bool, token: Token)
    ensures var o := Continue(cfg, c, cn, sh, ok, token);
            && |o.logged| <= 1
            && o.shared.wsSenders == if o.logged == [] then sh.wsSenders else SendersAfter(sh.wsSenders, o.logged[0])
  {
  }

  lemma LandKeepsSenders(s: System, c: ConnId, o: Outcome)
    requires SendersFollow(s.shared.wsSenders, s.log) && |o.logged| <= 1
    requires o.shared.wsSenders
             == if o.logged == [] then s.shared.wsSenders else SendersAfter(s.shared.wsSenders, o.logged[0])
    ensures SendersFollow(Land(s, c, o).shared.wsSenders, Land(s, c, o).log)
  {
    if o.logged == [] {
      assert s.log + [] == s.log;
    } else {
      assert o.logged == [o.logged[0]];
      SendersFollowStep(s.shared.wsSenders, s.log, o.logged[0]);
    }
  }

  lemma AdvanceKeepsSenders(cfg: Config, s: System, c: ConnId, ok: bool, token: Token)
    requires SendersFollow(s.shared.wsSenders, s.log) && c in s.conns
    ensures var s' := Land(s, c, Continue(cfg, c, s.conns[c], s.shared, ok, token));
            SendersFollow(s'.shared.wsSenders, s'.log)
  {
    StepsAreLogged(cfg, c, s.conns[c], s.shared, ok, token);
    LandKeepsSenders(s, c, Continue(cfg, c, s.conns[c], s.shared, ok, token));
  }

  lemma AdminStepsAreLogged(cfg: Config, s: System, e: Event)
    requires IsAdmin(e) && Enabled(s, e)
    ensures Fire(cfg, s, e).log == s.log + [AdminEntry(e)]
    ensures Fire(cfg, s, e).shared.wsSenders == SendersAfter(s.shared.wsSenders, AdminEntry(e))
  {
  }

  lemma StepKeepsSenders(cfg: Config, s: System, e: Event)
    requires SendersFollow(s.shared.wsSenders, s.log)
    ensures SendersFollow(Step(cfg, s, e).shared.wsSenders, Step(cfg, s, e).log)
  {
    if Enabled(s, e) {
      if IsAdmin(e) {
        AdminStepsAreLogged(cfg, s, e);
        SendersFollowStep(s.shared.wsSenders, s.log, AdminEntry(e));
      } else if e.Advance? {
        AdvanceKeepsSenders(cfg, s, e.conn, e.kitsuneOk, e.token);
      } else if e.Receive? {
        LandKeepsSenders(s, e.conn, Start(cfg, e.conn, s.conns[e.conn], s.shared, e.msg, e.nonce));
      } else if e.Hangup? {
        LandKeepsSenders(s, e.conn, Goto(s.conns[e.conn], UnproxyingAll, s.shared));
      }
    }
  }

  // In every run a sender is on file for an agent exactly when the history says so.
  lemma {:induction false} SendersFollowHistory(cfg: Config, events: seq<Event>)
    ensures SendersFollow(Run(cfg, events).shared.wsSenders, Run(cfg, events).log)
  {
    if events != [] {
      SendersFollowHistory(cfg, events[..|events| - 1]);
      StepKeepsSenders(cfg, Run(cfg, events[..|events| - 1]), events[|events| - 1]);
    }
  }

  // ---- The history's view, read off the whole log ----

  predicate Attaches(e: LogEntry, agent: AgentPubKey, c: ConnId) {
    e.AuthOk? && e.conn == c && e.agent == agent
  }

  predicate Ends(e: LogEntry, agent: AgentPubKey, c: ConnId) {
    e == Detached(c, agent) || e == SendersDropped(agent)
  }

  // Entry k attached the sender and nothing has ended that since.
  predicate AttachedBy(log: seq<LogEntry>, agent: AgentPubKey, c: ConnId, k: int) {
    && 0 <= k < |log| && Attaches(log[k], agent, c)
    && forall j :: k < j < |log| ==> !Ends(log[j], agent, c)
  }

  lemma {:induction false} AttachedIff(log: seq<LogEntry>, agent: AgentPubKey, c: ConnId)
    ensures Attached(log, agent, c) <==> exists k :: AttachedBy(log, agent, c, k)
  {
    if log != [] {
      var last := |log| - 1;
      var past, e := log[..last], log[last];
      AttachedIff(past, agent, c);
      assert Attached(log, agent, c) == AttachedAfter(past, e, agent, c);
      if Attaches(e, agent, c) {
        assert AttachedBy(log, agent, c, last);
      }
      if k :| AttachedBy(past, agent, c, k) {
        assert !Ends(e, agent, c) ==> AttachedBy(log, agent, c, k);
      }
      if k :| AttachedBy(log, agent, c, k) {
        assert k < last ==> AttachedBy(past, agent, c, k);
      }
    }
  }

  // ---- The two steps of a removal ----

  // The history had the senders been dropped together with the agent, at entry r.
  function DroppedAtOnce(log: seq<LogEntry>, agent: AgentPubKey, r: nat): seq<LogEntry>
    requires r < |log|
  {
    log[..r + 1] + [SendersDropped(agent)] + log[r + 1..]
  }

  // A sender would have outlived a drop at entry r exactly when it is attached
  // now and logged in after r.
  lemma AttachedAtOnceIff(log: seq<LogEntry>, agent: AgentPubKey, r: nat, c: ConnId)
    requires r < |log| && log[r] == AgentRemoved(agent)
    ensures Attached(DroppedAtOnce(log, agent, r), agent, c)
            <==> Attached(log, agent, c) && exists k :: r < k < |log| && Attaches(log[k], agent, c)
  {
    var once := DroppedAtOnce(log, agent, r);
    AttachedIff(log, agent, c);
    AttachedIff(once, agent, c);
    assert once[r + 1] == SendersDropped(agent);
    assert forall j :: r + 1 < j < |once| ==> once[j] == log[j - 1];
    if k :| AttachedBy(once, agent, c, k) {
      assert k > r + 1;
      assert forall j :: k - 1 < j < |log| ==> log[j] == once[j + 1];
      assert AttachedBy(log, agent, c, k - 1);
    }
    if Attached(log, agent, c) {
      if k :| r < k < |log| && Attaches(log[k], agent, c) {
        var held :| AttachedBy(log, agent, c, held);
        var later := if held > r then held else k;
        assert AttachedBy(log, agent, c, later);
        assert AttachedBy(once, agent, c, later + 1);
      }
    }
  }

  // Finishing a removal drops every sender of its agent and no other. That is
  // what dropping them together with the agent, at entry r, would have left
  // exactly when no connection on file has logged in as the agent since r.
  lemma LateDropIsPromptIff(cfg: Config, events: seq<Event>, agent: AgentPubKey, r: nat)
    requires Enabled(Run(cfg, events), FinishRemoval(agent))
    requires r < |Run(cfg, events).log| && Run(cfg, events).log[r] == AgentRemoved(agent)
    ensures var s := Run(cfg, events);
            var (after, once) := (Step(cfg, s, FinishRemoval(agent)).shared.wsSenders, DroppedAtOnce(s.log, agent, r));
            && (forall a, c :: Listed(after, a, c) <==> Listed(s.shared.wsSenders, a, c) && a != agent)
            && ((forall c :: Listed(after, agent, c) <==> Attached(once, agent, c))
                <==> forall c, k :: Listed(s.shared.wsSenders, agent, c) && r < k < |s.log| ==>
                                      !Attaches(s.log[k], agent, c))
  {
    var s := Run(cfg, events);
    SendersFollowHistory(cfg, events);
    forall c
      ensures Attached(DroppedAtOnce(s.log, agent, r), agent, c)
              <==> Listed(s.shared.wsSenders, agent, c)
                   && exists k :: r < k < |s.log| && Attaches(s.log[k], agent, c)
    {
      AttachedAtOnceIff(s.log, agent, r, c);
      assert Listed(s.shared.wsSenders, agent, c) <==> Attached(s.log, agent, c);
    }
  }

  // When a connection's cleanup leaves no stale sender: exactly when it was on
  // file for no agent but the one it authenticated as last.
  lemma DetachLeavesNoSenderIff(cfg: Config, s: System, c: ConnId, ok: bool, token: Token)
    requires cfg.authEnabled && Enabled(s, Advance(c, ok, token)) && s.conns[c].phase == Detaching
    ensures (forall agent :: !Listed(Step(cfg, s, Advance(c, ok, token)).shared.wsSenders, agent, c))
            <==> forall agent :: Listed(s.shared.wsSenders, agent, c) ==>
                                   s.conns[c].state.authenticatedAgent == Some(agent)
  {
    var before := s.shared.wsSenders;
    var after := Step(cfg, s, Advance(c, ok, token)).shared.wsSenders;
    forall agent
      ensures Listed(after, agent, c) <==>
                Listed(before, agent, c) && s.conns[c].state.authenticatedAgent != Some(agent)
    {
    }
  }

  // ---- The steps of a handshake ----

  lemma Challenge(cfg: Config, s: System, c: ConnId, agent: AgentPubKey, nonce: Nonce) returns (s': System)
    requires Reachable(cfg, s) && cfg.authEnabled && agent in s.shared.store.allowed && !NonceDrawn(s.log, nonce)
    requires c in s.conns && s.conns[c].phase == Idle
    ensures Reachable(cfg, s') && s'.shared == s.shared && s'.removals == s.removals
    ensures s'.log == s.log + [Challenged(c, agent, nonce)]
    ensures s'.conns == s.conns[c := s.conns[c].(state := s.conns[c].state.(pendingAuthAgent := Some(agent),
                                                                            pendingChallenge := Some(nonce)))]
  {
    s' := ReachableStep(cfg, s, Receive(c, Auth(Some(agent)), nonce));
  }

  lemma Respond(cfg: Config, s: System, c: ConnId, agent: AgentPubKey, nonce: Nonce, signature: string)
    returns (s': System)
    requires Reachable(cfg, s) && cfg.verify(agent, nonce, signature)
    requires c in s.conns && s.conns[c].phase == Idle
    requires s.conns[c].state.pendingAuthAgent == Some(agent) && s.conns[c].state.pendingChallenge == Some(nonce)
    ensures Reachable(cfg, s') && s'.shared == s.shared && s'.removals == s.removals && s'.log == s.log
    ensures s'.conns == s.conns[c := Conn(CreatingSession(agent, nonce, signature),
                                          s.conns[c].state.(pendingAuthAgent := None, pendingChallenge := None))]
  {
    s' := ReachableStep(cfg, s, Receive(c, AuthChallengeResponse(signature), nonce));
    assert s.log + [] == s.log;
  }

  // The check and the insertion of create_session.
  lemma Create(cfg: Config, s: System, c: ConnId, agent: AgentPubKey, nonce: Nonce, signature: string, token: Token)
    returns (s': System)
    requires Reachable(cfg, s) && agent in s.shared.store.allowed && !TokenDrawn(s.log, token)
    requires c in s.conns && s.conns[c].phase == CreatingSession(agent, nonce, signature)
    ensures var capabilities := s.shared.store.allowed[agent].capabilities;
            && Reachable(cfg, s') && s'.removals == s.removals
            && s'.shared == s.shared.(store := InsertSession(s.shared.store, agent, capabilities, token))
            && s'.log == s.log + [CapabilitiesRead(c, agent, nonce, capabilities),
                                  SessionCreated(c, agent, nonce, signature, capabilities, token)]
            && s'.conns == s.conns[c := Conn(Attaching(agent, token), s.conns[c].state)]
  {
    var capabilities := s.shared.store.allowed[agent].capabilities;
    var s1 := ReachableStep(cfg, s, Advance(c, true, token));
    assert s1.conns[c] == Conn(InsertingSession(agent, nonce, signature, capabilities), s.conns[c].state);
    assert s1.shared == s.shared && s1.log == s.log + [CapabilitiesRead(c, agent, nonce, capabilities)];
    assert !TokenDrawn(s1.log, token);
    s' := Insert(cfg, s1, c, agent, nonce, signature, capabilities, token);
  }

  lemma Insert(cfg: Config, s: System, c: ConnId, agent: AgentPubKey, nonce: Nonce, signature: string,
               capabilities: set<Capability>, token: Token)
    returns (s': System)
    requires Reachable(cfg, s) && !TokenDrawn(s.log, token)
    requires c in s.conns && s.conns[c].phase == InsertingSession(agent, nonce, signature, capabilities)
    ensures Reachable(cfg, s') && s'.removals == s.removals
    ensures s'.shared == s.shared.(store := InsertSession(s.shared.store, agent, capabilities, token))
    ensures s'.log == s.log + [SessionCreated(c, agent, nonce, signature, capabilities, token)]
    ensures s'.conns == s.conns[c := Conn(Attaching(agent, token), s.conns[c].state)]
  {
    s' := ReachableStep(cfg, s, Advance(c, true, token));
  }

  lemma Attach(cfg: Config, s: System, c: ConnId, agent: AgentPubKey, token: Token) returns (s': System)
    requires Reachable(cfg, s) && c in s.conns && s.conns[c].phase == Attaching(agent, token)
    ensures Reachable(cfg, s') && s'.removals == s.removals
    ensures s'.shared == s.shared.(wsSenders := AttachSender(s.shared.wsSenders, agent, c))
    ensures s'.log == s.log + [AuthOk(c, agent, token)]
    ensures s'.conns == s.conns[c := Conn(Idle, s.conns[c].state.(authenticated := true,
                                                                  authenticatedAgent := Some(agent)))]
  {
    s' := ReachableStep(cfg, s, Advance(c, true, token));
  }

  lemma HandshakeUpToAttaching(cfg: Config, s: System, c: ConnId, agent: AgentPubKey, nonce: Nonce, signature: string,
                               token: Token)
    returns (s': System)
    requires Reachable(cfg, s) && cfg.authEnabled && cfg.verify(agent, nonce, signature)
    requires c in s.conns && s.conns[c].phase == Idle && agent in s.shared.store.allowed
    requires !NonceDrawn(s.log, nonce) && !TokenDrawn(s.log, token)
    ensures var capabilities := s.shared.store.allowed[agent].capabilities;
            && Reachable(cfg, s') && s'.removals == s.removals
            && s'.shared == s.shared.(store := InsertSession(s.shared.store, agent, capabilities, token))
            && s'.log == s.log + [Challenged(c, agent, nonce), CapabilitiesRead(c, agent, nonce, capabilities),
                                  SessionCreated(c, agent, nonce, signature, capabilities, token)]
            && s'.conns == s.conns[c := Conn(Attaching(agent, token),
                                             s.conns[c].state.(pendingAuthAgent := None, pendingChallenge := None))]
  {
    var s1 := Challenge(cfg, s, c, agent, nonce);
    var s2 := Respond(cfg, s1, c, agent, nonce, signature);
    assert !TokenDrawn(s2.log, token);
    s' := Create(cfg, s2, c, agent, nonce, signature, token);
  }

  // One complete challenge-response handshake, undisturbed.
  lemma Handshake(cfg: Config, s: System, c: ConnId, agent: AgentPubKey, nonce: Nonce, signature: string, token: Token)
    returns (s': System)
    requires Reachable(cfg, s) && cfg.authEnabled && cfg.verify(agent, nonce, signature)
    requires c in s.conns && s.conns[c].phase == Idle && agent in s.shared.store.allowed
    requires !NonceDrawn(s.log, nonce) && !TokenDrawn(s.log, token)
    ensures var capabilities := s.shared.store.allowed[agent].capabilities;
            && Reachable(cfg, s') && s'.removals == s.removals
            && s'.log == s.log + [Challenged(c, agent, nonce), CapabilitiesRead(c, agent, nonce, capabilities),
                                  SessionCreated(c, agent, nonce, signature, capabilities, token),
                                  AuthOk(c, agent, token)]
            && s'.shared == s.shared.(store := InsertSession(s.shared.store, agent, capabilities, token),
                                      wsSenders := AttachSender(s.shared.wsSenders, agent, c))
            && s'.conns == s.conns[c := Conn(Idle, ConnectionState(true, s.conns[c].state.registrations, None, None,
                                                                   Some(agent)))]
  {
    var s1 := HandshakeUpToAttaching(cfg, s, c, agent, nonce, signature, token);
    s' := Attach(cfg, s1, c, agent, token);
  }

  // ---- Two ways to be wrong ----

  // Two agents are allowed and connection 1 is open.
  lemma TwoAllowed(cfg: Config, a: AllowedAgent, b: AllowedAgent) returns (s: System)
    requires a.agentPubkey != b.agentPubkey
    ensures Reachable(cfg, s) && s.log == [AgentAdded(a), AgentAdded(b)] && s.removals == multiset{}
    ensures s.shared == EMPTY_SHARED.(store := Store(map[a.agentPubkey := a, b.agentPubkey := b], map[]))
    ensures s.conns == map[1 := Conn(Idle, FRESH_CONNECTION)]
  {
    StartIsReachable(cfg);
    var s1 := ReachableStep(cfg, START, AdminAddAgent(a));
    assert s1.log == [AgentAdded(a)] && s1.shared.store == Store(map[a.agentPubkey := a], map[]);
    var s2 := ReachableStep(cfg, s1, AdminAddAgent(b));
    assert s2.shared.store.allowed == map[a.agentPubkey := a, b.agentPubkey := b];
    s := ReachableStep(cfg, s2, Open(1));
  }

  // A connection that authenticates twice leaves the first agent's sender behind.
  lemma ReauthenticatedConnectionLeaks(cfg: Config, a: AllowedAgent, b: AllowedAgent,
                                       signatureA: string, signatureB: string)
    requires cfg.authEnabled && !cfg.kitsuneEnabled && a.agentPubkey != b.agentPubkey
    requires cfg.verify(a.agentPubkey, Nonce(0), signatureA) && cfg.verify(b.agentPubkey, Nonce(1), signatureB)
    ensures exists s :: Reachable(cfg, s) && 1 in s.conns && s.conns[1].phase == Closed
                        && Listed(s.shared.wsSenders, a.agentPubkey, 1)
  {
    var s := TwoAllowed(cfg, a, b);
    s := Handshake(cfg, s, 1, a.agentPubkey, Nonce(0), signatureA, "A");
    assert Listed(s.shared.wsSenders, a.agentPubkey, 1);
    s := HandshakeAgain(cfg, s, a.agentPubkey, b.agentPubkey, signatureB);
    s := HangUpWithoutKitsune(cfg, s, 1, b.agentPubkey);
  }

  lemma HandshakeAgain(cfg: Config, s: System, a: AgentPubKey, b: AgentPubKey, signature: string) returns (s': System)
    requires Reachable(cfg, s) && cfg.authEnabled && a != b && cfg.verify(b, Nonce(1), signature)
    requires 1 in s.conns && s.conns[1].phase == Idle && b in s.shared.store.allowed
    requires Listed(s.shared.wsSenders, a, 1)
    requires !NonceDrawn(s.log, Nonce(1)) && !TokenDrawn(s.log, "B")
    ensures Reachable(cfg, s') && Listed(s'.shared.wsSenders, a, 1)
    ensures 1 in s'.conns && s'.conns[1].phase == Idle && s'.conns[1].state.authenticatedAgent == Some(b)
  {
    s' := Handshake(cfg, s, 1, b, Nonce(1), signature, "B");
  }

  lemma HangUpWithoutKitsune(cfg: Config, s: System, c: ConnId, agent: AgentPubKey) returns (s': System)
    requires Reachable(cfg, s) && cfg.authEnabled && !cfg.kitsuneEnabled
    requires c in s.conns && s.conns[c].phase == Idle && s.conns[c].state.authenticatedAgent == Some(agent)
    ensures Reachable(cfg, s') && c in s'.conns && s'.conns[c].phase == Closed
    ensures s'.shared.wsSenders == DetachSender(s.shared.wsSenders, agent, c)
  {
    var s1 := ReachableStep(cfg, s, Hangup(c));
    assert c in s1.conns && s1.conns[c] == Conn(UnproxyingAll, s.conns[c].state) && s1.shared == s.shared;
    s' := CloseWithoutKitsune(cfg, s1, c, agent);
  }

  lemma CloseWithoutKitsune(cfg: Config, s: System, c: ConnId, agent: AgentPubKey) returns (s': System)
    requires Reachable(cfg, s) && cfg.authEnabled && !cfg.kitsuneEnabled
    requires c in s.conns && s.conns[c].phase == UnproxyingAll && s.conns[c].state.authenticatedAgent == Some(agent)
    ensures Reachable(cfg, s') && c in s'.conns && s'.conns[c].phase == Closed
    ensures s'.shared.wsSenders == DetachSender(s.shared.wsSenders, agent, c)
  {
    var s1 := DropProxyEntries(cfg, s, c);
    s' := Detach(cfg, s1, c, agent);
  }

  lemma DropProxyEntries(cfg: Config, s: System, c: ConnId) returns (s': System)
    requires Reachable(cfg, s) && !cfg.kitsuneEnabled && c in s.conns && s.conns[c].phase == UnproxyingAll
    ensures Reachable(cfg, s') && c in s'.conns && s'.conns[c] == Conn(Detaching, s.conns[c].state)
    ensures s'.shared.wsSenders == s.shared.wsSenders
  {
    s' := ReachableStep(cfg, s, Advance(c, true, ""));
  }

  lemma Detach(cfg: Config, s: System, c: ConnId, agent: AgentPubKey) returns (s': System)
    requires Reachable(cfg, s) && cfg.authEnabled
    requires c in s.conns && s.conns[c].phase == Detaching && s.conns[c].state.authenticatedAgent == Some(agent)
    ensures Reachable(cfg, s') && c in s'.conns && s'.conns[c].phase == Closed
    ensures s'.shared.wsSenders == DetachSender(s.shared.wsSenders, agent, c)
  {
    s' := ReachableStep(cfg, s, Advance(c, true, ""));
  }

  // The agent was removed, connection c then logged in as it with this token,
  // and only then were the agent's senders dropped.
  ghost predicate LoggedInBeforeDrop(log: seq<LogEntry>, agent: AgentPubKey, c: ConnId, token: Token) {
    exists r, k, d :: 0 <= r < k < d < |log| && log[r] == AgentRemoved(agent) && log[k] == AuthOk(c, agent, token)
                      && log[d] == SendersDropped(agent)
  }

  // A connection whose handshake ends between the two steps of a removal, after
  // the agent was added back, holds a live session and is authenticated as an
  // allowed agent without being on file.
  lemma RemovalDropsNewerSender(cfg: Config, a: AllowedAgent, b: AllowedAgent, signature: string)
    requires cfg.authEnabled && a.agentPubkey != b.agentPubkey && cfg.verify(a.agentPubkey, Nonce(0), signature)
    ensures exists s :: Reachable(cfg, s) && 1 in s.conns && s.conns[1].phase == Idle
                        && s.conns[1].state.authenticatedAgent == Some(a.agentPubkey)
                        && a.agentPubkey in s.shared.store.allowed && "A" in s.shared.store.sessions
                        && LoggedInBeforeDrop(s.log, a.agentPubkey, 1, "A")
                        && !Listed(s.shared.wsSenders, a.agentPubkey, 1)
  {
    var s := TwoAllowed(cfg, a, b);
    s := RemovedAndReadded(cfg, s, a);
    ghost var (r, n) := (|s.log| - 2, |s.log|);
    s := Handshake(cfg, s, 1, a.agentPubkey, Nonce(0), signature, "A");
    assert s.log[r] == AgentRemoved(a.agentPubkey) && s.log[n + 3] == AuthOk(1, a.agentPubkey, "A");
    s := FinishLate(cfg, s, a.agentPubkey, r, n + 3);
  }

  lemma FinishLate(cfg: Config, s: System, agent: AgentPubKey, r: nat, k: nat) returns (s': System)
    requires Reachable(cfg, s) && agent in s.removals
    requires r < k < |s.log| && s.log[r] == AgentRemoved(agent) && s.log[k] == AuthOk(1, agent, "A")
    ensures Reachable(cfg, s') && s'.conns == s.conns && s'.shared.store == s.shared.store
    ensures LoggedInBeforeDrop(s'.log, agent, 1, "A") && !Listed(s'.shared.wsSenders, agent, 1)
  {
    s' := ReachableStep(cfg, s, FinishRemoval(agent));
    assert s'.log[r] == s.log[r] && s'.log[k] == s.log[k] && s'.log[|s.log|] == SendersDropped(agent);
  }

  // The removal has not dropped the senders yet, and the agent is allowed again.
  lemma RemovedAndReadded(cfg: Config, s: System, a: AllowedAgent) returns (s': System)
    requires Reachable(cfg, s) && a.agentPubkey in s.shared.store.allowed
    requires !NonceDrawn(s.log, Nonce(0)) && !TokenDrawn(s.log, "A")
    ensures Reachable(cfg, s') && s'.conns == s.conns && a.agentPubkey in s'.removals
    ensures a.agentPubkey in s'.shared.store.allowed && s'.shared.store.allowed[a.agentPubkey] == a
    ensures s'.log == s.log + [AgentRemoved(a.agentPubkey), AgentAdded(a)]
  {
    var s1 := ReachableStep(cfg, s, AdminRemoveAgent(a.agentPubkey));
    assert s1.conns == s.conns && a.agentPubkey in s1.removals && s1.log == s.log + [AgentRemoved(a.agentPubkey)];
    s' := ReachableStep(cfg, s1, AdminAddAgent(a));
    assert s'.log == s1.log + [AgentAdded(a)];
  }
}
