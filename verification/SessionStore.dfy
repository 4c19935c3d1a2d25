// The persistable part of authentication: which agents are allowed and which
// sessions they hold. `Apply` is the meaning of one call; MemorySessionStore is
// the in-memory backend, proved to compute it.

module SessionStore {
  import opened Wrappers
  import opened Types

  datatype AllowedAgent = AllowedAgent(
    agentPubkey: AgentPubKey, capabilities: set<Capability>, agentLabel: Option<string>)

  datatype SessionInfo = SessionInfo(
    agentPubkey: AgentPubKey, capabilities: set<Capability>, registeredDnas: set<DnaHash>)

  datatype Store = Store(
    allowed: map<AgentPubKey, AllowedAgent>, sessions: map<Token, SessionInfo>)

  const EMPTY_STORE := Store(map[], map[])

  datatype Op =
    | AddAgent(info: AllowedAgent)
    | RemoveAgent(agent: AgentPubKey)
    | ListAgents
    | IsAgentAllowed(agent: AgentPubKey)
    | GetAgent(agent: AgentPubKey)
    | CreateSession(agent: AgentPubKey, token: Token)  // token: the random value drawn by the call
    | ValidateSession(token: Token)
    | RevokeSession(token: Token)
    | RegisterDna(agent: AgentPubKey, dna: DnaHash)
    | RevokeSessionsForAgent(agent: AgentPubKey)
    | SessionCount

  datatype Reply =
    | Done
    | Flag(flag: bool)
    | Agents(agents: set<AllowedAgent>)
    | Agent(agent: Option<AllowedAgent>)
    | Created(token: Option<Token>)
    | Session(session: Option<SessionInfo>)
    | Count(count: nat)
    | DatabaseError

  function WithoutSessionsOf(sessions: map<Token, SessionInfo>, agent: AgentPubKey): map<Token, SessionInfo> {
    map t | t in sessions && sessions[t].agentPubkey != agent :: sessions[t]
  }

  function Scoped(session: SessionInfo, agent: AgentPubKey, dna: DnaHash): SessionInfo {
    if session.agentPubkey == agent
    then session.(registeredDnas := session.registeredDnas + {dna})
    else session
  }

  function ScopeSessions(sessions: map<Token, SessionInfo>, agent: AgentPubKey, dna: DnaHash): map<Token, SessionInfo> {
    map t | t in sessions :: Scoped(sessions[t], agent, dna)
  }

  function Apply(st: Store, op: Op): (Store, Reply) {
    match op
    case AddAgent(info) =>
      (st.(allowed := st.allowed[info.agentPubkey := info]), Done)
    case RemoveAgent(agent) =>
      if agent in st.allowed
      then (Store(st.allowed - {agent}, WithoutSessionsOf(st.sessions, agent)), Flag(true))
      else (st, Flag(false))
    case ListAgents => (st, Agents(st.allowed.Values))
    case IsAgentAllowed(agent) => (st, Flag(agent in st.allowed))
    case GetAgent(agent) =>
      (st, Agent(if agent in st.allowed then Some(st.allowed[agent]) else None))
    case CreateSession(agent, token) =>
      if agent in st.allowed
      then (st.(sessions := st.sessions[token := SessionInfo(agent, st.allowed[agent].capabilities, {})]),
            Created(Some(token)))
      else (st, Created(None))
    case ValidateSession(token) =>
      (st, Session(if token in st.sessions then Some(st.sessions[token]) else None))
    case RevokeSession(token) =>
      (st.(sessions := st.sessions - {token}), Flag(token in st.sessions))
    case RegisterDna(agent, dna) =>
      (st.(sessions := ScopeSessions(st.sessions, agent, dna)), Done)
    case RevokeSessionsForAgent(agent) =>
      (st.(sessions := WithoutSessionsOf(st.sessions, agent)),
       Count(|set t | t in st.sessions && st.sessions[t].agentPubkey == agent|))
    case SessionCount => (st, Count(|st.sessions|))
  }

  // Keys agree with the records they index, and every session belongs to an allowed agent.
  ghost predicate Valid(st: Store) {
    && (forall a :: a in st.allowed ==> st.allowed[a].agentPubkey == a)
    && (forall t :: t in st.sessions ==> st.sessions[t].agentPubkey in st.allowed)
  }

  function ApplyAll(st: Store, ops: seq<Op>): (Store, seq<Reply>)
    decreases |ops|
  {
    if ops == [] then (st, [])
    else
      var (st1, reply) := Apply(st, ops[0]);
      var (st2, replies) := ApplyAll(st1, ops[1..]);
      (st2, [reply] + replies)
  }

  // After any calls, a session's agent is allowed: removing an agent takes its sessions along.
  lemma {:induction false} SessionsBelongToAllowedAgents(st: Store, ops: seq<Op>)
    requires Valid(st)
    ensures Valid(ApplyAll(st, ops).0)
    decreases |ops|
  {
    if ops != [] {
      SessionsBelongToAllowedAgents(Apply(st, ops[0]).0, ops[1..]);
    }
  }

  // The two halves of MemorySessionStore::create_session: the lock is dropped
  // between the allow-list check and the insertion.
  function InsertSession(st: Store, agent: AgentPubKey, capabilities: set<Capability>, token: Token): Store {
    st.(sessions := st.sessions[token := SessionInfo(agent, capabilities, {})])
  }

  // Exactly when the late insertion is safe: the agent must still be allowed when the lock is retaken.
  lemma LateInsertKeepsValidIff(st: Store, agent: AgentPubKey, capabilities: set<Capability>, token: Token)
    requires Valid(st)
    ensures Valid(InsertSession(st, agent, capabilities, token)) <==> agent in st.allowed
  {
    var st' := InsertSession(st, agent, capabilities, token);
    assert token in st'.sessions && st'.sessions[token].agentPubkey == agent;
  }

  // A removal that lands between the halves leaves a live session for an agent no longer allowed.
  lemma RemovalRacesSessionCreation(st: Store, agent: AgentPubKey, token: Token)
    requires Valid(st) && agent in st.allowed
    ensures var late := InsertSession(Apply(st, RemoveAgent(agent)).0, agent, st.allowed[agent].capabilities, token);
            token in late.sessions && late.sessions[token].agentPubkey !in late.allowed
  {
  }

  class MemorySessionStore {
    var allowedAgents: map<AgentPubKey, AllowedAgent>
    var sessions: map<Token, SessionInfo>

    function View(): Store
      reads this
    {
      Store(allowedAgents, sessions)
    }

    constructor ()
      ensures View() == EMPTY_STORE
    {
      allowedAgents, sessions := map[], map[];
    }

    method AddAgent(info: AllowedAgent)
      modifies this
      ensures View() == Apply(old(View()), Op.AddAgent(info)).0
    {
      allowedAgents := allowedAgents[info.agentPubkey := info];
    }

    method RemoveAgent(agent: AgentPubKey) returns (removed: bool)
      modifies this
      ensures (View(), Flag(removed)) == Apply(old(View()), Op.RemoveAgent(agent))
    {
      removed := agent in allowedAgents;
      allowedAgents := allowedAgents - {agent};
      assert !removed ==> allowedAgents == old(allowedAgents);
      if removed {
        sessions := map t | t in sessions && sessions[t].agentPubkey != agent :: sessions[t];
      }
    }

    method IsAgentAllowed(agent: AgentPubKey) returns (allowed: bool)
      ensures (View(), Flag(allowed)) == Apply(View(), Op.IsAgentAllowed(agent))
    {
      allowed := agent in allowedAgents;
    }

    // create_session up to the point where it drops its lock.
    method ReadCapabilities(agent: AgentPubKey) returns (capabilities: Option<set<Capability>>)
      ensures capabilities.Some? <==> agent in View().allowed
      ensures capabilities.Some? ==> capabilities.value == View().allowed[agent].capabilities
    {
      capabilities := if agent in allowedAgents then Some(allowedAgents[agent].capabilities) else None;
    }

    // Its second half, with whatever the first half read.
    method InsertNewSession(agent: AgentPubKey, capabilities: set<Capability>, token: Token)
      modifies this
      ensures View() == InsertSession(old(View()), agent, capabilities, token)
      ensures old(Valid(View())) ==> (Valid(View()) <==> agent in View().allowed)
    {
      if Valid(View()) {
        LateInsertKeepsValidIff(View(), agent, capabilities, token);
      }
      sessions := sessions[token := SessionInfo(agent, capabilities, {})];
    }

    method CreateSession(agent: AgentPubKey, token: Token) returns (created: Option<Token>)
      modifies this
      ensures (View(), Created(created)) == Apply(old(View()), Op.CreateSession(agent, token))
    {
      var capabilities := ReadCapabilities(agent);
      if capabilities.None? {
        return None;
      }
      InsertNewSession(agent, capabilities.value, token);
      return Some(token);
    }

    method ValidateSession(token: Token) returns (session: Option<SessionInfo>)
      ensures (View(), Session(session)) == Apply(View(), Op.ValidateSession(token))
    {
      session := if token in sessions then Some(sessions[token]) else None;
    }

    method RevokeSession(token: Token) returns (existed: bool)
      modifies this
      ensures (View(), Flag(existed)) == Apply(old(View()), Op.RevokeSession(token))
    {
      existed := token in sessions;
      sessions := sessions - {token};
    }

    // Visits the sessions one by one, in whatever order the hash map yields them.
    method RegisterDnaForAgent(agent: AgentPubKey, dna: DnaHash)
      modifies this
      ensures View() == Apply(old(View()), Op.RegisterDna(agent, dna)).0
    {
      var unvisited := sessions.Keys;
      while unvisited != {}
        invariant allowedAgents == old(allowedAgents)
        invariant unvisited <= sessions.Keys == old(sessions).Keys
        invariant forall t :: t in unvisited ==> sessions[t] == old(sessions)[t]
        invariant forall t :: t in sessions && t !in unvisited ==> sessions[t] == Scoped(old(sessions)[t], agent, dna)
        decreases unvisited
      {
        var t :| t in unvisited;
        unvisited := unvisited - {t};
        if sessions[t].agentPubkey == agent {
          sessions := sessions[t := sessions[t].(registeredDnas := sessions[t].registeredDnas + {dna})];
        }
      }
    }

    method RevokeSessionsForAgent(agent: AgentPubKey) returns (revoked: nat)
      modifies this
      ensures (View(), Count(revoked)) == Apply(old(View()), Op.RevokeSessionsForAgent(agent))
    {
      var before := |sessions|;
      RetainedCount(sessions, agent);
      sessions := map t | t in sessions && sessions[t].agentPubkey != agent :: sessions[t];
      revoked := before - |sessions|;
    }
  }

  // What a retain drops is what it counts.
  lemma RetainedCount(sessions: map<Token, SessionInfo>, agent: AgentPubKey)
    ensures |sessions| == |WithoutSessionsOf(sessions, agent)|
                          + |set t | t in sessions && sessions[t].agentPubkey == agent|
  {
    var gone := set t | t in sessions && sessions[t].agentPubkey == agent;
    assert sessions.Keys == WithoutSessionsOf(sessions, agent).Keys + gone;
    assert WithoutSessionsOf(sessions, agent).Keys !! gone;
  }
}
