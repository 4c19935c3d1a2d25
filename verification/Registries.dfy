// The objects behind the shared registries: kitsune2 spaces and agents, the
// signal registry, and the authentication store. Each method runs its lock
// sections back to back, as it does when no other task interferes.

module Registries {
  import opened Wrappers
  import opened Types
  import opened SessionStore
  import opened SqliteStore
  import opened Protocol

  // What one undisturbed agent_leave does to (agents, spaces).
  function AfterLeave(agents: set<Cell>, spaces: set<DnaHash>, cell: Cell): (set<Cell>, set<DnaHash>) {
    if cell !in agents then (agents, spaces)
    else
      var rest := agents - {cell};
      (rest, if HasAgents(rest, cell.dna) then spaces else spaces - {cell.dna})
  }

  function DnasOf(cells: set<Cell>): set<DnaHash> {
    set k | k in cells :: k.dna
  }

  class GatewayKitsune {
    var spaces: set<DnaHash>
    var agents: set<Cell>

    // Taken one call at a time, the methods keep a space for every joined agent.
    ghost predicate Valid()
      reads this
    {
      DnasOf(agents) <= spaces
    }

    constructor ()
      ensures Valid() && spaces == {} && agents == {}
    {
      spaces, agents := {}, {};
    }

    // kitsuneOk: whether kitsune2 manages to open the space.
    method GetOrCreateSpace(dna: DnaHash, kitsuneOk: bool) returns (ok: bool)
      modifies this
      ensures ok == (dna in old(spaces) || kitsuneOk)
      ensures agents == old(agents) && spaces == if ok then old(spaces) + {dna} else old(spaces)
      ensures old(Valid()) ==> Valid()
    {
      if dna in spaces {
        return true;
      }
      if kitsuneOk {
        spaces := spaces + {dna};
      }
      return kitsuneOk;
    }

    method AgentJoin(cell: Cell, spaceOk: bool, joinOk: bool) returns (ok: bool)
      modifies this
      ensures ok == (cell in old(agents) || ((cell.dna in old(spaces) || spaceOk) && joinOk))
      ensures agents == if ok then old(agents) + {cell} else old(agents)
      ensures spaces == if cell !in old(agents) && spaceOk then old(spaces) + {cell.dna} else old(spaces)
      ensures old(Valid()) ==> Valid()
    {
      if cell in agents {
        return true;
      }
      ok := GetOrCreateSpace(cell.dna, spaceOk);
      if !ok || !joinOk {
        return false;
      }
      agents := agents + {cell};
    }

    method AgentLeave(cell: Cell)
      modifies this
      ensures (agents, spaces) == AfterLeave(old(agents), old(spaces), cell)
      ensures old(Valid()) ==> Valid()
    {
      if cell !in agents {
        return;
      }
      agents := agents - {cell};
      MaybeCleanupSpace(cell.dna);
    }

    method MaybeCleanupSpace(dna: DnaHash)
      modifies this
      ensures agents == old(agents)
      ensures spaces == if HasAgents(agents, dna) then old(spaces) else old(spaces) - {dna}
    {
      if !HasAgents(agents, dna) {
        spaces := spaces - {dna};
      }
    }

    // Leaves every agent of a snapshot. The spaces those agents kept open go;
    // spaces opened only for queries stay.
    method Shutdown()
      modifies this
      ensures agents == {} && spaces == old(spaces) - DnasOf(old(agents))
    {
      var snapshot := agents;
      ghost var left: set<Cell> := {};
      while snapshot != {}
        invariant left + snapshot == old(agents) && left !! snapshot && agents == snapshot
        invariant forall d :: d in spaces <==> d in old(spaces) && (d in DnasOf(left) ==> d in DnasOf(snapshot))
        decreases snapshot
      {
        var cell :| cell in snapshot;
        snapshot, left := snapshot - {cell}, left + {cell};
        AgentLeave(cell);
      }
    }
  }

  // Where allowed agents and sessions are kept.
  datatype Backend = Memory(memory: MemorySessionStore) | Sqlite(sqlite: SqliteSessionStore)

  class AuthStore {
    const backend: Backend
    var wsSenders: Senders
    ghost var contents: Store

    ghost function Footprint(): set<object> {
      match backend
      case Memory(memory) => {this, memory}
      case Sqlite(sqlite) => {this, sqlite}
    }

    // Either backend stands for one store, and every call does to it what `Apply` says.
    ghost predicate Valid()
      reads Footprint()
    {
      match backend
      case Memory(memory) => contents == memory.View()
      case Sqlite(sqlite) => sqlite.Valid() && contents == sqlite.View()
    }

    ghost function View(): Store
      reads this
    {
      contents
    }

    // Changes elsewhere leave it valid.
    twostate lemma StaysValid()
      requires old(Valid()) && forall o :: o in Footprint() ==> unchanged(o)
      ensures Valid()
    {
    }

    constructor (backend: Backend)
      requires backend.Sqlite? ==> backend.sqlite.Valid()
      ensures this.backend == backend && Valid() && wsSenders == map[]
    {
      this.backend := backend;
      wsSenders := map[];
      contents := match backend
      case Memory(memory) => memory.View()
      case Sqlite(sqlite) => sqlite.View();
    }

    method AddAgent(info: AllowedAgent)
      requires Valid()
      modifies Footprint()
      ensures Valid() && View() == Apply(old(View()), Op.AddAgent(info)).0 && wsSenders == old(wsSenders)
    {
      match backend {
        case Memory(memory) => memory.AddAgent(info);
        case Sqlite(sqlite) => sqlite.AddAgent(info);
      }
      contents := Apply(contents, Op.AddAgent(info)).0;
    }

    // Revokes the agent's sessions, then forgets its senders; false if it was not allowed.
    method RemoveAgent(agent: AgentPubKey) returns (removed: bool)
      requires Valid()
      modifies Footprint()
      ensures Valid() && (View(), Flag(removed)) == Apply(old(View()), Op.RemoveAgent(agent))
      ensures wsSenders == if removed then old(wsSenders) - {agent} else old(wsSenders)
    {
      match backend {
        case Memory(memory) => removed := memory.RemoveAgent(agent);
        case Sqlite(sqlite) => removed := sqlite.RemoveAgent(agent);
      }
      if removed {
        wsSenders := wsSenders - {agent};
      }
      contents := Apply(contents, Op.RemoveAgent(agent)).0;
    }

    method IsAgentAllowed(agent: AgentPubKey) returns (allowed: bool)
      requires Valid()
      ensures allowed == (agent in View().allowed)
    {
      match backend
      case Memory(memory) => allowed := memory.IsAgentAllowed(agent);
      case Sqlite(sqlite) => allowed := sqlite.IsAgentAllowed(agent);
    }

    // A database error is logged and reads as a refusal.
    method CreateSession(agent: AgentPubKey, token: Token) returns (created: Option<Token>)
      requires Valid()
      modifies Footprint()
      ensures Valid() && wsSenders == old(wsSenders)
      ensures if backend.Sqlite? && TokenClash(old(View()), Op.CreateSession(agent, token))
              then created.None? && View() == old(View())
              else (View(), Created(created)) == Apply(old(View()), Op.CreateSession(agent, token))
    {
      match backend {
        case Memory(memory) => created := memory.CreateSession(agent, token);
        case Sqlite(sqlite) =>
          var result := sqlite.CreateSession(agent, token);
          created := if result.Ok? then result.value else None;
      }
      if !(backend.Sqlite? && TokenClash(contents, Op.CreateSession(agent, token))) {
        contents := Apply(contents, Op.CreateSession(agent, token)).0;
      }
    }

    method ValidateSession(token: Token) returns (session: Option<SessionInfo>)
      requires Valid()
      ensures session == if token in View().sessions then Some(View().sessions[token]) else None
    {
      match backend
      case Memory(memory) => session := memory.ValidateSession(token);
      case Sqlite(sqlite) => session := sqlite.ValidateSession(token);
    }

    method RevokeSession(token: Token) returns (existed: bool)
      requires Valid()
      modifies Footprint()
      ensures Valid() && (View(), Flag(existed)) == Apply(old(View()), Op.RevokeSession(token))
      ensures wsSenders == old(wsSenders)
    {
      match backend {
        case Memory(memory) => existed := memory.RevokeSession(token);
        case Sqlite(sqlite) => existed := sqlite.RevokeSession(token);
      }
      contents := Apply(contents, Op.RevokeSession(token)).0;
    }

    method RegisterDnaForAgent(agent: AgentPubKey, dna: DnaHash)
      requires Valid()
      modifies Footprint()
      ensures Valid() && View() == Apply(old(View()), Op.RegisterDna(agent, dna)).0 && wsSenders == old(wsSenders)
    {
      match backend {
        case Memory(memory) => memory.RegisterDnaForAgent(agent, dna);
        case Sqlite(sqlite) => sqlite.RegisterDnaForAgent(agent, dna);
      }
      contents := Apply(contents, Op.RegisterDna(agent, dna)).0;
    }

    method RevokeSessionsForAgent(agent: AgentPubKey) returns (revoked: nat)
      requires Valid()
      modifies Footprint()
      ensures Valid() && (View(), Count(revoked)) == Apply(old(View()), Op.RevokeSessionsForAgent(agent))
      ensures wsSenders == old(wsSenders)
    {
      match backend {
        case Memory(memory) => revoked := memory.RevokeSessionsForAgent(agent);
        case Sqlite(sqlite) => revoked := sqlite.RevokeSessionsForAgent(agent);
      }
      contents := Apply(contents, Op.RevokeSessionsForAgent(agent)).0;
    }

    method RegisterWsSender(agent: AgentPubKey, sender: ConnId)
      requires Valid()
      modifies this`wsSenders
      ensures Valid() && wsSenders == AttachSender(old(wsSenders), agent, sender)
    {
      var senders := if agent in wsSenders then wsSenders[agent] else [];
      wsSenders := wsSenders[agent := senders + [sender]];
    }

    method UnregisterWsSender(agent: AgentPubKey, sender: ConnId)
      requires Valid()
      modifies this`wsSenders
      ensures Valid() && wsSenders == DetachSender(old(wsSenders), agent, sender)
    {
      if agent in wsSenders {
        var kept := Filter(wsSenders[agent], s => s != sender);
        wsSenders := if kept == [] then wsSenders - {agent} else wsSenders[agent := kept];
      }
    }
  }
}
