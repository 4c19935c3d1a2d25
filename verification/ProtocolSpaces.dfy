// Does every joined agent's DNA have a space? Not in every interleaving: the
// cleanup of an empty space and a join to it can overlap. This module says
// exactly which steps break it and which runs keep it.

module ProtocolSpaces {
  import opened Wrappers
  import opened Types
  import opened Protocol

  ghost predicate JoinedHaveSpaces(sh: Shared) {
    forall k :: k in sh.joined ==> k.dna in sh.spaces
  }

  // The two steps that act on a check made earlier: inserting an agent whose
  // space was looked up before, removing a space that was empty before.
  predicate ActsOnStaleCheck(s: System, e: Event) {
    && e.Advance? && Enabled(s, e)
    && (match s.conns[e.conn].phase
        case Joining(cell) => e.kitsuneOk && cell.dna !in s.shared.spaces
        case CleanupRemoving(dna, _, _) => HasAgents(s.shared.joined, dna)
        case _ => false)
  }

  lemma StepKeepsSpacesIff(cfg: Config, s: System, e: Event)
    requires JoinedHaveSpaces(s.shared)
    ensures JoinedHaveSpaces(Step(cfg, s, e).shared) <==> !ActsOnStaleCheck(s, e)
  {
    if e.Advance? && Enabled(s, e) {
      ContinueKeepsSpacesIff(cfg, e.conn, s.conns[e.conn], s.shared, e.kitsuneOk, e.token);
    }
  }

  lemma ContinueKeepsSpacesIff(cfg: Config, c: ConnId, cn: Conn, sh: Shared, ok: bool, token: Token)
    requires JoinedHaveSpaces(sh)
    ensures JoinedHaveSpaces(Continue(cfg, c, cn, sh, ok, token).shared)
            <==> match cn.phase
                 case Joining(cell) => !ok || cell.dna in sh.spaces
                 case CleanupRemoving(dna, _, _) => !HasAgents(sh.joined, dna)
                 case _ => true
  {
    var sh' := Continue(cfg, c, cn, sh, ok, token).shared;
    match cn.phase
    case Joining(cell) => assert ok ==> cell in sh'.joined;
    case CleanupRemoving(dna, _, _) => assert sh'.joined == sh.joined && sh'.spaces == sh.spaces - {dna};
    case _ => assert sh'.joined <= sh.joined && sh.spaces <= sh'.spaces;
  }

  // One task is about to insert an agent while another is about to remove that agent's space.
  ghost predicate Overlap(s: System) {
    exists c, d :: c in s.conns && d in s.conns && Collide(s.conns[c].phase, s.conns[d].phase)
  }

  predicate Collide(p: Phase, q: Phase) {
    p.Joining? && q.CleanupRemoving? && p.cell.dna == q.dna
  }

  // What the task's last check found is still so.
  predicate CheckHolds(sh: Shared, p: Phase) {
    match p
    case Joining(cell) => cell.dna in sh.spaces
    case CleanupRemoving(dna, _, _) => !HasAgents(sh.joined, dna)
    case _ => true
  }

  ghost predicate ChecksStillHold(s: System) {
    forall c :: c in s.conns ==> CheckHolds(s.shared, s.conns[c].phase)
  }

  lemma OwnCheckHolds(cfg: Config, c: ConnId, cn: Conn, sh: Shared, ok: bool, token: Token)
    ensures var o := Continue(cfg, c, cn, sh, ok, token);
            CheckHolds(o.shared, o.conn.phase)
  {
  }

  lemma OtherCheckHolds(cfg: Config, c: ConnId, cn: Conn, sh: Shared, ok: bool, token: Token, other: Phase)
    requires CheckHolds(sh, other) && !Collide(cn.phase, other) && !Collide(other, cn.phase)
    ensures CheckHolds(Continue(cfg, c, cn, sh, ok, token).shared, other)
  {
  }

  lemma AdvanceKeepsChecks(cfg: Config, s: System, c: ConnId, ok: bool, token: Token)
    requires ChecksStillHold(s) && !Overlap(s) && c in s.conns
    ensures ChecksStillHold(Land(s, c, Continue(cfg, c, s.conns[c], s.shared, ok, token)))
  {
    OwnCheckHolds(cfg, c, s.conns[c], s.shared, ok, token);
    forall d | d in s.conns && d != c
      ensures CheckHolds(Continue(cfg, c, s.conns[c], s.shared, ok, token).shared, s.conns[d].phase)
    {
      assert !Collide(s.conns[c].phase, s.conns[d].phase) && !Collide(s.conns[d].phase, s.conns[c].phase);
      OtherCheckHolds(cfg, c, s.conns[c], s.shared, ok, token, s.conns[d].phase);
    }
  }

  lemma StepKeepsChecks(cfg: Config, s: System, e: Event)
    requires JoinedHaveSpaces(s.shared) && ChecksStillHold(s) && !Overlap(s)
    ensures JoinedHaveSpaces(Step(cfg, s, e).shared) && ChecksStillHold(Step(cfg, s, e))
  {
    StepKeepsSpacesIff(cfg, s, e);
    if Enabled(s, e) {
      match e
      case Advance(c, ok, token) => AdvanceKeepsChecks(cfg, s, c, ok, token);
      case Receive(c, msg, nonce) => assert Step(cfg, s, e).shared == s.shared;
      case _ =>
    }
  }

  // Overlap is exactly the danger: with the invariant and all checks intact,
  // some two further steps break it if and only if such a pair has arisen.
  lemma OverlapIffTwoStepsFromFailure(cfg: Config, s: System)
    requires JoinedHaveSpaces(s.shared) && ChecksStillHold(s)
    ensures Overlap(s) <==> exists e1, e2 :: !JoinedHaveSpaces(Step(cfg, Step(cfg, s, e1), e2).shared)
  {
    if Overlap(s) {
      var c, d :| c in s.conns && d in s.conns && Collide(s.conns[c].phase, s.conns[d].phase);
      OverlapBreaks(cfg, s, c, d);
    } else {
      forall e1, e2 ensures JoinedHaveSpaces(Step(cfg, Step(cfg, s, e1), e2).shared) {
        StepKeepsChecks(cfg, s, e1);
        StepKeepsSpacesIff(cfg, Step(cfg, s, e1), e2);
      }
    }
  }

  // From any state with such a pair: the joiner goes first, then the remover.
  lemma OverlapBreaks(cfg: Config, s: System, c: ConnId, d: ConnId)
    requires c in s.conns && d in s.conns && Collide(s.conns[c].phase, s.conns[d].phase)
    ensures !JoinedHaveSpaces(Step(cfg, Step(cfg, s, Tick(c)), Tick(d)).shared)
  {
    var cell := s.conns[c].phase.cell;
    var s1 := Step(cfg, s, Tick(c));
    var s2 := Step(cfg, s1, Tick(d));
    assert cell in s1.shared.joined && s1.conns[d] == s.conns[d];
    assert cell in s2.shared.joined && cell.dna !in s2.shared.spaces;
  }

  // As long as such a pair never arises, every joined agent's DNA has a space throughout.
  lemma {:induction false} NoOverlapKeepsSpaces(cfg: Config, events: seq<Event>)
    requires forall n :: 0 <= n <= |events| ==> !Overlap(Run(cfg, events[..n]))
    ensures JoinedHaveSpaces(Run(cfg, events).shared) && ChecksStillHold(Run(cfg, events))
  {
    if events != [] {
      var last := |events| - 1;
      var before := events[..last];
      forall n | 0 <= n <= |before| ensures !Overlap(Run(cfg, before[..n])) {
        assert before[..n] == events[..n];
      }
      NoOverlapKeepsSpaces(cfg, before);
      StepKeepsChecks(cfg, Run(cfg, before), events[last]);
    }
  }

  // Over a whole run: every joined agent's DNA has a space at every moment,
  // exactly when no step acts on an outdated check.
  lemma SpacesThroughoutIff(cfg: Config, events: seq<Event>)
    ensures (forall n :: 0 <= n <= |events| ==> JoinedHaveSpaces(Run(cfg, events[..n]).shared))
            <==> forall n :: 0 <= n < |events| ==> !ActsOnStaleCheck(Run(cfg, events[..n]), events[n])
  {
    forall n | 0 <= n < |events|
      ensures Run(cfg, events[..n + 1]) == Step(cfg, Run(cfg, events[..n]), events[n])
    {
      assert events[..n + 1][..n] == events[..n];
    }
    if forall n :: 0 <= n <= |events| ==> JoinedHaveSpaces(Run(cfg, events[..n]).shared) {
      forall n | 0 <= n < |events| ensures !ActsOnStaleCheck(Run(cfg, events[..n]), events[n]) {
        assert JoinedHaveSpaces(Run(cfg, events[..n + 1]).shared);
        StepKeepsSpacesIff(cfg, Run(cfg, events[..n]), events[n]);
      }
    }
    if forall n :: 0 <= n < |events| ==> !ActsOnStaleCheck(Run(cfg, events[..n]), events[n]) {
      for n := 0 to |events|
        invariant forall m :: 0 <= m <= n ==> JoinedHaveSpaces(Run(cfg, events[..m]).shared)
      {
        StepKeepsSpacesIff(cfg, Run(cfg, events[..n]), events[n]);
      }
    }
  }

  predicate InsideKitsune(p: Phase) {
    p.JoinChecking? || p.SpaceLookup? || p.SpaceCreating? || p.Joining?
    || p.Leaving? || p.CleanupChecking? || p.CleanupRemoving?
  }

  // One kitsune operation at a time, as under a lock around agent_join and agent_leave.
  ghost predicate OneAtATime(s: System) {
    forall c, d :: c in s.conns && d in s.conns && InsideKitsune(s.conns[c].phase) && InsideKitsune(s.conns[d].phase)
                   ==> c == d
  }

  // Such a lock would restore the invariant.
  lemma SerializedOperationsKeepSpaces(cfg: Config, events: seq<Event>)
    requires forall n :: 0 <= n <= |events| ==> OneAtATime(Run(cfg, events[..n]))
    ensures JoinedHaveSpaces(Run(cfg, events).shared)
  {
    forall n | 0 <= n <= |events| ensures !Overlap(Run(cfg, events[..n])) {
      assert OneAtATime(Run(cfg, events[..n]));
    }
    NoOverlapKeepsSpaces(cfg, events);
  }

  // ---- The race, step by step: two browsers on one DNA, no authentication ----

  function Tick(c: ConnId): Event {
    Advance(c, true, "")
  }

  function Browser(p: Phase, listed: seq<Cell>, agent: AgentPubKey): Conn {
    Conn(p, ConnectionState(true, listed, None, None, Some(agent)))
  }

  function Placed(s: System, c: ConnId, cn: Conn, sh: Shared): System {
    s.(conns := s.conns[c := cn], shared := sh)
  }

  // n successful steps of one task that log nothing lead from (cn, sh) to (cn', sh').
  predicate Ticks(cfg: Config, c: ConnId, cn: Conn, sh: Shared, n: nat, cn': Conn, sh': Shared)
    decreases n
  {
    if n == 0 then cn == cn' && sh == sh'
    else
      var o := Continue(cfg, c, cn, sh, true, "");
      o.logged == [] && Ticks(cfg, c, o.conn, o.shared, n - 1, cn', sh')
  }

  lemma {:induction false} TicksReach(cfg: Config, s: System, c: ConnId, n: nat, cn': Conn, sh': Shared)
    requires Reachable(cfg, s) && s.log == [] && c in s.conns
    requires Ticks(cfg, c, s.conns[c], s.shared, n, cn', sh')
    ensures Reachable(cfg, Placed(s, c, cn', sh'))
    decreases n
  {
    if n == 0 {
      assert s.conns[c := cn'] == s.conns;
    } else {
      var s1 := ReachableStep(cfg, s, Tick(c));
      TicksReach(cfg, s1, c, n - 1, cn', sh');
      assert s1.conns[c := cn'] == s.conns[c := cn'];
    }
  }

  lemma Connect(cfg: Config, s: System, c: ConnId, agent: AgentPubKey)
    requires Reachable(cfg, s) && !cfg.authEnabled && s.log == [] && c !in s.conns
    ensures Reachable(cfg, Placed(s, c, Browser(Idle, [], agent), s.shared))
  {
    var s1 := ReachableStep(cfg, s, Open(c));
    assert s1 == Placed(s, c, Conn(Idle, FRESH_CONNECTION), s.shared);
    AuthWithoutHandshake(cfg, s1, c, agent);
    assert s1.conns[c := Browser(Idle, [], agent)] == s.conns[c := Browser(Idle, [], agent)];
  }

  lemma AuthWithoutHandshake(cfg: Config, s: System, c: ConnId, agent: AgentPubKey)
    requires Reachable(cfg, s) && !cfg.authEnabled && s.log == []
    requires c in s.conns && s.conns[c] == Conn(Idle, FRESH_CONNECTION)
    ensures Reachable(cfg, Placed(s, c, Browser(Idle, [], agent), s.shared))
  {
    var s1 := ReachableStep(cfg, s, Receive(c, Auth(Some(agent)), Nonce(0)));
    assert s.log + [] == s.log;
  }

  lemma ListCell(cfg: Config, s: System, c: ConnId, cell: Cell)
    requires Reachable(cfg, s) && !cfg.authEnabled && s.log == []
    requires c in s.conns && s.conns[c] == Browser(Idle, [], cell.agent)
    ensures Reachable(cfg, Placed(s, c, Browser(Proxying(cell), [cell], cell.agent), s.shared))
  {
    var s1 := ReachableStep(cfg, s, Receive(c, Register(Some(cell.dna), Some(cell.agent)), Nonce(0)));
    assert [] + [cell] == [cell];
    assert s.log + [] == s.log;
  }

  // Registering a cell whose space is open, up to the insertion of the agent.
  lemma RegisterTicks(cfg: Config, c: ConnId, cell: Cell, sh: Shared)
    requires !cfg.authEnabled && cfg.kitsuneEnabled && cell !in sh.joined && cell.dna in sh.spaces
    ensures Ticks(cfg, c, Browser(Proxying(cell), [cell], cell.agent), sh, 3,
                  Browser(Joining(cell), [cell], cell.agent), sh.(proxy := sh.proxy[cell := c]))
  {
    var sh1 := sh.(proxy := sh.proxy[cell := c]);
    var joining := Browser(Joining(cell), [cell], cell.agent);
    assert Ticks(cfg, c, joining, sh1, 0, joining, sh1);
    assert Ticks(cfg, c, Browser(SpaceLookup(cell), [cell], cell.agent), sh1, 1, joining, sh1);
    assert Ticks(cfg, c, Browser(JoinChecking(cell), [cell], cell.agent), sh1, 2, joining, sh1);
  }

  // The end of a closing connection with one joined cell, up to the removal of its empty space.
  lemma CloseTicks(cfg: Config, c: ConnId, cell: Cell, sh: Shared)
    requires cfg.kitsuneEnabled && sh.joined == {cell}
    ensures Ticks(cfg, c, Browser(UnproxyingAll, [cell], cell.agent), sh, 3,
                  Browser(CleanupRemoving(cell.dna, [], true), [cell], cell.agent),
                  sh.(proxy := WithoutSender(sh.proxy, c), joined := {}))
  {
    var sh1 := sh.(proxy := WithoutSender(sh.proxy, c));
    var sh2 := sh1.(joined := {});
    var removing := Browser(CleanupRemoving(cell.dna, [], true), [cell], cell.agent);
    assert [cell][1..] == [] && sh.joined - {cell} == {};
    assert Ticks(cfg, c, removing, sh2, 0, removing, sh2);
    assert Ticks(cfg, c, Browser(CleanupChecking(cell.dna, [], true), [cell], cell.agent), sh2, 1, removing, sh2);
    assert Ticks(cfg, c, Browser(Leaving([cell], true), [cell], cell.agent), sh1, 2, removing, sh2);
  }

  // The first connection joins, hangs up and finds its space empty; the second,
  // which looked the space up in the meantime, is about to join through it.
  lemma OverlapIsReachable(cfg: Config, dna: DnaHash, a: AgentPubKey, b: AgentPubKey) returns (s: System)
    requires !cfg.authEnabled && cfg.kitsuneEnabled
    ensures Reachable(cfg, s) && 1 in s.conns && 2 in s.conns
    ensures s.conns[1].phase == CleanupRemoving(dna, [], true) && s.conns[2].phase == Joining(Cell(dna, b))
  {
    var (k, l) := (Cell(dna, a), Cell(dna, b));
    s := BothConnected(cfg, dna, a, b);
    var sh := s.shared;
    ListCell(cfg, s, 1, k);
    s := Placed(s, 1, Browser(Proxying(k), [k], a), sh);
    RegisterTicks(cfg, 1, k, sh);
    var sh1 := sh.(proxy := sh.proxy[k := 1]);
    TicksReach(cfg, s, 1, 3, Browser(Joining(k), [k], a), sh1);
    s := Placed(s, 1, Browser(Joining(k), [k], a), sh1);
    s := FinishFirst(cfg, s, k);
    ListCell(cfg, s, 2, l);
    var sh3 := s.shared;
    s := Placed(s, 2, Browser(Proxying(l), [l], b), sh3);
    RegisterTicks(cfg, 2, l, sh3);
    TicksReach(cfg, s, 2, 3, Browser(Joining(l), [l], b), sh3.(proxy := sh3.proxy[l := 2]));
    s := Placed(s, 2, Browser(Joining(l), [l], b), sh3.(proxy := sh3.proxy[l := 2]));
  }

  lemma BothConnected(cfg: Config, dna: DnaHash, a: AgentPubKey, b: AgentPubKey) returns (s: System)
    requires !cfg.authEnabled && cfg.kitsuneEnabled
    ensures Reachable(cfg, s) && s.log == [] && 1 in s.conns && 2 in s.conns
    ensures s.conns[1] == Browser(Idle, [], a) && s.conns[2] == Browser(Idle, [], b)
    ensures s.shared == EMPTY_SHARED.(spaces := {dna})
  {
    StartIsReachable(cfg);
    s := ReachableStep(cfg, START, SpaceOpened(dna));
    assert s == START.(shared := EMPTY_SHARED.(spaces := {dna}));
    Connect(cfg, s, 1, a);
    s := Placed(s, 1, Browser(Idle, [], a), s.shared);
    Connect(cfg, s, 2, b);
    s := Placed(s, 2, Browser(Idle, [], b), s.shared);
  }

  // From about to join, through joined and hung up, to about to remove the space.
  lemma FinishFirst(cfg: Config, s: System, k: Cell) returns (s': System)
    requires Reachable(cfg, s) && cfg.kitsuneEnabled && s.log == [] && s.shared.joined == {}
    requires 1 in s.conns && s.conns[1] == Browser(Joining(k), [k], k.agent)
    ensures Reachable(cfg, s') && s'.log == [] && s'.shared.joined == {} && s'.shared.spaces == s.shared.spaces
    ensures s'.conns == s.conns[1 := Browser(CleanupRemoving(k.dna, [], true), [k], k.agent)]
  {
    s' := ReachableStep(cfg, s, Tick(1));
    assert s'.conns[1] == Browser(Idle, [k], k.agent) && s'.shared.joined == {k};
    s' := ReachableStep(cfg, s', Hangup(1));
    assert s'.conns[1] == Browser(UnproxyingAll, [k], k.agent) && s'.shared.joined == {k};
    CloseTicks(cfg, 1, k, s'.shared);
    var sh2 := s'.shared.(proxy := WithoutSender(s'.shared.proxy, 1), joined := {});
    TicksReach(cfg, s', 1, 3, Browser(CleanupRemoving(k.dna, [], true), [k], k.agent), sh2);
    s' := Placed(s', 1, Browser(CleanupRemoving(k.dna, [], true), [k], k.agent), sh2);
  }

  // The second joins through the space the first is about to remove.
  lemma RaceLeavesAgentWithoutSpace(cfg: Config, dna: DnaHash, a: AgentPubKey, b: AgentPubKey)
    requires !cfg.authEnabled && cfg.kitsuneEnabled
    ensures exists s :: Reachable(cfg, s) && Cell(dna, b) in s.shared.joined && dna !in s.shared.spaces
  {
    var s := OverlapIsReachable(cfg, dna, a, b);
    var s1 := ReachableStep(cfg, s, Tick(2));
    assert Cell(dna, b) in s1.shared.joined && s1.conns[1] == s.conns[1];
    var s2 := ReachableStep(cfg, s1, Tick(1));
    assert Cell(dna, b) in s2.shared.joined && dna !in s2.shared.spaces;
  }
}
