// Who holds the entries of the two shared registries, in every reachable state
// of every interleaving.

module ProtocolOwnership {
  import opened Types
  import opened Protocol

  // The socket is open, or its cleanup has not yet dropped its proxy entries.
  predicate HoldsProxyEntries(p: Phase) {
    match p
    case Leaving(_, closing) => !closing
    case CleanupChecking(_, _, closing) => !closing
    case CleanupRemoving(_, _, closing) => !closing
    case Detaching | Closed => false
    case _ => true
  }

  // Between the local retain and the registry removal of an Unregister, the
  // entry is still there although the list no longer shows it: the in-flight cell.
  predicate Owns(cn: Conn, cell: Cell) {
    HoldsProxyEntries(cn.phase) && (cell in cn.state.registrations || cn.phase == Unproxying(cell))
  }

  // Who will still call agent_leave for a joined agent.
  predicate Answers(cn: Conn, cell: Cell) {
    || (HoldsProxyEntries(cn.phase) && cell in cn.state.registrations)
    || cn.phase == Unproxying(cell)
    || (cn.phase.Leaving? && cell in cn.phase.todo)
    || (cn.phase.CleanupChecking? && cell in cn.phase.todo)
    || (cn.phase.CleanupRemoving? && cell in cn.phase.todo)
  }

  ghost predicate ConnOk(cfg: Config, cn: Conn) {
    && NoDuplicates(cn.state.registrations)
    && (match cn.phase
        case Proxying(cell) => cell in cn.state.registrations
        case Scoping(cell) => cell in cn.state.registrations
        case JoinChecking(cell) => cfg.kitsuneEnabled && cell in cn.state.registrations
        case SpaceLookup(cell) => cfg.kitsuneEnabled && cell in cn.state.registrations
        case SpaceCreating(cell) => cfg.kitsuneEnabled && cell in cn.state.registrations
        case Joining(cell) => cfg.kitsuneEnabled && cell in cn.state.registrations
        case _ => true)
  }

  ghost predicate ProxyOwned(s: System) {
    forall k :: k in s.shared.proxy ==> s.shared.proxy[k] in s.conns && Owns(s.conns[s.shared.proxy[k]], k)
  }

  ghost predicate Answered(s: System, cell: Cell) {
    exists c :: c in s.conns && Answers(s.conns[c], cell)
  }

  ghost predicate Ownership(cfg: Config, s: System) {
    && (forall c :: c in s.conns ==> ConnOk(cfg, s.conns[c]))
    && ProxyOwned(s)
    && (forall k :: k in s.shared.joined ==> Answered(s, k))
    && (!cfg.kitsuneEnabled ==> s.shared.joined == {})
  }

  // What one task's step must do, seen from that task alone.
  ghost predicate LocalStep(cfg: Config, c: ConnId, cn: Conn, sh: Shared, o: Outcome) {
    && ConnOk(cfg, o.conn)
    && (forall k :: k in o.shared.proxy ==>
          if o.shared.proxy[k] == c then Owns(o.conn, k)
          else k in sh.proxy && sh.proxy[k] == o.shared.proxy[k])
    && (forall k :: k in o.shared.joined ==>
          Answers(o.conn, k) || (k in sh.joined && !Answers(cn, k)))
    && (!cfg.kitsuneEnabled ==> o.shared.joined == {})
  }

  // A task that respects its own obligations keeps the invariant for everybody.
  lemma LandKeepsOwnership(cfg: Config, s: System, c: ConnId, o: Outcome)
    requires Ownership(cfg, s) && c in s.conns && LocalStep(cfg, c, s.conns[c], s.shared, o)
    ensures Ownership(cfg, Land(s, c, o))
  {
    var s' := Land(s, c, o);
    forall k | k in s'.shared.joined ensures Answered(s', k) {
      if Answers(o.conn, k) {
        assert Answers(s'.conns[c], k);
      } else {
        var c0 :| c0 in s.conns && Answers(s.conns[c0], k);
        assert Answers(s'.conns[c0], k);
      }
    }
  }

  // The entries of c that the invariant grants before c's step.
  ghost predicate Granted(cfg: Config, c: ConnId, cn: Conn, sh: Shared) {
    && ConnOk(cfg, cn)
    && (forall k :: k in sh.proxy && sh.proxy[k] == c ==> Owns(cn, k))
    && (!cfg.kitsuneEnabled ==> sh.joined == {})
  }

  lemma StartIsLocal(cfg: Config, c: ConnId, cn: Conn, sh: Shared, msg: ClientMessage, nonce: Nonce)
    requires Granted(cfg, c, cn, sh) && cn.phase == Idle
    ensures LocalStep(cfg, c, cn, sh, Start(cfg, c, cn, sh, msg, nonce))
  {
    match msg
    case Register(_, _) => ListingIsLocal(cfg, c, cn, sh, msg, nonce);
    case Unregister(_, _) => ListingIsLocal(cfg, c, cn, sh, msg, nonce);
    case _ => RegistriesUntouched(cfg, c, cn, sh, Start(cfg, c, cn, sh, msg, nonce));
  }

  lemma ListingIsLocal(cfg: Config, c: ConnId, cn: Conn, sh: Shared, msg: ClientMessage, nonce: Nonce)
    requires Granted(cfg, c, cn, sh) && cn.phase == Idle && (msg.Register? || msg.Unregister?)
    ensures LocalStep(cfg, c, cn, sh, Start(cfg, c, cn, sh, msg, nonce))
  {
    if msg.Unregister? && msg.dnaHash.Some? && msg.agentPubkey.Some? {
      FilterKeepsNoDuplicates(cn.state.registrations, r => r != Cell(msg.dnaHash.value, msg.agentPubkey.value));
    }
  }

  lemma ContinueIsLocal(cfg: Config, c: ConnId, cn: Conn, sh: Shared, ok: bool, token: Token)
    requires Granted(cfg, c, cn, sh)
    ensures LocalStep(cfg, c, cn, sh, Continue(cfg, c, cn, sh, ok, token))
  {
    var p := cn.phase;
    if p.Proxying? || p.Scoping? {
      ProxyingIsLocal(cfg, c, cn, sh, ok, token);
    } else if IsJoining(p) {
      JoiningIsLocal(cfg, c, cn, sh, ok, token);
    } else if p.Unproxying? || p.UnproxyingAll? {
      UnproxyingIsLocal(cfg, c, cn, sh, ok, token);
    } else if p.Leaving? || p.CleanupChecking? || p.CleanupRemoving? {
      LeavingIsLocal(cfg, c, cn, sh, ok, token);
    } else {
      RegistriesUntouched(cfg, c, cn, sh, Continue(cfg, c, cn, sh, ok, token));
    }
  }

  lemma ProxyingIsLocal(cfg: Config, c: ConnId, cn: Conn, sh: Shared, ok: bool, token: Token)
    requires Granted(cfg, c, cn, sh) && (cn.phase.Proxying? || cn.phase.Scoping?)
    ensures LocalStep(cfg, c, cn, sh, Continue(cfg, c, cn, sh, ok, token))
  {
  }

  predicate IsJoining(p: Phase) {
    p.JoinChecking? || p.SpaceLookup? || p.SpaceCreating? || p.Joining?
  }

  lemma JoiningIsLocal(cfg: Config, c: ConnId, cn: Conn, sh: Shared, ok: bool, token: Token)
    requires Granted(cfg, c, cn, sh) && IsJoining(cn.phase)
    ensures LocalStep(cfg, c, cn, sh, Continue(cfg, c, cn, sh, ok, token))
  {
  }

  lemma UnproxyingIsLocal(cfg: Config, c: ConnId, cn: Conn, sh: Shared, ok: bool, token: Token)
    requires Granted(cfg, c, cn, sh) && (cn.phase.Unproxying? || cn.phase.UnproxyingAll?)
    ensures LocalStep(cfg, c, cn, sh, Continue(cfg, c, cn, sh, ok, token))
  {
  }

  lemma LeavingIsLocal(cfg: Config, c: ConnId, cn: Conn, sh: Shared, ok: bool, token: Token)
    requires Granted(cfg, c, cn, sh) && (cn.phase.Leaving? || cn.phase.CleanupChecking? || cn.phase.CleanupRemoving?)
    ensures LocalStep(cfg, c, cn, sh, Continue(cfg, c, cn, sh, ok, token))
  {
  }

  // A step outside join and leave that keeps the list and the standing of its connection.
  lemma RegistriesUntouched(cfg: Config, c: ConnId, cn: Conn, sh: Shared, o: Outcome)
    requires Granted(cfg, c, cn, sh)
    requires o.shared.proxy == sh.proxy && o.shared.joined == sh.joined
    requires o.conn.state.registrations == cn.state.registrations
    requires !cn.phase.Unproxying? && !cn.phase.Leaving? && !cn.phase.CleanupChecking? && !cn.phase.CleanupRemoving?
    requires HoldsProxyEntries(o.conn.phase) == HoldsProxyEntries(cn.phase)
    requires ConnOk(cfg, o.conn)
    ensures LocalStep(cfg, c, cn, sh, o)
  {
  }

  lemma AdvanceKeepsOwnership(cfg: Config, s: System, c: ConnId, ok: bool, token: Token)
    requires Ownership(cfg, s) && c in s.conns
    ensures Ownership(cfg, Land(s, c, Continue(cfg, c, s.conns[c], s.shared, ok, token)))
  {
    ContinueIsLocal(cfg, c, s.conns[c], s.shared, ok, token);
    LandKeepsOwnership(cfg, s, c, Continue(cfg, c, s.conns[c], s.shared, ok, token));
  }

  lemma ReceiveKeepsOwnership(cfg: Config, s: System, c: ConnId, msg: ClientMessage, nonce: Nonce)
    requires Ownership(cfg, s) && c in s.conns && s.conns[c].phase == Idle
    ensures Ownership(cfg, Land(s, c, Start(cfg, c, s.conns[c], s.shared, msg, nonce)))
  {
    StartIsLocal(cfg, c, s.conns[c], s.shared, msg, nonce);
    LandKeepsOwnership(cfg, s, c, Start(cfg, c, s.conns[c], s.shared, msg, nonce));
  }

  lemma StepKeepsOwnership(cfg: Config, s: System, e: Event)
    requires Ownership(cfg, s)
    ensures Ownership(cfg, Step(cfg, s, e))
  {
    if Enabled(s, e) {
      match e
      case Open(c) => OpenKeepsOwnership(cfg, s, c);
      case Receive(c, msg, nonce) => ReceiveKeepsOwnership(cfg, s, c, msg, nonce);
      case Advance(c, ok, token) => AdvanceKeepsOwnership(cfg, s, c, ok, token);
      case Hangup(c) => LandKeepsOwnership(cfg, s, c, Goto(s.conns[c], UnproxyingAll, s.shared));
      case _ =>
        OtherEventsTouchNoRegistry(cfg, s, e);
        SameRegistries(cfg, s, Step(cfg, s, e));
    }
  }

  lemma OtherEventsTouchNoRegistry(cfg: Config, s: System, e: Event)
    requires Enabled(s, e) && (IsAdmin(e) || e.SpaceOpened?)
    ensures var s' := Fire(cfg, s, e);
            s'.conns == s.conns && s'.shared.proxy == s.shared.proxy && s'.shared.joined == s.shared.joined
  {
  }

  lemma OpenKeepsOwnership(cfg: Config, s: System, c: ConnId)
    requires Ownership(cfg, s) && c !in s.conns
    ensures Ownership(cfg, Fire(cfg, s, Open(c)))
  {
    var s' := Fire(cfg, s, Open(c));
    forall k | k in s'.shared.joined ensures Answered(s', k) {
      var c0 :| c0 in s.conns && Answers(s.conns[c0], k);
      assert Answers(s'.conns[c0], k);
    }
  }

  lemma SameRegistries(cfg: Config, s: System, s': System)
    requires Ownership(cfg, s) && s'.conns == s.conns
    requires s'.shared.proxy == s.shared.proxy && s'.shared.joined == s.shared.joined
    ensures Ownership(cfg, s')
  {
    forall k | k in s'.shared.joined ensures Answered(s', k) {
      assert Answered(s, k);
    }
  }

  // Safety, over every run: a proxy entry leads to an open connection that
  // lists the cell or is just unregistering it, no connection lists a cell
  // twice, and each joined agent has a connection that will still leave it.
  lemma {:induction false} OwnershipHolds(cfg: Config, events: seq<Event>)
    ensures Ownership(cfg, Run(cfg, events))
  {
    if events != [] {
      OwnershipHolds(cfg, events[..|events| - 1]);
      StepKeepsOwnership(cfg, Run(cfg, events[..|events| - 1]), events[|events| - 1]);
    }
  }

  // Between handlers: every task is waiting for a message or gone.
  ghost predicate Quiet(s: System) {
    forall c :: c in s.conns ==> s.conns[c].phase == Idle || s.conns[c].phase == Closed
  }

  ghost predicate ListedByOpen(s: System, c: ConnId, cell: Cell) {
    c in s.conns && s.conns[c].phase == Idle && cell in s.conns[c].state.registrations
  }

  lemma QuietOwnersList(cfg: Config, s: System)
    requires Ownership(cfg, s) && Quiet(s)
    ensures forall k :: k in s.shared.proxy ==> ListedByOpen(s, s.shared.proxy[k], k)
    ensures forall k :: k in s.shared.joined ==> exists c :: ListedByOpen(s, c, k)
  {
    forall k | k in s.shared.joined ensures exists c :: ListedByOpen(s, c, k) {
      var c :| c in s.conns && Answers(s.conns[c], k);
      assert ListedByOpen(s, c, k);
    }
  }

  // Between handlers the in-flight cells vanish: every entry of either registry
  // is listed by an open connection, its own one for a proxy entry.
  lemma QuietRegistriesAreListed(cfg: Config, events: seq<Event>)
    requires Quiet(Run(cfg, events))
    ensures var s := Run(cfg, events);
            && (forall k :: k in s.shared.proxy ==> ListedByOpen(s, s.shared.proxy[k], k))
            && (forall k :: k in s.shared.joined ==> exists c :: ListedByOpen(s, c, k))
  {
    OwnershipHolds(cfg, events);
    QuietOwnersList(cfg, Run(cfg, events));
  }

  ghost predicate AllClosed(s: System) {
    forall c :: c in s.conns ==> s.conns[c].phase == Closed
  }

  // Once every connection has closed, nothing is left behind in either registry.
  lemma AllClosedMeansEmpty(cfg: Config, events: seq<Event>)
    requires AllClosed(Run(cfg, events))
    ensures Run(cfg, events).shared.proxy == map[] && Run(cfg, events).shared.joined == {}
  {
    var s := Run(cfg, events);
    OwnershipHolds(cfg, events);
    QuietOwnersList(cfg, s);
    assert forall c, k :: !ListedByOpen(s, c, k);
  }

  // However many other connections listed the same cells, a closed connection
  // receives no more signals: no proxy entry leads to it.
  lemma ClosedConnectionsReceiveNothing(cfg: Config, events: seq<Event>, c: ConnId)
    requires var s := Run(cfg, events); c in s.conns && !HoldsProxyEntries(s.conns[c].phase)
    ensures c !in Run(cfg, events).shared.proxy.Values
  {
    OwnershipHolds(cfg, events);
  }
}
