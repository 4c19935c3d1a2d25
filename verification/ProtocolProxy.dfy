// Who a cell's signals go to: the proxy map is what the history of
// registrations, unregistrations and closed connections says.

module ProtocolProxy {
  import opened Types
  import opened Protocol

  datatype Act = Enter(cell: Cell, conn: ConnId) | Remove(cell: Cell) | RemoveAll(conn: ConnId) | Nothing

  // What an event does to the proxy map.
  function ActOf(s: System, e: Event): Act {
    if e.Advance? && Enabled(s, e) then
      match s.conns[e.conn].phase
      case Proxying(cell) => Enter(cell, e.conn)
      case Unproxying(cell) => Remove(cell)
      case UnproxyingAll => RemoveAll(e.conn)
      case _ => Nothing
    else Nothing
  }

  function Acts(cfg: Config, events: seq<Event>): (acts: seq<Act>)
    ensures |acts| == |events|
  {
    if events == [] then []
    else
      var before := events[..|events| - 1];
      Acts(cfg, before) + [ActOf(Run(cfg, before), events[|events| - 1])]
  }

  // Entry k registered the cell on c; since then nobody has registered or
  // unregistered the cell, and c has not closed.
  predicate HeldSince(acts: seq<Act>, cell: Cell, c: ConnId, k: int) {
    && 0 <= k < |acts| && acts[k] == Enter(cell, c)
    && forall j :: k < j < |acts| ==> !EndsHold(acts[j], cell, c)
  }

  predicate EndsHold(act: Act, cell: Cell, c: ConnId) {
    (act.Enter? && act.cell == cell) || act == Remove(cell) || act == RemoveAll(c)
  }

  function Applied(proxy: map<Cell, ConnId>, act: Act): map<Cell, ConnId> {
    match act
    case Enter(cell, c) => proxy[cell := c]
    case Remove(cell) => proxy - {cell}
    case RemoveAll(c) => WithoutSender(proxy, c)
    case Nothing => proxy
  }

  lemma StepApplies(cfg: Config, s: System, e: Event)
    ensures Step(cfg, s, e).shared.proxy == Applied(s.shared.proxy, ActOf(s, e))
  {
  }

  predicate Holds(proxy: map<Cell, ConnId>, cell: Cell, c: ConnId) {
    cell in proxy && proxy[cell] == c
  }

  lemma HoldsAfter(proxy: map<Cell, ConnId>, act: Act, cell: Cell, c: ConnId)
    ensures Holds(Applied(proxy, act), cell, c)
            <==> act == Enter(cell, c) || (Holds(proxy, cell, c) && !EndsHold(act, cell, c))
  {
  }

  // In every run a cell's entry names a connection exactly when that connection
  // was the last to register it, and neither has anyone unregistered the cell
  // nor has the connection closed since.
  lemma {:induction false} ProxyFollowsHistory(cfg: Config, events: seq<Event>, cell: Cell, c: ConnId)
    ensures Holds(Run(cfg, events).shared.proxy, cell, c)
            <==> exists k :: HeldSince(Acts(cfg, events), cell, c, k)
  {
    if events != [] {
      var last := |events| - 1;
      var before := events[..last];
      var act := ActOf(Run(cfg, before), events[last]);
      ProxyFollowsHistory(cfg, before, cell, c);
      StepApplies(cfg, Run(cfg, before), events[last]);
      HoldsAfter(Run(cfg, before).shared.proxy, act, cell, c);
      HeldSnoc(Acts(cfg, before), act, cell, c);
      assert Acts(cfg, events) == Acts(cfg, before) + [act];
    }
  }

  lemma HeldSnoc(past: seq<Act>, act: Act, cell: Cell, c: ConnId)
    ensures (exists k :: HeldSince(past + [act], cell, c, k))
            <==> act == Enter(cell, c) || ((exists k :: HeldSince(past, cell, c, k)) && !EndsHold(act, cell, c))
  {
    var acts := past + [act];
    if act == Enter(cell, c) {
      assert HeldSince(acts, cell, c, |past|);
    }
    if k :| HeldSince(past, cell, c, k) {
      assert !EndsHold(act, cell, c) ==> HeldSince(acts, cell, c, k);
    }
    if k :| HeldSince(acts, cell, c, k) {
      if k < |past| {
        assert acts[|past|] == act;
        assert forall j :: 0 <= j < |past| ==> past[j] == acts[j];
        assert HeldSince(past, cell, c, k);
      }
    }
  }
}
