// Delivering a batch of remote signals: to a browser registered with this
// linker over its WebSocket, to anyone else through kitsune2.

module RemoteSignals {
  import opened Wrappers
  import opened Types
  import opened Protocol
  import opened Registries
  import AgentProxy

  datatype Delivery =
    | ToBrowser(conn: ConnId, payload: Payload)
    | ToPeer(url: Url, target: AgentPubKey, payload: Payload)

  // The registrations are looked up once to choose the route and once more to
  // send. `others[i]` is what other tasks have made of them by the second look
  // of signal i; so signal i's first look finds what signal i - 1 left.
  type Registrations = map<Cell, ConnId>

  function LookedUp(initial: Registrations, others: seq<Registrations>, i: nat): Registrations
    requires i <= |others|
  {
    if i == 0 then initial else others[i - 1]
  }

  // Whether the space is open after n signals.
  predicate SpaceOpenAfter(initial: Registrations, others: seq<Registrations>, dna: DnaHash, had: bool,
                           signals: seq<Signal>, n: nat)
    requires n <= |signals| == |others|
  {
    had || exists i :: 0 <= i < n && NeedsSpace(LookedUp(initial, others, i), dna, signals[i]) && signals[i].spaceOk
  }

  function Delivered(lookedUp: Registrations, atSend: Registrations, dna: DnaHash, hasSpace: bool, a: Signal)
    : Option<Delivery>
  {
    if a.target.None? then None
    else
      var cell := Cell(dna, a.target.value);
      if cell in lookedUp then
        if cell in atSend && a.room then Some(ToBrowser(atSend[cell], a.payload)) else None
      else if (hasSpace || a.spaceOk) && a.peerUrl.Some? && a.encodes && a.sendOk then
        Some(ToPeer(a.peerUrl.value, a.target.value, a.payload))
      else None
  }

  // The deliveries of the first n signals, in their order.
  function Deliveries(initial: Registrations, others: seq<Registrations>, dna: DnaHash, had: bool,
                      signals: seq<Signal>, n: nat)
    : (sent: seq<Delivery>)
    requires n <= |signals| == |others|
    ensures |sent| <= n
  {
    if n == 0 then []
    else
      var hasSpace := SpaceOpenAfter(initial, others, dna, had, signals, n - 1);
      var delivered := Delivered(LookedUp(initial, others, n - 1), others[n - 1], dna, hasSpace, signals[n - 1]);
      Deliveries(initial, others, dna, had, signals, n - 1) + if delivered.Some? then [delivered.value] else []
  }

  // Where a delivery may go: over the WebSocket to the connection that holds
  // the target's entry when it is sent, if there was one when it was looked
  // up; over kitsune2 if there was none.
  predicate GoesToItsTarget(lookedUp: Registrations, atSend: Registrations, dna: DnaHash, a: Signal, d: Delivery) {
    a.target.Some? && a.payload == d.payload &&
    var cell := Cell(dna, a.target.value);
    match d
    case ToBrowser(c, _) => cell in lookedUp && cell in atSend && atSend[cell] == c
    case ToPeer(url, target, _) => cell !in lookedUp && a.target.value == target && a.peerUrl == Some(url)
  }

  lemma {:induction false} DeliveriesGoToTheirTargets(initial: Registrations, others: seq<Registrations>, dna: DnaHash,
                                                      had: bool, signals: seq<Signal>, n: nat, d: Delivery)
    requires n <= |signals| == |others|
    requires d in Deliveries(initial, others, dna, had, signals, n)
    ensures exists i :: 0 <= i < n
                        && GoesToItsTarget(LookedUp(initial, others, i), others[i], dna, signals[i], d)
    decreases n
  {
    if d in Deliveries(initial, others, dna, had, signals, n - 1) {
      DeliveriesGoToTheirTargets(initial, others, dna, had, signals, n - 1, d);
    } else {
      assert GoesToItsTarget(LookedUp(initial, others, n - 1), others[n - 1], dna, signals[n - 1], d);
    }
  }

  // Whether signal i goes out at all.
  predicate Deliverable(initial: Registrations, others: seq<Registrations>, dna: DnaHash, had: bool,
                        signals: seq<Signal>, i: nat)
    requires i < |signals| == |others|
  {
    var signal := signals[i];
    signal.target.Some? &&
    var cell := Cell(dna, signal.target.value);
    if cell in LookedUp(initial, others, i) then cell in others[i] && signal.room
    else
      // The space was open, or this or an earlier signal opened it.
      && (had || signal.spaceOk
          || exists j :: 0 <= j < i && signals[j].target.Some? && signals[j].spaceOk
                         && Cell(dna, signals[j].target.value) !in LookedUp(initial, others, j))
      && signal.peerUrl.Some? && signal.encodes && signal.sendOk
  }

  // Each signal adds its own delivery, exactly when it can go out.
  lemma DeliveredIff(initial: Registrations, others: seq<Registrations>, dna: DnaHash, had: bool,
                     signals: seq<Signal>, i: nat)
    requires i < |signals| == |others|
    ensures var before := Deliveries(initial, others, dna, had, signals, i);
            var after := Deliveries(initial, others, dna, had, signals, i + 1);
            if Deliverable(initial, others, dna, had, signals, i)
            then exists d :: after == before + [d]
                             && GoesToItsTarget(LookedUp(initial, others, i), others[i], dna, signals[i], d)
            else after == before
  {
    var hasSpace := SpaceOpenAfter(initial, others, dna, had, signals, i);
    var (lookedUp, atSend) := (LookedUp(initial, others, i), others[i]);
    assert forall j :: 0 <= j < i ==>
        (NeedsSpace(LookedUp(initial, others, j), dna, signals[j])
         <==> signals[j].target.Some? && Cell(dna, signals[j].target.value) !in LookedUp(initial, others, j));
    var delivered := Delivered(lookedUp, atSend, dna, hasSpace, signals[i]);
    if delivered.Some? {
      assert GoesToItsTarget(lookedUp, atSend, dna, signals[i], delivered.value);
    }
  }

  method SendRemoteSignals(proxy: AgentProxy.AgentProxyManager, kitsune: GatewayKitsune, dna: DnaHash,
                           signals: seq<Signal>, others: seq<Registrations>)
    returns (successCount: nat, failCount: nat, sent: seq<Delivery>)
    requires |others| == |signals|
    modifies kitsune, proxy`registrations
    ensures sent == Deliveries(old(proxy.registrations), others, dna, dna in old(kitsune.spaces), signals, |signals|)
    ensures successCount == |sent| && successCount + failCount == |signals|
    ensures proxy.registrations == LookedUp(old(proxy.registrations), others, |others|)
    ensures kitsune.agents == old(kitsune.agents)
    ensures var had := dna in old(kitsune.spaces);
            kitsune.spaces
            == old(kitsune.spaces)
               + if SpaceOpenAfter(old(proxy.registrations), others, dna, had, signals, |signals|) then {dna} else {}
  {
    successCount, failCount, sent := 0, 0, [];
    ghost var (initial, had) := (proxy.registrations, dna in kitsune.spaces);
    for i := 0 to |signals|
      invariant sent == Deliveries(initial, others, dna, had, signals, i)
      invariant successCount == |sent| && successCount + failCount == i
      invariant proxy.registrations == LookedUp(initial, others, i)
      invariant kitsune.agents == old(kitsune.agents)
      invariant kitsune.spaces == old(kitsune.spaces)
                  + if SpaceOpenAfter(initial, others, dna, had, signals, i) then {dna} else {}
    {
      var delivery := SendRemoteSignal(proxy, kitsune, dna, signals[i], others[i]);
      if delivery.Some? {
        sent := sent + [delivery.value];
        successCount := successCount + 1;
      } else {
        failCount := failCount + 1;
      }
    }
  }

  // The body of the loop: one signal.
  method SendRemoteSignal(proxy: AgentProxy.AgentProxyManager, kitsune: GatewayKitsune, dna: DnaHash, signal: Signal,
                          meanwhile: Registrations)
    returns (delivery: Option<Delivery>)
    modifies kitsune, proxy`registrations
    ensures delivery == Delivered(old(proxy.registrations), meanwhile, dna, dna in old(kitsune.spaces), signal)
    ensures proxy.registrations == meanwhile
    ensures kitsune.agents == old(kitsune.agents)
    ensures kitsune.spaces
            == if NeedsSpace(old(proxy.registrations), dna, signal) && signal.spaceOk then old(kitsune.spaces) + {dna}
               else old(kitsune.spaces)
  {
    if signal.target.None? {
      proxy.registrations := meanwhile;
      return None;
    }
    var cell := Cell(dna, signal.target.value);
    var registered := proxy.IsRegistered(cell);
    proxy.registrations := meanwhile;
    if registered {
      var receiver := proxy.SendSignal(cell, signal.room);
      return if receiver.Some? then Some(ToBrowser(receiver.value, signal.payload)) else None;
    }
    var ok := kitsune.GetOrCreateSpace(dna, signal.spaceOk);
    assert dna in old(kitsune.spaces) ==> old(kitsune.spaces) + {dna} == old(kitsune.spaces);
    if !ok || signal.peerUrl.None? || !signal.encodes || !signal.sendOk {
      return None;
    }
    return Some(ToPeer(signal.peerUrl.value, signal.target.value, signal.payload));
  }

  // ---- Undisturbed ----

  function Undisturbed(registrations: Registrations, n: nat): (others: seq<Registrations>)
    ensures |others| == n && forall i :: 0 <= i < n ==> others[i] == registrations
  {
    seq(n, _ => registrations)
  }

  // Whether a batch leaves the space open when nobody touches the registrations.
  predicate SpaceOpen(registrations: Registrations, dna: DnaHash, had: bool, signals: seq<Signal>) {
    had || exists a :: a in signals && NeedsSpace(registrations, dna, a) && a.spaceOk
  }

  lemma UndisturbedSpace(registrations: Registrations, others: seq<Registrations>, dna: DnaHash, had: bool,
                         signals: seq<Signal>)
    requires |others| == |signals| && forall i :: 0 <= i < |others| ==> others[i] == registrations
    ensures SpaceOpenAfter(registrations, others, dna, had, signals, |signals|)
            <==> SpaceOpen(registrations, dna, had, signals)
    ensures LookedUp(registrations, others, |others|) == registrations
  {
    assert forall i: nat :: i <= |others| ==> LookedUp(registrations, others, i) == registrations;
    if i :| 0 <= i < |signals| && NeedsSpace(registrations, dna, signals[i]) && signals[i].spaceOk {
      assert signals[i] in signals;
    }
    if a :| a in signals && NeedsSpace(registrations, dna, a) && a.spaceOk {
      var i :| 0 <= i < |signals| && signals[i] == a;
      assert NeedsSpace(LookedUp(registrations, others, i), dna, signals[i]);
    }
  }
}
