// Matching DHT responses to the requests waiting for them. Requests, incoming
// responses, failed sends, timeouts and cleanup timers interleave freely.

module PendingResponses {
  import opened Wrappers

  type MsgId = nat
  type Payload = nat

  datatype WireMessage = WireMessage(msgId: Option<MsgId>, payload: Payload)

  // ---- Interleaved requests ----

  // One request task. `slot` is what its oneshot channel holds.
  datatype Request = Request(waiting: bool, slot: Option<WireMessage>)

  // `timers` holds the ids whose spawned cleanup task has not yet run, `held`
  // the messages whose responder has been taken out of the map and not yet
  // used; `sent` is history: messages accepted by a oneshot, by the id of the request.
  datatype State = State(
    pending: set<MsgId>, held: map<MsgId, WireMessage>, timers: set<MsgId>, requests: map<MsgId, Request>,
    sent: seq<(MsgId, WireMessage)>)

  const INITIAL := State({}, map[], {}, map[], [])

  datatype Event =
    | Register(msgId: MsgId)              // message ids are never reused
    | Route(msg: WireMessage)             // any message, from any peer, any number of times: takes the responder
    | HandOver(msgId: MsgId)              // and sends the message on it
    | StopWaiting(msgId: MsgId)           // failed send, elapsed timeout, or the answer was read
    | TimerFires(msgId: MsgId)

  function TakeOut(s: State, msg: WireMessage): State {
    if !Routed(s, msg) then s
    else s.(pending := s.pending - {msg.msgId.value}, held := s.held[msg.msgId.value := msg])
  }

  function SendHeld(s: State, id: MsgId): State {
    if id !in s.held then s
    else
      var (msg, s1) := (s.held[id], s.(held := s.held - {id}));
      if id in s.requests && s.requests[id].waiting
      then s1.(requests := s.requests[id := Request(true, Some(msg))], sent := s.sent + [(id, msg)])
      else s1   // the receiver was dropped
  }

  function Step(s: State, e: Event): State {
    match e
    case Register(id) =>
      if id in s.requests then s
      else s.(pending := s.pending + {id}, timers := s.timers + {id}, requests := s.requests[id := Request(true, None)])
    case Route(msg) => TakeOut(s, msg)
    case HandOver(id) => SendHeld(s, id)
    case StopWaiting(id) =>
      if id in s.requests then s.(requests := s.requests[id := s.requests[id].(waiting := false)]) else s
    case TimerFires(id) =>
      if id in s.timers then s.(pending := s.pending - {id}, timers := s.timers - {id}) else s
  }

  function Run(events: seq<Event>): State {
    if events == [] then INITIAL else Step(Run(events[..|events| - 1]), events[|events| - 1])
  }

  // What route_response returns.
  predicate Routed(s: State, msg: WireMessage) {
    msg.msgId.Some? && msg.msgId.value in s.pending
  }

  ghost predicate Invariant(s: State) {
    && s.pending <= s.timers <= s.requests.Keys
    && (forall id :: id in s.pending ==> s.requests[id].slot.None? && id !in s.held)
    && (forall id :: id in s.held ==>
          id in s.requests && s.requests[id].slot.None? && s.held[id].msgId == Some(id))
    && (forall i :: 0 <= i < |s.sent| ==>
          var (id, msg) := s.sent[i];
          id in s.requests && s.requests[id].slot == Some(msg) && msg.msgId == Some(id))
    && (forall i, j :: 0 <= i < j < |s.sent| ==> s.sent[i].0 != s.sent[j].0)
    && (forall id :: id in s.requests && s.requests[id].slot.Some? ==> (id, s.requests[id].slot.value) in s.sent)
  }

  lemma HandOverKeepsInvariant(s: State, id: MsgId)
    requires Invariant(s)
    ensures Invariant(SendHeld(s, id))
  {
    var s' := SendHeld(s, id);
    if s'.sent != s.sent {
      forall k | k in s'.requests && s'.requests[k].slot.Some?
        ensures (k, s'.requests[k].slot.value) in s'.sent
      {
        if k == id {
          assert s'.sent[|s.sent|] == (id, s.held[id]);
        }
      }
    }
  }

  lemma {:induction false} InvariantHolds(events: seq<Event>)
    ensures Invariant(Run(events))
  {
    if events != [] {
      var before, e := events[..|events| - 1], events[|events| - 1];
      InvariantHolds(before);
      if e.HandOver? {
        HandOverKeepsInvariant(Run(before), e.msgId);
      }
    }
  }

  // In every interleaving: no request receives two messages, what it receives
  // carries its own id, and what sits in its channel is exactly that message.
  lemma AtMostOneOwnMessage(events: seq<Event>, id: MsgId)
    ensures var s := Run(events);
            && (forall i, j :: 0 <= i < |s.sent| && 0 <= j < |s.sent| && s.sent[i].0 == s.sent[j].0 == id ==> i == j)
            && (forall i :: 0 <= i < |s.sent| && s.sent[i].0 == id ==>
                  s.sent[i].1.msgId == Some(id) && id in s.requests && s.requests[id].slot == Some(s.sent[i].1))
            && (id in s.requests && s.requests[id].slot.Some? ==> (id, s.requests[id].slot.value) in s.sent)
  {
    InvariantHolds(events);
  }

  // Every pending id still has its cleanup timer, so when the timers have all
  // fired nothing is pending.
  lemma TimersBoundPending(events: seq<Event>)
    ensures Run(events).pending <= Run(events).timers
    ensures Run(events).timers == {} ==> Run(events).pending == {}
  {
    InvariantHolds(events);
  }

  // ---- When a response is routed, in terms of the history alone ----

  predicate Registers(e: Event, id: MsgId) {
    e == Register(id)
  }

  predicate Ends(e: Event, id: MsgId) {
    e == TimerFires(id) || (e.Route? && e.msg.msgId == Some(id))
  }

  // Registered at some point, with neither a response nor the timer since.
  ghost predicate OpenSince(events: seq<Event>, id: MsgId, i: int) {
    && 0 <= i < |events| && Registers(events[i], id)
    && (forall j :: 0 <= j < i ==> !Registers(events[j], id))
    && (forall j :: i < j < |events| ==> !Ends(events[j], id))
  }

  // An id has a request exactly when it was registered.
  lemma {:induction false} RequestsAreRegistered(events: seq<Event>, id: MsgId)
    ensures id in Run(events).requests <==> exists i :: 0 <= i < |events| && Registers(events[i], id)
  {
    if events != [] {
      var last := |events| - 1;
      RequestsAreRegistered(events[..last], id);
      if i :| 0 <= i < last && Registers(events[..last][i], id) {
        assert Registers(events[i], id);
      }
      if i :| 0 <= i < |events| && Registers(events[i], id) {
        assert i < last ==> Registers(events[..last][i], id);
      }
    }
  }

  lemma OpenAfter(events: seq<Event>, id: MsgId, i: int)
    requires events != []
    ensures var (before, e) := (events[..|events| - 1], events[|events| - 1]);
            OpenSince(events, id, i)
            <==> if i == |before| then e == Register(id) && id !in Run(before).requests
                 else OpenSince(before, id, i) && !Ends(e, id)
  {
    var before := events[..|events| - 1];
    RequestsAreRegistered(before, id);
    assert forall j :: 0 <= j < |before| ==> events[j] == before[j];
  }

  lemma StepMovesPending(s: State, e: Event, id: MsgId)
    requires Invariant(s)
    ensures id in Step(s, e).pending
            <==> (e == Register(id) && id !in s.requests) || (id in s.pending && !Ends(e, id))
  {
  }

  lemma {:induction false} PendingIffOpen(events: seq<Event>, id: MsgId)
    ensures id in Run(events).pending <==> exists i :: OpenSince(events, id, i)
  {
    if events != [] {
      var last := |events| - 1;
      var before := events[..last];
      PendingIffOpen(before, id);
      InvariantHolds(before);
      StepMovesPending(Run(before), events[last], id);
      OpenAfter(events, id, last);
      forall i ensures i != last ==>
                         (OpenSince(events, id, i) <==> OpenSince(before, id, i) && !Ends(events[last], id))
      {
        OpenAfter(events, id, i);
      }
    }
  }

  // route_response returns true exactly when the id is registered and neither
  // an earlier response nor the timer has come in between.
  lemma RoutedIffOpen(events: seq<Event>, msg: WireMessage)
    ensures Routed(Run(events), msg) <==> msg.msgId.Some? && exists i :: OpenSince(events, msg.msgId.value, i)
  {
    if msg.msgId.Some? {
      PendingIffOpen(events, msg.msgId.value);
    }
  }

  // ---- When a request receives its answer, in terms of the history alone ----

  // Registered at some point, and still waiting.
  ghost predicate WaitingSince(events: seq<Event>, id: MsgId, r: int) {
    && 0 <= r < |events| && Registers(events[r], id)
    && (forall j :: 0 <= j < r ==> !Registers(events[j], id))
    && (forall j :: r < j < |events| ==> events[j] != StopWaiting(id))
  }

  // Event i took the responder out with this message, and nothing has used it since.
  ghost predicate TakenSince(events: seq<Event>, id: MsgId, msg: WireMessage, i: int) {
    && 0 <= i < |events| && events[i] == Route(msg) && msg.msgId == Some(id)
    && (exists r :: OpenSince(events[..i], id, r))
    && (forall j :: i < j < |events| ==> events[j] != HandOver(id))
  }

  // Event j put the message into the request's channel.
  ghost predicate ReceivedAt(events: seq<Event>, id: MsgId, msg: WireMessage, j: int) {
    && 0 <= j < |events| && events[j] == HandOver(id)
    && (exists i :: TakenSince(events[..j], id, msg, i))
    && (exists r :: WaitingSince(events[..j], id, r))
  }

  predicate Holds(s: State, id: MsgId, msg: WireMessage) {
    id in s.held && s.held[id] == msg
  }

  predicate Waits(s: State, id: MsgId) {
    id in s.requests && s.requests[id].waiting
  }

  predicate Received(s: State, id: MsgId, msg: WireMessage) {
    id in s.requests && s.requests[id].slot == Some(msg)
  }

  lemma {:induction false} WaitingIff(events: seq<Event>, id: MsgId)
    ensures Waits(Run(events), id) <==> exists r :: WaitingSince(events, id, r)
  {
    if events != [] {
      var last := |events| - 1;
      var before, e := events[..last], events[last];
      WaitingIff(before, id);
      RequestsAreRegistered(before, id);
      forall r | 0 <= r < last
        ensures WaitingSince(events, id, r) <==> WaitingSince(before, id, r) && e != StopWaiting(id)
      {
        assert forall j :: 0 <= j < last ==> events[j] == before[j];
      }
      assert WaitingSince(events, id, last)
          <==> e == Register(id) && forall j :: 0 <= j < last ==> !Registers(before[j], id);
    }
  }

  lemma {:induction false} HeldIff(events: seq<Event>, id: MsgId, msg: WireMessage)
    ensures Holds(Run(events), id, msg) <==> exists i :: TakenSince(events, id, msg, i)
  {
    if events != [] {
      var last := |events| - 1;
      var before, e := events[..last], events[last];
      HeldIff(before, id, msg);
      PendingIffOpen(before, id);
      InvariantHolds(before);
      forall i | 0 <= i < last
        ensures TakenSince(events, id, msg, i) <==> TakenSince(before, id, msg, i) && e != HandOver(id)
      {
        assert before[..i] == events[..i];
        assert forall j :: 0 <= j < last ==> events[j] == before[j];
      }
      assert TakenSince(events, id, msg, last)
          <==> e == Route(msg) && msg.msgId == Some(id) && id in Run(before).pending;
      StepMovesHeld(Run(before), e, id, msg);
    }
  }

  lemma StepMovesHeld(s: State, e: Event, id: MsgId, msg: WireMessage)
    requires Invariant(s)
    ensures Holds(Step(s, e), id, msg)
            <==> || (e == Route(msg) && msg.msgId == Some(id) && id in s.pending)
                 || (Holds(s, id, msg) && e != HandOver(id))
    ensures Received(Step(s, e), id, msg)
            <==> (e == HandOver(id) && Holds(s, id, msg) && Waits(s, id)) || Received(s, id, msg)
  {
  }

  lemma ReceivedLast(events: seq<Event>, id: MsgId, msg: WireMessage)
    requires events != []
    ensures var last := |events| - 1;
            var s := Run(events[..last]);
            ReceivedAt(events, id, msg, last) <==> events[last] == HandOver(id) && Holds(s, id, msg) && Waits(s, id)
  {
    HeldIff(events[..|events| - 1], id, msg);
    WaitingIff(events[..|events| - 1], id);
  }

  // A request receives a message exactly when it was routed while the id was
  // open and handed over while the request was still waiting.
  lemma {:induction false} ReceivedIff(events: seq<Event>, id: MsgId, msg: WireMessage)
    ensures Received(Run(events), id, msg) <==> exists j :: ReceivedAt(events, id, msg, j)
  {
    if events != [] {
      var last := |events| - 1;
      var before, e := events[..last], events[last];
      ReceivedIff(before, id, msg);
      InvariantHolds(before);
      forall j | 0 <= j < last ensures ReceivedAt(events, id, msg, j) <==> ReceivedAt(before, id, msg, j) {
        assert before[..j] == events[..j] && before[j] == events[j];
      }
      ReceivedLast(events, id, msg);
      StepMovesHeld(Run(before), e, id, msg);
    }
  }

  // ---- Routing different requests ----

  // The request an event of routing is about, if any.
  function About(e: Event): Option<MsgId>
    requires e.Route? || e.HandOver?
  {
    if e.Route? then e.msg.msgId else Some(e.msgId)
  }

  // What such an event adds to the history.
  function Accepted(s: State, e: Event): seq<(MsgId, WireMessage)> {
    if e.HandOver? && e.msgId in s.held && e.msgId in s.requests && s.requests[e.msgId].waiting
    then [(e.msgId, s.held[e.msgId])] else []
  }

  lemma OtherRoutesDoNotMatter(s: State, a: Event, b: Event)
    requires (a.Route? || a.HandOver?) && (b.Route? || b.HandOver?) && About(a) != About(b)
    ensures Accepted(Step(s, a), b) == Accepted(s, b)
    ensures b.Route? ==> Routed(Step(s, a), b.msg) == Routed(s, b.msg)
    ensures Step(Step(s, a), b).sent == s.sent + Accepted(s, a) + Accepted(s, b)
  {
  }

  // Taking out and sending responses to different requests commute, step by
  // step and so in any interleaving, up to their order in the history.
  lemma RoutesCommute(s: State, a: Event, b: Event)
    requires (a.Route? || a.HandOver?) && (b.Route? || b.HandOver?) && About(a) != About(b)
    ensures var (ab, ba) := (Step(Step(s, a), b), Step(Step(s, b), a));
            && ab.pending == ba.pending && ab.held == ba.held && ab.timers == ba.timers && ab.requests == ba.requests
            && multiset(ab.sent) == multiset(ba.sent)
    ensures a.Route? ==> Routed(Step(s, b), a.msg) == Routed(s, a.msg)
    ensures b.Route? ==> Routed(Step(s, a), b.msg) == Routed(s, b.msg)
  {
    OtherRoutesDoNotMatter(s, a, b);
    OtherRoutesDoNotMatter(s, b, a);
    RegistriesCommute(s, a, b);
  }

  // What the state says about one request.
  datatype Standing = Standing(pending: bool, held: Option<WireMessage>, request: Option<Request>)

  function At(s: State, id: MsgId): Standing {
    Standing(id in s.pending, if id in s.held then Some(s.held[id]) else None,
             if id in s.requests then Some(s.requests[id]) else None)
  }

  function Moved(v: Standing, e: Event): Standing
    requires e.Route? || e.HandOver?
  {
    if e.Route? then if v.pending then v.(pending := false, held := Some(e.msg)) else v
    else if v.held.None? then v
    else if v.request.Some? && v.request.value.waiting then v.(held := None, request := Some(Request(true, v.held)))
    else v.(held := None)
  }

  // Routing is about one request and depends on nothing else.
  lemma StepAt(s: State, e: Event, id: MsgId)
    requires e.Route? || e.HandOver?
    ensures At(Step(s, e), id) == if About(e) == Some(id) then Moved(At(s, id), e) else At(s, id)
    ensures Step(s, e).timers == s.timers
  {
  }

  lemma SameEverywhere(s: State, t: State)
    requires forall id :: At(s, id) == At(t, id)
    ensures s.pending == t.pending && s.held == t.held && s.requests == t.requests
  {
    forall id
      ensures id in s.pending <==> id in t.pending
      ensures id in s.held <==> id in t.held
      ensures id in s.held ==> s.held[id] == t.held[id]
      ensures id in s.requests <==> id in t.requests
      ensures id in s.requests ==> s.requests[id] == t.requests[id]
    {
      assert At(s, id) == At(t, id);
    }
  }

  lemma RegistriesCommute(s: State, a: Event, b: Event)
    requires (a.Route? || a.HandOver?) && (b.Route? || b.HandOver?) && About(a) != About(b)
    ensures var (ab, ba) := (Step(Step(s, a), b), Step(Step(s, b), a));
            ab.pending == ba.pending && ab.held == ba.held && ab.timers == ba.timers && ab.requests == ba.requests
  {
    var (sa, sb) := (Step(s, a), Step(s, b));
    forall id ensures At(Step(sa, b), id) == At(Step(sb, a), id) {
      StepAt(s, a, id);
      StepAt(s, b, id);
      StepAt(sa, b, id);
      StepAt(sb, a, id);
    }
    SameEverywhere(Step(sa, b), Step(sb, a));
    StepAt(s, a, 0);
    StepAt(s, b, 0);
    StepAt(sa, b, 0);
    StepAt(sb, a, 0);
  }

  // ---- The object ----

  lemma RunExtends(events: seq<Event>, e: Event)
    ensures Run(events + [e]) == Step(Run(events), e)
  {
    assert (events + [e])[..|events + [e]| - 1] == events;
  }

  // Requests register under their message id; the responder stands for that
  // request. `history` is ghost: the map's keys are the pending ids of its run,
  // so what is proved of every run holds here.
  class PendingDhtResponses<Responder> {
    var inner: map<MsgId, Responder>
    ghost var history: seq<Event>

    ghost predicate Valid()
      reads this
    {
      inner.Keys == Run(history).pending
    }

    constructor ()
      ensures Valid() && inner == map[] && history == []
    {
      inner, history := map[], [];
    }

    method Register(msgId: MsgId, responder: Responder)
      requires Valid() && msgId !in Run(history).requests
      modifies this
      ensures Valid() && history == old(history) + [Event.Register(msgId)]
      ensures inner == old(inner)[msgId := responder]
    {
      inner := inner[msgId := responder];
      RunExtends(history, Event.Register(msgId));
      history := history + [Event.Register(msgId)];
    }

    // What a cleanup timer does when it fires, once for each request.
    method Remove(msgId: MsgId)
      requires Valid() && msgId in Run(history).timers
      modifies this
      ensures Valid() && history == old(history) + [TimerFires(msgId)]
      ensures inner == old(inner) - {msgId}
    {
      inner := inner - {msgId};
      RunExtends(history, TimerFires(msgId));
      history := history + [TimerFires(msgId)];
    }

    // The responder the message was sent on, taken out of the map; a message
    // without an id is never routed. One is found exactly when the id was
    // registered and neither a response nor its timer has come since.
    method RouteResponse(msg: WireMessage) returns (responder: Option<Responder>)
      requires Valid()
      modifies this
      ensures Valid()
      ensures responder.Some? <==> msg.msgId.Some? && exists i :: OpenSince(old(history), msg.msgId.value, i)
      ensures responder.Some? ==> msg.msgId.value in old(inner) && responder.value == old(inner)[msg.msgId.value]
      ensures history == old(history) + [Route(msg)] + if responder.Some? then [HandOver(msg.msgId.value)] else []
      ensures inner == if msg.msgId.None? then old(inner) else old(inner) - {msg.msgId.value}
    {
      RoutedIffOpen(history, msg);
      RunExtends(history, Route(msg));
      history := history + [Route(msg)];
      if msg.msgId.None? {
        return None;
      }
      var id := msg.msgId.value;
      responder := if id in inner then Some(inner[id]) else None;
      inner := inner - {id};
      if responder.Some? {
        RunExtends(history, HandOver(id));
        history := history + [HandOver(id)];
      }
    }
  }
}
