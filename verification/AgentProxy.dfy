// AgentProxyManager: the signal registry, and remote signing through browsers.
// Sign requests from many tasks share one counter and one map of pending
// requests; the second half of this file follows any interleaving of them.

module SignRequestId {
  function Digit(d: nat): char
    requires d < 10
  {
    ['0', '1', '2', '3', '4', '5', '6', '7', '8', '9'][d]
  }

  function Decimal(n: nat): (s: string)
    ensures |s| > 0 && '-' !in s
  {
    if n < 10 then [Digit(n)] else Decimal(n / 10) + [Digit(n % 10)]
  }

  // The text of a sign request's id: counter, then milliseconds since the epoch.
  function RequestId(counter: nat, millis: nat): string {
    "sign-" + Decimal(counter) + "-" + Decimal(millis)
  }

  lemma {:induction false} DecimalInjective(a: nat, b: nat)
    requires Decimal(a) == Decimal(b)
    ensures a == b
  {
    var s, t := Decimal(a), Decimal(b);
    assert s[|s| - 1] == Digit(a % 10) && t[|t| - 1] == Digit(b % 10);
    assert a >= 10 <==> |s| > 1;
    assert b >= 10 <==> |t| > 1;
    if a >= 10 {
      assert s[..|s| - 1] == Decimal(a / 10) && t[..|t| - 1] == Decimal(b / 10);
      DecimalInjective(a / 10, b / 10);
    }
  }

  // Two texts without a dash, each followed by a dash, split at the same place.
  lemma {:induction false} SplitAtDash(a: string, x: string, b: string, y: string)
    requires '-' !in a && '-' !in b && a + "-" + x == b + "-" + y
    ensures a == b && x == y
  {
    var whole := a + "-" + x;
    assert whole[|a|] == '-' && whole[|b|] == '-';
    assert forall i :: 0 <= i < |a| ==> whole[i] == a[i] != '-';
    assert forall i :: 0 <= i < |b| ==> whole[i] == b[i] != '-';
    assert a == whole[..|a|] && b == whole[..|b|];
    assert x == whole[|a| + 1..] && y == whole[|b| + 1..];
  }

  // Whatever the clock reads, ids drawn with different counter values differ.
  lemma RequestIdsAreDistinct(i: nat, t: nat, j: nat, u: nat)
    requires RequestId(i, t) == RequestId(j, u)
    ensures i == j && t == u
  {
    var a, b := Decimal(i) + "-" + Decimal(t), Decimal(j) + "-" + Decimal(u);
    assert RequestId(i, t) == "sign-" + a && RequestId(j, u) == "sign-" + b;
    assert a == RequestId(i, t)[5..] && b == RequestId(j, u)[5..];
    SplitAtDash(Decimal(i), Decimal(t), Decimal(j), Decimal(u));
    DecimalInjective(i, j);
    DecimalInjective(t, u);
  }
}

module AgentProxy {
  import opened Wrappers
  import opened Types
  import opened SignRequestId
  import Protocol

  type SignResult = Result<seq<nat>, string>

  type CallId = nat

  // The counter is a u64 that wraps around.
  const COUNTER_RANGE := 0x1_0000_0000_0000_0000

  // ---- Interleaved calls of request_agent_info_signature ----

  datatype Outcome = Answered(result: SignResult) | Cancelled | TimedOut | NotSerialized | NotSent

  datatype Phase =
    | Serializing                // pending entry inserted, agent info not yet serialized
    | Sending
    | Awaiting
    | CleaningUp(outcome: Outcome)
    | Finished(outcome: Outcome)

  // `slot` is what the call's oneshot channel holds; `serial` counts calls from
  // zero and, like `millis`, only records where the id came from.
  datatype Call = Call(id: string, serial: nat, millis: nat, phase: Phase, slot: Option<SignResult>)

  // An entry some delivery has taken out of the map and not yet sent on its oneshot.
  datatype Handover = Handover(call: CallId, result: SignResult)

  datatype Delivery = Delivery(call: CallId, id: string, result: SignResult)

  // `begun`, `deliveries` and `taken` are history: calls so far, messages accepted
  // by a oneshot, and ids whose pending entry some delivery has taken.
  datatype State = State(
    counter: nat, pending: map<string, CallId>, held: map<string, Handover>, calls: map<CallId, Call>,
    begun: nat, deliveries: seq<Delivery>, taken: set<string>)

  const INITIAL := State(0, map[], map[], map[], 0, [], {})

  datatype Event =
    | Begin(call: CallId, millis: nat)
    | Serialized(call: CallId, ok: bool)
    | Sent(call: CallId, ok: bool)
    | Deliver(id: string, result: SignResult)   // any browser, any id, any time: takes the entry
    | HandOver(id: string)                      // and sends what it took
    | Wake(call: CallId)
    | TimeOut(call: CallId)
    | CleanUp(call: CallId)

  predicate InPhase(s: State, call: CallId, phase: Phase) {
    call in s.calls && s.calls[call].phase == phase
  }

  function Move(s: State, call: CallId, phase: Phase): State
    requires call in s.calls
  {
    s.(calls := s.calls[call := s.calls[call].(phase := phase)])
  }

  // The oneshot's receiver lives until the call stops waiting.
  predicate Listening(p: Phase) {
    p.Serializing? || p.Sending? || p.Awaiting?
  }

  function Step(s: State, e: Event): State {
    match e
    case Begin(call, millis) =>
      if call in s.calls then s
      else
        var id := RequestId(s.counter, millis);
        s.(counter := (s.counter + 1) % COUNTER_RANGE, pending := s.pending[id := call],
           calls := s.calls[call := Call(id, s.begun, millis, Serializing, None)], begun := s.begun + 1)
    case Serialized(call, ok) =>
      // The early return on failure leaves the pending entry behind.
      if InPhase(s, call, Serializing) then Move(s, call, if ok then Sending else Finished(NotSerialized)) else s
    case Sent(call, ok) =>
      if InPhase(s, call, Sending) then
        if ok then Move(s, call, Awaiting)
        else Move(s, call, Finished(NotSent)).(pending := s.pending - {s.calls[call].id})
      else s
    case Deliver(id, result) =>
      if id !in s.pending then s
      else
        s.(pending := s.pending - {id}, taken := s.taken + {id},
           held := s.held[id := Handover(s.pending[id], result)])
    case HandOver(id) =>
      if id !in s.held then s
      else
        var (call, result) := (s.held[id].call, s.held[id].result);
        var s1 := s.(held := s.held - {id});
        if call in s.calls && Listening(s.calls[call].phase) then
          s1.(calls := s.calls[call := s.calls[call].(slot := Some(result))],
                 deliveries := s.deliveries + [Delivery(call, id, result)])
        else s1   // the receiver was dropped
    case Wake(call) =>
      if InPhase(s, call, Awaiting) then
        if s.calls[call].slot.Some? then Move(s, call, CleaningUp(Answered(s.calls[call].slot.value)))
        else if s.calls[call].id !in s.pending && s.calls[call].id !in s.held then
          Move(s, call, CleaningUp(Cancelled))  // its sender was dropped
        else s
      else s
    case TimeOut(call) =>
      if InPhase(s, call, Awaiting) && s.calls[call].slot.None? then Move(s, call, CleaningUp(TimedOut)) else s
    case CleanUp(call) =>
      if call in s.calls && s.calls[call].phase.CleaningUp? then
        Move(s, call, Finished(s.calls[call].phase.outcome)).(pending := s.pending - {s.calls[call].id})
      else s
  }

  function Run(events: seq<Event>): State {
    if events == [] then INITIAL else Step(Run(events[..|events| - 1]), events[|events| - 1])
  }

  // Which phases still hold the call's pending entry, unless a delivery took it.
  predicate HoldsEntry(p: Phase) {
    p.Finished? ==> p.outcome == NotSerialized
  }

  // ---- Where ids come from ----

  predicate Named(c: Call) {
    c.serial < COUNTER_RANGE && c.id == RequestId(c.serial, c.millis)
  }

  ghost predicate Naming(s: State) {
    && s.counter == s.begun % COUNTER_RANGE
    && (forall c :: c in s.calls ==> Named(s.calls[c]) && s.calls[c].serial < s.begun)
  }

  // While fewer than 2^64 requests have been made, a new id is new to everyone.
  lemma BeginDrawsFreshId(s: State, millis: nat)
    requires Naming(s) && s.begun < COUNTER_RANGE
    ensures forall c :: c in s.calls ==> s.calls[c].id != RequestId(s.counter, millis)
  {
    forall c | c in s.calls ensures s.calls[c].id != RequestId(s.counter, millis) {
      if s.calls[c].id == RequestId(s.counter, millis) {
        RequestIdsAreDistinct(s.calls[c].serial, s.calls[c].millis, s.counter, millis);
      }
    }
  }

  lemma BeginKeepsNaming(s: State, call: CallId, millis: nat)
    requires Naming(s) && s.begun < COUNTER_RANGE && call !in s.calls
    ensures Naming(Step(s, Begin(call, millis)))
  {
    assert s.begun % COUNTER_RANGE == s.begun;
  }

  // No other step touches the counter or where an id came from.
  lemma OtherStepsKeepNaming(s: State, e: Event)
    requires Naming(s) && (e.Begin? ==> e.call in s.calls)
    ensures Naming(Step(s, e)) && Step(s, e).begun == s.begun
  {
    if e.Deliver? {
      DeliverKeepsNames(s, e.id, e.result);
    } else if e.HandOver? {
      HandOverKeepsNames(s, e.id);
    } else if e.call in s.calls {
      OwnStepKeepsNames(s, e);
    }
  }

  predicate SameName(a: Call, b: Call) {
    a.id == b.id && a.serial == b.serial && a.millis == b.millis
  }

  lemma DeliverKeepsNames(s: State, id: string, result: SignResult)
    ensures var s' := Step(s, Deliver(id, result));
            && s'.counter == s.counter && s'.begun == s.begun && s'.calls.Keys == s.calls.Keys
            && forall c :: c in s.calls ==> SameName(s.calls[c], s'.calls[c])
  {
  }

  lemma HandOverKeepsNames(s: State, id: string)
    ensures var s' := Step(s, HandOver(id));
            && s'.counter == s.counter && s'.begun == s.begun && s'.calls.Keys == s.calls.Keys
            && forall c :: c in s.calls ==> SameName(s.calls[c], s'.calls[c])
  {
  }

  // The steps a call makes for itself.
  predicate IsOwnStep(e: Event) {
    !e.Begin? && !e.Deliver? && !e.HandOver?
  }

  lemma OwnStepKeepsNames(s: State, e: Event)
    requires !e.Deliver? && !e.HandOver? && e.call in s.calls
    ensures var s' := Step(s, e);
            && s'.counter == s.counter && s'.begun == s.begun && s'.calls.Keys == s.calls.Keys
            && SameName(s.calls[e.call], s'.calls[e.call])
            && forall c :: c in s.calls && c != e.call ==> s'.calls[c] == s.calls[c]
  {
  }

  // ---- Pending entries, oneshots and deliveries ----

  ghost predicate CallOk(s: State, call: CallId) {
    call in s.calls &&
    var c := s.calls[call];
    && (c.id in s.pending <==> HoldsEntry(c.phase) && c.id !in s.taken)
    && (Listening(c.phase) ==> (c.slot.Some? <==> c.id in s.taken && c.id !in s.held))
    && (c.phase.CleaningUp? || c.phase.Finished? ==>
          && c.phase.outcome != Cancelled && (c.phase.CleaningUp? ==> c.phase.outcome != NotSerialized)
          && (c.phase.outcome.Answered? ==> c.slot == Some(c.phase.outcome.result)))
  }

  ghost predicate DeliveriesOk(s: State) {
    && (forall i :: 0 <= i < |s.deliveries| ==>
          var d := s.deliveries[i];
          d.call in s.calls && s.calls[d.call].id == d.id && s.calls[d.call].slot == Some(d.result) && d.id in s.taken)
    && (forall i, j :: 0 <= i < j < |s.deliveries| ==> s.deliveries[i].call != s.deliveries[j].call)
  }

  predicate HasId(s: State, id: string) {
    exists c :: c in s.calls && s.calls[c].id == id
  }

  ghost predicate CallsOk(s: State) {
    forall c :: c in s.calls ==> CallOk(s, c)
  }

  ghost predicate IdsDistinct(s: State) {
    forall c, d :: c in s.calls && d in s.calls && s.calls[c].id == s.calls[d].id ==> c == d
  }

  ghost predicate EntriesOk(s: State) {
    forall id :: id in s.pending ==> s.pending[id] in s.calls && s.calls[s.pending[id]].id == id
  }

  ghost predicate TakenOk(s: State) {
    forall id :: id in s.taken ==> HasId(s, id)
  }

  ghost predicate HeldOk(s: State) {
    forall id :: id in s.held ==> id in s.taken && s.held[id].call in s.calls && s.calls[s.held[id].call].id == id
  }

  ghost predicate Matching(s: State) {
    CallsOk(s) && IdsDistinct(s) && EntriesOk(s) && TakenOk(s) && HeldOk(s) && DeliveriesOk(s)
  }

  // The step keeps every call's id, and at most adds one id of theirs to `taken`.
  ghost predicate SameIds(s: State, s': State) {
    && s'.calls.Keys == s.calls.Keys
    && (forall c :: c in s.calls ==> s'.calls[c].id == s.calls[c].id)
  }

  lemma SameIdsKeeps(s: State, s': State)
    requires SameIds(s, s') && IdsDistinct(s) && EntriesOk(s) && TakenOk(s) && HeldOk(s)
    requires forall id :: id in s'.pending ==> id in s.pending && s'.pending[id] == s.pending[id]
    requires forall id :: id in s'.taken ==> id in s.taken || id in s.pending
    requires s.taken <= s'.taken
    requires forall id :: id in s'.held ==>
               || (id in s.held && s'.held[id] == s.held[id])
               || (id in s.pending && s'.held[id].call == s.pending[id] && id in s'.taken)
    ensures IdsDistinct(s') && EntriesOk(s') && TakenOk(s') && HeldOk(s')
  {
    forall id | id in s'.taken ensures HasId(s', id) {
      if id in s.taken {
        var c :| c in s.calls && s.calls[c].id == id;
        assert s'.calls[c].id == id;
      } else {
        assert s'.calls[s.pending[id]].id == id;
      }
    }
  }

  lemma BeginKeepsMatching(s: State, call: CallId, millis: nat)
    requires Matching(s) && call !in s.calls
    requires forall c :: c in s.calls ==> s.calls[c].id != RequestId(s.counter, millis)
    ensures Matching(Step(s, Begin(call, millis)))
  {
    BeginKeepsCalls(s, call, millis);
    BeginKeepsIds(s, call, millis);
  }

  lemma BeginKeepsCalls(s: State, call: CallId, millis: nat)
    requires CallsOk(s) && EntriesOk(s) && TakenOk(s) && HeldOk(s) && call !in s.calls
    requires forall c :: c in s.calls ==> s.calls[c].id != RequestId(s.counter, millis)
    ensures CallsOk(Step(s, Begin(call, millis)))
  {
    var id := RequestId(s.counter, millis);
    var s' := Step(s, Begin(call, millis));
    assert id !in s.pending && id !in s.taken && id !in s.held;
    forall c | c in s'.calls ensures CallOk(s', c) {
      assert c != call ==> CallOk(s, c) && s'.calls[c] == s.calls[c];
    }
  }

  lemma BeginKeepsIds(s: State, call: CallId, millis: nat)
    requires IdsDistinct(s) && EntriesOk(s) && TakenOk(s) && HeldOk(s) && DeliveriesOk(s) && call !in s.calls
    requires forall c :: c in s.calls ==> s.calls[c].id != RequestId(s.counter, millis)
    ensures var s' := Step(s, Begin(call, millis));
            IdsDistinct(s') && EntriesOk(s') && TakenOk(s') && HeldOk(s') && DeliveriesOk(s')
  {
    var s' := Step(s, Begin(call, millis));
    assert forall c :: c in s.calls ==> s'.calls[c] == s.calls[c];
    forall t | t in s'.taken ensures HasId(s', t) {
      var c :| c in s.calls && s.calls[c].id == t;
      assert s'.calls[c].id == t;
    }
  }

  // One call moves on, perhaps giving up its own pending entry; the others do not notice.
  lemma MoveKeepsCalls(s: State, s': State, call: CallId)
    requires CallsOk(s) && IdsDistinct(s) && call in s.calls && SameIds(s, s')
    requires forall c :: c in s.calls && c != call ==> s'.calls[c] == s.calls[c]
    requires s'.pending == s.pending || s'.pending == s.pending - {s.calls[call].id}
    requires s'.taken == s.taken && s'.held == s.held && CallOk(s', call)
    ensures CallsOk(s')
  {
    forall c | c in s'.calls && c != call ensures CallOk(s', c) {
      assert CallOk(s, c) && s.calls[c].id != s.calls[call].id;
    }
  }

  lemma OwnStepKeepsCall(s: State, e: Event)
    requires IsOwnStep(e) && e.call in s.calls && CallOk(s, e.call)
    ensures CallOk(Step(s, e), e.call)
  {
  }

  lemma OwnStepMovesItself(s: State, e: Event)
    requires IsOwnStep(e) && e.call in s.calls
    ensures var s' := Step(s, e);
            && SameIds(s, s')
            && (forall c :: c in s.calls && c != e.call ==> s'.calls[c] == s.calls[c])
            && s'.calls[e.call].slot == s.calls[e.call].slot
  {
  }

  lemma OwnStepReleasesItsEntry(s: State, e: Event)
    requires IsOwnStep(e) && e.call in s.calls
    ensures var s' := Step(s, e);
            && (s'.pending == s.pending || s'.pending == s.pending - {s.calls[e.call].id})
            && s'.taken == s.taken && s'.held == s.held && s'.deliveries == s.deliveries
  {
  }

  lemma MoveKeepsDeliveries(s: State, s': State)
    requires DeliveriesOk(s) && SameIds(s, s') && s'.deliveries == s.deliveries && s'.taken == s.taken
    requires forall c :: c in s.calls ==> s'.calls[c].slot == s.calls[c].slot
    ensures DeliveriesOk(s')
  {
  }

  lemma OwnStepKeepsMatching(s: State, e: Event)
    requires Matching(s) && IsOwnStep(e)
    ensures Matching(Step(s, e))
  {
    if e.call in s.calls {
      assert CallOk(s, e.call);
      OwnStepKeepsCall(s, e);
      OwnStepMovesItself(s, e);
      OwnStepReleasesItsEntry(s, e);
      MoveKeepsCalls(s, Step(s, e), e.call);
      MoveKeepsDeliveries(s, Step(s, e));
      SameIdsKeeps(s, Step(s, e));
    }
  }

  // A delivery takes one entry.
  lemma DeliverKeepsMatching(s: State, id: string, result: SignResult)
    requires Matching(s)
    ensures Matching(Step(s, Deliver(id, result)))
  {
    if id in s.pending {
      var s' := Step(s, Deliver(id, result));
      SameIdsKeeps(s, s');
      DeliverKeepsCalls(s, id, result);
      assert s'.calls == s.calls && s'.deliveries == s.deliveries;
    }
  }

  lemma DeliverKeepsCalls(s: State, id: string, result: SignResult)
    requires CallsOk(s) && IdsDistinct(s) && EntriesOk(s) && id in s.pending
    ensures CallsOk(Step(s, Deliver(id, result)))
  {
    var call := s.pending[id];
    var s' := Step(s, Deliver(id, result));
    assert CallOk(s, call);
    forall c | c in s'.calls ensures CallOk(s', c) {
      assert CallOk(s, c);
      assert c != call ==> s.calls[c].id != id;
    }
  }

  // Then, if its call still listens, it fills that call's slot.
  lemma HandOverKeepsMatching(s: State, id: string)
    requires Matching(s)
    ensures Matching(Step(s, HandOver(id)))
  {
    if id in s.held {
      SameIdsKeeps(s, Step(s, HandOver(id)));
      HandOverKeepsCalls(s, id);
      HandOverIsRecorded(s, id);
    }
  }

  lemma HandOverKeepsCalls(s: State, id: string)
    requires CallsOk(s) && IdsDistinct(s) && HeldOk(s) && id in s.held
    ensures CallsOk(Step(s, HandOver(id)))
  {
    var call := s.held[id].call;
    var s' := Step(s, HandOver(id));
    assert CallOk(s, call);
    forall c | c in s'.calls ensures CallOk(s', c) {
      assert CallOk(s, c);
      assert c != call ==> s'.calls[c] == s.calls[c] && s.calls[c].id != id;
    }
  }

  lemma HandOverIsRecorded(s: State, id: string)
    requires CallsOk(s) && HeldOk(s) && DeliveriesOk(s) && id in s.held
    ensures DeliveriesOk(Step(s, HandOver(id)))
  {
    var call := s.held[id].call;
    assert CallOk(s, call);
    if Listening(s.calls[call].phase) {
      assert s.calls[call].slot.None?;
      assert forall i :: 0 <= i < |s.deliveries| ==> s.deliveries[i].call != call;
    }
  }

  ghost predicate Invariant(s: State) {
    Naming(s) && Matching(s)
  }

  // In every interleaving of up to 2^64 requests and any number of other events.
  lemma {:induction false} InvariantHolds(events: seq<Event>)
    requires Run(events).begun <= COUNTER_RANGE
    ensures Invariant(Run(events))
  {
    if events != [] {
      var before, e := events[..|events| - 1], events[|events| - 1];
      var s := Run(before);
      InvariantHolds(before);
      StepKeepsInvariant(s, e);
    }
  }

  lemma StepKeepsInvariant(s: State, e: Event)
    requires Invariant(s) && Step(s, e).begun <= COUNTER_RANGE
    ensures Invariant(Step(s, e))
  {
    match e
    case Begin(call, millis) =>
      if call !in s.calls {
        BeginKeepsNaming(s, call, millis);
        BeginDrawsFreshId(s, millis);
        BeginKeepsMatching(s, call, millis);
      }
    case Deliver(id, result) =>
      OtherStepsKeepNaming(s, e);
      DeliverKeepsMatching(s, id, result);
    case HandOver(id) =>
      OtherStepsKeepNaming(s, e);
      HandOverKeepsMatching(s, id);
    case _ =>
      OtherStepsKeepNaming(s, e);
      OwnStepKeepsMatching(s, e);
  }

  // In every interleaving of fewer than 2^64 requests: a new request's id is
  // unused, so it overwrites no pending entry and can never be mistaken.
  lemma NewRequestOverwritesNothing(events: seq<Event>, millis: nat)
    requires Run(events).begun < COUNTER_RANGE
    ensures var s := Run(events);
            RequestId(s.counter, millis) !in s.pending
            && forall c :: c in s.calls ==> s.calls[c].id != RequestId(s.counter, millis)
  {
    InvariantHolds(events);
    BeginDrawsFreshId(Run(events), millis);
  }

  // Each call is answered at most once, by a delivery that named its own id,
  // and what it returns as an answer is what that delivery carried.
  lemma AnsweredOnceByOwnId(events: seq<Event>, call: CallId)
    requires Run(events).begun <= COUNTER_RANGE && call in Run(events).calls
    ensures var s := Run(events);
            && (forall i, j :: 0 <= i < j < |s.deliveries| ==> s.deliveries[i].call != s.deliveries[j].call)
            && (forall d :: d in s.deliveries && d.call == call ==>
                  d.id == s.calls[call].id && s.calls[call].slot == Some(d.result))
            && (s.calls[call].phase.Finished? && s.calls[call].phase.outcome.Answered? ==>
                  s.calls[call].slot == Some(s.calls[call].phase.outcome.result))
  {
    InvariantHolds(events);
    assert CallOk(Run(events), call);
  }

  // No call ever reports a cancelled request: nobody drops its sender unanswered.
  lemma NeverCancelled(events: seq<Event>, call: CallId)
    requires Run(events).begun <= COUNTER_RANGE && call in Run(events).calls
    ensures var p := Run(events).calls[call].phase;
            p != CleaningUp(Cancelled) && p != Finished(Cancelled)
  {
    InvariantHolds(events);
    assert CallOk(Run(events), call);
  }

  // What stays pending once every call has returned: exactly the requests that
  // failed to serialize and that nobody has since delivered to.
  lemma LeftoversAreSerializationFailures(events: seq<Event>)
    requires Run(events).begun <= COUNTER_RANGE
    requires var s := Run(events); forall c :: c in s.calls ==> s.calls[c].phase.Finished?
    ensures var s := Run(events);
            forall id :: id in s.pending <==>
              exists c :: c in s.calls && s.calls[c].id == id
                          && s.calls[c].phase == Finished(NotSerialized) && id !in s.taken
  {
    InvariantHolds(events);
    var s := Run(events);
    forall id
      ensures id in s.pending <==>
                exists c :: c in s.calls && s.calls[c].id == id
                            && s.calls[c].phase == Finished(NotSerialized) && id !in s.taken
    {
      if id in s.pending {
        assert CallOk(s, s.pending[id]);
      }
      if c :| c in s.calls && s.calls[c].id == id && s.calls[c].phase == Finished(NotSerialized) && id !in s.taken {
        assert CallOk(s, c);
      }
    }
  }

  // With successful serialization, no call in flight means no pending entry.
  lemma NoCallsNoPendingEntries(events: seq<Event>)
    requires Run(events).begun <= COUNTER_RANGE
    requires var s := Run(events);
             forall c :: c in s.calls ==> s.calls[c].phase.Finished? && s.calls[c].phase.outcome != NotSerialized
    ensures Run(events).pending == map[]
  {
    LeftoversAreSerializationFailures(events);
    assert forall id :: id !in Run(events).pending;
  }

  // The shortest leak: one request whose agent info does not serialize.
  lemma FailedSerializationLeaks(call: CallId, millis: nat)
    ensures RequestId(0, millis) in Run([Begin(call, millis), Serialized(call, false)]).pending
  {
    var one := [Begin(call, millis)];
    var two := [Begin(call, millis), Serialized(call, false)];
    assert one[..0] == [] && two[..1] == one;
    assert Run(one) == Step(INITIAL, one[0]);
    assert Run(two) == Step(Run(one), two[1]);
  }

  // ---- The object ----

  // The first delivery that names the id, if any.
  function FirstAnswer(deliveries: seq<(string, SignResult)>, id: string): Option<SignResult> {
    if deliveries == [] then None
    else
      var earlier, last := deliveries[..|deliveries| - 1], deliveries[|deliveries| - 1];
      var answer := FirstAnswer(earlier, id);
      if answer.None? && last.0 == id then Some(last.1) else answer
  }

  lemma BeginStep(s: State, call: CallId, millis: nat)
    requires call !in s.calls
    ensures Step(s, Begin(call, millis)).counter == (s.counter + 1) % COUNTER_RANGE
    ensures Step(s, Begin(call, millis)).pending == s.pending[RequestId(s.counter, millis) := call]
  {
  }

  // What one deliver_signature, undisturbed, adds to the history.
  function DeliveryEvents(pending: map<string, CallId>, id: string, result: SignResult): seq<Event> {
    [Deliver(id, result)] + if id in pending then [HandOver(id)] else []
  }

  // It keeps the map and the history in step, so the object stays valid, and
  // fills the slot of the call it found, if that call still listens.
  lemma DeliveryFollowsRun(events: seq<Event>, id: string, result: SignResult)
    ensures var (s, s') := (Run(events), Run(events + DeliveryEvents(Run(events).pending, id, result)));
            && s'.counter == s.counter && s'.pending == s.pending - {id} && s'.begun == s.begun
            && s'.calls == if id in s.pending && s.pending[id] in s.calls && Listening(s.calls[s.pending[id]].phase)
                           then s.calls[s.pending[id] := s.calls[s.pending[id]].(slot := Some(result))]
                           else s.calls
  {
    var s := Run(events);
    RunExtends(events, Deliver(id, result));
    if id in s.pending {
      RunExtends(events + [Deliver(id, result)], HandOver(id));
      assert events + [Deliver(id, result)] + [HandOver(id)] == events + DeliveryEvents(s.pending, id, result);
    } else {
      assert s.pending - {id} == s.pending;
      assert events + DeliveryEvents(s.pending, id, result) == events + [Deliver(id, result)];
    }
  }

  lemma RunExtends(events: seq<Event>, e: Event)
    ensures Run(events + [e]) == Step(Run(events), e)
  {
    assert (events + [e])[..|events + [e]| - 1] == events;
  }

  // `history` is ghost: the sign-request events so far. The counter and the
  // pending map are those of its run, so what is proved of every run holds here.
  class AgentProxyManager {
    var registrations: map<Cell, ConnId>
    var requestCounter: nat
    var pendingSigns: map<string, CallId>
    ghost var history: seq<Event>

    ghost predicate Valid()
      reads this
    {
      requestCounter == Run(history).counter && pendingSigns == Run(history).pending
    }

    constructor ()
      ensures Valid() && registrations == map[] && history == []
    {
      registrations, requestCounter, pendingSigns, history := map[], 0, map[], [];
    }

    method Register(cell: Cell, sender: ConnId)
      modifies this`registrations
      ensures registrations == old(registrations)[cell := sender]
    {
      registrations := registrations[cell := sender];
    }

    method Unregister(cell: Cell)
      modifies this`registrations
      ensures registrations == old(registrations) - {cell}
    {
      registrations := registrations - {cell};
    }

    method UnregisterAll(sender: ConnId)
      modifies this`registrations
      ensures registrations == Protocol.WithoutSender(old(registrations), sender)
    {
      registrations := map k | k in registrations && registrations[k] != sender :: registrations[k];
    }

    method IsRegistered(cell: Cell) returns (registered: bool)
      ensures registered == (cell in registrations)
    {
      registered := cell in registrations;
    }

    // The connection a signal was queued for; `room` says whether its channel takes one more.
    method SendSignal(cell: Cell, room: bool) returns (receiver: Option<ConnId>)
      ensures receiver == if cell in registrations && room then Some(registrations[cell]) else None
    {
      receiver := if cell in registrations && room then Some(registrations[cell]) else None;
    }

    // Some connection of the agent, whichever entry the hash map yields first.
    method FindSenderForAgent(agent: AgentPubKey) returns (sender: Option<ConnId>)
      ensures sender.Some? <==> exists k :: k in registrations && k.agent == agent
      ensures sender.Some? ==> exists k :: k in registrations && k.agent == agent && registrations[k] == sender.value
    {
      var unvisited := registrations.Keys;
      while unvisited != {}
        invariant unvisited <= registrations.Keys
        invariant forall k :: k in registrations && k !in unvisited ==> k.agent != agent
        decreases unvisited
      {
        var k :| k in unvisited;
        unvisited := unvisited - {k};
        if k.agent == agent {
          return Some(registrations[k]);
        }
      }
      return None;
    }

    // Up to the insertion of the pending entry: counter, id, map. Within 2^64
    // requests the id is new, so no pending entry is overwritten.
    method BeginSign(call: CallId, millis: nat) returns (id: string)
      requires Valid() && call !in Run(history).calls
      modifies this`requestCounter, this`pendingSigns, this`history
      ensures Valid() && history == old(history) + [Begin(call, millis)]
      ensures id == RequestId(old(requestCounter), millis)
      ensures pendingSigns == old(pendingSigns)[id := call]
      ensures requestCounter == (old(requestCounter) + 1) % 0x1_0000_0000_0000_0000
      ensures Run(old(history)).begun < COUNTER_RANGE ==> id !in old(pendingSigns)
    {
      if Run(history).begun < COUNTER_RANGE {
        NewRequestOverwritesNothing(history, millis);
      }
      BeginStep(Run(history), call, millis);
      RunExtends(history, Begin(call, millis));
      id := RequestId(requestCounter, millis);
      requestCounter := (requestCounter + 1) % COUNTER_RANGE;
      pendingSigns := pendingSigns[id := call];
      history := history + [Begin(call, millis)];
    }

    // Takes the waiting call of an id out of the map; None if the id is unknown.
    method DeliverSignature(id: string, result: SignResult) returns (receiver: Option<CallId>)
      modifies this`pendingSigns, this`history
      ensures history == old(history) + DeliveryEvents(old(pendingSigns), id, result)
      ensures receiver == if id in old(pendingSigns) then Some(old(pendingSigns)[id]) else None
      ensures pendingSigns == old(pendingSigns) - {id}
    {
      receiver := if id in pendingSigns then Some(pendingSigns[id]) else None;
      history := history + DeliveryEvents(pendingSigns, id, result);
      pendingSigns := pendingSigns - {id};
    }

    // The call's own steps that leave the shared map alone.
    ghost method Note(e: Event)
      requires Valid() && Step(Run(history), e).counter == requestCounter
      requires Step(Run(history), e).pending == pendingSigns
      modifies this`history
      ensures Valid() && history == old(history) + [e] && Run(history) == Step(Run(old(history)), e)
    {
      RunExtends(history, e);
      history := history + [e];
    }

    // The removal after a failed send and the final clean-up.
    method RemovePending(id: string, ghost e: Event)
      requires Valid() && Step(Run(history), e).counter == requestCounter
      requires Step(Run(history), e).pending == pendingSigns - {id}
      modifies this`pendingSigns, this`history
      ensures Valid() && history == old(history) + [e] && Run(history) == Step(Run(old(history)), e)
      ensures pendingSigns == old(pendingSigns) - {id}
    {
      pendingSigns := pendingSigns - {id};
      RunExtends(history, e);
      history := history + [e];
    }

    // One request from start to end, with the deliveries other tasks make while
    // it waits; None if the agent has no connection. The call ends in the
    // history as the result says, and with the first delivery that names its id.
    method RequestAgentInfoSignature(agent: AgentPubKey, call: CallId, millis: nat, serializes: bool, sends: bool,
                                     meanwhile: seq<(string, SignResult)>)
      returns (outcome: Option<Outcome>)
      requires Valid() && call !in Run(history).calls
      modifies this`requestCounter, this`pendingSigns, this`history
      ensures Valid()
      ensures outcome.Some? <==> exists k :: k in registrations && k.agent == agent
      ensures outcome.None? ==> history == old(history)
      ensures outcome.Some? ==>
                call in Run(history).calls && Run(history).calls[call].phase == Finished(outcome.value)
      ensures outcome.Some? && Run(old(history)).begun < COUNTER_RANGE ==>
                var answer := FirstAnswer(meanwhile, RequestId(old(requestCounter), millis));
                outcome.value == if !serializes then NotSerialized else if !sends then NotSent
                                 else if answer.Some? then Answered(answer.value) else TimedOut
    {
      var sender := FindSenderForAgent(agent);
      if sender.None? {
        return None;
      }
      var id := BeginSign(call, millis);
      RunExtends(old(history), Begin(call, millis));
      var failure := SendSignRequest(call, id, serializes, sends);
      if failure.Some? {
        return failure;
      }
      var result := AwaitSignature(call, id, meanwhile);
      return Some(result);
    }

    // From the filed request to the sent one; the failures return at once, and
    // only the second of them takes the pending entry along.
    method SendSignRequest(call: CallId, id: string, serializes: bool, sends: bool) returns (failure: Option<Outcome>)
      requires Valid() && IsFiled(call, id, Serializing)
      modifies this`pendingSigns, this`history
      ensures Valid() && Run(history).begun == Run(old(history)).begun
      ensures failure == if !serializes then Some(NotSerialized) else if !sends then Some(NotSent) else None
      ensures failure.Some? ==>
                call in Run(history).calls && Run(history).calls[call].phase == Finished(failure.value)
      ensures failure.None? ==> IsFiled(call, id, Awaiting)
    {
      Note(Serialized(call, serializes));
      if !serializes {
        return Some(NotSerialized);
      }
      if !sends {
        RemovePending(id, Sent(call, false));
        return Some(NotSent);
      }
      Note(Sent(call, true));
      return None;
    }

    // From the sent request to its clean-up.
    method AwaitSignature(call: CallId, id: string, meanwhile: seq<(string, SignResult)>) returns (outcome: Outcome)
      requires Valid() && IsFiled(call, id, Awaiting)
      modifies this`pendingSigns, this`history
      ensures Valid() && call in Run(history).calls && Run(history).calls[call].phase == Finished(outcome)
      ensures Run(old(history)).begun <= COUNTER_RANGE ==>
                var answer := FirstAnswer(meanwhile, id);
                outcome == if answer.Some? then Answered(answer.value) else TimedOut
    {
      var slot := AwaitDeliveries(call, id, meanwhile);
      if slot.Some? {
        Note(Wake(call));
        outcome := Answered(slot.value);
      } else {
        Note(TimeOut(call));
        outcome := TimedOut;
      }
      RemovePending(id, CleanUp(call));
    }

    // The call is in this phase, pending under this id, and nothing has been delivered to it.
    ghost predicate IsFiled(call: CallId, id: string, phase: Phase)
      reads this
    {
      && InPhase(Run(history), call, phase) && Run(history).calls[call].id == id
      && Run(history).calls[call].slot.None? && id in pendingSigns && pendingSigns[id] == call
    }

    // What has arrived in the call's oneshot after those deliveries.
    method AwaitDeliveries(call: CallId, id: string, meanwhile: seq<(string, SignResult)>)
      returns (slot: Option<SignResult>)
      requires Valid() && IsFiled(call, id, Awaiting)
      modifies this`pendingSigns, this`history
      ensures Valid() && call in Run(history).calls && requestCounter == old(requestCounter)
      ensures Run(history).calls[call] == Run(old(history)).calls[call].(slot := slot)
      ensures Run(old(history)).begun <= COUNTER_RANGE ==> slot == FirstAnswer(meanwhile, id)
    {
      slot := None;
      ghost var start := Run(history).calls[call];
      ghost var fits := Run(history).begun <= COUNTER_RANGE;
      assert meanwhile[..0] == [];
      for i := 0 to |meanwhile|
        invariant Valid() && call in Run(history).calls && Run(history).calls[call] == start.(slot := slot)
        invariant fits ==> Run(history).begun <= COUNTER_RANGE
        invariant fits ==> slot == FirstAnswer(meanwhile[..i], id)
        invariant slot.None? ==> id in pendingSigns && pendingSigns[id] == call
        invariant fits && slot.Some? ==> id !in pendingSigns
      {
        ghost var past := history;
        if fits {
          InvariantHolds(history);
        }
        var receiver := DeliverSignature(meanwhile[i].0, meanwhile[i].1);
        DeliveryFollowsRun(past, meanwhile[i].0, meanwhile[i].1);
        if receiver == Some(call) {
          slot := Some(meanwhile[i].1);
        }
        assert meanwhile[..i + 1][..i] == meanwhile[..i];
      }
      assert meanwhile[..|meanwhile|] == meanwhile;
    }
  }
}
