// Aggregated reports of fetched ops: events queue up on a bounded channel and
// are drained, summed per space and written at every tick.

module Report {
  type SpaceId = nat

  const CHANNEL_CAPACITY := 4096
  const U64 := 0x1_0000_0000_0000_0000

  datatype Fetched = Fetched(space: SpaceId, sizeBytes: nat)

  datatype Totals = Totals(opCount: nat, totalBytes: nat) {
    function Of(part: Part): nat {
      if part.Ops? then opCount else totalBytes
    }
  }

  datatype Part = Ops | Bytes

  datatype Entry = Entry(space: SpaceId, totals: Totals)

  // ---- Specification ----

  function Amount(f: Fetched, space: SpaceId, part: Part): nat {
    if f.space != space then 0 else if part.Ops? then 1 else f.sizeBytes
  }

  // What a list of events adds up to for one space, as a plain number.
  function Sum(events: seq<Fetched>, space: SpaceId, part: Part): nat {
    if events == [] then 0
    else Sum(events[..|events| - 1], space, part) + Amount(events[|events| - 1], space, part)
  }

  // What u64 accumulators hold after those events.
  function Accumulated(events: seq<Fetched>, space: SpaceId): Totals {
    Totals(Sum(events, space, Ops) % U64, Sum(events, space, Bytes) % U64)
  }

  // The sum of the entries written for one space.
  function Reported(entries: seq<Entry>, space: SpaceId, part: Part): nat {
    if entries == [] then 0
    else
      var last := |entries| - 1;
      Reported(entries[..last], space, part) + if entries[last].space == space then entries[last].totals.Of(part) else 0
  }

  lemma SumSnoc(xs: seq<Fetched>, f: Fetched, space: SpaceId, part: Part)
    ensures Sum(xs + [f], space, part) == Sum(xs, space, part) + Amount(f, space, part)
  {
    assert (xs + [f])[..|xs + [f]| - 1] == xs;
  }

  lemma {:induction false} SumAppend(xs: seq<Fetched>, ys: seq<Fetched>, space: SpaceId, part: Part)
    ensures Sum(xs + ys, space, part) == Sum(xs, space, part) + Sum(ys, space, part)
  {
    if ys == [] {
      assert xs + ys == xs;
    } else {
      var last := |ys| - 1;
      SumAppend(xs, ys[..last], space, part);
      SumSnoc(xs + ys[..last], ys[last], space, part);
      assert xs + ys == xs + ys[..last] + [ys[last]];
    }
  }

  lemma ReportedSnoc(entries: seq<Entry>, e: Entry, space: SpaceId, part: Part)
    ensures Reported(entries + [e], space, part)
            == Reported(entries, space, part) + if e.space == space then e.totals.Of(part) else 0
  {
    assert (entries + [e])[..|entries + [e]| - 1] == entries;
  }

  // ---- The reporter ----

  class LinkerReport {
    var queue: seq<Fetched>
    var written: seq<Entry>

    predicate Valid()
      reads this
    {
      |queue| <= CHANNEL_CAPACITY
    }

    constructor ()
      ensures Valid() && queue == [] && written == []
    {
      queue, written := [], [];
    }

    // try_send: a full channel drops the event.
    method FetchedOp(space: SpaceId, sizeBytes: nat) returns (accepted: bool)
      requires Valid()
      modifies this`queue
      ensures Valid()
      ensures accepted == (|old(queue)| < 4096)
      ensures queue == if accepted then old(queue) + [Fetched(space, sizeBytes)] else old(queue)
    {
      accepted := |queue| < CHANNEL_CAPACITY;
      if accepted {
        queue := queue + [Fetched(space, sizeBytes)];
      }
    }

    // Drains the channel into per-space accumulators.
    method Drain() returns (fetchedOps: map<SpaceId, Totals>)
      modifies this`queue
      ensures queue == []
      ensures forall space :: Held(fetchedOps, space) == Accumulated(old(queue), space)
    {
      fetchedOps := map[];
      ghost var drained: seq<Fetched> := [];
      assert drained + queue == old(queue);
      while queue != []
        invariant drained + queue == old(queue)
        invariant forall space :: Held(fetchedOps, space) == Accumulated(drained, space)
        decreases |queue|
      {
        var cmd := queue[0];
        var e := Held(fetchedOps, cmd.space);
        fetchedOps := fetchedOps[cmd.space := Totals((e.opCount + 1) % U64, (e.totalBytes + cmd.sizeBytes) % U64)];
        forall space ensures Held(fetchedOps, space) == Accumulated(drained + [cmd], space) {
          AccumulatedSnoc(drained, cmd, space);
        }
        drained := drained + [cmd];
        queue := queue[1..];
      }
      assert drained == old(queue);
    }

    // Writes one entry per space, in whatever order the hash map yields them.
    method ProcessReports()
      modifies this
      ensures queue == []
      ensures forall space, part ::
                Reported(written, space, part)
                == Reported(old(written), space, part) + Accumulated(old(queue), space).Of(part)
    {
      ghost var written0 := written;
      var fetchedOps := Drain();
      var unwritten := fetchedOps.Keys;
      while unwritten != {}
        invariant queue == [] && unwritten <= fetchedOps.Keys
        invariant forall space, part ::
                    Reported(written, space, part)
                    == Reported(written0, space, part)
                       + if space in unwritten then 0 else Held(fetchedOps, space).Of(part)
        decreases unwritten
      {
        var space :| space in unwritten;
        unwritten := unwritten - {space};
        var entry := Entry(space, fetchedOps[space]);
        forall other, part
          ensures Reported(written + [entry], other, part)
                  == Reported(written, other, part) + if other == space then entry.totals.Of(part) else 0
        {
          ReportedSnoc(written, entry, other, part);
        }
        written := written + [entry];
      }
    }
  }

  function Held(fetchedOps: map<SpaceId, Totals>, space: SpaceId): Totals {
    if space in fetchedOps then fetchedOps[space] else Totals(0, 0)
  }

  lemma ModuloShift(x: nat, q: nat)
    ensures (x + q * U64) % U64 == x % U64
  {
    if q > 0 {
      ModuloShift(x, q - 1);
      assert x + q * U64 == (x + (q - 1) * U64) + U64;
    }
  }

  lemma WrapStep(a: nat, b: nat)
    ensures (a % U64 + b) % U64 == (a + b) % U64
  {
    var q := a / U64;
    assert a == q * U64 + a % U64;
    ModuloShift(a % U64 + b, q);
  }

  // Wrapping after every event is wrapping once at the end.
  lemma AccumulatedSnoc(drained: seq<Fetched>, cmd: Fetched, space: SpaceId)
    ensures var e := Accumulated(drained, space);
            Accumulated(drained + [cmd], space)
            == if cmd.space == space
               then Totals((e.opCount + 1) % U64, (e.totalBytes + cmd.sizeBytes) % U64)
               else e
  {
    SumSnoc(drained, cmd, space, Ops);
    SumSnoc(drained, cmd, space, Bytes);
    WrapStep(Sum(drained, space, Ops), 1);
    WrapStep(Sum(drained, space, Bytes), cmd.sizeBytes);
  }

  // ---- Conservation over runs ----

  // `Receive` takes one event off the channel, `Report` ends a drain on finding
  // it empty. Senders do not wait for a drain, so `Fetch` can come in between.
  datatype Event = Fetch(fetched: Fetched) | Receive | Report

  // `drained` lists the events in the accumulators; `accepted` is history:
  // every event that entered the channel.
  datatype State = State(queue: seq<Fetched>, drained: seq<Fetched>, written: SpaceId -> Totals, accepted: seq<Fetched>)

  const INITIAL := State([], [], (space: SpaceId) => Totals(0, 0), [])

  function Plus(a: Totals, b: Totals): Totals {
    Totals(a.opCount + b.opCount, a.totalBytes + b.totalBytes)
  }

  function Step(s: State, e: Event): State {
    match e
    case Fetch(f) =>
      if |s.queue| < CHANNEL_CAPACITY then s.(queue := s.queue + [f], accepted := s.accepted + [f]) else s
    case Receive =>
      if s.queue != [] then s.(queue := s.queue[1..], drained := s.drained + [s.queue[0]]) else s
    case Report =>
      if s.queue != [] then s
      else s.(drained := [],
              written := (space: SpaceId) => Plus(s.written(space), Accumulated(s.drained, space)))
  }

  function Run(events: seq<Event>): State {
    if events == [] then INITIAL else Step(Run(events[..|events| - 1]), events[|events| - 1])
  }

  // Where a space's ops (or bytes) are: written, being summed, or queued.
  function Whereabouts(s: State, space: SpaceId, part: Part): nat {
    s.written(space).Of(part) + Sum(s.drained, space, part) + Sum(s.queue, space, part)
  }

  // No drain's true sum for the space exceeds a u64.
  predicate SumsFit(events: seq<Event>, space: SpaceId, part: Part) {
    events == []
    || var last := |events| - 1;
       SumsFit(events[..last], space, part)
       && (events[last].Report? ==> Sum(Run(events[..last]).drained, space, part) < 0x1_0000_0000_0000_0000
                                    || Run(events[..last]).queue != [])
  }

  // The multiples of 2^64 a wrapped sum is short of.
  function Overflowed(sum: nat): (lost: nat)
    ensures lost == sum - sum % U64
    ensures lost == 0 <==> sum < U64
  {
    sum / U64 * U64
  }

  // What one step does to the books of a space.
  lemma StepAccounts(s: State, e: Event, space: SpaceId, part: Part)
    ensures var t := Step(s, e);
            var entered := Sum(t.accepted, space, part) - Sum(s.accepted, space, part);
            Whereabouts(t, space, part)
            == Whereabouts(s, space, part) + entered
               - (if e.Report? && s.queue == [] then Overflowed(Sum(s.drained, space, part)) else 0)
  {
    var t := Step(s, e);
    match e
    case Fetch(f) =>
      SumSnoc(s.queue, f, space, part);
      SumSnoc(s.accepted, f, space, part);
    case Receive =>
      if s.queue != [] {
        assert s.queue == [s.queue[0]] + s.queue[1..];
        SumAppend([s.queue[0]], s.queue[1..], space, part);
        SumSnoc([], s.queue[0], space, part);
        assert [] + [s.queue[0]] == [s.queue[0]];
        SumSnoc(s.drained, s.queue[0], space, part);
      }
    case Report =>
      if s.queue == [] {
        assert t.written(space) == Plus(s.written(space), Accumulated(s.drained, space));
        assert t.written(space).Of(part) == s.written(space).Of(part) + Sum(s.drained, space, part) % U64;
      }
  }

  // Nothing is reported that was not accepted, and everything accepted is
  // written, being summed or queued exactly when no drain overflowed: sends
  // rejected by a full channel are then the only loss.
  lemma {:induction false} Conservation(events: seq<Event>, space: SpaceId, part: Part)
    ensures var s := Run(events);
            && |s.queue| <= CHANNEL_CAPACITY
            && Whereabouts(s, space, part) <= Sum(s.accepted, space, part)
            && (Whereabouts(s, space, part) == Sum(s.accepted, space, part) <==> SumsFit(events, space, part))
  {
    if events != [] {
      var last := |events| - 1;
      Conservation(events[..last], space, part);
      StepAccounts(Run(events[..last]), events[last], space, part);
    }
  }

  function Fetches(events: seq<Event>): seq<Fetched> {
    if events == [] then []
    else
      var last := |events| - 1;
      Fetches(events[..last]) + if events[last].Fetch? then [events[last].fetched] else []
  }

  // Event k is a send that finds the channel full.
  predicate Rejected(events: seq<Event>, k: nat)
    requires k < |events|
  {
    events[k].Fetch? && |Run(events[..k]).queue| >= 4096
  }

  // Every send is accepted, in order, exactly when none finds the channel full.
  lemma {:induction false} AllAcceptedIff(events: seq<Event>)
    ensures Run(events).accepted == Fetches(events) <==> forall k :: 0 <= k < |events| ==> !Rejected(events, k)
    ensures |Run(events).accepted| <= |Fetches(events)|
    ensures |Run(events).accepted| == |Fetches(events)| ==> Run(events).accepted == Fetches(events)
  {
    if events != [] {
      var last := |events| - 1;
      var before := events[..last];
      AllAcceptedIff(before);
      forall k | 0 <= k < last ensures Rejected(events, k) <==> Rejected(before, k) {
        assert before[..k] == events[..k];
      }
      assert Rejected(events, last) <==> events[last].Fetch? && |Run(before).queue| >= 4096;
    }
  }

  // A drain no sender interrupts reports what the reporter's method does.
  lemma {:induction false} UndisturbedDrain(s: State, space: SpaceId)
    requires s.drained == []
    ensures var t := Step(ReceiveAll(s), Report);
            && t.queue == [] && t.drained == [] && t.accepted == s.accepted
            && t.written(space) == Plus(s.written(space), Accumulated(s.queue, space))
  {
    ReceiveAllMoves(s);
    assert s.drained + s.queue == s.queue;
  }

  function ReceiveAll(s: State): State
    decreases |s.queue|
  {
    if s.queue == [] then s else ReceiveAll(Step(s, Receive))
  }

  lemma {:induction false} ReceiveAllMoves(s: State)
    ensures ReceiveAll(s) == s.(queue := [], drained := s.drained + s.queue)
    decreases |s.queue|
  {
    if s.queue != [] {
      ReceiveAllMoves(Step(s, Receive));
      assert s.drained + [s.queue[0]] + s.queue[1..] == s.drained + s.queue;
    }
  }
}
