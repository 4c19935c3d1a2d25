// The temporary op store: published ops stay for a minute so that peers can
// fetch them. Times are milliseconds of a monotonic clock.

module TempOpStore {
  import opened Wrappers
  import opened Types

  type OpId = nat
  type Bytes = seq<nat>

  const OP_TTL := 60_000
  const CLEANUP_INTERVAL := 10_000

  datatype StoredOpRecord = StoredOpRecord(opData: Bytes, storedAt: int)

  datatype MetaOp = MetaOp(opId: OpId, opData: Bytes)

  // Instant::duration_since saturates at zero.
  function DurationSince(now: int, earlier: int): nat {
    if now >= earlier then now - earlier else 0
  }

  function Unexpired(ops: map<OpId, StoredOpRecord>, now: int): map<OpId, StoredOpRecord> {
    map id | id in ops && DurationSince(now, ops[id].storedAt) < OP_TTL :: ops[id]
  }

  class TempOpStoreInner {
    var ops: map<OpId, StoredOpRecord>

    constructor ()
      ensures ops == map[]
    {
      ops := map[];
    }

    // decoded: the id computed from the op, if its bytes decode.
    method StoreOp(opBytes: Bytes, decoded: Option<OpId>, now: int) returns (stored: Result<OpId, ()>)
      modifies this
      ensures stored == if decoded.Some? then Ok(decoded.value) else Err(())
      ensures ops == if decoded.Some? then old(ops)[decoded.value := StoredOpRecord(opBytes, now)] else old(ops)
    {
      if decoded.None? {
        return Err(());
      }
      ops := ops[decoded.value := StoredOpRecord(opBytes, now)];
      return Ok(decoded.value);
    }

    method CleanupExpired(now: int)
      modifies this
      ensures ops == Unexpired(old(ops), now)
    {
      ops := map id | id in ops && DurationSince(now, ops[id].storedAt) < OP_TTL :: ops[id];
    }

    // The stored ops among those asked for, in the order asked.
    method RetrieveOps(opIds: seq<OpId>) returns (result: seq<MetaOp>)
      ensures Ids(result) == Found(opIds, ops)
      ensures forall m :: m in result ==> m.opId in ops && m.opData == ops[m.opId].opData
    {
      result := [];
      assert opIds[..0] == [];
      for i := 0 to |opIds|
        invariant Ids(result) == Found(opIds[..i], ops)
        invariant forall m :: m in result ==> m.opId in ops && m.opData == ops[m.opId].opData
      {
        assert opIds[..i + 1] == opIds[..i] + [opIds[i]];
        FoundAppend(opIds[..i], opIds[i], ops);
        if opIds[i] in ops {
          ghost var before := result;
          result := result + [MetaOp(opIds[i], ops[opIds[i]].opData)];
          assert Ids(result) == Ids(before) + [opIds[i]];
        }
      }
      assert opIds[..|opIds|] == opIds;
    }

    // The ids asked for that are not stored, in the order asked.
    method FilterOutExistingOps(opIds: seq<OpId>) returns (result: seq<OpId>)
      ensures result == Missing(opIds, ops)
      ensures forall id :: id in result <==> id in opIds && id !in ops
    {
      result := [];
      assert opIds[..0] == [];
      for i := 0 to |opIds|
        invariant result == Missing(opIds[..i], ops)
      {
        assert opIds[..i + 1] == opIds[..i] + [opIds[i]];
        MissingAppend(opIds[..i], opIds[i], ops);
        if opIds[i] !in ops {
          result := result + [opIds[i]];
        }
      }
      assert opIds[..|opIds|] == opIds;
    }
  }

  function Ids(result: seq<MetaOp>): seq<OpId> {
    seq(|result|, i requires 0 <= i < |result| => result[i].opId)
  }

  function Present(ops: map<OpId, StoredOpRecord>): OpId -> bool {
    id => id in ops
  }

  function Absent(ops: map<OpId, StoredOpRecord>): OpId -> bool {
    id => id !in ops
  }

  function Found(opIds: seq<OpId>, ops: map<OpId, StoredOpRecord>): seq<OpId> {
    Filter(opIds, Present(ops))
  }

  function Missing(opIds: seq<OpId>, ops: map<OpId, StoredOpRecord>): seq<OpId> {
    Filter(opIds, Absent(ops))
  }

  lemma MissingAppend(opIds: seq<OpId>, id: OpId, ops: map<OpId, StoredOpRecord>)
    ensures Missing(opIds + [id], ops) == Missing(opIds, ops) + if id !in ops then [id] else []
  {
    FilterAppend(opIds, [id], Absent(ops));
  }

  lemma FoundAppend(opIds: seq<OpId>, id: OpId, ops: map<OpId, StoredOpRecord>)
    ensures Found(opIds + [id], ops) == Found(opIds, ops) + if id in ops then [id] else []
  {
    FilterAppend(opIds, [id], Present(ops));
  }

  // In the same relative order, possibly with gaps.
  predicate IsSubsequence<T(==)>(part: seq<T>, whole: seq<T>) {
    part == [] || (whole != [] &&
      ((part[0] == whole[0] && IsSubsequence(part[1..], whole[1..])) || IsSubsequence(part, whole[1..])))
  }

  lemma {:induction false} FilterIsSubsequence(xs: seq<OpId>, keep: OpId -> bool)
    ensures IsSubsequence(Filter(xs, keep), xs)
  {
    if xs != [] {
      FilterIsSubsequence(xs[1..], keep);
      var (part, rest) := (Filter(xs, keep), Filter(xs[1..], keep));
      if keep(xs[0]) {
        assert part[0] == xs[0] && part[1..] == rest;
      } else {
        assert part == [] + rest == rest;
      }
    }
  }

  lemma {:induction false} FiltersAddUp(xs: seq<OpId>, ops: map<OpId, StoredOpRecord>)
    ensures multiset(Found(xs, ops)) + multiset(Missing(xs, ops)) == multiset(xs)
  {
    if xs != [] {
      FiltersAddUp(xs[1..], ops);
      assert xs == [xs[0]] + xs[1..];
      MultisetOfFilter(xs, Present(ops));
      MultisetOfFilter(xs, Absent(ops));
    }
  }

  lemma MultisetOfFilter(xs: seq<OpId>, keep: OpId -> bool)
    requires xs != []
    ensures multiset(Filter(xs, keep))
            == (if keep(xs[0]) then multiset{xs[0]} else multiset{}) + multiset(Filter(xs[1..], keep))
  {
    var rest := Filter(xs[1..], keep);
    if keep(xs[0]) {
      assert multiset([xs[0]] + rest) == multiset{xs[0]} + multiset(rest);
    } else {
      assert Filter(xs, keep) == [] + rest == rest;
    }
  }

  // For one state of the store the two answers are complementary: what is
  // retrieved and what is filtered as missing together are what was asked for.
  lemma AnswersAreComplementary(opIds: seq<OpId>, ops: map<OpId, StoredOpRecord>)
    ensures multiset(Found(opIds, ops)) + multiset(Missing(opIds, ops)) == multiset(opIds)
    ensures forall id :: id in Found(opIds, ops) ==> id !in Missing(opIds, ops)
    ensures IsSubsequence(Found(opIds, ops), opIds) && IsSubsequence(Missing(opIds, ops), opIds)
  {
    FiltersAddUp(opIds, ops);
    FilterIsSubsequence(opIds, Present(ops));
    FilterIsSubsequence(opIds, Absent(ops));
  }

  // ---- Histories ----

  datatype Event = Store(opId: OpId, opData: Bytes, at: int) | Cleanup(at: int)

  function Run(events: seq<Event>): map<OpId, StoredOpRecord> {
    if events == [] then map[]
    else
      var before := Run(events[..|events| - 1]);
      match events[|events| - 1]
      case Store(id, data, at) => before[id := StoredOpRecord(data, at)]
      case Cleanup(at) => Unexpired(before, at)
  }

  predicate Stores(e: Event, id: OpId) {
    e.Store? && e.opId == id
  }

  // Event i is the last store of the id and no cleanup since found it a minute old.
  ghost predicate Survives(events: seq<Event>, id: OpId, i: int) {
    && 0 <= i < |events| && Stores(events[i], id)
    && (forall j :: i < j < |events| ==> !Stores(events[j], id))
    && (forall j :: i < j < |events| && events[j].Cleanup? ==> DurationSince(events[j].at, events[i].at) < OP_TTL)
  }

  lemma {:induction false} StoredIffSurvives(events: seq<Event>, id: OpId)
    ensures id in Run(events) <==> exists i :: Survives(events, id, i)
    ensures forall i :: Survives(events, id, i) ==> Run(events)[id] == StoredOpRecord(events[i].opData, events[i].at)
  {
    if events != [] {
      var last := |events| - 1;
      var before, e := events[..last], events[last];
      StoredIffSurvives(before, id);
      if Stores(e, id) {
        assert Survives(events, id, last);
      } else {
        forall i ensures Survives(events, id, i) <==>
                           Survives(before, id, i) && (e.Cleanup? ==> DurationSince(e.at, before[i].at) < OP_TTL)
        {
          assert forall j :: 0 <= j < last ==> before[j] == events[j];
        }
        if id in Run(events) {
          var i :| Survives(before, id, i);
          assert Survives(events, id, i);
        }
      }
    }
  }

  // An op is there for a full minute after it was stored, unless a store of the
  // same op that read the clock earlier took the lock later.
  lemma RetrievableForAMinute(events: seq<Event>, i: nat)
    requires i < |events| && events[i].Store?
    requires forall j :: i < j < |events| && Stores(events[j], events[i].opId) ==> events[i].at <= events[j].at
    requires forall j :: i < j < |events| && events[j].Cleanup? ==> events[j].at < events[i].at + 60_000
    ensures events[i].opId in Run(events)
  {
    var id := events[i].opId;
    var k := LastStore(events, id, i);
    assert Survives(events, id, k);
    StoredIffSurvives(events, id);
  }

  // Exactly when it is gone: some cleanup found the last store of the op a minute old.
  lemma GoneIffLastStoreExpired(events: seq<Event>, i: nat)
    requires i < |events| && events[i].Store?
    requires forall j :: i < j < |events| ==> !Stores(events[j], events[i].opId)
    ensures events[i].opId !in Run(events)
            <==> exists j :: i < j < |events| && events[j].Cleanup? && events[j].at >= events[i].at + 60_000
  {
    StoredIffSurvives(events, events[i].opId);
    if events[i].opId in Run(events) {
      var k :| Survives(events, events[i].opId, k);
      assert k == i;
    }
    if forall j :: i < j < |events| && events[j].Cleanup? ==> events[j].at < events[i].at + OP_TTL {
      assert Survives(events, events[i].opId, i);
    }
  }

  // Two publishers of one op: the first to read the clock is the last to take
  // the lock, and the op goes before its newer store is a minute old.
  lemma LateLockShortensLife(id: OpId, data: Bytes)
    ensures var events := [Store(id, data, 5), Store(id, data, 0), Cleanup(60_000)];
            events[2].at < events[0].at + 60_000 && id !in Run(events)
  {
    var events := [Store(id, data, 5), Store(id, data, 0), Cleanup(OP_TTL)];
    GoneIffLastStoreExpired(events, 1);
    assert events[2].Cleanup? && events[2].at >= events[1].at + OP_TTL;
  }

  lemma {:induction false} LastStore(events: seq<Event>, id: OpId, i: nat) returns (k: nat)
    requires i < |events| && Stores(events[i], id)
    ensures i <= k < |events| && Stores(events[k], id) && forall j :: k < j < |events| ==> !Stores(events[j], id)
    decreases |events| - i
  {
    if j :| i < j < |events| && Stores(events[j], id) {
      k := LastStore(events, id, j);
    } else {
      k := i;
    }
  }

  // Right after a cleanup every record is younger than a minute.
  lemma CleanupLeavesYoungRecords(events: seq<Event>, id: OpId)
    requires events != [] && events[|events| - 1].Cleanup? && id in Run(events)
    ensures DurationSince(events[|events| - 1].at, Run(events)[id].storedAt) < OP_TTL
  {
  }

  // By `now`, every full stretch of `gap` since `start` has seen a cleanup. The
  // task sleeps for CLEANUP_INTERVAL and then waits for the lock, so the gap is
  // that interval and the longest wait.
  ghost predicate CleanedRegularly(events: seq<Event>, start: int, now: int, gap: nat) {
    forall t :: start <= t <= now - gap ==> CleanedSoonAfter(events, t, gap)
  }

  ghost predicate CleanedSoonAfter(events: seq<Event>, t: int, gap: nat) {
    exists j :: 0 <= j < |events| && events[j].Cleanup? && t < events[j].at <= t + gap
  }

  // With cleanups at most `gap` apart, and no store waiting a minute for the
  // lock, no record gets to be a minute and `gap` old.
  lemma NoRecordOutlivesTheGap(events: seq<Event>, start: int, now: int, gap: nat, id: OpId)
    requires CleanedRegularly(events, start, now, gap)
    requires forall i :: 0 <= i < |events| ==> start <= events[i].at <= now
    requires forall i, j :: 0 <= j < i < |events| && events[i].Store? && events[j].Cleanup?
                            ==> events[j].at <= events[i].at + OP_TTL
    requires id in Run(events)
    ensures now - Run(events)[id].storedAt < OP_TTL + gap
  {
    StoredIffSurvives(events, id);
    var i :| Survives(events, id, i);
    var stored := events[i].at;
    assert !CleanedSoonAfter(events, stored + OP_TTL, gap);
  }

  // With a task that never waits for the lock: seventy seconds.
  lemma NoRecordReachesSeventySeconds(events: seq<Event>, start: int, now: int, id: OpId)
    requires CleanedRegularly(events, start, now, CLEANUP_INTERVAL)
    requires forall i :: 0 <= i < |events| ==> start <= events[i].at <= now
    requires forall i, j :: 0 <= j < i < |events| && events[i].Store? && events[j].Cleanup?
                            ==> events[j].at <= events[i].at + OP_TTL
    requires id in Run(events)
    ensures now - Run(events)[id].storedAt < 70_000
  {
    NoRecordOutlivesTheGap(events, start, now, CLEANUP_INTERVAL, id);
  }
}
