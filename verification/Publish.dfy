// The publish endpoint: store every op, group the stored ones by DHT location,
// publish each group, and report what reached the network.

module Publish {
  import opened Wrappers

  type OpId = nat
  type Location = nat
  type Url = nat

  datatype ProcessedOp = ProcessedOp(opId: OpId, basisLoc: Location)

  datatype OpPublishResult = OpPublishResult(success: bool, error: Option<string>)

  datatype PublishResponse = PublishResponse(
    success: bool, queued: nat, failed: nat, published: nat, results: seq<OpPublishResult>)

  // ---- Specification ----

  function StoredOps(outcomes: seq<Result<ProcessedOp, string>>): seq<ProcessedOp> {
    if outcomes == [] then []
    else
      var last := |outcomes| - 1;
      StoredOps(outcomes[..last]) + if outcomes[last].Ok? then [outcomes[last].value] else []
  }

  function IdsAt(ops: seq<ProcessedOp>, loc: Location): seq<OpId> {
    if ops == [] then []
    else
      var last := |ops| - 1;
      IdsAt(ops[..last], loc) + if ops[last].basisLoc == loc then [ops[last].opId] else []
  }

  function Locations(ops: seq<ProcessedOp>): set<Location> {
    set op | op in ops :: op.basisLoc
  }

  function CountOps(ops: seq<ProcessedOp>, counted: Location -> bool): (n: nat)
    ensures n <= |ops|
  {
    if ops == [] then 0
    else
      var last := |ops| - 1;
      CountOps(ops[..last], counted) + if counted(ops[last].basisLoc) then 1 else 0
  }

  // What kitsune answers when a group is published: the number of peers that got it.
  type Network = (Location, seq<OpId>) -> Result<nat, string>

  // The group of this location reached at least one peer.
  predicate Reached(network: Network, ops: seq<ProcessedOp>, loc: Location) {
    var answer := network(loc, IdsAt(ops, loc));
    answer.Ok? && answer.value > 0
  }

  function ReachedBy(network: Network, ops: seq<ProcessedOp>): Location -> bool {
    (loc: Location) => Reached(network, ops, loc)
  }

  // ---- Grouping is an order-preserving partition ----

  function PositionsAt(ops: seq<ProcessedOp>, loc: Location): (r: seq<nat>)
    ensures forall k :: 0 <= k < |r| ==> r[k] < |ops| && ops[r[k]].basisLoc == loc
    ensures forall k, l :: 0 <= k < l < |r| ==> r[k] < r[l]
    ensures forall p :: 0 <= p < |ops| && ops[p].basisLoc == loc ==> p in r
  {
    if ops == [] then []
    else
      var last := |ops| - 1;
      PositionsAt(ops[..last], loc) + if ops[last].basisLoc == loc then [last] else []
  }

  // The group of a location holds the ids of exactly its ops, in request order.
  lemma {:induction false} GroupsPartitionInOrder(ops: seq<ProcessedOp>, loc: Location)
    ensures |IdsAt(ops, loc)| == |PositionsAt(ops, loc)|
    ensures forall k :: 0 <= k < |PositionsAt(ops, loc)| ==> IdsAt(ops, loc)[k] == ops[PositionsAt(ops, loc)[k]].opId
  {
    if ops != [] {
      var last := |ops| - 1;
      var ids, places := IdsAt(ops[..last], loc), PositionsAt(ops[..last], loc);
      GroupsPartitionInOrder(ops[..last], loc);
      assert IdsAt(ops, loc) == ids + if ops[last].basisLoc == loc then [ops[last].opId] else [];
      assert PositionsAt(ops, loc) == places + if ops[last].basisLoc == loc then [last] else [];
      forall k | 0 <= k < |places| ensures IdsAt(ops, loc)[k] == ops[places[k]].opId {
        assert ops[..last][places[k]] == ops[places[k]];
      }
    }
  }

  function InVisited(visited: set<Location>, reached: Location -> bool): Location -> bool {
    loc => loc in visited && reached(loc)
  }

  // Publishing one more group counts its ops once.
  lemma {:induction false} VisitOneMore(ops: seq<ProcessedOp>, visited: set<Location>, loc: Location,
                                        reached: Location -> bool)
    requires loc !in visited
    ensures CountOps(ops, InVisited(visited + {loc}, reached))
            == CountOps(ops, InVisited(visited, reached)) + if reached(loc) then |IdsAt(ops, loc)| else 0
  {
    if ops != [] {
      VisitOneMore(ops[..|ops| - 1], visited, loc, reached);
    }
  }

  lemma {:induction false} CountVisitedIsCount(ops: seq<ProcessedOp>, visited: set<Location>, reached: Location -> bool)
    requires forall op :: op in ops ==> op.basisLoc in visited
    ensures CountOps(ops, InVisited(visited, reached)) == CountOps(ops, reached)
  {
    if ops != [] {
      CountVisitedIsCount(ops[..|ops| - 1], visited, reached);
    }
  }

  lemma {:induction false} NothingVisited(ops: seq<ProcessedOp>, reached: Location -> bool)
    ensures CountOps(ops, InVisited({}, reached)) == 0
  {
    if ops != [] {
      NothingVisited(ops[..|ops| - 1], reached);
    }
  }

  // ---- The endpoint ----

  ghost predicate GroupsOf(opsByLoc: map<Location, seq<OpId>>, ops: seq<ProcessedOp>) {
    && opsByLoc.Keys == Locations(ops)
    && (forall loc :: loc in opsByLoc ==> opsByLoc[loc] == IdsAt(ops, loc))
  }

  lemma {:induction false} NoIdsElsewhere(ops: seq<ProcessedOp>, loc: Location)
    requires loc !in Locations(ops)
    ensures IdsAt(ops, loc) == []
  {
    if ops != [] {
      assert ops[|ops| - 1] in ops;
      NoIdsElsewhere(ops[..|ops| - 1], loc);
    }
  }

  lemma GroupOneMore(opsByLoc: map<Location, seq<OpId>>, ops: seq<ProcessedOp>, op: ProcessedOp)
    requires GroupsOf(opsByLoc, ops)
    ensures GroupsOf(opsByLoc[op.basisLoc :=
                                (if op.basisLoc in opsByLoc then opsByLoc[op.basisLoc] else []) + [op.opId]],
                     ops + [op])
  {
    var longer := ops + [op];
    assert longer[..|longer| - 1] == ops;
    if op.basisLoc !in opsByLoc {
      NoIdsElsewhere(ops, op.basisLoc);
    }
    assert Locations(longer) == Locations(ops) + {op.basisLoc};
  }

  method GroupByLocation(ops: seq<ProcessedOp>) returns (opsByLoc: map<Location, seq<OpId>>)
    ensures GroupsOf(opsByLoc, ops)
  {
    opsByLoc := map[];
    for i := 0 to |ops|
      invariant GroupsOf(opsByLoc, ops[..i])
    {
      var op := ops[i];
      assert ops[..i + 1] == ops[..i] + [op];
      GroupOneMore(opsByLoc, ops[..i], op);
      var group := if op.basisLoc in opsByLoc then opsByLoc[op.basisLoc] else [];
      opsByLoc := opsByLoc[op.basisLoc := group + [op.opId]];
    }
    assert ops[..|ops|] == ops;
  }

  // Publishes the groups in whatever order the hash map yields them.
  method PublishGroups(ops: seq<ProcessedOp>, network: Network) returns (published: nat)
    ensures published == CountOps(ops, ReachedBy(network, ops))
  {
    var opsByLoc := GroupByLocation(ops);
    ghost var reached := ReachedBy(network, ops);
    ghost var visited: set<Location> := {};
    var unpublished := opsByLoc.Keys;
    published := 0;
    NothingVisited(ops, reached);
    while unpublished != {}
      invariant visited + unpublished == opsByLoc.Keys && visited !! unpublished
      invariant published == CountOps(ops, InVisited(visited, reached))
      decreases unpublished
    {
      var loc :| loc in unpublished;
      VisitOneMore(ops, visited, loc, reached);
      unpublished := unpublished - {loc};
      visited := visited + {loc};
      var opCount := |opsByLoc[loc]|;
      match network(loc, opsByLoc[loc])
      case Ok(peerCount) =>
        if peerCount > 0 {
          published := published + opCount;
        }
      case Err(_) =>
    }
    CountVisitedIsCount(ops, visited, reached);
  }

  // outcomes[i]: what decoding, checking and storing the i-th op of the request gave.
  method DhtPublish(outcomes: seq<Result<ProcessedOp, string>>, network: Option<Network>)
    returns (response: PublishResponse)
    ensures response.queued + response.failed == |outcomes| == |response.results|
    ensures forall i :: 0 <= i < |outcomes| ==>
              response.results[i] == if outcomes[i].Ok? then OpPublishResult(true, None)
                                     else OpPublishResult(false, Some(outcomes[i].error))
    ensures response.queued == |StoredOps(outcomes)|
    ensures response.published == if network.None? then 0
                                  else CountOps(StoredOps(outcomes), ReachedBy(network.value, StoredOps(outcomes)))
    ensures response.published <= response.queued
    ensures response.success <==>
              (forall i :: 0 <= i < |outcomes| ==> outcomes[i].Ok?) && (|outcomes| == 0 || response.published > 0)
  {
    var results: seq<OpPublishResult> := [];
    var queued, failed: nat := 0, 0;
    var processedOps: seq<ProcessedOp> := [];
    for i := 0 to |outcomes|
      invariant queued + failed == |results| == i
      invariant processedOps == StoredOps(outcomes[..i]) && queued == |processedOps|
      invariant failed == 0 <==> forall j :: 0 <= j < i ==> outcomes[j].Ok?
      invariant forall j :: 0 <= j < i ==>
                  results[j] == if outcomes[j].Ok? then OpPublishResult(true, None)
                                else OpPublishResult(false, Some(outcomes[j].error))
    {
      assert outcomes[..i + 1][..i] == outcomes[..i];
      match outcomes[i]
      case Ok(processed) =>
        queued := queued + 1;
        processedOps := processedOps + [processed];
        results := results + [OpPublishResult(true, None)];
      case Err(e) =>
        failed := failed + 1;
        results := results + [OpPublishResult(false, Some(e))];
    }
    assert outcomes[..|outcomes|] == outcomes;
    var published := 0;
    if processedOps != [] && network.Some? {
      published := PublishGroups(processedOps, network.value);
    }
    var success := failed == 0 && (queued == 0 || published > 0);
    response := PublishResponse(success, queued, failed, published, results);
  }

  // ---- Sending one group to its peers ----

  datatype PeerInfo = PeerInfo(url: Option<Url>, isTombstone: bool)

  // Peers that can be written to, each URL once.
  function Targets(peers: seq<PeerInfo>): set<Url> {
    set p | p in peers && !p.isTombstone && p.url.Some? :: p.url.value
  }

  datatype PublishError = NoSpace | PeerStoreFailed | LocalAgentStoreFailed | SearchFailed

  // What the space answers before anything is sent; `nearby` are the responsive
  // peers near the location.
  datatype SpaceView = SpaceView(opens: bool, allPeersOk: bool, localAgentsOk: bool, nearby: Option<seq<PeerInfo>>)

  method CollectUrls(peers: seq<PeerInfo>) returns (urls: set<Url>)
    ensures urls == Targets(peers)
  {
    urls := {};
    for i := 0 to |peers|
      invariant urls == Targets(peers[..i])
    {
      var info := peers[i];
      assert peers[..i + 1] == peers[..i] + [info];
      if info.isTombstone || info.url.None? {
        assert Targets(peers[..i + 1]) == urls;
        continue;
      }
      assert Targets(peers[..i + 1]) == urls + {info.url.value};
      urls := urls + {info.url.value};
    }
    assert peers[..|peers|] == peers;
  }

  // Sends the group to every distinct url; the first thing that fails before
  // that is reported instead.
  method PublishOps(space: SpaceView, accepts: Url -> bool) returns (result: Result<nat, PublishError>)
    ensures result.Ok? <==> space.opens && space.allPeersOk && space.localAgentsOk && space.nearby.Some?
    ensures result.Ok? ==> result.value == |set u | u in Targets(space.nearby.value) && accepts(u)|
    ensures result.Err? ==>
              && (result.error == NoSpace <==> !space.opens)
              && (result.error == PeerStoreFailed <==> space.opens && !space.allPeersOk)
              && (result.error == LocalAgentStoreFailed <==> space.opens && space.allPeersOk && !space.localAgentsOk)
  {
    if !space.opens {
      return Err(NoSpace);
    }
    if !space.allPeersOk {
      return Err(PeerStoreFailed);
    }
    if !space.localAgentsOk {
      return Err(LocalAgentStoreFailed);
    }
    if space.nearby.None? {
      return Err(SearchFailed);
    }
    var peers := space.nearby.value;
    var urls := CollectUrls(peers);
    ghost var reached: set<Url> := {};
    var successCount := 0;
    while urls != {}
      invariant urls <= Targets(peers) && successCount == |reached|
      invariant reached == set u | u in Targets(peers) - urls && accepts(u)
      decreases urls
    {
      var url :| url in urls;
      urls := urls - {url};
      if accepts(url) {
        successCount := successCount + 1;
        reached := reached + {url};
      }
    }
    assert reached == set u | u in Targets(peers) && accepts(u);
    return Ok(successCount);
  }
}
