// The preflight cache: the newest signed info of every agent in every space,
// and the encoded message that is sent to each new peer.

module Preflight {
  import opened Wrappers
  import opened Types

  type Bytes = seq<nat>

  datatype AgentInfo = AgentInfo(agent: nat, space: nat, expiresAt: int, url: nat)

  // Encoders: one agent info to text, the list of texts to a message.
  datatype Codec = Codec(info: AgentInfo -> Option<string>, message: seq<string> -> Option<Bytes>)

  // Infos that fail to encode are left out of the message.
  function Texts(c: Codec, infos: seq<AgentInfo>): seq<string> {
    if infos == [] then []
    else
      var last := |infos| - 1;
      Texts(c, infos[..last]) + if c.info(infos[last]).Some? then [c.info(infos[last]).value] else []
  }

  // The cached bytes stay as they are when the message cannot be encoded.
  function Reencode(c: Codec, infos: seq<AgentInfo>, cached: Bytes): Bytes {
    var encoded := c.message(Texts(c, infos));
    if encoded.Some? then encoded.value else cached
  }

  function Outlives(info: AgentInfo, now: int): AgentInfo -> bool {
    (cached: AgentInfo) => cached.expiresAt >= now && (cached.agent != info.agent || cached.space != info.space)
  }

  function Added(infos: seq<AgentInfo>, info: AgentInfo, now: int): seq<AgentInfo> {
    Filter(infos, Outlives(info, now)) + [info]
  }

  class PreflightCache {
    const codec: Codec
    var agents: seq<AgentInfo>
    var preflight: Bytes

    constructor (codec: Codec)
      requires codec.message([]).Some?
      ensures this.codec == codec && agents == [] && preflight == codec.message([]).value
    {
      this.codec, agents, preflight := codec, [], codec.message([]).value;
    }

    method AddAgent(info: AgentInfo, now: int)
      modifies this
      ensures agents == Added(old(agents), info, now)
      ensures preflight == Reencode(codec, agents, old(preflight))
    {
      Retain(info, now);
      agents := agents + [info];
      var encoded := EncodedAgents();
      var bytes := codec.message(encoded);
      if bytes.Some? {
        preflight := bytes.value;
      }
    }

    // Drops what has expired and what the new info replaces.
    method Retain(info: AgentInfo, now: int)
      modifies this`agents
      ensures agents == Filter(old(agents), Outlives(info, now))
    {
      var retained: seq<AgentInfo> := [];
      assert agents[..0] == [];
      for i := 0 to |agents|
        invariant agents == old(agents) && retained == Filter(agents[..i], Outlives(info, now))
      {
        assert agents[..i + 1] == agents[..i] + [agents[i]];
        FilterAppend(agents[..i], [agents[i]], Outlives(info, now));
        FilterOne(agents[i], Outlives(info, now));
        var cached := agents[i];
        if cached.expiresAt < now || (cached.agent == info.agent && cached.space == info.space) {
          continue;
        }
        retained := retained + [cached];
      }
      assert agents[..|agents|] == agents;
      agents := retained;
    }

    method EncodedAgents() returns (encoded: seq<string>)
      ensures encoded == Texts(codec, agents)
    {
      encoded := [];
      for i := 0 to |agents|
        invariant encoded == Texts(codec, agents[..i])
      {
        assert agents[..i + 1][..i] == agents[..i];
        var text := codec.info(agents[i]);
        if text.Some? {
          encoded := encoded + [text.value];
        }
      }
      assert agents[..|agents|] == agents;
    }
  }

  // ---- Histories of calls ----

  datatype Add = Add(info: AgentInfo, now: int)

  function ListAfter(calls: seq<Add>): seq<AgentInfo> {
    if calls == [] then []
    else
      var last := |calls| - 1;
      Added(ListAfter(calls[..last]), calls[last].info, calls[last].now)
  }

  function BytesAfter(c: Codec, calls: seq<Add>): Bytes
    requires c.message([]).Some?
  {
    if calls == [] then c.message([]).value
    else Reencode(c, ListAfter(calls), BytesAfter(c, calls[..|calls| - 1]))
  }

  // Call i was the last for its agent and space, and no later call found it expired.
  ghost predicate Kept(calls: seq<Add>, i: int) {
    && 0 <= i < |calls|
    && forall j :: i < j < |calls| ==>
         && !(calls[j].info.agent == calls[i].info.agent && calls[j].info.space == calls[i].info.space)
         && calls[i].info.expiresAt >= calls[j].now
  }

  // The infos of the chosen calls among the first n, in call order.
  ghost function Pick(calls: seq<Add>, n: nat, chosen: int -> bool): seq<AgentInfo>
    requires n <= |calls|
  {
    if n == 0 then []
    else Pick(calls, n - 1, chosen) + if chosen(n - 1) then [calls[n - 1].info] else []
  }

  ghost function KeptInfos(calls: seq<Add>): seq<AgentInfo> {
    Pick(calls, |calls|, i => Kept(calls, i))
  }

  lemma KeptExtends(calls: seq<Add>, i: int)
    requires 0 <= i < |calls| - 1
    ensures var (last, before) := (calls[|calls| - 1], calls[..|calls| - 1]);
            Kept(calls, i) <==> Kept(before, i) && Outlives(last.info, last.now)(calls[i].info)
  {
    var (last, before) := (calls[|calls| - 1], calls[..|calls| - 1]);
    assert forall j :: 0 <= j < |before| ==> before[j] == calls[j];
    assert Kept(calls, i) <==> Kept(before, i) && Outlives(calls[|before|].info, calls[|before|].now)(before[i].info);
  }

  lemma {:induction false} PickFromPrefix(calls: seq<Add>, before: seq<Add>, n: nat, chosen: int -> bool)
    requires n <= |before| <= |calls| && before == calls[..|before|]
    ensures Pick(before, n, chosen) == Pick(calls, n, chosen)
  {
    if n > 0 {
      PickFromPrefix(calls, before, n - 1, chosen);
    }
  }

  lemma {:induction false} FilterPick(calls: seq<Add>, n: nat, chosen: int -> bool, chosen': int -> bool,
                                      keep: AgentInfo -> bool)
    requires n <= |calls|
    requires forall i :: 0 <= i < n ==> (chosen'(i) <==> chosen(i) && keep(calls[i].info))
    ensures Filter(Pick(calls, n, chosen), keep) == Pick(calls, n, chosen')
  {
    if n == 0 {
      assert Pick(calls, n, chosen) == [];
    } else {
      FilterPick(calls, n - 1, chosen, chosen', keep);
      var info := calls[n - 1].info;
      var earlier := Pick(calls, n - 1, chosen);
      FilterOne(info, keep);
      if chosen(n - 1) {
        assert Pick(calls, n, chosen) == earlier + [info];
        FilterAppend(earlier, [info], keep);
      } else {
        assert Pick(calls, n, chosen) == earlier;
      }
      assert Pick(calls, n, chosen')
          == Filter(earlier, keep) + if chosen(n - 1) && keep(info) then [info] else [];
    }
  }

  lemma FilterOne(info: AgentInfo, keep: AgentInfo -> bool)
    ensures Filter([info], keep) == if keep(info) then [info] else []
    ensures Filter([], keep) == []
  {
    assert [info][1..] == [];
  }

  // After any calls the cache lists, in order of last add, the latest info of
  // each agent in each space, without those some later call found expired.
  lemma {:induction false} ListIsKeptInfos(calls: seq<Add>)
    ensures ListAfter(calls) == KeptInfos(calls)
  {
    if calls == [] {
      assert KeptInfos(calls) == [];
    } else {
      var last := |calls| - 1;
      var before := calls[..last];
      ListIsKeptInfos(before);
      forall i | 0 <= i < last
        ensures Kept(calls, i) <==> Kept(before, i) && Outlives(calls[last].info, calls[last].now)(calls[i].info)
      {
        KeptExtends(calls, i);
      }
      PickFromPrefix(calls, before, last, i => Kept(before, i));
      FilterPick(calls, last, i => Kept(before, i), i => Kept(calls, i), Outlives(calls[last].info, calls[last].now));
      assert Kept(calls, last);
    }
  }

  lemma {:induction false} PickedIff(calls: seq<Add>, n: nat, chosen: int -> bool, info: AgentInfo)
    requires n <= |calls|
    ensures info in Pick(calls, n, chosen) <==> exists i :: 0 <= i < n && chosen(i) && calls[i].info == info
  {
    if n > 0 {
      PickedIff(calls, n - 1, chosen, info);
    }
  }

  // Which infos are listed: those of a call after which no call had both its
  // agent and its space, and none found it expired.
  lemma ListedIff(calls: seq<Add>, info: AgentInfo)
    ensures info in ListAfter(calls)
            <==> exists i :: 0 <= i < |calls| && calls[i].info == info
                             && forall j :: i < j < |calls| ==>
                                  (calls[j].info.agent != info.agent || calls[j].info.space != info.space)
                                  && info.expiresAt >= calls[j].now
  {
    ListIsKeptInfos(calls);
    PickedIff(calls, |calls|, i => Kept(calls, i), info);
    forall i | 0 <= i < |calls| && calls[i].info == info
      ensures Kept(calls, i) <==> forall j :: i < j < |calls| ==>
                                    (calls[j].info.agent != info.agent || calls[j].info.space != info.space)
                                    && info.expiresAt >= calls[j].now
    {
    }
  }

  // So an agent's infos in two spaces stay side by side, whatever their urls.
  lemma OtherSpacesStay(calls: seq<Add>, info: AgentInfo, other: AgentInfo, now: int)
    requires info in ListAfter(calls) && info.space != other.space && info.expiresAt >= now
    ensures info in ListAfter(calls + [Add(other, now)]) && other in ListAfter(calls + [Add(other, now)])
  {
    var longer := calls + [Add(other, now)];
    assert longer[..|longer| - 1] == calls;
  }

  // With a clock that never runs backwards it is enough to look at the last call.
  lemma KeptByMonotoneClock(calls: seq<Add>, i: int)
    requires forall j, k :: 0 <= j <= k < |calls| ==> calls[j].now <= calls[k].now
    requires 0 <= i < |calls|
    ensures Kept(calls, i) <==>
              && (forall j :: i < j < |calls| ==>
                    calls[j].info.agent != calls[i].info.agent || calls[j].info.space != calls[i].info.space)
              && (i < |calls| - 1 ==> calls[i].info.expiresAt >= calls[|calls| - 1].now)
  {
  }

  ghost predicate SlotsApart(infos: seq<AgentInfo>) {
    forall i, j :: 0 <= i < j < |infos| ==> infos[i].agent != infos[j].agent || infos[i].space != infos[j].space
  }

  // One info per agent and space, always.
  lemma {:induction false} OneInfoPerSlot(calls: seq<Add>)
    ensures SlotsApart(ListAfter(calls))
  {
    if calls != [] {
      var last := |calls| - 1;
      OneInfoPerSlot(calls[..last]);
      var keep := Outlives(calls[last].info, calls[last].now);
      var kept := Filter(ListAfter(calls[..last]), keep);
      FilterKeepsSlotsApart(ListAfter(calls[..last]), keep);
      assert forall j :: 0 <= j < |kept| ==> kept[j] in kept && keep(kept[j]);
    }
  }

  lemma {:induction false} FilterKeepsSlotsApart(infos: seq<AgentInfo>, keep: AgentInfo -> bool)
    requires SlotsApart(infos)
    ensures SlotsApart(Filter(infos, keep))
  {
    if infos != [] {
      FilterKeepsSlotsApart(infos[1..], keep);
      assert forall x :: x in infos[1..] ==> infos[0].agent != x.agent || infos[0].space != x.space;
      var rest := Filter(infos[1..], keep);
      assert forall j :: 0 <= j < |rest| ==> rest[j] in rest;
      assert Filter(infos, keep) == (if keep(infos[0]) then [infos[0]] else []) + rest;
    }
  }

  // The message for the list after these calls, if it encodes.
  ghost function Message(c: Codec, calls: seq<Add>): Option<Bytes> {
    c.message(Texts(c, KeptInfos(calls)))
  }

  lemma NoCallsMessage(c: Codec)
    ensures Message(c, []) == c.message([])
  {
    assert KeptInfos([]) == [];
  }

  lemma BytesStep(c: Codec, calls: seq<Add>)
    requires c.message([]).Some? && calls != []
    ensures BytesAfter(c, calls)
            == if Message(c, calls).Some? then Message(c, calls).value else BytesAfter(c, calls[..|calls| - 1])
  {
    ListIsKeptInfos(calls);
  }

  // When the last message encodes, the cached one is the encoding of exactly that list.
  lemma BytesEncodeTheList(c: Codec, calls: seq<Add>)
    requires c.message([]).Some? && Message(c, calls).Some?
    ensures Some(BytesAfter(c, calls)) == Message(c, calls)
  {
    if calls == [] {
      NoCallsMessage(c);
    } else {
      BytesStep(c, calls);
    }
  }

  // Call n was the last whose message encoded (n = 0 is the empty cache's).
  ghost predicate LastEncoded(c: Codec, calls: seq<Add>, n: nat) {
    n <= |calls| && Message(c, calls[..n]).Some?
    && forall m :: n < m <= |calls| ==> Message(c, calls[..m]).None?
  }

  // In general it is the encoding of the list as it was when encoding last succeeded.
  lemma {:induction false} BytesAreLastEncoding(c: Codec, calls: seq<Add>, n: nat)
    requires c.message([]).Some? && LastEncoded(c, calls, n)
    ensures Some(BytesAfter(c, calls)) == Message(c, calls[..n])
  {
    assert calls[..|calls|] == calls;
    if n == |calls| {
      BytesEncodeTheList(c, calls);
    } else {
      var before := calls[..|calls| - 1];
      forall m | 0 <= m <= |before| ensures before[..m] == calls[..m] {
      }
      BytesAreLastEncoding(c, before, n);
      BytesStep(c, calls);
    }
  }

  // The list is encoded whole, in order, when each of its infos encodes.
  lemma {:induction false} TextsOfAll(c: Codec, infos: seq<AgentInfo>)
    requires forall info :: info in infos ==> c.info(info).Some?
    ensures |Texts(c, infos)| == |infos|
    ensures forall i :: 0 <= i < |infos| ==> Some(Texts(c, infos)[i]) == c.info(infos[i])
  {
    if infos != [] {
      TextsOfAll(c, infos[..|infos| - 1]);
    }
  }
}
