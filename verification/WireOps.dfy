// Condensed DHT answers and what the HTTP API rebuilds from them. Record and
// details conversions read the same operations and must agree.

module WireOps {
  import opened Wrappers
  import opened Types

  datatype ActionHash = ActionHash(raw: nat)
  datatype EntryHash = EntryHash(raw: nat)
  datatype LinkableHash = LinkableHash(raw: nat)
  type Signature = nat
  type EntryType = nat
  type Weight = nat
  type Entry = nat
  type LinkTag = seq<nat>

  // The fields every action has.
  datatype Header = Header(author: AgentPubKey, timestamp: int, actionSeq: nat, prevAction: ActionHash)

  datatype Action =
    | Create(header: Header, entryType: EntryType, entryHash: EntryHash, weight: Weight)
    | Update(header: Header, originalActionAddress: ActionHash, originalEntryAddress: EntryHash,
             entryType: EntryType, entryHash: EntryHash, weight: Weight)
    | Delete(delete: DeleteAction)
    | CreateLink(header: Header, baseAddress: LinkableHash, targetAddress: LinkableHash,
                 zomeIndex: nat, linkType: nat, tag: LinkTag, weight: Weight)
    | Other(header: Header)   // actions without an entry that are neither deletes nor links

  datatype DeleteAction = DeleteAction(
    header: Header, deletesAddress: ActionHash, deletesEntryAddress: EntryHash, weight: Weight)

  // The content hashes in use. Nothing below assumes more of them than it says.
  datatype Hashing = Hashing(action: Action -> ActionHash, entry: Entry -> EntryHash)

  datatype SignedAction = SignedAction(content: Action, hash: ActionHash, signature: Signature)

  function Sign(h: Hashing, content: Action, signature: Signature): SignedAction {
    SignedAction(content, h.action(content), signature)
  }

  // ---- Wire formats: fields shared by the whole answer are left out ----

  datatype ValidationStatus = Valid | Rejected | Abandoned

  datatype Judged<T> = Judged(data: T, status: Option<ValidationStatus>)

  datatype WireNewEntryAction =
    | WireCreate(header: Header, weight: Weight, signature: Signature)
    | WireUpdate(header: Header, originalActionAddress: ActionHash, originalEntryAddress: EntryHash,
                 weight: Weight, signature: Signature)

  datatype WireDelete = WireDelete(delete: DeleteAction, signature: Signature)

  datatype WireUpdateRelationship = WireUpdateRelationship(
    header: Header, originalActionAddress: ActionHash, newEntryAddress: EntryHash,
    newEntryType: EntryType, weight: Weight, signature: Signature)

  datatype EntryData = EntryData(entry: Entry, entryType: EntryType)

  datatype WireEntryOps = WireEntryOps(
    creates: seq<Judged<WireNewEntryAction>>, deletes: seq<Judged<WireDelete>>,
    updates: seq<Judged<WireUpdateRelationship>>, entry: Option<EntryData>)

  datatype WireRecordOps = WireRecordOps(
    action: Option<Judged<SignedAction>>, deletes: seq<Judged<WireDelete>>,
    updates: seq<Judged<WireUpdateRelationship>>, entry: Option<Entry>)

  datatype Record = Record(action: SignedAction, entry: Option<Entry>)

  datatype EntryDhtStatus = Live | Dead

  datatype EntryDetails = EntryDetails(
    entry: Entry, actions: seq<SignedAction>, rejectedActions: seq<SignedAction>,
    deletes: seq<SignedAction>, updates: seq<SignedAction>, status: EntryDhtStatus)

  datatype RecordDetails = RecordDetails(
    record: Record, validationStatus: ValidationStatus, deletes: seq<SignedAction>, updates: seq<SignedAction>)

  // ---- Rebuilding single actions ----

  function Rebuild(h: Hashing, ed: EntryData, w: WireNewEntryAction): SignedAction {
    var entryHash := h.entry(ed.entry);
    match w
    case WireCreate(header, weight, signature) =>
      Sign(h, Create(header, ed.entryType, entryHash, weight), signature)
    case WireUpdate(header, originalAction, originalEntry, weight, signature) =>
      Sign(h, Update(header, originalAction, originalEntry, ed.entryType, entryHash, weight), signature)
  }

  function RebuildDelete(h: Hashing, d: WireDelete): SignedAction {
    Sign(h, Delete(d.delete), d.signature)
  }

  function RebuildUpdate(h: Hashing, originalEntry: EntryHash, u: WireUpdateRelationship): SignedAction {
    Sign(h, Update(u.header, u.originalActionAddress, originalEntry, u.newEntryType, u.newEntryAddress, u.weight),
         u.signature)
  }

  // A missing status counts as valid.
  predicate IsValid<T>(j: Judged<T>) {
    j.status.None? || j.status.value == ValidationStatus.Valid
  }

  // ---- Entry answers ----

  function Rebuilt(h: Hashing, ed: EntryData, creates: seq<Judged<WireNewEntryAction>>, valid: bool)
    : (r: seq<SignedAction>)
    ensures |r| <= |creates|
  {
    if creates == [] then []
    else (if IsValid(creates[0]) == valid then [Rebuild(h, ed, creates[0].data)] else [])
         + Rebuilt(h, ed, creates[1..], valid)
  }

  function RebuiltDeletes(h: Hashing, deletes: seq<Judged<WireDelete>>): (r: seq<SignedAction>)
    ensures |r| == |deletes|
  {
    seq(|deletes|, i requires 0 <= i < |deletes| => RebuildDelete(h, deletes[i].data))
  }

  function RebuiltUpdates(h: Hashing, original: EntryHash, updates: seq<Judged<WireUpdateRelationship>>)
    : (r: seq<SignedAction>)
    ensures |r| == |updates|
  {
    seq(|updates|, i requires 0 <= i < |updates| => RebuildUpdate(h, original, updates[i].data))
  }

  function StatusOf(actions: nat, deletes: nat): EntryDhtStatus {
    if actions > 0 && deletes >= actions then Dead else Live
  }

  function EntryOpsToDetails(h: Hashing, ops: WireEntryOps): Option<EntryDetails> {
    match ops.entry
    case None => None
    case Some(ed) =>
      var actions := Rebuilt(h, ed, ops.creates, true);
      Some(EntryDetails(ed.entry, actions, Rebuilt(h, ed, ops.creates, false), RebuiltDeletes(h, ops.deletes),
                        RebuiltUpdates(h, h.entry(ed.entry), ops.updates), StatusOf(|actions|, |ops.deletes|)))
  }

  lemma {:induction false} RebuiltAppend(h: Hashing, ed: EntryData, xs: seq<Judged<WireNewEntryAction>>,
                                         x: Judged<WireNewEntryAction>, valid: bool)
    ensures Rebuilt(h, ed, xs + [x], valid)
            == Rebuilt(h, ed, xs, valid) + if IsValid(x) == valid then [Rebuild(h, ed, x.data)] else []
  {
    if xs == [] {
      assert xs + [x] == [x] && [x][1..] == [];
    } else {
      assert (xs + [x])[1..] == xs[1..] + [x];
      RebuiltAppend(h, ed, xs[1..], x, valid);
    }
  }

  method WireEntryOpsToDetails(h: Hashing, ops: WireEntryOps) returns (details: Option<EntryDetails>)
    ensures details == EntryOpsToDetails(h, ops)
  {
    if ops.entry.None? {
      return None;
    }
    var ed := ops.entry.value;
    var actions, rejectedActions := [], [];
    for i := 0 to |ops.creates|
      invariant actions == Rebuilt(h, ed, ops.creates[..i], true)
      invariant rejectedActions == Rebuilt(h, ed, ops.creates[..i], false)
    {
      var signed := Rebuild(h, ed, ops.creates[i].data);
      assert ops.creates[..i + 1] == ops.creates[..i] + [ops.creates[i]];
      RebuiltAppend(h, ed, ops.creates[..i], ops.creates[i], true);
      RebuiltAppend(h, ed, ops.creates[..i], ops.creates[i], false);
      match ops.creates[i].status {
        case None | Some(Valid) => actions := actions + [signed];
        case Some(Rejected) | Some(Abandoned) => rejectedActions := rejectedActions + [signed];
      }
    }
    assert ops.creates[..|ops.creates|] == ops.creates;
    var status := if actions != [] && |ops.deletes| < |actions| then Live
                  else if actions != [] then Dead
                  else Live;
    details := Some(EntryDetails(ed.entry, actions, rejectedActions, RebuiltDeletes(h, ops.deletes),
                                 RebuiltUpdates(h, h.entry(ed.entry), ops.updates), status));
  }

  // The hashes the delete operations name.
  function Tombstoned(deletes: seq<Judged<WireDelete>>): set<ActionHash> {
    set i | 0 <= i < |deletes| :: deletes[i].data.delete.deletesAddress
  }

  // First element whose hash is not among `gone`.
  function FirstAlive(actions: seq<SignedAction>, gone: set<ActionHash>): Option<SignedAction> {
    if actions == [] then None
    else if actions[0].hash !in gone then Some(actions[0])
    else FirstAlive(actions[1..], gone)
  }

  function EntryOpsToRecord(h: Hashing, ops: WireEntryOps): Option<Record> {
    match EntryOpsToDetails(h, ops)
    case None => None
    case Some(details) =>
      match FirstAlive(details.actions, Tombstoned(ops.deletes))
      case None => None
      case Some(action) => Some(Record(action, Some(details.entry)))
  }

  lemma {:induction false} FirstAliveSkips(dead: seq<SignedAction>, rest: seq<SignedAction>, gone: set<ActionHash>)
    requires forall a :: a in dead ==> a.hash in gone
    ensures FirstAlive(dead + rest, gone) == FirstAlive(rest, gone)
  {
    if dead == [] {
      assert dead + rest == rest;
    } else {
      assert (dead + rest)[1..] == dead[1..] + rest;
      FirstAliveSkips(dead[1..], rest, gone);
    }
  }

  // The record conversion scans the creates and returns early.
  method WireEntryOpsToRecord(h: Hashing, ops: WireEntryOps) returns (record: Option<Record>)
    ensures record == EntryOpsToRecord(h, ops)
  {
    if ops.entry.None? {
      return None;
    }
    var ed := ops.entry.value;
    var deletedActionHashes := Tombstoned(ops.deletes);
    ghost var all := Rebuilt(h, ed, ops.creates, true);
    ghost var skipped: seq<SignedAction> := [];
    assert ops.creates[0..] == ops.creates && skipped + all == all;
    for i := 0 to |ops.creates|
      invariant all == skipped + Rebuilt(h, ed, ops.creates[i..], true)
      invariant forall a :: a in skipped ==> a.hash in deletedActionHashes
    {
      var judged := ops.creates[i];
      assert ops.creates[i..][1..] == ops.creates[i + 1..];
      if judged.status == Some(Rejected) || judged.status == Some(Abandoned) {
        assert Rebuilt(h, ed, ops.creates[i..], true) == [] + Rebuilt(h, ed, ops.creates[i + 1..], true);
        continue;
      }
      var signed := Rebuild(h, ed, judged.data);
      ghost var rest := Rebuilt(h, ed, ops.creates[i + 1..], true);
      assert Rebuilt(h, ed, ops.creates[i..], true) == [signed] + rest;
      if signed.hash in deletedActionHashes {
        assert skipped + ([signed] + rest) == (skipped + [signed]) + rest;
        skipped := skipped + [signed];
        continue;
      }
      FirstAliveSkips(skipped, [signed] + rest, deletedActionHashes);
      return Some(Record(signed, Some(ed.entry)));
    }
    FirstAliveSkips(skipped, [], deletedActionHashes);
    assert all == skipped + [];
    return None;
  }

  // ---- Record and details agree ----

  predicate NamedByDelete(details: EntryDetails, hash: ActionHash) {
    exists d :: d in details.deletes && d.content.Delete? && d.content.delete.deletesAddress == hash
  }

  lemma TombstonesAreDetailDeletes(h: Hashing, ops: WireEntryOps, hash: ActionHash)
    requires ops.entry.Some?
    ensures hash in Tombstoned(ops.deletes) <==> NamedByDelete(EntryOpsToDetails(h, ops).value, hash)
  {
    var details := EntryOpsToDetails(h, ops).value;
    if hash in Tombstoned(ops.deletes) {
      var i :| 0 <= i < |ops.deletes| && ops.deletes[i].data.delete.deletesAddress == hash;
      assert details.deletes[i] in details.deletes;
    }
  }

  lemma {:induction false} FirstAliveIsFirst(actions: seq<SignedAction>, gone: set<ActionHash>)
    ensures FirstAlive(actions, gone).None? <==> forall a :: a in actions ==> a.hash in gone
    ensures FirstAlive(actions, gone).Some? ==>
              exists i :: 0 <= i < |actions| && FirstAlive(actions, gone) == Some(actions[i])
                          && actions[i].hash !in gone
                          && forall j :: 0 <= j < i ==> actions[j].hash in gone
  {
    if actions != [] && actions[0].hash in gone {
      FirstAliveIsFirst(actions[1..], gone);
      assert forall a :: a in actions <==> a == actions[0] || a in actions[1..];
      if FirstAlive(actions, gone).Some? {
        var i :| 0 <= i < |actions[1..]| && FirstAlive(actions[1..], gone) == Some(actions[1..][i])
                 && actions[1..][i].hash !in gone && forall j :: 0 <= j < i ==> actions[1..][j].hash in gone;
        assert forall j :: 1 <= j < i + 1 ==> actions[j] == actions[1..][j - 1];
        assert actions[i + 1] == actions[1..][i];
      }
    } else if actions != [] {
      assert actions[0] in actions;
    }
  }

  // The record is the first of the details' actions that no delete in those
  // details names, with the details' entry; null when there is none.
  lemma RecordIsFirstUndeletedAction(h: Hashing, ops: WireEntryOps)
    requires ops.entry.Some?
    ensures var (record, details) := (EntryOpsToRecord(h, ops), EntryOpsToDetails(h, ops).value);
            && (record.None? <==> forall a :: a in details.actions ==> NamedByDelete(details, a.hash))
            && (record.Some? ==>
                  exists i :: 0 <= i < |details.actions|
                              && record == Some(Record(details.actions[i], Some(details.entry)))
                              && !NamedByDelete(details, details.actions[i].hash)
                              && forall j :: 0 <= j < i ==> NamedByDelete(details, details.actions[j].hash))
  {
    var details := EntryOpsToDetails(h, ops).value;
    var gone := Tombstoned(ops.deletes);
    forall hash ensures hash in gone <==> NamedByDelete(details, hash) {
      TombstonesAreDetailDeletes(h, ops, hash);
    }
    FirstAliveIsFirst(details.actions, gone);
    if FirstAlive(details.actions, gone).Some? {
      var i :| 0 <= i < |details.actions| && FirstAlive(details.actions, gone) == Some(details.actions[i])
               && details.actions[i].hash !in gone && forall j :: 0 <= j < i ==> details.actions[j].hash in gone;
      assert EntryOpsToRecord(h, ops) == Some(Record(details.actions[i], Some(details.entry)));
      assert forall j :: 0 <= j < i ==> NamedByDelete(details, details.actions[j].hash);
    }
  }

  // ---- Nothing is lost ----

  // What the status of a create says about it.
  predicate HasStatus(status: Option<ValidationStatus>, valid: bool) {
    if valid then status == None || status == Some(ValidationStatus.Valid)
    else status == Some(Rejected) || status == Some(Abandoned)
  }

  lemma EveryStatusCounts(status: Option<ValidationStatus>)
    ensures HasStatus(status, true) <==> !HasStatus(status, false)
  {
    assert status.Some? ==> status.value.Valid? || status.value.Rejected? || status.value.Abandoned?;
  }

  // Positions of the creates of one validity, in order.
  function Positions(creates: seq<Judged<WireNewEntryAction>>, valid: bool): (r: seq<nat>)
    ensures forall k :: 0 <= k < |r| ==> r[k] < |creates| && HasStatus(creates[r[k]].status, valid)
    ensures forall k, l :: 0 <= k < l < |r| ==> r[k] < r[l]
    ensures forall p :: 0 <= p < |creates| && HasStatus(creates[p].status, valid) ==> p in r
  {
    if creates == [] then []
    else
      var last := |creates| - 1;
      Positions(creates[..last], valid) + if IsValid(creates[last]) == valid then [last] else []
  }

  // A valid create before the i-th valid one is an earlier valid one.
  lemma EarlierPlace(creates: seq<Judged<WireNewEntryAction>>, i: nat, q: nat) returns (k: nat)
    requires i < |Positions(creates, true)| && q < Positions(creates, true)[i]
    requires !HasStatus(creates[q].status, false)
    ensures k < i && Positions(creates, true)[k] == q
  {
    var places := Positions(creates, true);
    EveryStatusCounts(creates[q].status);
    assert q in places;
    k :| 0 <= k < |places| && places[k] == q;
  }

  lemma {:induction false} RebuiltAtPositions(h: Hashing, ed: EntryData, creates: seq<Judged<WireNewEntryAction>>,
                                              valid: bool)
    ensures var ps := Positions(creates, valid);
            && |Rebuilt(h, ed, creates, valid)| == |ps|
            && forall k :: 0 <= k < |ps| ==> Rebuilt(h, ed, creates, valid)[k] == Rebuild(h, ed, creates[ps[k]].data)
  {
    if creates != [] {
      var last := |creates| - 1;
      assert creates == creates[..last] + [creates[last]];
      RebuiltAppend(h, ed, creates[..last], creates[last], valid);
      RebuiltAtPositions(h, ed, creates[..last], valid);
    }
  }

  // `actions` and `rejectedActions` split the creates without changing their
  // order: the former are those whose status is missing or Valid, the latter
  // the Rejected and Abandoned ones. Every delete and update is rebuilt at its
  // own place.
  lemma DetailsLoseNothing(h: Hashing, ops: WireEntryOps)
    requires ops.entry.Some?
    ensures var details := EntryOpsToDetails(h, ops).value;
            var (valid, rejected) := (Positions(ops.creates, true), Positions(ops.creates, false));
            && |details.actions| == |valid| && |details.rejectedActions| == |rejected|
            && (forall k :: 0 <= k < |valid| ==>
                  details.actions[k] == Rebuild(h, ops.entry.value, ops.creates[valid[k]].data))
            && (forall k :: 0 <= k < |rejected| ==>
                  details.rejectedActions[k] == Rebuild(h, ops.entry.value, ops.creates[rejected[k]].data))
            && (forall p :: 0 <= p < |ops.creates| ==>
                  var status := ops.creates[p].status;
                  && (p in valid <==> status == None || status == Some(ValidationStatus.Valid))
                  && (p in rejected <==> status == Some(Rejected) || status == Some(Abandoned)))
            && |details.deletes| == |ops.deletes| && |details.updates| == |ops.updates|
            && (forall i :: 0 <= i < |ops.deletes| ==> details.deletes[i] == RebuildDelete(h, ops.deletes[i].data))
            && (forall i :: 0 <= i < |ops.updates| ==>
                  details.updates[i] == RebuildUpdate(h, h.entry(ops.entry.value.entry), ops.updates[i].data))
  {
    RebuiltAtPositions(h, ops.entry.value, ops.creates, true);
    RebuiltAtPositions(h, ops.entry.value, ops.creates, false);
  }

  // The record is rebuilt from a create whose status is missing or Valid, is
  // named by no delete, and comes after none of which that could be said.
  lemma RecordComesFromFirstValidCreate(h: Hashing, ops: WireEntryOps)
    requires EntryOpsToRecord(h, ops).Some?
    ensures var (record, details) := (EntryOpsToRecord(h, ops).value, EntryOpsToDetails(h, ops).value);
            exists p :: 0 <= p < |ops.creates|
                        && (ops.creates[p].status == None || ops.creates[p].status == Some(ValidationStatus.Valid))
                        && record.action == Rebuild(h, ops.entry.value, ops.creates[p].data)
                        && !NamedByDelete(details, record.action.hash)
                        && forall q :: 0 <= q < p ==>
                             || ops.creates[q].status == Some(Rejected) || ops.creates[q].status == Some(Abandoned)
                             || NamedByDelete(details, Rebuild(h, ops.entry.value, ops.creates[q].data).hash)
  {
    var details := EntryOpsToDetails(h, ops).value;
    RecordIsFirstUndeletedAction(h, ops);
    var i :| 0 <= i < |details.actions|
             && EntryOpsToRecord(h, ops) == Some(Record(details.actions[i], Some(details.entry)))
             && !NamedByDelete(details, details.actions[i].hash)
             && forall j :: 0 <= j < i ==> NamedByDelete(details, details.actions[j].hash);
    var p := CreatesBefore(h, ops, i);
  }

  // Action i's create, and what the creates before it became.
  lemma CreatesBefore(h: Hashing, ops: WireEntryOps, i: nat) returns (p: nat)
    requires ops.entry.Some? && i < |EntryOpsToDetails(h, ops).value.actions|
    ensures var actions := EntryOpsToDetails(h, ops).value.actions;
            && p < |ops.creates| && HasStatus(ops.creates[p].status, true)
            && actions[i] == Rebuild(h, ops.entry.value, ops.creates[p].data)
            && forall q :: 0 <= q < p ==>
                 || HasStatus(ops.creates[q].status, false)
                 || exists k :: 0 <= k < i && actions[k] == Rebuild(h, ops.entry.value, ops.creates[q].data)
  {
    var actions := EntryOpsToDetails(h, ops).value.actions;
    var places := Positions(ops.creates, true);
    RebuiltAtPositions(h, ops.entry.value, ops.creates, true);
    p := places[i];
    forall q | 0 <= q < p && !HasStatus(ops.creates[q].status, false)
      ensures exists k :: 0 <= k < i && actions[k] == Rebuild(h, ops.entry.value, ops.creates[q].data)
    {
      var k := EarlierPlace(ops.creates, i, q);
    }
  }

  // ---- Status against record ----

  function HashesOf(actions: seq<SignedAction>): set<ActionHash> {
    set a | a in actions :: a.hash
  }

  predicate DistinctHashes(actions: seq<SignedAction>) {
    forall i, j :: 0 <= i < j < |actions| ==> actions[i].hash != actions[j].hash
  }

  lemma {:induction false} DistinctHashesCount(actions: seq<SignedAction>)
    requires DistinctHashes(actions)
    ensures |HashesOf(actions)| == |actions|
  {
    if actions == [] {
      assert HashesOf(actions) == {};
    } else {
      var last := |actions| - 1;
      var front := actions[..last];
      DistinctHashesCount(front);
      assert actions == front + [actions[last]];
      assert HashesOf(actions) == HashesOf(front) + {actions[last].hash};
      assert actions[last].hash !in HashesOf(front);
    }
  }

  lemma {:induction false} TombstonesAtMostDeletes(deletes: seq<Judged<WireDelete>>)
    ensures |Tombstoned(deletes)| <= |deletes|
  {
    if deletes == [] {
      assert Tombstoned(deletes) == {};
    } else {
      var last := |deletes| - 1;
      TombstonesAtMostDeletes(deletes[..last]);
      assert Tombstoned(deletes) == Tombstoned(deletes[..last]) + {deletes[last].data.delete.deletesAddress};
    }
  }

  lemma SubsetSize<T>(a: set<T>, b: set<T>)
    requires a <= b
    ensures |a| <= |b| && (|a| == |b| ==> a == b)
  {
    assert b == a + (b - a);
  }

  // How many of the valid creates some delete names.
  function DeletedCreates(details: EntryDetails, ops: WireEntryOps): nat {
    |HashesOf(details.actions) * Tombstoned(ops.deletes)|
  }

  lemma NullIffAllDeleted(h: Hashing, ops: WireEntryOps)
    requires ops.entry.Some? && DistinctHashes(EntryOpsToDetails(h, ops).value.actions)
    ensures var details := EntryOpsToDetails(h, ops).value;
            EntryOpsToRecord(h, ops).None? <==> DeletedCreates(details, ops) == |details.actions|
  {
    var details := EntryOpsToDetails(h, ops).value;
    var (hashes, gone) := (HashesOf(details.actions), Tombstoned(ops.deletes));
    DistinctHashesCount(details.actions);
    FirstAliveIsFirst(details.actions, gone);
    SubsetSize(hashes * gone, hashes);
    if EntryOpsToRecord(h, ops).None? {
      assert hashes * gone == hashes;
    }
    if |hashes * gone| == |details.actions| {
      assert hashes * gone == hashes;
      forall a | a in details.actions ensures a.hash in gone {
        assert a.hash in hashes;
      }
    }
  }

  // Live with some valid create: fewer deletes than distinct creates cannot name them all.
  lemma LiveMeansRecord(h: Hashing, ops: WireEntryOps)
    requires ops.entry.Some?
    requires var details := EntryOpsToDetails(h, ops).value;
             DistinctHashes(details.actions) && details.actions != [] && details.status == Live
    ensures EntryOpsToRecord(h, ops).Some?
  {
    var details := EntryOpsToDetails(h, ops).value;
    var (hashes, gone) := (HashesOf(details.actions), Tombstoned(ops.deletes));
    NullIffAllDeleted(h, ops);
    TombstonesAtMostDeletes(ops.deletes);
    SubsetSize(hashes * gone, gone);
  }

  // With valid creates of distinct hashes, exactly when status and record agree:
  // some create is valid, and there are fewer deletes than valid creates or the
  // deletes name them all. (Without a valid create the status defaults to Live.)
  lemma StatusAgreesIff(h: Hashing, ops: WireEntryOps)
    requires ops.entry.Some? && DistinctHashes(EntryOpsToDetails(h, ops).value.actions)
    ensures var details := EntryOpsToDetails(h, ops).value;
            (details.status == Dead <==> EntryOpsToRecord(h, ops).None?)
            <==> details.actions != []
                 && (|ops.deletes| < |details.actions| || DeletedCreates(details, ops) == |details.actions|)
  {
    var details := EntryOpsToDetails(h, ops).value;
    NullIffAllDeleted(h, ops);
    if details.actions != [] && |ops.deletes| < |details.actions| {
      LiveMeansRecord(h, ops);
    }
  }

  predicate DistinctTargets(deletes: seq<Judged<WireDelete>>) {
    forall i, j :: 0 <= i < j < |deletes| ==>
      deletes[i].data.delete.deletesAddress != deletes[j].data.delete.deletesAddress
  }

  lemma {:induction false} DistinctTargetsCount(deletes: seq<Judged<WireDelete>>)
    requires DistinctTargets(deletes)
    ensures |Tombstoned(deletes)| == |deletes|
  {
    if deletes == [] {
      assert Tombstoned(deletes) == {};
    } else {
      var last := |deletes| - 1;
      DistinctTargetsCount(deletes[..last]);
      assert Tombstoned(deletes) == Tombstoned(deletes[..last]) + {deletes[last].data.delete.deletesAddress};
      assert deletes[last].data.delete.deletesAddress !in Tombstoned(deletes[..last]);
    }
  }

  // If moreover each delete names a different valid create, they always agree.
  lemma DistinctDeletesAgree(h: Hashing, ops: WireEntryOps)
    requires ops.entry.Some? && DistinctTargets(ops.deletes)
    requires var details := EntryOpsToDetails(h, ops).value;
             && DistinctHashes(details.actions) && details.actions != []
             && Tombstoned(ops.deletes) <= HashesOf(details.actions)
    ensures EntryOpsToDetails(h, ops).value.status == Dead <==> EntryOpsToRecord(h, ops).None?
  {
    var details := EntryOpsToDetails(h, ops).value;
    var (hashes, gone) := (HashesOf(details.actions), Tombstoned(ops.deletes));
    DistinctHashesCount(details.actions);
    DistinctTargetsCount(ops.deletes);
    SubsetSize(gone, hashes);
    assert hashes * gone == gone;
    StatusAgreesIff(h, ops);
  }

  // Two agents delete the same one of two creates: reported dead, yet a record is returned.
  lemma RepeatedDeleteDisagrees(h: Hashing, ops: WireEntryOps, w0: WireNewEntryAction, w1: WireNewEntryAction,
                                d0: Judged<WireDelete>, d1: Judged<WireDelete>, ed: EntryData)
    requires Rebuild(h, ed, w0).hash != Rebuild(h, ed, w1).hash
    requires d0.data.delete.deletesAddress == d1.data.delete.deletesAddress == Rebuild(h, ed, w0).hash
    requires ops == WireEntryOps([Judged(w0, None), Judged(w1, None)], [d0, d1], [], Some(ed))
    ensures EntryOpsToDetails(h, ops).value.status == Dead
    ensures EntryOpsToRecord(h, ops) == Some(Record(Rebuild(h, ed, w1), Some(ed.entry)))
  {
    var (a0, a1) := (Rebuild(h, ed, w0), Rebuild(h, ed, w1));
    assert ops.creates[1..] == [Judged(w1, None)] && ops.creates[1..][1..] == [];
    assert Rebuilt(h, ed, ops.creates[1..], true) == [a1];
    assert Rebuilt(h, ed, ops.creates, true) == [a0, a1];
    assert ops.deletes[0].data.delete.deletesAddress in Tombstoned(ops.deletes);
    assert [a0, a1][1..] == [a1];
    var gone := Tombstoned(ops.deletes);
    assert a0.hash in gone && a1.hash !in gone;
    assert FirstAlive([a0, a1], gone) == FirstAlive([a1], gone) == Some(a1);
  }

  // ---- Reconstruction undoes condensation ----

  // What a peer keeps of a create or update action of the entry it ships.
  function Condense(a: SignedAction): WireNewEntryAction
    requires a.content.Create? || a.content.Update?
  {
    match a.content
    case Create(header, _, _, weight) => WireCreate(header, weight, a.signature)
    case Update(header, originalAction, originalEntry, _, _, weight) =>
      WireUpdate(header, originalAction, originalEntry, weight, a.signature)
  }

  // An action of the shipped entry comes back whole, with its hash and
  // signature, exactly when it was of that entry and type in the first place.
  lemma RebuildInvertsCondense(h: Hashing, ed: EntryData, a: SignedAction)
    requires a.content.Create? || a.content.Update?
    requires a.hash == h.action(a.content)
    ensures Rebuild(h, ed, Condense(a)) == a
            <==> a.content.entryHash == h.entry(ed.entry) && a.content.entryType == ed.entryType
  {
  }

  function CondenseUpdate(a: SignedAction): WireUpdateRelationship
    requires a.content.Update?
  {
    WireUpdateRelationship(a.content.header, a.content.originalActionAddress, a.content.entryHash,
                           a.content.entryType, a.content.weight, a.signature)
  }

  // An update that replaces an entry comes back whole next to that entry.
  lemma RebuildInvertsCondenseUpdate(h: Hashing, original: EntryHash, a: SignedAction)
    requires a.content.Update? && a.hash == h.action(a.content)
    ensures RebuildUpdate(h, original, CondenseUpdate(a)) == a <==> a.content.originalEntryAddress == original
  {
  }

  function CondenseDelete(a: SignedAction): WireDelete
    requires a.content.Delete?
  {
    WireDelete(a.content.delete, a.signature)
  }

  // What the answer's actions must be for it to be one answer about `ed`.
  predicate IsActionOf(h: Hashing, ed: EntryData, a: SignedAction) {
    && (a.content.Create? || a.content.Update?) && a.hash == h.action(a.content)
    && a.content.entryHash == h.entry(ed.entry) && a.content.entryType == ed.entryType
  }

  predicate IsDelete(h: Hashing, a: SignedAction) {
    a.content.Delete? && a.hash == h.action(a.content)
  }

  predicate IsUpdateOf(h: Hashing, original: EntryHash, a: SignedAction) {
    a.content.Update? && a.hash == h.action(a.content) && a.content.originalEntryAddress == original
  }

  // The actions of one validity, in order.
  function Chosen(actions: seq<Judged<SignedAction>>, valid: bool): seq<SignedAction> {
    if actions == [] then []
    else (if IsValid(actions[0]) == valid then [actions[0].data] else []) + Chosen(actions[1..], valid)
  }

  function Data(actions: seq<Judged<SignedAction>>): seq<SignedAction> {
    seq(|actions|, i requires 0 <= i < |actions| => actions[i].data)
  }

  // The answer a peer condenses from those actions.
  predicate Condenses(ops: WireEntryOps, ed: EntryData, creates: seq<Judged<SignedAction>>,
                      deletes: seq<Judged<SignedAction>>, updates: seq<Judged<SignedAction>>)
  {
    && ops.entry == Some(ed)
    && |ops.creates| == |creates| && |ops.deletes| == |deletes| && |ops.updates| == |updates|
    && (forall i :: 0 <= i < |creates| ==>
          var (a, status) := (creates[i].data, creates[i].status);
          (a.content.Create? || a.content.Update?) && ops.creates[i] == Judged(Condense(a), status))
    && (forall i :: 0 <= i < |deletes| ==>
          var (a, status) := (deletes[i].data, deletes[i].status);
          a.content.Delete? && ops.deletes[i] == Judged(CondenseDelete(a), status))
    && (forall i :: 0 <= i < |updates| ==>
          var (a, status) := (updates[i].data, updates[i].status);
          a.content.Update? && ops.updates[i] == Judged(CondenseUpdate(a), status))
  }

  lemma {:induction false} RebuiltAreChosen(h: Hashing, ed: EntryData, creates: seq<Judged<SignedAction>>,
                                            wire: seq<Judged<WireNewEntryAction>>, valid: bool)
    requires |wire| == |creates|
    requires forall i :: 0 <= i < |creates| ==>
               IsActionOf(h, ed, creates[i].data) && wire[i] == Judged(Condense(creates[i].data), creates[i].status)
    ensures Rebuilt(h, ed, wire, valid) == Chosen(creates, valid)
  {
    if creates != [] {
      RebuildInvertsCondense(h, ed, creates[0].data);
      RebuiltAreChosen(h, ed, creates[1..], wire[1..], valid);
    }
  }

  // A whole answer: every create, delete and update a peer condensed for this
  // entry is in the details again, valid and rejected creates in their order.
  lemma DetailsInvertCondense(h: Hashing, ed: EntryData, creates: seq<Judged<SignedAction>>,
                              deletes: seq<Judged<SignedAction>>, updates: seq<Judged<SignedAction>>, ops: WireEntryOps)
    requires forall i :: 0 <= i < |creates| ==> IsActionOf(h, ed, creates[i].data)
    requires forall i :: 0 <= i < |deletes| ==> IsDelete(h, deletes[i].data)
    requires forall i :: 0 <= i < |updates| ==> IsUpdateOf(h, h.entry(ed.entry), updates[i].data)
    requires Condenses(ops, ed, creates, deletes, updates)
    ensures EntryOpsToDetails(h, ops)
            == Some(EntryDetails(ed.entry, Chosen(creates, true), Chosen(creates, false), Data(deletes), Data(updates),
                                 StatusOf(|Chosen(creates, true)|, |deletes|)))
  {
    RebuiltAreChosen(h, ed, creates, ops.creates, true);
    RebuiltAreChosen(h, ed, creates, ops.creates, false);
    forall i | 0 <= i < |deletes| ensures RebuildDelete(h, ops.deletes[i].data) == deletes[i].data {
    }
    assert RebuiltDeletes(h, ops.deletes) == Data(deletes);
    forall i | 0 <= i < |updates|
      ensures RebuildUpdate(h, h.entry(ed.entry), ops.updates[i].data) == updates[i].data
    {
      RebuildInvertsCondenseUpdate(h, h.entry(ed.entry), updates[i].data);
    }
    assert RebuiltUpdates(h, h.entry(ed.entry), ops.updates) == Data(updates);
  }

  // ---- Record answers ----

  // The entry an action creates or updates to, if it has one.
  function EntryOf(a: Action): Option<EntryHash> {
    if a.Create? || a.Update? then Some(a.entryHash) else None
  }

  function WireRecordOpsToRecord(h: Hashing, ops: WireRecordOps): Option<Record> {
    match ops.action
    case None => None
    case Some(judged) => Some(Record(Sign(h, judged.data.content, judged.data.signature), ops.entry))
  }

  // Updates cannot be rebuilt next to an action without an entry and are skipped there.
  function WireRecordOpsToDetails(h: Hashing, ops: WireRecordOps): Option<RecordDetails> {
    match ops.action
    case None => None
    case Some(judged) =>
      var status := if judged.status.None? then ValidationStatus.Valid else judged.status.value;
      var updates := match EntryOf(judged.data.content)
                     case None => []
                     case Some(original) => RebuiltUpdates(h, original, ops.updates);
      Some(RecordDetails(WireRecordOpsToRecord(h, ops).value, status, RebuiltDeletes(h, ops.deletes), updates))
  }

  // A whole record answer: the original action with its entry, hash and
  // signature, the status it was given (Valid if none was), the original
  // deletes, and the original updates next to a create or an update.
  lemma RecordDetailsInvertCondense(h: Hashing, a: SignedAction, status: Option<ValidationStatus>,
                                    deletes: seq<Judged<SignedAction>>, updates: seq<Judged<SignedAction>>,
                                    ops: WireRecordOps)
    requires ops.action == Some(Judged(a, status)) && a.hash == h.action(a.content)
    requires |ops.deletes| == |deletes| && |ops.updates| == |updates|
    requires forall i :: 0 <= i < |deletes| ==>
               IsDelete(h, deletes[i].data) && ops.deletes[i].data == CondenseDelete(deletes[i].data)
    requires forall i :: 0 <= i < |updates| ==>
               && updates[i].data.content.Update? && ops.updates[i].data == CondenseUpdate(updates[i].data)
               && (a.content.Create? || a.content.Update? ==> IsUpdateOf(h, a.content.entryHash, updates[i].data))
    ensures WireRecordOpsToRecord(h, ops) == Some(Record(a, ops.entry))
    ensures WireRecordOpsToDetails(h, ops)
            == Some(RecordDetails(Record(a, ops.entry), match status case None => Valid case Some(given) => given,
                                  Data(deletes), if a.content.Create? || a.content.Update? then Data(updates) else []))
  {
    forall i | 0 <= i < |deletes| ensures RebuildDelete(h, ops.deletes[i].data) == deletes[i].data {
    }
    assert RebuiltDeletes(h, ops.deletes) == Data(deletes);
    if a.content.Create? || a.content.Update? {
      forall i | 0 <= i < |updates|
        ensures RebuildUpdate(h, a.content.entryHash, ops.updates[i].data) == updates[i].data
      {
        RebuildInvertsCondenseUpdate(h, a.content.entryHash, updates[i].data);
      }
      assert RebuiltUpdates(h, a.content.entryHash, ops.updates) == Data(updates);
    }
  }

  // An answer without an action gives neither a record nor details.
  lemma NoActionNoRecord(h: Hashing, ops: WireRecordOps)
    ensures WireRecordOpsToRecord(h, ops).None? <==> ops.action.None?
    ensures WireRecordOpsToDetails(h, ops).None? <==> ops.action.None?
  {
  }

  // Updates of a record survive exactly when its action carries an entry (or there are none).
  lemma RecordUpdatesKeptIff(h: Hashing, ops: WireRecordOps, a: SignedAction, updates: seq<SignedAction>)
    requires ops.action.Some? && ops.action.value.data == a
    requires |updates| == |ops.updates|
    requires forall i :: 0 <= i < |updates| ==>
               && updates[i].content.Update? && updates[i].hash == h.action(updates[i].content)
               && ops.updates[i].data == CondenseUpdate(updates[i])
               && (EntryOf(a.content).Some? ==> updates[i].content.originalEntryAddress == EntryOf(a.content).value)
    ensures WireRecordOpsToDetails(h, ops).value.updates == updates
            <==> a.content.Create? || a.content.Update? || updates == []
  {
    if EntryOf(a.content).Some? {
      forall i | 0 <= i < |updates|
        ensures RebuildUpdate(h, EntryOf(a.content).value, ops.updates[i].data) == updates[i]
      {
        RebuildInvertsCondenseUpdate(h, EntryOf(a.content).value, updates[i]);
      }
    }
  }

  // ---- Links ----

  datatype WireCreateLink = WireCreateLink(
    header: Header, targetAddress: LinkableHash, zomeIndex: nat, linkType: nat,
    tag: Option<LinkTag>, weight: Weight)

  datatype Link = Link(
    author: AgentPubKey, base: LinkableHash, target: LinkableHash, timestamp: int,
    zomeIndex: nat, linkType: nat, tag: LinkTag, createLinkHash: ActionHash)

  // The shipped tag, else the query's, else the empty tag.
  function ResolveTag(tag: Option<LinkTag>, queryTag: Option<LinkTag>): LinkTag {
    if tag.Some? then tag.value else if queryTag.Some? then queryTag.value else []
  }

  function RebuildLink(w: WireCreateLink, base: LinkableHash, queryTag: Option<LinkTag>): Action {
    CreateLink(w.header, base, w.targetAddress, w.zomeIndex, w.linkType, ResolveTag(w.tag, queryTag), w.weight)
  }

  function ToLink(h: Hashing, w: WireCreateLink, base: LinkableHash, queryTag: Option<LinkTag>): Link {
    Link(w.header.author, base, w.targetAddress, w.header.timestamp, w.zomeIndex, w.linkType,
         ResolveTag(w.tag, queryTag), h.action(RebuildLink(w, base, queryTag)))
  }

  // Deletes are deliberately not applied: the client pairs them itself.
  function WireLinkOpsToLinks(h: Hashing, creates: seq<WireCreateLink>, base: LinkableHash, queryTag: Option<LinkTag>)
    : seq<Link>
  {
    seq(|creates|, i requires 0 <= i < |creates| => ToLink(h, creates[i], base, queryTag))
  }

  // The link a CreateLink action stands for.
  function LinkOf(h: Hashing, a: Action): Link
    requires a.CreateLink?
  {
    Link(a.header.author, a.baseAddress, a.targetAddress, a.header.timestamp, a.zomeIndex, a.linkType, a.tag,
         h.action(a))
  }

  function CondenseLink(a: Action, keepTag: bool): WireCreateLink
    requires a.CreateLink?
  {
    WireCreateLink(a.header, a.targetAddress, a.zomeIndex, a.linkType, if keepTag then Some(a.tag) else None, a.weight)
  }

  // A condensed link action of this base is rebuilt exactly when its tag was
  // shipped, or is the query's, or is empty and the query has none.
  lemma LinkRebuiltIff(a: Action, keepTag: bool, queryTag: Option<LinkTag>)
    requires a.CreateLink?
    ensures RebuildLink(CondenseLink(a, keepTag), a.baseAddress, queryTag) == a
            <==> keepTag || queryTag == Some(a.tag) || (queryTag.None? && a.tag == [])
  {
  }

  // A whole answer: one link per create, in order, each with its action's own hash.
  lemma LinksInvertCondense(h: Hashing, actions: seq<Action>, creates: seq<WireCreateLink>, base: LinkableHash,
                            queryTag: Option<LinkTag>)
    requires |creates| == |actions|
    requires forall i :: 0 <= i < |actions| ==>
               && actions[i].CreateLink? && actions[i].baseAddress == base
               && (creates[i] == CondenseLink(actions[i], true)
                   || (creates[i] == CondenseLink(actions[i], false)
                       && (queryTag == Some(actions[i].tag) || (queryTag.None? && actions[i].tag == []))))
    ensures |WireLinkOpsToLinks(h, creates, base, queryTag)| == |actions|
    ensures forall i :: 0 <= i < |actions| ==>
              WireLinkOpsToLinks(h, creates, base, queryTag)[i] == LinkOf(h, actions[i])
  {
    forall i | 0 <= i < |actions| ensures RebuildLink(creates[i], base, queryTag) == actions[i] {
      LinkRebuiltIff(actions[i], creates[i].tag.Some?, queryTag);
    }
  }
}
