// Choosing among the answers of peers queried in parallel. The five query
// loops await their tasks in spawn order and keep a fallback.

module QuerySelection {
  import opened Wrappers
  import opened WireOps

  // What awaiting one task yields: a join error, or the peer's result.
  datatype Joined<T, E> = JoinError | Answer(result: Result<Option<T>, E>)

  predicate IsOk<T, E>(a: Joined<T, E>) {
    a.Answer? && a.result.Ok?
  }

  predicate IsErr<T, E>(a: Joined<T, E>) {
    a.Answer? && a.result.Err?
  }

  predicate Acceptable<T, E>(a: Joined<T, E>, accept: T -> bool) {
    IsOk(a) && a.result.value.Some? && accept(a.result.value.value)
  }

  ghost predicate FirstAcceptable<T, E>(answers: seq<Joined<T, E>>, accept: T -> bool, i: int) {
    && 0 <= i < |answers| && Acceptable(answers[i], accept)
    && forall j :: 0 <= j < i ==> !Acceptable(answers[j], accept)
  }

  ghost predicate LastOk<T, E>(answers: seq<Joined<T, E>>, i: int) {
    && 0 <= i < |answers| && IsOk(answers[i])
    && forall j :: i < j < |answers| ==> !IsOk(answers[j])
  }

  ghost predicate FirstErr<T, E>(answers: seq<Joined<T, E>>, i: int) {
    && 0 <= i < |answers| && IsErr(answers[i])
    && forall j :: 0 <= j < i ==> !IsErr(answers[j])
  }

  // The first acceptable answer in spawn order if any, otherwise the last Ok,
  // otherwise the first error, otherwise Ok(None).
  ghost predicate Selected<T, E>(answers: seq<Joined<T, E>>, accept: T -> bool, r: Result<Option<T>, E>) {
    if exists i :: FirstAcceptable(answers, accept, i) then
      exists i :: FirstAcceptable(answers, accept, i) && r == answers[i].result
    else if exists i :: LastOk(answers, i) then
      exists i :: LastOk(answers, i) && r == answers[i].result
    else if exists i :: FirstErr(answers, i) then
      exists i :: FirstErr(answers, i) && r == answers[i].result
    else r == Ok(None)
  }

  // What the fallback variable holds after answers none of which was acceptable.
  ghost predicate IsFallback<T, E>(answers: seq<Joined<T, E>>, last: Option<Result<Option<T>, E>>) {
    if exists i :: LastOk(answers, i) then
      exists i :: LastOk(answers, i) && last == Some(answers[i].result)
    else if exists i :: FirstErr(answers, i) then
      exists i :: FirstErr(answers, i) && last == Some(answers[i].result)
    else last == None
  }

  lemma {:induction false} SomeOkMeansLastOk<T, E>(answers: seq<Joined<T, E>>, k: nat) returns (i: nat)
    requires k < |answers| && IsOk(answers[k])
    ensures LastOk(answers, i)
    decreases |answers| - k
  {
    if j :| k < j < |answers| && IsOk(answers[j]) {
      i := SomeOkMeansLastOk(answers, j);
    } else {
      i := k;
    }
  }

  lemma {:induction false} SomeErrMeansFirstErr<T, E>(answers: seq<Joined<T, E>>, k: nat) returns (i: nat)
    requires k < |answers| && IsErr(answers[k])
    ensures FirstErr(answers, i)
  {
    if j :| 0 <= j < k && IsErr(answers[j]) {
      i := SomeErrMeansFirstErr(answers, j);
    } else {
      i := k;
    }
  }

  // The specification pins the result down.
  lemma SelectionIsUnique<T, E>(answers: seq<Joined<T, E>>, accept: T -> bool,
                                r: Result<Option<T>, E>, r': Result<Option<T>, E>)
    requires Selected(answers, accept, r) && Selected(answers, accept, r')
    ensures r == r'
  {
  }

  // A failing peer never hides another peer's Ok, and an error is only
  // reported when every peer that answered at all failed.
  lemma FailingPeersHideNothing<T, E>(answers: seq<Joined<T, E>>, accept: T -> bool, r: Result<Option<T>, E>)
    requires Selected(answers, accept, r)
    ensures r.Err? <==> (exists k :: 0 <= k < |answers| && IsErr(answers[k]))
                        && forall k :: 0 <= k < |answers| ==> !IsOk(answers[k])
    ensures (exists k :: 0 <= k < |answers| && Acceptable(answers[k], accept)) ==>
              r.Ok? && r.value.Some? && accept(r.value.value)
  {
    if k :| 0 <= k < |answers| && IsOk(answers[k]) {
      var _ := SomeOkMeansLastOk(answers, k);
    } else if k :| 0 <= k < |answers| && IsErr(answers[k]) {
      var _ := SomeErrMeansFirstErr(answers, k);
    }
    if k :| 0 <= k < |answers| && Acceptable(answers[k], accept) {
      var _ := SomeAcceptableMeansFirst(answers, accept, k);
    }
  }

  lemma {:induction false} SomeAcceptableMeansFirst<T, E>(answers: seq<Joined<T, E>>, accept: T -> bool, k: nat)
    returns (i: nat)
    requires k < |answers| && Acceptable(answers[k], accept)
    ensures FirstAcceptable(answers, accept, i)
  {
    if j :| 0 <= j < k && Acceptable(answers[j], accept) {
      i := SomeAcceptableMeansFirst(answers, accept, j);
    } else {
      i := k;
    }
  }

  // One more answer that is not acceptable: an Ok replaces the fallback, an
  // error only fills an empty one, a join error changes nothing.
  lemma FallbackStep<T, E>(answers: seq<Joined<T, E>>, a: Joined<T, E>, last: Option<Result<Option<T>, E>>)
    requires IsFallback(answers, last)
    ensures IsFallback(answers + [a],
                       if IsOk(a) then Some(a.result)
                       else if IsErr(a) && last.None? then Some(a.result)
                       else last)
  {
    var n := |answers|;
    var longer := answers + [a];
    assert forall i :: 0 <= i < n ==> longer[i] == answers[i];
    if IsOk(a) {
      assert LastOk(longer, n);
    } else if i :| LastOk(answers, i) {
      assert LastOk(longer, i);
    } else {
      forall i ensures !LastOk(longer, i) {
        assert LastOk(longer, i) ==> LastOk(answers, i);
      }
      if i :| FirstErr(answers, i) && last == Some(answers[i].result) {
        assert FirstErr(longer, i);
      } else if IsErr(a) {
        assert FirstErr(longer, n) by {
          if j :| 0 <= j < n && IsErr(longer[j]) {
            var _ := SomeErrMeansFirstErr(answers, j);
          }
        }
      } else {
        forall i ensures !FirstErr(longer, i) {
          assert FirstErr(longer, i) ==> FirstErr(answers, i);
        }
      }
    }
  }

  method SelectAnswer<T, E>(answers: seq<Joined<T, E>>, accept: T -> bool) returns (r: Result<Option<T>, E>)
    ensures Selected(answers, accept, r)
  {
    var last: Option<Result<Option<T>, E>> := None;
    assert answers[..0] == [];
    for i := 0 to |answers|
      invariant forall j :: 0 <= j < i ==> !Acceptable(answers[j], accept)
      invariant IsFallback(answers[..i], last)
    {
      assert answers[..i + 1] == answers[..i] + [answers[i]];
      FallbackStep(answers[..i], answers[i], last);
      match answers[i]
      case Answer(Ok(Some(x))) =>
        if accept(x) {
          assert FirstAcceptable(answers, accept, i);
          return Ok(Some(x));
        }
        last := Some(Ok(Some(x)));
      case Answer(Ok(None)) =>
        last := Some(Ok(None));
      case Answer(Err(e)) =>
        if last.None? {
          last := Some(Err(e));
        }
      case JoinError =>
    }
    assert answers[..|answers|] == answers;
    r := if last.Some? then last.value else Ok(None);
  }

  // ---- The five queries ----

  datatype WireAnswer =
    | EntryAnswer(entryOps: WireEntryOps)
    | RecordAnswer(recordOps: WireRecordOps)
    | WarrantAnswer

  predicate IsWireOpsEmpty(ops: WireAnswer) {
    match ops
    case EntryAnswer(e) => e.creates == [] && e.deletes == [] && e.updates == [] && e.entry.None?
    case RecordAnswer(r) => r.action.None? && r.deletes == [] && r.updates == [] && r.entry.None?
    case WarrantAnswer => false
  }

  datatype LinkAnswer = LinkAnswer(creates: seq<WireCreateLink>, deletes: nat)

  datatype ChainStatus = EmptyChain | ValidChain | ForkedChain | InvalidChain

  datatype AgentActivity = AgentActivity(agent: nat, validActivity: seq<ActionHash>, status: ChainStatus)

  datatype ActivityAnswer = Activity(actions: seq<ActionHash>) | IncompleteChain | ChainTopNotFound | EmptyRange

  // A warrant, or something about the record or entry asked for.
  predicate HasContent(ops: WireAnswer) {
    || ops.WarrantAnswer?
    || (ops.EntryAnswer? &&
        var e := ops.entryOps;
        |e.creates| > 0 || |e.deletes| > 0 || |e.updates| > 0 || e.entry.Some?)
    || (ops.RecordAnswer? &&
        var r := ops.recordOps;
        r.action.Some? || |r.deletes| > 0 || |r.updates| > 0 || r.entry.Some?)
  }

  // `Selected`, for another way to put the same test.
  lemma SameTestSameSelection<T, E>(answers: seq<Joined<T, E>>, accept: T -> bool, accept': T -> bool,
                                    r: Result<Option<T>, E>)
    requires Selected(answers, accept, r)
    requires forall k :: 0 <= k < |answers| ==> Acceptable(answers[k], accept) == Acceptable(answers[k], accept')
    ensures Selected(answers, accept', r)
  {
    assert forall i :: FirstAcceptable(answers, accept, i) == FirstAcceptable(answers, accept', i);
  }

  method Get<E>(answers: seq<Joined<WireAnswer, E>>) returns (r: Result<Option<WireAnswer>, E>)
    ensures Selected(answers, ops => HasContent(ops), r)
  {
    r := SelectAnswer(answers, ops => !IsWireOpsEmpty(ops));
    SameTestSameSelection(answers, ops => !IsWireOpsEmpty(ops), ops => HasContent(ops), r);
  }

  method GetLinks<E>(answers: seq<Joined<LinkAnswer, E>>) returns (r: Result<Option<LinkAnswer>, E>)
    ensures Selected(answers, (ops: LinkAnswer) => ops.creates != [], r)
  {
    r := SelectAnswer(answers, (ops: LinkAnswer) => ops.creates != []);
  }

  method CountLinks<E>(answers: seq<Joined<nat, E>>) returns (r: Result<Option<nat>, E>)
    ensures Selected(answers, count => true, r)
  {
    r := SelectAnswer(answers, count => true);
  }

  method GetAgentActivity<E>(answers: seq<Joined<AgentActivity, E>>) returns (r: Result<Option<AgentActivity>, E>)
    ensures Selected(answers, (a: AgentActivity) => a.status != EmptyChain, r)
  {
    r := SelectAnswer(answers, (a: AgentActivity) => a.status != EmptyChain);
  }

  // Unlike its siblings this loop tests the answer inside the arm.
  method MustGetAgentActivity<E>(answers: seq<Joined<ActivityAnswer, E>>) returns (r: Result<Option<ActivityAnswer>, E>)
    ensures Selected(answers, (a: ActivityAnswer) => a.Activity?, r)
  {
    var last: Option<Result<Option<ActivityAnswer>, E>> := None;
    ghost var accept := (a: ActivityAnswer) => a.Activity?;
    assert answers[..0] == [];
    for i := 0 to |answers|
      invariant forall j :: 0 <= j < i ==> !Acceptable(answers[j], accept)
      invariant IsFallback(answers[..i], last)
    {
      assert answers[..i + 1] == answers[..i] + [answers[i]];
      FallbackStep(answers[..i], answers[i], last);
      match answers[i]
      case Answer(Ok(Some(response))) =>
        if response.Activity? {
          assert FirstAcceptable(answers, accept, i);
          return Ok(Some(response));
        }
        last := Some(Ok(Some(response)));
      case Answer(Ok(None)) =>
        last := Some(Ok(None));
      case Answer(Err(e)) =>
        if last.None? {
          last := Some(Err(e));
        }
      case JoinError =>
    }
    assert answers[..|answers|] == answers;
    r := if last.Some? then last.value else Ok(None);
  }
}
