// The heartbeat loop of the joining-service client: what each heartbeat
// carries and signs, how long the loop sleeps, and when shutdown deregisters.

module Registration {
  import opened Wrappers
  import opened PercentEncoding

  // ---- Canonical JSON ----

  // The map the signed fields are collected into: the last of two equal keys wins.
  function Collect<K(==), V(==)>(fields: seq<(K, V)>): map<K, V> {
    if fields == [] then map[]
    else
      var last := |fields| - 1;
      Collect(fields[..last])[fields[last].0 := fields[last].1]
  }

  // No key is given two values.
  predicate Functional<K(==), V(==)>(fields: seq<(K, V)>) {
    forall i, j :: 0 <= i < |fields| && 0 <= j < |fields| && fields[i].0 == fields[j].0 ==> fields[i].1 == fields[j].1
  }

  lemma {:induction false} CollectedAreFields<K(!new), V(!new)>(fields: seq<(K, V)>)
    ensures forall key :: key in Collect(fields) ==> (key, Collect(fields)[key]) in fields
    ensures forall field :: field in fields ==> field.0 in Collect(fields)
  {
    if fields != [] {
      var last := |fields| - 1;
      CollectedAreFields(fields[..last]);
      forall field | field in fields ensures field.0 in Collect(fields) {
        var i :| 0 <= i < |fields| && fields[i] == field;
        assert i < last ==> fields[..last][i] == field;
      }
    }
  }

  lemma SameFieldsSameMap<K(!new), V(!new)>(a: seq<(K, V)>, b: seq<(K, V)>)
    requires Functional(a) && multiset(a) == multiset(b)
    ensures Collect(a) == Collect(b)
  {
    CollectedAreFields(a);
    CollectedAreFields(b);
    forall field ensures field in a <==> field in b {
      assert field in a <==> field in multiset(a);
      assert field in b <==> field in multiset(b);
    }
    forall key ensures key in Collect(a) <==> key in Collect(b) {
      if key in Collect(a) {
        assert (key, Collect(a)[key]) in b;
      }
      if key in Collect(b) {
        assert (key, Collect(b)[key]) in a;
      }
    }
    forall key | key in Collect(a) ensures Collect(a)[key] == Collect(b)[key] {
      var i :| 0 <= i < |a| && a[i] == (key, Collect(a)[key]);
      var j :| 0 <= j < |a| && a[j] == (key, Collect(b)[key]);
    }
  }

  // Field `i` moved to the end.
  function MoveLast<K(==), V(==)>(fields: seq<(K, V)>, i: nat): seq<(K, V)>
    requires i < |fields|
  {
    fields[..i] + fields[i + 1..] + [fields[i]]
  }

  lemma MoveLastPermutes<K, V>(fields: seq<(K, V)>, i: nat)
    requires i < |fields|
    ensures multiset(MoveLast(fields, i)) == multiset(fields)
    ensures fields[i].0 in Collect(MoveLast(fields, i)) && Collect(MoveLast(fields, i))[fields[i].0] == fields[i].1
  {
    assert fields == fields[..i] + [fields[i]] + fields[i + 1..];
    var moved := MoveLast(fields, i);
    assert moved[..|moved| - 1] == fields[..i] + fields[i + 1..];
  }

  // The order of the fields does not matter exactly when no key has two values.
  lemma OrderIsIrrelevantIff<K(!new), V(!new)>(fields: seq<(K, V)>)
    ensures (forall other :: multiset(other) == multiset(fields) ==> Collect(other) == Collect(fields))
            <==> Functional(fields)
  {
    if Functional(fields) {
      forall other | multiset(other) == multiset(fields) ensures Collect(other) == Collect(fields) {
        SameFieldsSameMap(fields, other);
      }
    } else {
      var i, j :| 0 <= i < |fields| && 0 <= j < |fields| && fields[i].0 == fields[j].0 && fields[i].1 != fields[j].1;
      MoveLastPermutes(fields, i);
      MoveLastPermutes(fields, j);
      assert Collect(MoveLast(fields, i)) != Collect(MoveLast(fields, j));
    }
  }

  // ---- Requests and replies ----

  // The JSON keys.
  datatype Key =
    AdminSecret | AdminUrl | InviteToken | LinkerUrl | Pubkey | RotateSecret | Signature | Timestamp

  datatype Json = Text(text: string) | Flag(flag: bool)

  // `sign` signs the canonical JSON of the collected fields; `pubkeyBytes` are
  // the bytes of the base64 text `pubkey`.
  datatype Config = Config(
    pubkey: string,
    pubkeyBytes: seq<Byte>,
    linkerUrl: string,
    adminUrl: string,
    adminSecret: string,
    inviteToken: Option<string>,
    joiningServiceUrl: string,
    initialIntervalSecs: nat,
    sign: map<Key, string> -> string)

  datatype Deregistration = Deregistration(url: string, timestamp: string, signature: string)

  datatype HeartbeatResponse = HeartbeatResponse(registered: bool, ttlSeconds: nat, intervalSeconds: Option<nat>)

  // No response, or a status with a body that may fail to parse.
  datatype Reply = NoResponse | Response(status: nat, body: Option<HeartbeatResponse>)

  predicate Succeeded(reply: Reply) {
    reply.Response? && 200 <= reply.status < 300 && reply.body.Some? && reply.body.value.registered
  }

  const RETRY_SECS := 30

  // ---- Specification of one heartbeat ----

  predicate IsSignedKey(key: Key) {
    key.AdminSecret? || key.AdminUrl? || key.LinkerUrl? || key.Pubkey? || key.Timestamp?
  }

  // What the joining service can read back from a body to check its signature.
  function SignedPart(body: map<Key, Json>): map<Key, string> {
    map key | key in body && IsSignedKey(key) && body[key].Text? :: body[key].text
  }

  predicate Carried(config: Config, withSecret: bool, key: Key) {
    match key
    case AdminSecret => withSecret
    case InviteToken => config.inviteToken.Some?
    case _ => true
  }

  // Everything but the signature: the linker and the time, the secret exactly
  // when `withSecret`, always a configured invite, and never a secret rotation.
  ghost predicate HasFields(config: Config, body: map<Key, Json>, withSecret: bool, timestamp: string) {
    && (forall key :: key in body <==> Carried(config, withSecret, key))
    && body[Pubkey] == Text(config.pubkey)
    && body[LinkerUrl] == Text(config.linkerUrl)
    && body[AdminUrl] == Text(config.adminUrl)
    && body[Timestamp] == Text(timestamp)
    && body[RotateSecret] == Flag(false)
    && (withSecret ==> body[AdminSecret] == Text(config.adminSecret))
    && (config.inviteToken.Some? ==> body[InviteToken] == Text(config.inviteToken.value))
  }

  // The signature covers all that the body carries except the invite and the flag.
  ghost predicate IsHeartbeat(config: Config, body: map<Key, Json>, withSecret: bool, timestamp: string) {
    HasFields(config, body, withSecret, timestamp) && body[Signature] == Text(config.sign(SignedPart(body)))
  }

  function SignedFields(config: Config, withSecret: bool, timestamp: string): map<Key, string> {
    var fields := map[AdminUrl := config.adminUrl, LinkerUrl := config.linkerUrl,
                      Pubkey := config.pubkey, Timestamp := timestamp];
    if withSecret then fields[AdminSecret := config.adminSecret] else fields
  }

  lemma SignedPartIsSignedFields(config: Config, body: map<Key, Json>, withSecret: bool, timestamp: string)
    requires HasFields(config, body, withSecret, timestamp)
    ensures SignedPart(body) == SignedFields(config, withSecret, timestamp)
  {
    var part, fields := SignedPart(body), SignedFields(config, withSecret, timestamp);
    forall key ensures key in part <==> key in fields {
      assert key in body <==> Carried(config, withSecret, key);
    }
    forall key | key in part ensures part[key] == fields[key] {
      match key
      case AdminSecret =>
      case AdminUrl =>
      case LinkerUrl =>
      case Pubkey =>
      case Timestamp =>
    }
  }

  // ---- Specification of a run ----

  datatype Answer = Answer(timestamp: string, reply: Reply)

  // How a run ends: while a heartbeat is in flight (which may or may not have
  // reached the wire) or during the sleep after an answered one.
  datatype Shutdown = DuringHeartbeat(timestamp: string, sent: bool) | DuringSleep

  // The request that takes the linker off the pool: its key as a path segment,
  // and its key and the time signed.
  function DeregistrationAt(config: Config, timestamp: string): Deregistration {
    Deregistration(config.joiningServiceUrl + "/v1/linkers/" + Encode(config.pubkeyBytes), timestamp,
                   config.sign(map[Pubkey := config.pubkey, Timestamp := timestamp]))
  }

  // Whether the `k`th heartbeat must introduce the linker: it is the first, or
  // the one before it failed.
  predicate Introduces(answers: seq<Answer>, k: nat)
    requires k <= |answers|
  {
    k == 0 || !Succeeded(answers[k - 1].reply)
  }

  // An answer that decides the interval: a failure, or a success that names a
  // positive interval.
  predicate Decisive(reply: Reply) {
    Succeeded(reply) ==> reply.body.value.intervalSeconds.Some? && reply.body.value.intervalSeconds.value > 0
  }

  function Directed(reply: Reply): nat
    requires Decisive(reply)
  {
    if Succeeded(reply) then reply.body.value.intervalSeconds.value else RETRY_SECS
  }

  // The latest decisive one of the first `n` answers, -1 if there is none.
  function LastDecisive(answers: seq<Answer>, n: nat): (j: int)
    requires n <= |answers|
    ensures -1 <= j < n
    ensures j >= 0 ==> Decisive(answers[j].reply)
    ensures forall i :: j < i < n ==> !Decisive(answers[i].reply)
  {
    if n == 0 then -1 else if Decisive(answers[n - 1].reply) then n - 1 else LastDecisive(answers, n - 1)
  }

  // The sleep after the first `n` answers: the latest positive interval named
  // since the last failure, else 30 after a failure, else the initial one.
  function Interval(config: Config, answers: seq<Answer>, n: nat): nat
    requires n <= |answers|
  {
    var j := LastDecisive(answers, n);
    if j < 0 then config.initialIntervalSecs else Directed(answers[j].reply)
  }

  lemma CollectFour<K, V>(fields: seq<(K, V)>)
    requires |fields| == 4
    ensures Collect(fields) == map[fields[0].0 := fields[0].1][fields[1].0 := fields[1].1]
                               [fields[2].0 := fields[2].1][fields[3].0 := fields[3].1]
  {
    assert fields[..3][..2] == fields[..2] && fields[..2][..1] == fields[..1] && fields[..1][..0] == [];
    assert Collect(fields[..1]) == map[fields[0].0 := fields[0].1];
    assert Collect(fields[..2]) == Collect(fields[..1])[fields[1].0 := fields[1].1];
    assert Collect(fields[..3]) == Collect(fields[..2])[fields[2].0 := fields[2].1];
  }

  lemma CollectFive<K, V>(fields: seq<(K, V)>)
    requires |fields| == 5
    ensures Collect(fields) == map[fields[0].0 := fields[0].1][fields[1].0 := fields[1].1]
                               [fields[2].0 := fields[2].1][fields[3].0 := fields[3].1][fields[4].0 := fields[4].1]
  {
    CollectFour(fields[..4]);
  }

  // Heartbeat k carries and signs the secret exactly when it introduces the linker.
  ghost predicate AreHeartbeats(config: Config, answers: seq<Answer>, bodies: seq<map<Key, Json>>, n: nat)
    requires n <= |answers|
  {
    |bodies| == n
    && (n > 0 ==>
          && AreHeartbeats(config, answers, bodies[..n - 1], n - 1)
          && IsHeartbeat(config, bodies[n - 1], Introduces(answers, n - 1), answers[n - 1].timestamp))
  }

  lemma {:induction false} HeartbeatAt(config: Config, answers: seq<Answer>, bodies: seq<map<Key, Json>>,
                                       n: nat, k: nat)
    requires k < n <= |answers| && AreHeartbeats(config, answers, bodies, n)
    ensures IsHeartbeat(config, bodies[k], k == 0 || !Succeeded(answers[k - 1].reply), answers[k].timestamp)
  {
    if k < n - 1 {
      HeartbeatAt(config, answers, bodies[..n - 1], n - 1, k);
    }
  }

  predicate AreIntervals(config: Config, answers: seq<Answer>, sleeps: seq<nat>, n: nat)
    requires n <= |answers|
  {
    |sleeps| == n && forall k :: 0 <= k < n ==> sleeps[k] == Interval(config, answers, k + 1)
  }

  class RegistrationClient {
    const config: Config
    var isRegistered: bool

    constructor (config: Config)
      ensures this.config == config && !isRegistered
    {
      this.config := config;
      isRegistered := false;
    }

    method SignHeartbeat(timestamp: string) returns (signature: string)
      ensures signature == config.sign(SignedFields(config, !isRegistered, timestamp))
    {
      var fields := [(AdminUrl, config.adminUrl), (LinkerUrl, config.linkerUrl),
                     (Pubkey, config.pubkey), (Timestamp, timestamp)];
      CollectFour(fields);
      if !isRegistered {
        fields := [(AdminSecret, config.adminSecret)] + fields;
        CollectFive(fields);
        assert Collect(fields) == SignedFields(config, true, timestamp);
      }
      signature := config.sign(Collect(fields));
    }

    method BuildHeartbeat(timestamp: string) returns (body: map<Key, Json>)
      ensures IsHeartbeat(config, body, !isRegistered, timestamp)
    {
      var isFirst := !isRegistered;
      var signature := SignHeartbeat(timestamp);
      body := map[Pubkey := Text(config.pubkey)];
      if config.inviteToken.Some? {
        body := body[InviteToken := Text(config.inviteToken.value)];
      }
      body := body[LinkerUrl := Text(config.linkerUrl)];
      body := body[AdminUrl := Text(config.adminUrl)];
      if isFirst {
        body := body[AdminSecret := Text(config.adminSecret)];
      }
      body := body[RotateSecret := Flag(false)][Timestamp := Text(timestamp)][Signature := Text(signature)];
      forall key ensures key in body <==> Carried(config, isFirst, key) {
        match key
        case AdminSecret =>
        case InviteToken =>
        case AdminUrl =>
        case LinkerUrl =>
        case Pubkey =>
        case RotateSecret =>
        case Signature =>
        case Timestamp =>
      }
      assert HasFields(config, body, isFirst, timestamp);
      SignedPartIsSignedFields(config, body, isFirst, timestamp);
    }

    // One heartbeat and the answer to it: the flag is rewritten whatever the
    // answer, and only a decisive one changes the interval.
    method Beat(answer: Answer, intervalSecs: nat) returns (body: map<Key, Json>, next: nat)
      modifies this
      ensures IsHeartbeat(config, body, !old(isRegistered), answer.timestamp)
      ensures isRegistered == Succeeded(answer.reply)
      ensures next == if Decisive(answer.reply) then Directed(answer.reply) else intervalSecs
      ensures !isRegistered ==> next == 30
    {
      body := BuildHeartbeat(answer.timestamp);
      var reply := answer.reply;
      isRegistered := reply.Response? && 200 <= reply.status < 300 && reply.body.Some? && reply.body.value.registered;
      next := intervalSecs;
      if isRegistered {
        var directed := reply.body.value.intervalSeconds;
        if directed.Some? && directed.value > 0 {
          next := directed.value;
        }
      } else {
        next := RETRY_SECS;
      }
    }

    method HandleShutdown(timestamp: string) returns (deregistration: Option<Deregistration>)
      ensures deregistration == if isRegistered then Some(DeregistrationAt(config, timestamp)) else None
    {
      if !isRegistered {
        return None;
      }
      var fields := [(Pubkey, config.pubkey), (Timestamp, timestamp)];
      assert fields[..1][..0] == [];
      assert Collect(fields[..1]) == map[Pubkey := config.pubkey];
      var encoded := UrlEncodePathSegment(config.pubkeyBytes);
      deregistration := Some(Deregistration(config.joiningServiceUrl + "/v1/linkers/" + encoded, timestamp,
                                            config.sign(Collect(fields))));
    }

    // A whole run: the answered heartbeats, each followed by a sleep, then the
    // shutdown, which may cancel a heartbeat already on the wire (`inFlight`).
    method Run(answers: seq<Answer>, shutdown: Shutdown, now: string)
      returns (bodies: seq<map<Key, Json>>, sleeps: seq<nat>, inFlight: Option<map<Key, Json>>,
               deregistration: Option<Deregistration>)
      requires !isRegistered
      requires shutdown.DuringSleep? ==> answers != []
      modifies this
      ensures AreHeartbeats(config, answers, bodies, |answers|)
      ensures AreIntervals(config, answers, sleeps, |answers|)
      ensures inFlight.Some? <==> shutdown.DuringHeartbeat? && shutdown.sent
      ensures inFlight.Some? ==> IsHeartbeat(config, inFlight.value, Introduces(answers, |answers|), shutdown.timestamp)
      ensures deregistration
              == if answers != [] && Succeeded(answers[|answers| - 1].reply) then Some(DeregistrationAt(config, now))
                 else None
    {
      bodies, sleeps, inFlight := [], [], None;
      var intervalSecs := config.initialIntervalSecs;
      for k := 0 to |answers|
        invariant isRegistered == !Introduces(answers, k)
        invariant intervalSecs == Interval(config, answers, k)
        invariant AreHeartbeats(config, answers, bodies, k)
        invariant AreIntervals(config, answers, sleeps, k)
      {
        var body, next := Beat(answers[k], intervalSecs);
        intervalSecs := next;
        assert (bodies + [body])[..k] == bodies;
        bodies := bodies + [body];
        sleeps := sleeps + [intervalSecs];
      }
      if shutdown.DuringHeartbeat? && shutdown.sent {
        var body := BuildHeartbeat(shutdown.timestamp);
        inFlight := Some(body);
      }
      deregistration := HandleShutdown(now);
    }
  }
}
