// The two layers every authenticated DHT route passes: a capability check that
// resolves the bearer token, then a scope check on the DNA in the path.

module Middleware {
  import opened Wrappers
  import opened Types
  import opened SessionStore
  import opened Registries

  datatype AuthContext = AuthContext(
    agentPubkey: AgentPubKey, capabilities: set<Capability>, registeredDnas: set<DnaHash>)

  datatype Response = Status(code: nat) | Next

  const UNAUTHORIZED := Status(401)
  const FORBIDDEN := Status(403)
  const BAD_REQUEST := Status(400)
  const INTERNAL_SERVER_ERROR := Status(500)

  const BEARER := "Bearer "

  // The part of an HTTP request the layers look at. `dnaHash` is the path
  // parameter: absent, present but not a hash, or a hash.
  class Request {
    const authorization: Option<string>
    const dnaHash: Option<Option<DnaHash>>
    var extension: Option<AuthContext>

    constructor (authorization: Option<string>, dnaHash: Option<Option<DnaHash>>)
      ensures this.authorization == authorization && this.dnaHash == dnaHash && extension == None
    {
      this.authorization, this.dnaHash, extension := authorization, dnaHash, None;
    }
  }

  function ExtractBearerToken(authorization: Option<string>): Option<Token> {
    if authorization.Some? && BEARER <= authorization.value
    then Some(authorization.value[|BEARER|..])
    else None
  }

  // The session a header resolves to, if any.
  function Resolve(store: Store, authorization: Option<string>): Option<SessionInfo> {
    var token := ExtractBearerToken(authorization);
    if token.Some? && token.value in store.sessions then Some(store.sessions[token.value]) else None
  }

  // A header resolves to a session exactly when it is that prefix and the
  // session's token, and nothing else.
  lemma ResolvesIff(store: Store, authorization: Option<string>, session: SessionInfo)
    ensures Resolve(store, authorization) == Some(session)
            <==> exists token :: authorization == Some("Bearer " + token)
                                 && token in store.sessions && store.sessions[token] == session
  {
    if authorization.Some? && BEARER <= authorization.value {
      var token := authorization.value[|BEARER|..];
      assert authorization.value == BEARER + token;
    }
    forall token | authorization == Some(BEARER + token) ensures ExtractBearerToken(authorization) == Some(token) {
    }
  }

  method CheckCapability(auth: Option<AuthStore>, req: Request, required: Capability) returns (response: Response)
    requires auth.Some? ==> auth.value.Valid()
    modifies req
    ensures auth.None? ==> response == Status(500)
    ensures auth.Some? ==>
              var session := Resolve(old(auth.value.View()), req.authorization);
              response == (if session.None? then Status(401)
                           else if required !in session.value.capabilities then Status(403)
                           else Next)
    ensures req.extension == if response != Next then old(req.extension)
                             else var s := Resolve(old(auth.value.View()), req.authorization).value;
                                  Some(AuthContext(s.agentPubkey, s.capabilities, s.registeredDnas))
  {
    if auth.None? {
      return INTERNAL_SERVER_ERROR;
    }
    var token := ExtractBearerToken(req.authorization);
    if token.None? {
      return UNAUTHORIZED;
    }
    var session := auth.value.ValidateSession(token.value);
    if session.None? {
      return UNAUTHORIZED;
    }
    var info := session.value;
    if required !in info.capabilities {
      return FORBIDDEN;
    }
    req.extension := Some(AuthContext(info.agentPubkey, info.capabilities, info.registeredDnas));
    return Next;
  }

  method RequireDnaScope(req: Request) returns (response: Response)
    ensures req.extension.None? ==> response == Status(500)
    ensures req.extension.Some? && (req.dnaHash.None? || req.dnaHash.value.None?) ==> response == Status(400)
    ensures req.extension.Some? && req.dnaHash.Some? && req.dnaHash.value.Some? ==>
              response == if req.dnaHash.value.value in req.extension.value.registeredDnas then Next else Status(403)
  {
    if req.extension.None? {
      return INTERNAL_SERVER_ERROR;
    }
    if req.dnaHash.None? || req.dnaHash.value.None? {
      return BAD_REQUEST;
    }
    if req.dnaHash.value.value !in req.extension.value.registeredDnas {
      return FORBIDDEN;
    }
    return Next;
  }

  // A request for `dna` reaches its route: some live session with the
  // capability and the DNA is named by its bearer token.
  predicate Admitted(store: Store, authorization: Option<string>, required: Capability, dna: DnaHash) {
    var session := Resolve(store, authorization);
    session.Some? && required in session.value.capabilities && dna in session.value.registeredDnas
  }

  // The layers in their router order: capability first, then scope.
  method Gate(auth: Option<AuthStore>, req: Request, required: Capability) returns (response: Response)
    requires auth.Some? ==> auth.value.Valid()
    modifies req
    ensures response == Next <==>
              && auth.Some? && req.dnaHash.Some? && req.dnaHash.value.Some?
              && Admitted(old(auth.value.View()), req.authorization, required, req.dnaHash.value.value)
  {
    response := CheckCapability(auth, req, required);
    if response == Next {
      response := RequireDnaScope(req);
    }
  }
}
