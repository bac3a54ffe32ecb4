/** The agent-reach registry server's HTTP handlers: a challenge-response
    handshake that opens a bearer session, and session-guarded registration
    of a DID's endpoint. The handshake cryptography, DID parsing, URL
    decoding, the clock and the registry's own expiry rule are parameters. */
module Handlers {
  import opened Common
  import opened Text
  import opened ReachErrors

  /** Sessions are rejected once older than this many seconds. */
  const SESSION_MAX_AGE_S := 300
  /** Registration lifetime when the request names none. */
  const DEFAULT_TTL_S := 3600
  const BEARER_PREFIX := "Bearer "
  const TWO_TO_63: int := 0x8000_0000_0000_0000
  const TWO_TO_64: int := 0x1_0000_0000_0000_0000

  newtype u64 = x: int | 0 <= x < TWO_TO_64

  /** `ttl as i64`: two's-complement reinterpretation. */
  function AsI64(x: u64): (r: int)
    ensures -TWO_TO_63 <= r < TWO_TO_63
    ensures r % TWO_TO_64 == x as int % TWO_TO_64
  {
    if (x as int) < TWO_TO_63 then x as int else x as int - TWO_TO_64
  }

  datatype HelloMessage = HelloMessage(did: string, payload: string)
  datatype ProofMessage = ProofMessage(challengeHash: string, responderDid: string, payload: string)

  /** A stored challenge and the DID its verifier was made for. */
  datatype PendingChallenge = PendingChallenge(challenge: string, did: string)
  datatype Session = Session(did: string, createdAt: int)
  datatype RegistryEntry = RegistryEntry(did: string, endpoint: string, registeredAt: int, expiresAt: int)
  datatype AgentStatus = Online | Expired

  /** The handshake library and DID parser the handlers call. */
  datatype Crypto = Crypto(
    isDid: string -> bool,
    handleHello: HelloMessage -> Result<string, string>,
    hashChallenge: string -> Result<string, string>,
    verifyProof: (PendingChallenge, ProofMessage) -> Option<string>,
    acceptProof: (PendingChallenge, ProofMessage) -> Result<string, string>)

  datatype RegisterRequest = RegisterRequest(endpoint: string, ttl: Option<u64>)
  datatype RegisterResponse = RegisterResponse(ok: bool, did: string, expiresAt: int)
  datatype LookupResponse = LookupResponse(did: string, endpoint: string, status: AgentStatus, registeredAt: int, expiresAt: int)

  /** Everything the handlers read and write. */
  datatype ServerState = ServerState(
    pending: map<string, PendingChallenge>,
    sessions: map<string, Session>,
    registry: map<string, RegistryEntry>)

  // ----- handshake -----

  /** `hello`: a challenge for a well-formed DID, remembered under its hash. */
  function HelloStep(s: ServerState, hello: HelloMessage, crypto: Crypto): (ServerState, Result<string, ReachError>) {
    if !crypto.isDid(hello.did) then (s, Err(InvalidDid))
    else match crypto.handleHello(hello)
      case Err(e) => (s, Err(HandshakeError(e)))
      case Ok(challenge) =>
        match crypto.hashChallenge(challenge)
        case Err(e) => (s, Err(Internal(e)))
        case Ok(h) => (s.(pending := s.pending[h := PendingChallenge(challenge, hello.did)]), Ok(challenge))
  }

  /** A successful `hello` stores exactly one challenge, for the DID that
      asked, under the challenge's hash; a failed one changes nothing. */
  lemma HelloStoresChallenge(s: ServerState, hello: HelloMessage, crypto: Crypto)
    ensures var (s', r) := HelloStep(s, hello, crypto);
      && s'.sessions == s.sessions && s'.registry == s.registry
      && (r.Err? ==> s' == s)
      && (r.Ok? <==> crypto.isDid(hello.did) && crypto.handleHello(hello).Ok?
                     && crypto.hashChallenge(crypto.handleHello(hello).value).Ok?)
      && (r.Ok? ==>
            var h := crypto.hashChallenge(r.value).value;
            && r.value == crypto.handleHello(hello).value
            && s'.pending == s.pending[h := PendingChallenge(r.value, hello.did)])
      && (!crypto.isDid(hello.did) ==> r == Err(InvalidDid))
  {
  }

  /** `proof`: the challenge is taken out of the table before the proof is
      checked, and a session for the responder is opened if it holds. */
  function ProofStep(s: ServerState, proof: ProofMessage, crypto: Crypto, now: int): (ServerState, Result<string, ReachError>) {
    if proof.challengeHash !in s.pending then (s, Err(InvalidChallenge))
    else
      var p := s.pending[proof.challengeHash];
      var taken := s.(pending := s.pending - {proof.challengeHash});
      match crypto.verifyProof(p, proof)
      case Some(e) => (taken, Err(HandshakeError(e)))
      case None =>
        match crypto.acceptProof(p, proof)
        case Err(e) => (taken, Err(HandshakeError(e)))
        case Ok(sessionId) =>
          (taken.(sessions := taken.sessions[sessionId := Session(proof.responderDid, now)]), Ok(sessionId))
  }

  /** A challenge can be answered once: whatever the first proof's outcome,
      a second proof naming the same challenge is refused. */
  lemma ChallengeSingleUse(s: ServerState, first: ProofMessage, second: ProofMessage, crypto: Crypto, now1: int, now2: int)
    requires second.challengeHash == first.challengeHash
    ensures var (s1, _) := ProofStep(s, first, crypto, now1);
      ProofStep(s1, second, crypto, now2) == (s1, Err(InvalidChallenge))
  {
  }

  /** An accepted proof opens a session for the responder DID at the
      current time under the new session id, consumes the challenge and
      leaves the registry alone. */
  lemma ProofOpensSession(s: ServerState, proof: ProofMessage, crypto: Crypto, now: int)
    ensures var (s', r) := ProofStep(s, proof, crypto, now);
      && s'.registry == s.registry
      && s'.pending == s.pending - {proof.challengeHash}
      && (r.Ok? <==> proof.challengeHash in s.pending
                     && crypto.verifyProof(s.pending[proof.challengeHash], proof).None?
                     && crypto.acceptProof(s.pending[proof.challengeHash], proof).Ok?)
      && (r.Ok? ==> s'.sessions == s.sessions[r.value := Session(proof.responderDid, now)])
      && (r.Err? ==> s'.sessions == s.sessions)
  {
  }

  // ----- sessions -----

  /** `get_session`: the session named by an `Authorization: Bearer <id>`
      header, refused once more than five minutes old. */
  function GetSession(sessions: map<string, Session>, authorization: Option<string>, now: int): (r: Result<Session, ReachError>)
    ensures r.Err? ==> r.error == Unauthorized || r.error == SessionExpired
    ensures r.Ok? <==>
      && authorization.Some? && StartsWith(authorization.value, BEARER_PREFIX)
      && authorization.value[|BEARER_PREFIX|..] in sessions
      && now - sessions[authorization.value[|BEARER_PREFIX|..]].createdAt <= SESSION_MAX_AGE_S
    ensures r.Ok? ==> r.value == sessions[authorization.value[|BEARER_PREFIX|..]]
  {
    if authorization.None? || !StartsWith(authorization.value, BEARER_PREFIX) then Err(Unauthorized)
    else
      var id := authorization.value[|BEARER_PREFIX|..];
      if id !in sessions then Err(Unauthorized)
      else if now - sessions[id].createdAt > SESSION_MAX_AGE_S then Err(SessionExpired)
      else Ok(sessions[id])
  }

  /** A missing header, a header without the bearer prefix and an unknown
      session are all Unauthorized; a known session is expired exactly when
      it is more than 300 seconds old. */
  lemma GetSessionCases(sessions: map<string, Session>, authorization: Option<string>, now: int)
    ensures authorization.None? ==> GetSession(sessions, authorization, now) == Err(Unauthorized)
    ensures authorization.Some? && !StartsWith(authorization.value, BEARER_PREFIX)
      ==> GetSession(sessions, authorization, now) == Err(Unauthorized)
    ensures authorization.Some? && StartsWith(authorization.value, BEARER_PREFIX)
      && authorization.value[|BEARER_PREFIX|..] !in sessions
      ==> GetSession(sessions, authorization, now) == Err(Unauthorized)
    ensures authorization.Some? && StartsWith(authorization.value, BEARER_PREFIX)
      && authorization.value[|BEARER_PREFIX|..] in sessions
      ==> (GetSession(sessions, authorization, now) == Err(SessionExpired)
           <==> now - sessions[authorization.value[|BEARER_PREFIX|..]].createdAt > SESSION_MAX_AGE_S)
  {
  }

  /** The header a client sends for a session id. */
  function Bearer(sessionId: string): (h: string)
    ensures StartsWith(h, BEARER_PREFIX) && h[|BEARER_PREFIX|..] == sessionId
  {
    BEARER_PREFIX + sessionId
  }

  /** A session opened by a proof is usable for exactly 300 seconds:
      at 300 seconds of age it is accepted, one second later it is
      expired. */
  lemma SessionLifetime(s: ServerState, proof: ProofMessage, crypto: Crypto, now: int, age: nat)
    requires ProofStep(s, proof, crypto, now).1.Ok?
    ensures var (s', r) := ProofStep(s, proof, crypto, now);
      && (age <= SESSION_MAX_AGE_S ==>
            GetSession(s'.sessions, Some(Bearer(r.value)), now + age) == Ok(Session(proof.responderDid, now)))
      && (age > SESSION_MAX_AGE_S ==>
            GetSession(s'.sessions, Some(Bearer(r.value)), now + age) == Err(SessionExpired))
  {
    ProofOpensSession(s, proof, crypto, now);
  }

  // ----- registry -----

  /** `register`: the session's DID, never one from the request, is stored
      with the requested endpoint for `ttl` seconds (an hour by default). */
  function RegisterStep(s: ServerState, authorization: Option<string>, req: RegisterRequest, now: int)
    : (ServerState, Result<RegisterResponse, ReachError>)
  {
    match GetSession(s.sessions, authorization, now)
    case Err(e) => (s, Err(e))
    case Ok(session) =>
      var ttl: u64 := if req.ttl.Some? then req.ttl.value else DEFAULT_TTL_S as u64;
      var expiresAt := now + AsI64(ttl);
      (s.(registry := s.registry[session.did := RegistryEntry(session.did, req.endpoint, now, expiresAt)]),
       Ok(RegisterResponse(true, session.did, expiresAt)))
  }

  /** A successful registration stores the entry under the session's DID,
      registered now and expiring `ttl` seconds later (3600 by default),
      and reports that DID and expiry; a refused one changes nothing. */
  lemma RegisterStores(s: ServerState, authorization: Option<string>, req: RegisterRequest, now: int)
    requires req.ttl.None? || (req.ttl.value as int) < TWO_TO_63
    ensures var (s', r) := RegisterStep(s, authorization, req, now);
      && s'.pending == s.pending && s'.sessions == s.sessions
      && (r.Err? <==> GetSession(s.sessions, authorization, now).Err?)
      && (r.Err? ==> s' == s && r.error == GetSession(s.sessions, authorization, now).error)
      && (r.Ok? ==>
            var did := GetSession(s.sessions, authorization, now).value.did;
            var ttl := if req.ttl.Some? then req.ttl.value as int else DEFAULT_TTL_S;
            && ttl < TWO_TO_63
            && r.value == RegisterResponse(true, did, now + ttl)
            && s'.registry == s.registry[did := RegistryEntry(did, req.endpoint, now, now + ttl)])
  {
  }

  /** A time-to-live of 2^63 seconds or more wraps negative in the cast
      to a signed timestamp, so the entry is stored already expired: the
      largest `ttl` expires one second before it was registered. */
  lemma HugeTtlWraps(s: ServerState, authorization: Option<string>, endpoint: string, now: int)
    requires GetSession(s.sessions, authorization, now).Ok?
    ensures var (_, r) := RegisterStep(s, authorization, RegisterRequest(endpoint, Some((TWO_TO_64 - 1) as u64)), now);
      r.Ok? && r.value.expiresAt == now - 1
  {
  }

  /** `lookup`: the entry for the URL-decoded DID, refused when absent or
      when the registry reports it expired. */
  function Lookup(registry: map<string, RegistryEntry>, didParam: string,
                  urlDecode: string -> Option<string>, statusOf: RegistryEntry -> AgentStatus)
    : (r: Result<LookupResponse, ReachError>)
    ensures urlDecode(didParam).None? ==> r == Err(InvalidDid)
    ensures urlDecode(didParam).Some? && urlDecode(didParam).value !in registry ==> r == Err(NotFound)
    ensures r.Ok? ==>
      var e := registry[urlDecode(didParam).value];
      && statusOf(e) == Online
      && r.value == LookupResponse(e.did, e.endpoint, Online, e.registeredAt, e.expiresAt)
    ensures urlDecode(didParam).Some? && urlDecode(didParam).value in registry
      ==> (r == Err(ReachError.Expired) <==> statusOf(registry[urlDecode(didParam).value]) == AgentStatus.Expired)
  {
    match urlDecode(didParam)
    case None => Err(InvalidDid)
    case Some(did) =>
      if did !in registry then Err(NotFound)
      else
        var e := registry[did];
        var status := statusOf(e);
        if status == AgentStatus.Expired then Err(ReachError.Expired)
        else Ok(LookupResponse(e.did, e.endpoint, status, e.registeredAt, e.expiresAt))
  }

  /** `deregister`: removes the session's DID and reports whether it was
      registered. */
  function DeregisterStep(s: ServerState, authorization: Option<string>, now: int)
    : (ServerState, Result<bool, ReachError>)
  {
    match GetSession(s.sessions, authorization, now)
    case Err(e) => (s, Err(e))
    case Ok(session) => (s.(registry := s.registry - {session.did}), Ok(session.did in s.registry))
  }

  /** Deregistration answers `ok` exactly when the DID was registered, and
      afterwards a lookup of that DID finds nothing. */
  lemma DeregisterRemoves(s: ServerState, authorization: Option<string>, now: int,
                          urlDecode: string -> Option<string>, statusOf: RegistryEntry -> AgentStatus, didParam: string)
    requires GetSession(s.sessions, authorization, now).Ok?
    requires urlDecode(didParam) == Some(GetSession(s.sessions, authorization, now).value.did)
    ensures var (s', r) := DeregisterStep(s, authorization, now);
      && r == Ok(GetSession(s.sessions, authorization, now).value.did in s.registry)
      && s'.pending == s.pending && s'.sessions == s.sessions
      && Lookup(s'.registry, didParam, urlDecode, statusOf) == Err(NotFound)
  {
  }

  /** After a registration, a lookup of the registered DID returns the
      endpoint just stored, unless the registry already reports it expired. */
  lemma RegisterThenLookup(s: ServerState, authorization: Option<string>, req: RegisterRequest, now: int,
                           urlDecode: string -> Option<string>, statusOf: RegistryEntry -> AgentStatus, didParam: string)
    requires RegisterStep(s, authorization, req, now).1.Ok?
    requires urlDecode(didParam) == Some(RegisterStep(s, authorization, req, now).1.value.did)
    ensures var (s', r) := RegisterStep(s, authorization, req, now);
      var l := Lookup(s'.registry, didParam, urlDecode, statusOf);
      && (l.Ok? ==> l.value.endpoint == req.endpoint && l.value.did == r.value.did
                    && l.value.registeredAt == now && l.value.expiresAt == r.value.expiresAt)
      && (l.Err? ==> l == Err(ReachError.Expired))
  {
  }

  /** The server's handlers over shared, mutable tables. */
  class RegistryServer {
    var pending: map<string, PendingChallenge>
    var sessions: map<string, Session>
    var registry: map<string, RegistryEntry>

    function State(): ServerState
      reads this
    {
      ServerState(pending, sessions, registry)
    }

    constructor ()
      ensures pending == map[] && sessions == map[] && registry == map[]
    {
      pending := map[];
      sessions := map[];
      registry := map[];
    }

    method Hello(hello: HelloMessage, crypto: Crypto) returns (r: Result<string, ReachError>)
      modifies this
      ensures (State(), r) == HelloStep(old(State()), hello, crypto)
    {
      if !crypto.isDid(hello.did) {
        return Err(InvalidDid);
      }
      var challenge := crypto.handleHello(hello);
      if challenge.Err? {
        return Err(HandshakeError(challenge.error));
      }
      var h := crypto.hashChallenge(challenge.value);
      if h.Err? {
        return Err(Internal(h.error));
      }
      pending := pending[h.value := PendingChallenge(challenge.value, hello.did)];
      return Ok(challenge.value);
    }

    method Proof(proof: ProofMessage, crypto: Crypto, now: int) returns (r: Result<string, ReachError>)
      modifies this
      ensures (State(), r) == ProofStep(old(State()), proof, crypto, now)
    {
      if proof.challengeHash !in pending {
        return Err(InvalidChallenge);
      }
      var p := pending[proof.challengeHash];
      pending := pending - {proof.challengeHash};
      var failure := crypto.verifyProof(p, proof);
      if failure.Some? {
        return Err(HandshakeError(failure.value));
      }
      var accepted := crypto.acceptProof(p, proof);
      if accepted.Err? {
        return Err(HandshakeError(accepted.error));
      }
      sessions := sessions[accepted.value := Session(proof.responderDid, now)];
      return Ok(accepted.value);
    }

    method Register(authorization: Option<string>, req: RegisterRequest, now: int) returns (r: Result<RegisterResponse, ReachError>)
      modifies this
      ensures (State(), r) == RegisterStep(old(State()), authorization, req, now)
    {
      var session := GetSession(sessions, authorization, now);
      if session.Err? {
        return Err(session.error);
      }
      var ttl: u64 := if req.ttl.Some? then req.ttl.value else DEFAULT_TTL_S as u64;
      var expiresAt := now + AsI64(ttl);
      registry := registry[session.value.did := RegistryEntry(session.value.did, req.endpoint, now, expiresAt)];
      return Ok(RegisterResponse(true, session.value.did, expiresAt));
    }

    method LookupAgent(didParam: string, urlDecode: string -> Option<string>, statusOf: RegistryEntry -> AgentStatus)
      returns (r: Result<LookupResponse, ReachError>)
      ensures r == Lookup(registry, didParam, urlDecode, statusOf)
    {
      r := Lookup(registry, didParam, urlDecode, statusOf);
    }

    method Deregister(authorization: Option<string>, now: int) returns (r: Result<bool, ReachError>)
      modifies this
      ensures (State(), r) == DeregisterStep(old(State()), authorization, now)
    {
      var session := GetSession(sessions, authorization, now);
      if session.Err? {
        return Err(session.error);
      }
      var existed := session.value.did in registry;
      registry := registry - {session.value.did};
      return Ok(existed);
    }
  }
}
