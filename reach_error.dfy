/** The registry server's error type: its display texts and the HTTP
    response each error becomes. */
module ReachErrors {
  import opened Common

  datatype ReachError =
    | InvalidDid
    | InvalidSignature
    | InvalidChallenge
    | NotFound
    | Expired
    | Unauthorized
    | SessionExpired
    | HandshakeError(detail: string)
    | Internal(detail: string)

  const HANDSHAKE_PREFIX := "Handshake error: "
  const INTERNAL_PREFIX := "Internal error: "

  /** The `Display` text of each variant. */
  function Display(e: ReachError): string {
    match e
    case InvalidDid => "Invalid DID format"
    case InvalidSignature => "Invalid signature"
    case InvalidChallenge => "Invalid or expired challenge"
    case NotFound => "Agent not found"
    case Expired => "Registration expired"
    case Unauthorized => "Unauthorized - valid session required"
    case SessionExpired => "Session expired"
    case HandshakeError(d) => HANDSHAKE_PREFIX + d
    case Internal(d) => INTERNAL_PREFIX + d
  }

  /** An HTTP response: status code and a JSON object body. */
  datatype Response = Response(status: nat, body: map<string, string>)

  /** `IntoResponse for ReachError`. */
  function IntoResponse(e: ReachError): (r: Response)
    ensures r.body.Keys == {"error"}
    ensures e.Internal? ==> r.body["error"] == "Internal error"
    ensures !e.Internal? ==> r.body["error"] == Display(e)
    ensures r.status in {400, 401, 404, 410, 500}
    ensures r.status == 400 <==> e.InvalidDid? || e.InvalidChallenge? || e.HandshakeError?
    ensures r.status == 401 <==> e.InvalidSignature? || e.Unauthorized? || e.SessionExpired?
    ensures r.status == 404 <==> e.NotFound?
    ensures r.status == 410 <==> e.Expired?
    ensures r.status == 500 <==> e.Internal?
  {
    match e
    case InvalidDid => Response(400, map["error" := Display(e)])
    case InvalidSignature => Response(401, map["error" := Display(e)])
    case InvalidChallenge => Response(400, map["error" := Display(e)])
    case NotFound => Response(404, map["error" := Display(e)])
    case Expired => Response(410, map["error" := Display(e)])
    case Unauthorized => Response(401, map["error" := Display(e)])
    case SessionExpired => Response(401, map["error" := Display(e)])
    case HandshakeError(_) => Response(400, map["error" := Display(e)])
    case Internal(_) => Response(500, map["error" := "Internal error"])
  }

  /** The detail of an internal error never reaches the client: two internal
      errors give the same response whatever they carry. */
  lemma InternalHidesDetail(d1: string, d2: string)
    ensures IntoResponse(Internal(d1)) == IntoResponse(Internal(d2))
  {
  }

  /** Reads an error back from its display text. */
  function ErrorOfText(text: string): Option<ReachError> {
    if text == "Invalid DID format" then Some(InvalidDid)
    else if text == "Invalid signature" then Some(InvalidSignature)
    else if text == "Invalid or expired challenge" then Some(InvalidChallenge)
    else if text == "Agent not found" then Some(NotFound)
    else if text == "Registration expired" then Some(Expired)
    else if text == "Unauthorized - valid session required" then Some(Unauthorized)
    else if text == "Session expired" then Some(SessionExpired)
    else if |text| >= |HANDSHAKE_PREFIX| && text[..|HANDSHAKE_PREFIX|] == HANDSHAKE_PREFIX then
      Some(HandshakeError(text[|HANDSHAKE_PREFIX|..]))
    else if |text| >= |INTERNAL_PREFIX| && text[..|INTERNAL_PREFIX|] == INTERNAL_PREFIX then
      Some(Internal(text[|INTERNAL_PREFIX|..]))
    else None
  }

  /** Every display text reads back as the error that produced it. */
  lemma DisplayReadsBack(e: ReachError)
    ensures ErrorOfText(Display(e)) == Some(e)
  {
    if e.HandshakeError? {
      HandshakeReadsBack(e.detail);
    } else if e.Internal? {
      InternalReadsBack(e.detail);
    }
  }

  lemma HandshakeReadsBack(d: string)
    ensures ErrorOfText(HANDSHAKE_PREFIX + d) == Some(HandshakeError(d))
  {
    var s := HANDSHAKE_PREFIX + d;
    assert s[1] == 'a';
    assert s[..|HANDSHAKE_PREFIX|] == HANDSHAKE_PREFIX;
    assert s[|HANDSHAKE_PREFIX|..] == d;
  }

  lemma InternalReadsBack(d: string)
    ensures ErrorOfText(INTERNAL_PREFIX + d) == Some(Internal(d))
  {
    var s := INTERNAL_PREFIX + d;
    assert |s| >= 16 && s[14] == ':';
    assert s[0] == 'I' != HANDSHAKE_PREFIX[0];
    assert s[..|INTERNAL_PREFIX|] == INTERNAL_PREFIX;
    assert s[|INTERNAL_PREFIX|..] == d;
  }

  /** Distinct errors have distinct display texts. */
  lemma DisplayInjective(a: ReachError, b: ReachError)
    requires Display(a) == Display(b)
    ensures a == b
  {
    DisplayReadsBack(a);
    DisplayReadsBack(b);
  }
}
