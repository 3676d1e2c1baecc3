/** Authentication in front of the MCP endpoint (src/middleware/mcp-auth.ts):
    bearer-token extraction, the decision between token and session
    authentication, the `WWW-Authenticate` challenge (the Bearer scheme of
    section 3 of RFC 6750 with the `resource_metadata` parameter of section 5.1 of
    RFC 9728) and the wrapper that either rejects a request or runs its handler.
    Token verification and the session lookup are supplied as their outcomes. */
module Auth {
  import opened Results
  import opened Strings

  /** Who is calling: every member may be absent. */
  datatype Context = Context(userId: Option<string>, userEmail: Option<string>, organizationId: Option<string>)

  /** The verified token's claims (`sub`, `email`, `organization_id`). */
  datatype Claims = Claims(sub: Option<string>, email: Option<string>, organizationId: Option<string>)

  /** A signed-in browser session's user. */
  datatype SessionUser = SessionUser(id: string, email: string, organizationId: Option<string>)

  /** `{ isValid, context?, error? }`. */
  datatype AuthResult = AuthResult(isValid: bool, context: Option<Context>, error: Option<string>)

  /** Token verification against the key set and issuer: the claims, or what it threw. */
  type Verifier = string -> Result<Claims, string>

  /** The session lookup: a user, no user, or what it threw. */
  type Session = Result<Option<SessionUser>, string>

  datatype AuthErrorBody = AuthErrorBody(error: string, message: string, timestamp: string)
  datatype AuthErrorResponse = AuthErrorResponse(status: int, wwwAuthenticate: string, contentType: string,
                                                 body: AuthErrorBody)

  /** The wrapper's outcome: the rejection it sent, or what the handler returned. */
  datatype Gate<+T> = Rejected(response: AuthErrorResponse) | Handled(value: T)

  const BearerPrefix := "Bearer "
  const MetadataPath := "/.well-known/oauth-protected-resource"
  const ValidationFailed := "Authentication validation failed"
  const NoSession := "No authenticated user session found"
  const TokenRequired := "Bearer token required for MCP client authentication"
  const Unauthorized := "Unauthorized"

  /** Characters a regular-expression `.` does not match. */
  predicate IsLineTerminator(ch: char) {
    ch == '\n' || ch == '\r' || ch == '\U{2028}' || ch == '\U{2029}'
  }

  predicate NoLineTerminator(s: string) {
    forall k :: 0 <= k < |s| ==> !IsLineTerminator(s[k])
  }

  /** The capture of `^Bearer (.+)$` on the Authorization header: case-sensitive
      scheme, exactly one space, a non-empty rest without line terminators. */
  function BearerToken(header: Option<string>): (r: Option<string>)
    ensures r.Some? ==> header == Some(BearerPrefix + r.value) && r.value != "" && NoLineTerminator(r.value)
  {
    match header
    case None => None
    case Some(h) =>
      if StartsWith(h, BearerPrefix) && |h| > |BearerPrefix| && NoLineTerminator(h[|BearerPrefix|..]) then
        assert h == BearerPrefix + h[|BearerPrefix|..];
        Some(h[|BearerPrefix|..])
      else None
  }

  /** Conversely, every header of that shape yields its token. */
  lemma BearerTokenComplete(token: string)
    requires token != "" && NoLineTerminator(token)
    ensures BearerToken(Some(BearerPrefix + token)) == Some(token)
  {
    var h := BearerPrefix + token;
    assert h[..|BearerPrefix|] == BearerPrefix;
    assert h[|BearerPrefix|..] == token;
  }

  /** `validateMcpAuth`. With a token, the verifier alone decides; without one, the
      session does. Every invalid result carries a non-empty error and every valid
      one a context. */
  function ValidateMcpAuth(header: Option<string>, verify: Verifier, session: Session): (r: AuthResult)
    ensures r.isValid <==> r.context.Some?
    ensures !r.isValid ==> r.error.Some? && r.error.value != ""
    ensures BearerToken(header).Some? ==>
              var v := verify(BearerToken(header).value);
              && (r.isValid <==> v.Ok?)
              && (v.Err? ==> r.error == Some(ValidationFailed))
              && (v.Ok? ==> r.context == Some(Context(v.value.sub, v.value.email, v.value.organizationId)))
    ensures BearerToken(header).None? ==>
              && (session.Err? ==> r == AuthResult(false, None, Some(TokenRequired)))
              && (session == Ok(None) ==> r == AuthResult(false, None, Some(NoSession)))
              && (session.Ok? && session.value.Some? ==>
                    var u := session.value.value;
                    r.isValid &&
                    r.context == Some(Context(Some(u.id), Some(u.email),
                                              if u.organizationId == Some("") then None else u.organizationId)))
  {
    match BearerToken(header)
    case Some(token) =>
      (match verify(token)
       case Err(_) => AuthResult(false, None, Some(ValidationFailed))
       case Ok(claims) => AuthResult(true, Some(Context(claims.sub, claims.email, claims.organizationId)), None))
    case None =>
      match session
      case Err(_) => AuthResult(false, None, Some(TokenRequired))
      case Ok(None) => AuthResult(false, None, Some(NoSession))
      case Ok(Some(user)) =>
        var org := if user.organizationId == Some("") then None else user.organizationId;
        AuthResult(true, Some(Context(Some(user.id), Some(user.email), org)), None)
  }

  /** A present token never falls back to the session: the session does not matter. */
  lemma TokenIgnoresSession(header: Option<string>, verify: Verifier, s1: Session, s2: Session)
    requires BearerToken(header).Some?
    ensures ValidateMcpAuth(header, verify, s1) == ValidateMcpAuth(header, verify, s2)
  {
  }

  /** Without a token the verifier is never consulted. */
  lemma SessionIgnoresVerifier(header: Option<string>, v1: Verifier, v2: Verifier, session: Session)
    requires BearerToken(header).None?
    ensures ValidateMcpAuth(header, v1, session) == ValidateMcpAuth(header, v2, session)
  {
  }

  /** A session user's empty organization id reads as absent (`|| undefined`). */
  lemma SessionOrganization(header: Option<string>, verify: Verifier, user: SessionUser)
    requires BearerToken(header).None?
    ensures var r := ValidateMcpAuth(header, verify, Ok(Some(user)));
            r.context.value.organizationId == (if user.organizationId == Some("") then None else user.organizationId)
  {
  }

  /** The three parts of the challenge: scheme with its error code, the error
      description, and where the protected-resource metadata lives. */
  const ChallengeError := "Bearer error=\"unauthorized\""
  const ChallengeDescription := "error_description=\"Authorization needed\""

  function ResourceMetadataParam(baseUrl: string): string {
    "resource_metadata=\"" + baseUrl + MetadataPath + "\""
  }

  /** The challenge: the Bearer scheme, then the three parts joined by `", "`. */
  function WwwAuthenticate(baseUrl: string): (r: string)
    ensures StartsWith(r, "Bearer ")
    ensures r == ChallengeError + ", " + ChallengeDescription + ", " + ResourceMetadataParam(baseUrl)
  {
    var parts := [ChallengeError, ChallengeDescription, ResourceMetadataParam(baseUrl)];
    assert JoinWith(parts[2..], ", ") == parts[2];
    assert JoinWith(parts[1..], ", ") == parts[1] + ", " + parts[2] by {
      assert parts[1..][1..] == parts[2..];
    }
    var r := JoinWith(parts, ", ");
    assert r[..7] == ChallengeError[..7];
    r
  }

  /** `createAuthErrorResponse`; the timestamp is supplied by the caller. */
  function AuthError(error: string, baseUrl: string, timestamp: string, status: int): (r: AuthErrorResponse)
    ensures r.status == status && r.contentType == "application/json"
    ensures StartsWith(r.wwwAuthenticate, "Bearer ") && r.wwwAuthenticate == WwwAuthenticate(baseUrl)
    ensures r.body.error == "Authentication failed" && r.body.message == error && r.body.timestamp == timestamp
  {
    AuthErrorResponse(status, WwwAuthenticate(baseUrl), "application/json",
                      AuthErrorBody("Authentication failed", error, timestamp))
  }

  /** `withMcpAuth`: an invalid result is answered with a 401 challenge whose
      message is the error (or "Unauthorized" when there is none) and the handler
      is not run; a valid one runs the handler once with the context. The base URL
      is the request's `protocol//host`. */
  function WithMcpAuth<T>(auth: AuthResult, protocol: string, host: string, timestamp: string,
                          handler: Option<Context> -> T): (r: Gate<T>)
    ensures !auth.isValid ==> r.Rejected? && r.response.status == 401
    ensures !auth.isValid ==> r.response.wwwAuthenticate == WwwAuthenticate(protocol + "//" + host)
    ensures !auth.isValid ==>
              r.response.body.message == (if auth.error.None? || auth.error == Some("") then Unauthorized else auth.error.value)
    ensures auth.isValid ==> r == Handled(handler(auth.context))
  {
    if !auth.isValid then
      var message := if auth.error.None? || auth.error == Some("") then Unauthorized else auth.error.value;
      Rejected(AuthError(message, protocol + "//" + host, timestamp, 401))
    else Handled(handler(auth.context))
  }

  /** Rejection does not depend on the handler: it is never run. */
  lemma RejectionIgnoresHandler<T>(auth: AuthResult, protocol: string, host: string, timestamp: string,
                                   h1: Option<Context> -> T, h2: Option<Context> -> T)
    requires !auth.isValid
    ensures WithMcpAuth(auth, protocol, host, timestamp, h1) == WithMcpAuth(auth, protocol, host, timestamp, h2)
  {
  }

  /** Through `validateMcpAuth`, a rejection always carries the validator's own
      message and a valid request reaches the handler with a context. */
  lemma ValidatedGate<T>(header: Option<string>, verify: Verifier, session: Session, protocol: string,
                         host: string, timestamp: string, handler: Option<Context> -> T)
    ensures var auth := ValidateMcpAuth(header, verify, session);
            var r := WithMcpAuth(auth, protocol, host, timestamp, handler);
            && (r.Rejected? ==> r.response.body.message in {ValidationFailed, NoSession, TokenRequired})
            && (r.Handled? ==> auth.context.Some? && r.value == handler(auth.context))
  {
  }
}
