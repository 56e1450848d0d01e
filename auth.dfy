/** The authentication middleware: a bearer-token gate that attaches the verified
    token payload to the request, and a role gate over that payload. Token
    verification (signature and expiry) is a parameter: it yields the payload, or
    nothing when the library would throw. */
module Auth {
  import opened Models

  /** What a middleware does with the request: pass it on (`next()`), or answer it
      with an error status and message. */
  datatype Gate = Next | Deny(status: int, error: string)

  const BearerPrefix := "Bearer "
  const MissingTokenMessage := "Authentication required. Please provide a valid token."
  const BadTokenMessage := "Invalid or expired token. Please log in again."
  const NoUserMessage := "Authentication required."
  const DeniedPrefix := "Access denied. Required user type: "

  /** The token of an `Authorization` header: the header minus its 7-character
      `Bearer ` prefix, if it has that prefix. */
  function BearerToken(header: Option<string>): (r: Option<string>)
    ensures r.Some? <==> header.Some? && |BearerPrefix| <= |header.value| && header.value[..|BearerPrefix|] == BearerPrefix
    ensures r.Some? ==> header.value == BearerPrefix + r.value
  {
    if header.Some? && |BearerPrefix| <= |header.value| && header.value[..|BearerPrefix|] == BearerPrefix
    then
      assert header.value == header.value[..|BearerPrefix|] + header.value[|BearerPrefix|..];
      Some(header.value[|BearerPrefix|..])
    else None
  }

  /** Reading the token back out of a header built from it gives the token. */
  lemma BearerRoundTrip(token: string)
    ensures BearerToken(Some(BearerPrefix + token)) == Some(token)
  {
    assert (BearerPrefix + token)[..|BearerPrefix|] == BearerPrefix;
  }

  datatype AuthResult = AuthResult(gate: Gate, user: Option<JwtPayload>)

  /** `requireAuth` as a function of the header: a missing header or one without the
      bearer prefix, and a token that fails verification, are each refused with 401;
      otherwise the request goes on carrying the verified payload. */
  function Authenticate(header: Option<string>, verify: string -> Option<JwtPayload>): (r: AuthResult)
    ensures r.gate.Next? <==> BearerToken(header).Some? && verify(BearerToken(header).value).Some?
    ensures r.gate.Next? ==> r.user == verify(BearerToken(header).value)
    ensures r.gate.Deny? ==> r.gate.status == 401 && r.user.None?
    ensures BearerToken(header).None? ==> r.gate == Deny(401, MissingTokenMessage)
    ensures BearerToken(header).Some? && verify(BearerToken(header).value).None? ==> r.gate == Deny(401, BadTokenMessage)
  {
    match BearerToken(header)
    case None => AuthResult(Deny(401, MissingTokenMessage), None)
    case Some(token) =>
      match verify(token)
      case None => AuthResult(Deny(401, BadTokenMessage), None)
      case Some(payload) => AuthResult(Next, Some(payload))
  }

  /** An incoming request: its `Authorization` header, and `user`, which the
      authentication gate fills in. */
  class Request {
    const authorization: Option<string>
    var user: Option<JwtPayload>

    constructor (authorization: Option<string>)
      ensures this.authorization == authorization && user.None?
    {
      this.authorization := authorization;
      user := None;
    }
  }

  /** `requireAuth`: sets `req.user` and calls `next` only for a verified token. */
  method RequireAuth(req: Request, verify: string -> Option<JwtPayload>) returns (gate: Gate)
    modifies req
    ensures gate == Authenticate(req.authorization, verify).gate
    ensures gate.Next? ==> req.user == Authenticate(req.authorization, verify).user
    ensures gate.Deny? ==> req.user == old(req.user)
  {
    var token := BearerToken(req.authorization);
    if token.None? {
      return Deny(401, MissingTokenMessage);
    }
    var decoded := verify(token.value);
    if decoded.None? {
      return Deny(401, BadTokenMessage);
    }
    req.user := decoded;
    gate := Next;
  }

  /** `allowedTypes.join(" or ")`. */
  function JoinTypes(types: seq<UserType>): (r: string)
    ensures |types| == 1 ==> r == UserTypeName(types[0])
  {
    if types == [] then ""
    else if |types| == 1 then UserTypeName(types[0])
    else UserTypeName(types[0]) + " or " + JoinTypes(types[1..])
  }

  /** `requireUserType(...allowedTypes)`: 401 without a user, 403 when the user's type
      is not allowed, and `next` exactly when it is. */
  function RequireUserType(allowedTypes: seq<UserType>, user: Option<JwtPayload>): (g: Gate)
    ensures g.Next? <==> user.Some? && user.value.userType in allowedTypes
    ensures user.None? ==> g == Deny(401, NoUserMessage)
    ensures user.Some? && user.value.userType !in allowedTypes ==>
              g == Deny(403, DeniedPrefix + JoinTypes(allowedTypes))
  {
    if user.None? then Deny(401, NoUserMessage)
    else if user.value.userType !in allowedTypes then Deny(403, DeniedPrefix + JoinTypes(allowedTypes))
    else Next
  }

  /** The two gates in a row let a request through exactly when it carries a
      `Bearer` token that verifies to a payload of an allowed type. */
  lemma GatesInSequence(header: Option<string>, verify: string -> Option<JwtPayload>, allowedTypes: seq<UserType>)
    ensures var a := Authenticate(header, verify);
      (a.gate.Next? && RequireUserType(allowedTypes, a.user).Next?) <==>
      (exists token :: header == Some(BearerPrefix + token) && verify(token).Some? && verify(token).value.userType in allowedTypes)
  {
    var a := Authenticate(header, verify);
    if exists token :: header == Some(BearerPrefix + token) && verify(token).Some? && verify(token).value.userType in allowedTypes {
      var token :| header == Some(BearerPrefix + token) && verify(token).Some? && verify(token).value.userType in allowedTypes;
      BearerRoundTrip(token);
    }
    if a.gate.Next? {
      BearerRoundTrip(BearerToken(header).value);
    }
  }
}
