/** The server's authentication and role gate (`authenticate`, `authorize`,
    `isAdmin` in backend/middleware/auth.js).

    A request is reduced to its `Authorization` header and the user attached
    to it; the Express `res`/`next` pair becomes an `Outcome`: `Continue`
    with the request passed on, or `Reject` with a status and the message of
    the `{ success: false, message }` body. Token verification and the user
    lookup are outside code and are parameters. */
module Auth {
  import opened Wrappers
  import opened JsText

  type UserId = string

  /** A user record as the lookup returns it (the password is excluded by
      the lookup itself). */
  datatype User = User(id: UserId, role: string)

  datatype Request = Request(authorization: Option<string>, user: Option<User>)

  /** `Reject(status, message)` stands for the JSON body
      `{ success: false, message }` sent with `status`. */
  datatype Outcome =
    | Continue(req: Request)
    | Reject(status: nat, message: string)

  /** A thrown error, identified by its `name` property. */
  datatype Thrown = Thrown(name: string)

  /** What the token verifier does with a token: decode it to a payload
      carrying the user id, or throw. */
  datatype Verified = Decoded(id: UserId) | VerifyFailed(error: Thrown)

  /** What the user lookup does with an id: find a record, find none, or throw. */
  datatype Lookup = Found(user: User) | NoRecord | LookupFailed(error: Thrown)

  const LoginRequired: string := "Authentication required. Please login."
  const InvalidFormat: string := "Invalid token format. Please login again."
  const InvalidToken: string := "Invalid token. Please login again."
  const TokenExpired: string := "Token expired. Please login again."
  const AuthFailed: string := "Authentication failed. Please login again."
  const UserNotFound: string := "User not found. Please login again."
  const AuthRequired: string := "Authentication required"
  const AccessDenied: string := "Access denied. Insufficient permissions."
  const AdminRequired: string := "Access denied. Admin privileges required."

  const BearerPrefix: string := "Bearer "

  /** The token taken from a header value: the text after a leading
      `"Bearer "`, otherwise the second element of a split on single spaces
      (absent when the header has no space). */
  function ExtractToken(header: string): (token: Option<string>)
    ensures StartsWith(header, BearerPrefix) ==> token == Some(header[|BearerPrefix|..])
    ensures !StartsWith(header, BearerPrefix) ==> (token.Some? <==> ' ' in header)
    ensures !StartsWith(header, BearerPrefix) && token.Some? ==> ' ' !in token.value
  {
    if StartsWith(header, BearerPrefix) then Some(header[7..])
    else
      var parts := Split(header, ' ');
      SplitHasSecond(header, ' ');
      if |parts| >= 2 then Some(parts[1]) else None
  }

  /** The credential the gate goes on with: present only when the header is
      truthy and the extracted token is truthy. */
  function Credential(req: Request): (token: Option<string>)
    ensures token.Some? ==> token.value != ""
    ensures token.Some? ==> req.authorization.Some? && token == ExtractToken(req.authorization.value)
    ensures token.Some? <==> Truthy(req.authorization) && Truthy(ExtractToken(req.authorization.value))
  {
    match req.authorization
    case None => None
    case Some(header) =>
      if header == "" then None
      else
        var token := ExtractToken(header);
        if Truthy(token) then token else None
  }

  /** The catch block's classification of a thrown error by its name. */
  function Classify(error: Thrown): (r: Outcome)
    ensures r.Reject? && r.status == 401
    ensures r.message in {InvalidToken, TokenExpired, AuthFailed}
    ensures r.message == InvalidToken <==> error.name == "JsonWebTokenError"
    ensures r.message == TokenExpired <==> error.name == "TokenExpiredError"
  {
    if error.name == "JsonWebTokenError" then Reject(401, InvalidToken)
    else if error.name == "TokenExpiredError" then Reject(401, TokenExpired)
    else Reject(401, AuthFailed)
  }

  /** `authenticate`: every check in order, the first failing one rejecting;
      the user is attached only when all pass. */
  function Authenticate(req: Request, verify: string -> Verified, findById: UserId -> Lookup): (r: Outcome)
    ensures r.Reject? ==> r.status == 401
    ensures r.Continue? <==>
      && Credential(req).Some?
      && ThreeSegments(Credential(req).value)
      && verify(Credential(req).value).Decoded?
      && findById(verify(Credential(req).value).id).Found?
    ensures r.Continue? ==>
      r.req == req.(user := Some(findById(verify(Credential(req).value).id).user))
  {
    var token := Credential(req);
    if token.None? then Reject(401, LoginRequired)
    else if !ThreeSegments(token.value) then Reject(401, InvalidFormat)
    else
      match verify(token.value)
      case VerifyFailed(e) => Classify(e)
      case Decoded(id) =>
        match findById(id)
        case LookupFailed(e) => Classify(e)
        case NoRecord => Reject(401, UserNotFound)
        case Found(user) => Continue(req.(user := Some(user)))
  }

  /** `authorize(...roles)`: fails closed without a user, then allows only
      the listed roles. */
  function Authorize(roles: seq<string>, req: Request): (r: Outcome)
    ensures req.user.None? ==> r == Reject(401, AuthRequired)
    ensures req.user.Some? && req.user.value.role !in roles ==> r == Reject(403, AccessDenied)
    ensures r.Continue? <==> req.user.Some? && req.user.value.role in roles
    ensures r.Continue? ==> r.req == req
  {
    if req.user.None? then Reject(401, AuthRequired)
    else if req.user.value.role !in roles then Reject(403, AccessDenied)
    else Continue(req)
  }

  /** `isAdmin`: the single-role gate for `"admin"` with its own message. */
  function IsAdmin(req: Request): (r: Outcome)
    ensures r.Continue? <==> req.user.Some? && req.user.value.role == "admin"
    ensures r.Continue? ==> r.req == req
    ensures r.Reject? && r.status == 403 ==> r.message == AdminRequired
  {
    if req.user.None? then Reject(401, AuthRequired)
    else if req.user.value.role != "admin" then Reject(403, AdminRequired)
    else Continue(req)
  }

  /** Runs the next middleware only when the previous one continued. */
  function Then(o: Outcome, next: Request -> Outcome): Outcome {
    match o
    case Continue(req) => next(req)
    case Reject(_, _) => o
  }

  /** The status-or-continue decision of an outcome, ignoring the message. */
  function Decision(o: Outcome): Option<nat> {
    match o
    case Continue(_) => None
    case Reject(status, _) => Some(status)
  }

  // ---------------------------------------------------------------------
  // Properties of the gate

  /** Without a usable credential the gate asks for a login, whatever the
      verifier and the lookup would say: neither is consulted. */
  lemma NoCredentialRejected(req: Request, verify: string -> Verified, findById: UserId -> Lookup)
    requires Credential(req).None?
    ensures Authenticate(req, verify, findById) == Reject(401, LoginRequired)
  {
  }

  /** The header shapes that carry no usable credential: absent, empty,
      `"Bearer "` with nothing after it, or no space at all. */
  lemma HeadersWithoutCredential(req: Request)
    requires
      || req.authorization.None?
      || req.authorization.value == ""
      || req.authorization.value == BearerPrefix
      || (!StartsWith(req.authorization.value, BearerPrefix) && ' ' !in req.authorization.value)
    ensures Credential(req).None?
  {
  }

  /** The fallback extraction takes the text between the first and second
      space of a header that does not start with `"Bearer "`. */
  lemma FallbackTakesSecondWord(header: string, before: string, between: string, after: string)
    requires !StartsWith(header, BearerPrefix)
    requires header == before + " " + between + after
    requires ' ' !in before && ' ' !in between
    requires after == "" || after[0] == ' '
    ensures ExtractToken(header) == Some(between)
  {
    SplitSecond(header, ' ', before, between, after);
  }

  /** A token that does not hold exactly two dots is refused as malformed,
      before and independently of verification. */
  lemma WrongDotCountRejected(req: Request, verify: string -> Verified, findById: UserId -> Lookup)
    requires Credential(req).Some?
    requires multiset(Credential(req).value)['.'] != 2
    ensures Authenticate(req, verify, findById) == Reject(401, InvalidFormat)
  {
    ThreeSegmentsIffTwoDots(Credential(req).value);
  }

  /** A failing verification of a well-formed token is reported by the
      error's kind: invalid signature, expiry, or anything else. */
  lemma VerifyFailureClassified(req: Request, verify: string -> Verified, findById: UserId -> Lookup)
    requires Credential(req).Some?
    requires multiset(Credential(req).value)['.'] == 2
    requires verify(Credential(req).value).VerifyFailed?
    ensures var name := verify(Credential(req).value).error.name;
      && (name == "JsonWebTokenError" ==> Authenticate(req, verify, findById) == Reject(401, InvalidToken))
      && (name == "TokenExpiredError" ==> Authenticate(req, verify, findById) == Reject(401, TokenExpired))
      && (name != "JsonWebTokenError" && name != "TokenExpiredError" ==>
            Authenticate(req, verify, findById) == Reject(401, AuthFailed))
  {
    ThreeSegmentsIffTwoDots(Credential(req).value);
  }

  /** A verified id without a user record is refused and never continues;
      a lookup that throws is classified like a verifier error. */
  lemma LookupFailureRejected(req: Request, verify: string -> Verified, findById: UserId -> Lookup)
    requires Credential(req).Some?
    requires multiset(Credential(req).value)['.'] == 2
    requires verify(Credential(req).value).Decoded?
    ensures var found := findById(verify(Credential(req).value).id);
      && (found.NoRecord? ==> Authenticate(req, verify, findById) == Reject(401, UserNotFound))
      && (found.LookupFailed? ==> Authenticate(req, verify, findById) == Classify(found.error))
  {
    ThreeSegmentsIffTwoDots(Credential(req).value);
  }

  /** With an empty allow-list every authenticated user is denied. */
  lemma EmptyAllowListDeniesAll(req: Request)
    requires req.user.Some?
    ensures Authorize([], req) == Reject(403, AccessDenied)
  {
  }

  /** `isAdmin` decides exactly as `authorize('admin')` does; only its 403
      message differs. */
  lemma IsAdminDecidesAsAuthorize(req: Request)
    ensures Decision(IsAdmin(req)) == Decision(Authorize(["admin"], req))
    ensures IsAdmin(req).Continue? ==> IsAdmin(req) == Authorize(["admin"], req)
    ensures Decision(IsAdmin(req)) == Some(401) ==> IsAdmin(req) == Authorize(["admin"], req)
  {
  }

  /** A route guarded by `authenticate` then `authorize(...roles)` runs its
      handler only for a request carrying the user found for the verified
      token, with one of the allowed roles. */
  lemma GuardedRouteInvariant(req: Request, verify: string -> Verified, findById: UserId -> Lookup,
                              roles: seq<string>)
    requires Then(Authenticate(req, verify, findById), r => Authorize(roles, r)).Continue?
    ensures var token := Credential(req).value;
      && multiset(token)['.'] == 2
      && verify(token).Decoded?
      && findById(verify(token).id).Found?
      && var u := findById(verify(token).id).user;
      && Then(Authenticate(req, verify, findById), r => Authorize(roles, r)).req == req.(user := Some(u))
      && u.role in roles
  {
    ThreeSegmentsIffTwoDots(Credential(req).value);
  }
}
