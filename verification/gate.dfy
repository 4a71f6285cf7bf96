/** The request gate of routes/middlewares/authMiddleware.js: `jwtMiddleware`, which turns a
    bearer token into an identity on the request, and `authorize(roles)`, which admits only
    identities whose role is listed. */
module Gate {
  import opened Wrappers
  import opened JsString
  import opened Json
  import opened Http

  /** The parts of a request the gate reads and writes: the `Authorization` header and `req.user`. */
  datatype Request = Request(authorization: Option<string>, user: Option<Claims>)

  /** A middleware either sends a response or calls `next` with the (possibly updated) request;
      never both, never neither. */
  datatype Step = Respond(response: Response) | Next(request: Request)

  const BearerPrefix := "Bearer "
  const NoTokenMsg := "No token, authorization denied"
  const InvalidTokenMsg := "Token is not valid"
  const ForbiddenMsg := "Forbidden"

  /** `t` is the token a header carries: the space-free run right after `"Bearer "`. */
  predicate IsBearerToken(header: string, t: string) {
    && 7 + |t| <= |header|
    && header[7..7 + |t|] == t
    && ' ' !in t
    && (7 + |t| == |header| || header[7 + |t|] == ' ')
  }

  /** A header determines its token. */
  lemma BearerTokenUnique(header: string, t1: string, t2: string)
    requires IsBearerToken(header, t1) && IsBearerToken(header, t2)
    ensures t1 == t2
  {
  }

  /** The first space of a header that starts with `"Bearer "` is the one ending the prefix. */
  lemma BearerSpace(header: string)
    requires StartsWith(header, BearerPrefix)
    ensures IndexOf(header, ' ') == 6
  {
    assert header[6] == header[..7][6] == ' ';
    assert forall j :: 0 <= j < 6 ==> header[j] == header[..7][j] == BearerPrefix[j] != ' ';
  }

  /** `authHeader.split(' ')[1]` for a header starting with `"Bearer "`. */
  function BearerToken(header: string): (t: string)
    requires StartsWith(header, BearerPrefix)
    ensures IsBearerToken(header, t)
  {
    var fields := Split(header, ' ');
    BearerSpace(header);
    assert fields == [header[..6]] + Split(header[7..], ' ');
    var t := fields[1];
    assert t == header[7..][..IndexOf(header[7..], ' ')];
    t
  }

  /** The header passes the first test: it is present, non-empty and starts with `"Bearer "`. */
  predicate HasBearerHeader(req: Request) {
    req.authorization.Some? && StartsWith(req.authorization.value, BearerPrefix)
  }

  /** The claims the verifier returns for the request's token, if any. */
  function VerifiedClaims(req: Request, verify: string -> Option<Claims>): Option<Claims>
    requires HasBearerHeader(req)
  {
    verify(BearerToken(req.authorization.value))
  }

  /** The request carries a token that verifies to claims with a truthy `id`. */
  predicate Authenticated(req: Request, verify: string -> Option<Claims>) {
    && HasBearerHeader(req)
    && VerifiedClaims(req, verify).Some?
    && Truthy(VerifiedClaims(req, verify).value.id)
  }

  /** `jwtMiddleware`. `verify` is `jwt.verify` with the server secret: `None` when it throws
      (bad signature, expired, malformed, empty). */
  function JwtMiddleware(req: Request, verify: string -> Option<Claims>): (step: Step)
    ensures step.Next? <==> Authenticated(req, verify)
    ensures step.Next? ==> step.request == req.(user := VerifiedClaims(req, verify))
    ensures step.Respond? ==> step.response.status == 401
    ensures step.Respond? ==>
              (step.response.body == Msg(NoTokenMsg) <==> !HasBearerHeader(req))
    // Verification failures and claims without an id are indistinguishable.
    ensures step.Respond? ==>
              (step.response.body == Msg(InvalidTokenMsg) <==> HasBearerHeader(req))
  {
    match req.authorization
    case None => Respond(Response(401, Msg(NoTokenMsg)))
    case Some(header) =>
      if |header| == 0 || !StartsWith(header, BearerPrefix) then Respond(Response(401, Msg(NoTokenMsg)))
      else
        match verify(BearerToken(header))
        case None => Respond(Response(401, Msg(InvalidTokenMsg)))
        case Some(decoded) =>
          if !Truthy(decoded.id) then Respond(Response(401, Msg(InvalidTokenMsg)))
          else Next(req.(user := Some(decoded)))
  }

  /** `roles.includes(v)` for a list of role names and a JSON value (SameValueZero). */
  function Includes(roles: seq<string>, v: Value): (found: bool)
    ensures found <==> v.Str? && v.s in roles
  {
    if |roles| == 0 then false
    else
      var rest := Includes(roles[1..], v);
      assert v.Str? && v.s in roles <==> v == Str(roles[0]) || (v.Str? && v.s in roles[1..]);
      v == Str(roles[0]) || rest
  }

  /** `req.user?.role`. */
  function RoleOf(user: Option<Claims>): Value {
    match user
    case None => Undefined
    case Some(claims) => claims.role
  }

  /** The identity is present and its role is one of `roles`. */
  predicate Admits(roles: seq<string>, user: Option<Claims>) {
    exists r :: r in roles && user.Some? && user.value.role == Str(r)
  }

  /** `authorize(roles)` applied to a request. */
  function Authorize(roles: seq<string>, req: Request): (step: Step)
    ensures step.Next? <==> Admits(roles, req.user)
    ensures step.Next? ==> step.request == req
    ensures step.Respond? ==> step.response == Response(403, Msg(ForbiddenMsg))
  {
    if !Includes(roles, RoleOf(req.user)) then Respond(Response(403, Msg(ForbiddenMsg)))
    else Next(req)
  }

  /** Admission is monotone in the allow-list. */
  lemma AuthorizeMonotone(roles: seq<string>, wider: seq<string>, req: Request)
    requires forall r :: r in roles ==> r in wider
    requires Authorize(roles, req).Next?
    ensures Authorize(wider, req).Next?
  {
  }

  /** Without an identity, every allow-list gives 403. */
  lemma AbsentUserForbidden(roles: seq<string>, authorization: Option<string>)
    ensures Authorize(roles, Request(authorization, None)) == Respond(Response(403, Msg(ForbiddenMsg)))
  {
  }

  /** A doubled space after `Bearer` leaves an empty token, which `jwt.verify` rejects. */
  lemma DoubleSpaceGivesEmptyToken(verify: string -> Option<Claims>, rest: string)
    requires verify("") == None
    ensures BearerToken("Bearer  " + rest) == ""
    ensures JwtMiddleware(Request(Some("Bearer  " + rest), None), verify)
            == Respond(Response(401, Msg(InvalidTokenMsg)))
  {
    var header := "Bearer  " + rest;
    assert header[..7] == BearerPrefix;
    assert IsBearerToken(header, "") by {
      assert header[7] == ' ';
    }
    BearerTokenUnique(header, BearerToken(header), "");
  }
}
