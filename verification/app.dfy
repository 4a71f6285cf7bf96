/** The two protected routes of routes/app.js: `/api/protected` behind `jwtMiddleware`, and
    `/api/admin` behind `jwtMiddleware` followed by `authorize(['admin'])`. */
module App {
  import opened Wrappers
  import opened Json
  import opened Http
  import opened Gate

  const AccessGrantedMsg := "Access granted"
  const AdminAccessGrantedMsg := "Admin access granted"

  /** The role claim of an authenticated request. */
  function ClaimedRole(req: Request, verify: string -> Option<Claims>): Value
    requires Authenticated(req, verify)
  {
    VerifiedClaims(req, verify).value.role
  }

  /** GET /api/protected. */
  function ProtectedRoute(req: Request, verify: string -> Option<Claims>): (r: Response)
    ensures r.status == 200 <==> Authenticated(req, verify)
    ensures r.status == 200 ==> r.body == Msg(AccessGrantedMsg)
    ensures r.status != 200 ==> r.status == 401
    // A 401 is the middleware's own response, passed through unchanged.
    ensures r.status == 401 ==> JwtMiddleware(req, verify) == Respond(r)
    ensures r.status == 401 ==> (r.body == Msg(NoTokenMsg) <==> !HasBearerHeader(req))
    ensures r.status == 401 ==> (r.body == Msg(InvalidTokenMsg) <==> HasBearerHeader(req))
  {
    match JwtMiddleware(req, verify)
    case Respond(response) => response
    case Next(_) => Response(200, Msg(AccessGrantedMsg))
  }

  /** GET /api/admin: the gate is the two middlewares chained. */
  function AdminRoute(req: Request, verify: string -> Option<Claims>): (r: Response)
    ensures r.status in {200, 401, 403}
    ensures r.status == 401 <==> !Authenticated(req, verify)
    ensures r.status == 403 <==> Authenticated(req, verify) && ClaimedRole(req, verify) != Str("admin")
    ensures r.status == 200 <==> Authenticated(req, verify) && ClaimedRole(req, verify) == Str("admin")
    ensures r.status == 200 ==> r.body == Msg(AdminAccessGrantedMsg)
    ensures r.status == 403 ==> r.body == Msg(ForbiddenMsg)
    ensures r.status == 401 ==> JwtMiddleware(req, verify) == Respond(r)
    ensures r.status == 401 ==> (r.body == Msg(NoTokenMsg) <==> !HasBearerHeader(req))
    ensures r.status == 401 ==> (r.body == Msg(InvalidTokenMsg) <==> HasBearerHeader(req))
  {
    match JwtMiddleware(req, verify)
    case Respond(response) => response
    case Next(authenticated) =>
      match Authorize(["admin"], authenticated)
      case Respond(response) => response
      case Next(_) => Response(200, Msg(AdminAccessGrantedMsg))
  }

  /** The admin route rejects a token exactly as the protected route does, and admits
      only what the protected route admits; 403 needs a valid token. */
  lemma AdminRouteRefinesProtected(req: Request, verify: string -> Option<Claims>)
    ensures AdminRoute(req, verify).status == 401 <==> ProtectedRoute(req, verify).status == 401
    ensures AdminRoute(req, verify).status == 401 ==> AdminRoute(req, verify) == ProtectedRoute(req, verify)
    ensures AdminRoute(req, verify).status == 200 ==> ProtectedRoute(req, verify).status == 200
    ensures AdminRoute(req, verify).status == 403 ==> ProtectedRoute(req, verify).status == 200
  {
  }

  /** A valid token whose role is `'user'` is forbidden on the admin route and admitted on the protected one. */
  lemma UserTokenOnAdminRoute(token: string, id: string, verify: string -> Option<Claims>)
    requires ' ' !in token && |id| > 0
    requires verify(token) == Some(Claims(Str(id), Str("user")))
    ensures AdminRoute(Request(Some("Bearer " + token), None), verify) == Response(403, Msg(ForbiddenMsg))
    ensures ProtectedRoute(Request(Some("Bearer " + token), None), verify) == Response(200, Msg(AccessGrantedMsg))
  {
    var header := "Bearer " + token;
    assert header[..7] == BearerPrefix;
    assert IsBearerToken(header, token) by {
      assert header[7..7 + |token|] == token;
    }
    BearerTokenUnique(header, BearerToken(header), token);
  }
}
