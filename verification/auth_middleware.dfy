/** The HTTP authentication middlewares `authenticate`, `authenticateGuest`
    and `optionalAuth`: where each looks for a token, in which order it tries
    the secrets, and what it writes onto the request before ending in exactly
    one of `sendError` or `next`. */
module AuthMiddleware {
  import opened Values
  import opened Strings
  import opened Permissions
  import opened Tokens
  import opened Middleware
  import Messages

  /** `req.cookies`, as parsed by the cookie parser. */
  type Cookies = map<string, string>

  function Cookie(cookies: Cookies, name: string): Option<string> {
    if name in cookies then Some(cookies[name]) else None
  }

  /** `a || b` over two optional strings; `None` when neither is filled. */
  function Or(a: Option<string>, b: Option<string>): (r: Option<string>)
    ensures Filled(a) ==> r == a
    ensures !Filled(a) ==> r == (if Filled(b) then b else None)
  {
    if Filled(a) then a else if Filled(b) then b else None
  }

  lemma BearerSpaceAt6(h: string)
    requires StartsWith(h, "Bearer ")
    ensures Find(h, " ") == Some(6)
  {
    assert OccursAt(h, " ", 6);
    var r := Find(h, " ");
    assert r.Some?;
    forall j | 0 <= j < 6 ensures !OccursAt(h, " ", j) {
      assert h[j] == "Bearer "[j];
    }
  }

  /** The header fallback: when the `Authorization` header starts with
      "Bearer ", its second space-separated field (`split(" ")[1]`). */
  function BearerToken(authorization: Option<string>): (t: Option<string>)
    ensures t.Some? <==> authorization.Some? && StartsWith(authorization.value, "Bearer ")
    ensures t.Some? ==>
      var h := authorization.value;
      && StartsWith(h, "Bearer " + t.value)
      && ' ' !in t.value
      && (7 + |t.value| == |h| || h[7 + |t.value|] == ' ')
  {
    if authorization.Some? && StartsWith(authorization.value, "Bearer ") then
      var h := authorization.value;
      BearerSpaceAt6(h);
      var piece := SecondPiece(h, " ");
      assert piece.Some?;
      var t := piece.value;
      assert h[7..7 + |t|] == t;
      assert (h[..7 + |t|]) == h[..7] + h[7..7 + |t|];
      assert ' ' !in t by {
        forall k | 0 <= k < |t| ensures t[k] != ' ' {
          assert !OccursAt(h, " ", 7 + k);
          assert h[7 + k] == t[k];
        }
      }
      piece
    else None
  }

  /** `authenticate` and `optionalAuth` (lines 11-15, 74-78): the
      `accessToken` cookie, else the Bearer header. */
  function AccessTokenSource(cookies: Cookies, authorization: Option<string>): (t: Option<string>)
    ensures t.Some? ==> t.value != ""
    ensures Filled(Cookie(cookies, "accessToken")) ==> t == Cookie(cookies, "accessToken")
    ensures !Filled(Cookie(cookies, "accessToken")) && t.Some? ==> t == BearerToken(authorization)
    ensures t.None? <==> !Filled(Cookie(cookies, "accessToken")) && !Filled(BearerToken(authorization))
  {
    Or(Cookie(cookies, "accessToken"), BearerToken(authorization))
  }

  /** `authenticateGuest` (lines 44-48): the `guestToken` cookie, else the
      `accessToken` cookie, else the Bearer header. */
  function GuestTokenSource(cookies: Cookies, authorization: Option<string>): (t: Option<string>)
    ensures t.Some? ==> t.value != ""
    ensures Filled(Cookie(cookies, "guestToken")) ==> t == Cookie(cookies, "guestToken")
    ensures !Filled(Cookie(cookies, "guestToken")) ==> t == AccessTokenSource(cookies, authorization)
  {
    Or(Or(Cookie(cookies, "guestToken"), Cookie(cookies, "accessToken")), BearerToken(authorization))
  }

  /** `User.findById(userId)`: the stored user, no user, or a query that throws. */
  datatype UserLookup = Found(user: Doc) | Missing | LookupFailed

  predicate IsActive(user: Doc) {
    Present(user, "isActive")
  }

  /** How `authenticate` ends. */
  function AuthenticateOutcome(cookies: Cookies, authorization: Option<string>,
                               verify: Verifier, findUser: Option<string> -> UserLookup): (o: Outcome)
    ensures o.SendError? ==> o.status == 401
    ensures AccessTokenSource(cookies, authorization).None? ==> o == SendError(401, "Access token required")
    ensures o == Next <==>
      var t := AccessTokenSource(cookies, authorization);
      && t.Some?
      && verify(AccessSecret, t.value).Some?
      && findUser(verify(AccessSecret, t.value).value.userId).Found?
      && IsActive(findUser(verify(AccessSecret, t.value).value.userId).user)
    ensures o == SendError(401, "User not found") <==>
      var t := AccessTokenSource(cookies, authorization);
      && t.Some?
      && verify(AccessSecret, t.value).Some?
      && var u := findUser(verify(AccessSecret, t.value).value.userId);
      (u.Missing? || (u.Found? && !IsActive(u.user)))
    // a rejected token and a failed lookup end alike
    ensures o == SendError(401, "Invalid or expired token") <==>
      var t := AccessTokenSource(cookies, authorization);
      && t.Some?
      && (verify(AccessSecret, t.value).None? || findUser(verify(AccessSecret, t.value).value.userId).LookupFailed?)
  {
    match AccessTokenSource(cookies, authorization)
    case None => SendError(401, Messages.TokenRequired)
    case Some(t) =>
      match verify(AccessSecret, t)
      case None => SendError(401, Messages.InvalidToken)
      case Some(c) =>
        match findUser(c.userId)
        case Found(u) => if IsActive(u) then Next else SendError(401, Messages.UserNotFound)
        case Missing => SendError(401, Messages.UserNotFound)
        case LookupFailed => SendError(401, Messages.InvalidToken)
  }

  /** How `authenticateGuest` ends. */
  function AuthenticateGuestOutcome(cookies: Cookies, authorization: Option<string>, verify: Verifier): (o: Outcome)
    ensures GuestTokenSource(cookies, authorization).None? ==> o == SendError(401, "Access token required")
    ensures o == Next <==>
      var t := GuestTokenSource(cookies, authorization);
      t.Some? && (verify(GuestSecret, t.value).Some? || verify(AccessSecret, t.value).Some?)
    ensures o != Next && GuestTokenSource(cookies, authorization).Some? ==>
      o == SendError(401, "Invalid or expired token")
  {
    match GuestTokenSource(cookies, authorization)
    case None => SendError(401, Messages.TokenRequired)
    case Some(t) =>
      if GuestThenAccess(verify, t).Some? then Next else SendError(401, Messages.InvalidToken)
  }

  /** The request object the middlewares decorate (`AuthRequest`). */
  class AuthRequest {
    var userId: Option<string>
    var userRole: Option<Role>
    var user: Option<Doc>

    constructor ()
      ensures userId.None? && userRole.None? && user.None?
    {
      userId, userRole, user := None, None, None;
    }

    /** `authenticate` */
    method Authenticate(cookies: Cookies, authorization: Option<string>,
                        verify: Verifier, findUser: Option<string> -> UserLookup) returns (o: Outcome)
      modifies this
      ensures o == AuthenticateOutcome(cookies, authorization, verify, findUser)
      // the claim is attached as soon as the token verifies, whatever follows
      ensures var t := AccessTokenSource(cookies, authorization);
        if t.Some? && verify(AccessSecret, t.value).Some? then
          var c := verify(AccessSecret, t.value).value;
          userId == c.userId && userRole == c.role
        else
          userId == old(userId) && userRole == old(userRole)
      // the user record only when the request goes on
      ensures o == Next ==> user.Some? && IsActive(user.value)
      ensures o == Next ==>
        user == Some(findUser(verify(AccessSecret, AccessTokenSource(cookies, authorization).value).value.userId).user)
      ensures o != Next ==> user == old(user)
    {
      var token := Cookie(cookies, "accessToken");
      if !Filled(token) && BearerToken(authorization).Some? {
        token := BearerToken(authorization);
      }
      if !Filled(token) {
        return SendError(401, Messages.TokenRequired);
      }
      var decoded := verify(AccessSecret, token.value);
      if decoded.None? {
        return SendError(401, Messages.InvalidToken);
      }
      userId := decoded.value.userId;
      userRole := decoded.value.role;
      var found := findUser(decoded.value.userId);
      if found.LookupFailed? {
        return SendError(401, Messages.InvalidToken);
      }
      if found.Missing? || !IsActive(found.user) {
        return SendError(401, Messages.UserNotFound);
      }
      user := Some(found.user);
      o := Next;
    }

    /** `authenticateGuest` */
    method AuthenticateGuest(cookies: Cookies, authorization: Option<string>, verify: Verifier)
      returns (o: Outcome)
      modifies this
      ensures o == AuthenticateGuestOutcome(cookies, authorization, verify)
      ensures user == old(user)
      ensures var t := GuestTokenSource(cookies, authorization);
        match (if t.Some? then GuestThenAccess(verify, t.value) else None)
        case None => userId == old(userId) && userRole == old(userRole)
        case Some(GuestGrant) => userId == old(userId) && userRole == Some(Guest)
        case Some(AccessGrant(c)) => userId == c.userId && userRole == c.role
    {
      var token := Or(Cookie(cookies, "guestToken"), Cookie(cookies, "accessToken"));
      if !Filled(token) && BearerToken(authorization).Some? {
        token := BearerToken(authorization);
      }
      if !Filled(token) {
        return SendError(401, Messages.TokenRequired);
      }
      if verify(GuestSecret, token.value).Some? {
        userRole := Some(Guest);
      } else {
        var decoded := verify(AccessSecret, token.value);
        if decoded.None? {
          return SendError(401, Messages.InvalidToken);
        }
        userId := decoded.value.userId;
        userRole := decoded.value.role;
      }
      o := Next;
    }

    /** `optionalAuth`: always goes on; attaches the claim only when an access
      token verifies. */
    method OptionalAuth(cookies: Cookies, authorization: Option<string>, verify: Verifier)
      returns (o: Outcome)
      modifies this
      ensures o == Next
      ensures user == old(user)
      ensures var t := AccessTokenSource(cookies, authorization);
        if t.Some? && verify(AccessSecret, t.value).Some? then
          var c := verify(AccessSecret, t.value).value;
          userId == c.userId && userRole == c.role
        else
          userId == old(userId) && userRole == old(userRole)
    {
      var token := Cookie(cookies, "accessToken");
      if !Filled(token) && BearerToken(authorization).Some? {
        token := BearerToken(authorization);
      }
      if Filled(token) {
        var decoded := verify(AccessSecret, token.value);
        if decoded.Some? {
          userId := decoded.value.userId;
          userRole := decoded.value.role;
        }
      }
      o := Next;
    }
  }

  /** A guest token never reaches a route guarded by `authenticate`: if the
      token verifies only under the guest secret, `authenticate` refuses it. */
  lemma GuestTokenRefusedByAuthenticate(cookies: Cookies, authorization: Option<string>,
                                        verify: Verifier, findUser: Option<string> -> UserLookup)
    requires AccessTokenSource(cookies, authorization).Some?
    requires verify(AccessSecret, AccessTokenSource(cookies, authorization).value).None?
    ensures AuthenticateOutcome(cookies, authorization, verify, findUser) == SendError(401, "Invalid or expired token")
  {
  }

  /** The Bearer header is consulted only when the cookie is empty: a filled
      `accessToken` cookie decides alone, whatever the header says. */
  lemma CookieShadowsHeader(cookies: Cookies, a1: Option<string>, a2: Option<string>)
    requires Filled(Cookie(cookies, "accessToken"))
    ensures AccessTokenSource(cookies, a1) == AccessTokenSource(cookies, a2)
    ensures GuestTokenSource(cookies, a1) == GuestTokenSource(cookies, a2)
  {
  }
}
