/** `SocketService`, the type-action socket server: its handshake middleware
    (token from `auth.token`, the `Authorization` header or the `accessToken`
    cookie, verified against `JWT_SECRET` and written to `socket.data.user`),
    the delivery of router responses, and the admin-only broadcast relay. */
module SocketService {
  import opened Values
  import opened Strings
  import opened Permissions
  import opened Tokens
  import opened SocketResponse
  import SocketRouter
  import Messages

  const CookieKey := "accessToken="

  /** The regular expression `accessToken=([^;]+)` matches at position `i`:
      the key occurs there and is followed by at least one character that is
      not `;`. */
  predicate MatchAt(s: string, i: int) {
    OccursAt(s, CookieKey, i) && i + |CookieKey| < |s| && s[i + |CookieKey|] != ';'
  }

  /** The leftmost match position at or after `from`. */
  function MatchFrom(s: string, from: nat): (r: Option<nat>)
    decreases |s| - from
    ensures r.Some? ==> from <= r.value && MatchAt(s, r.value)
    ensures r.Some? ==> forall j :: from <= j < r.value ==> !MatchAt(s, j)
    ensures r.None? ==> forall j :: from <= j ==> !MatchAt(s, j)
  {
    if from + |CookieKey| >= |s| then None
    else if MatchAt(s, from) then Some(from)
    else MatchFrom(s, from + 1)
  }

  /** `cookies.match(/accessToken=([^;]+)/)?.[1]` on a present, non-empty
      cookie header: the greedy run of non-`;` characters after the leftmost
      match. */
  function CookieRegexToken(cookie: Option<string>): (t: Option<string>)
    ensures t.Some? ==> Filled(cookie) && MatchFrom(cookie.value, 0).Some?
    ensures t.Some? ==>
      var c := cookie.value;
      var start := MatchFrom(c, 0).value + |CookieKey|;
      && t.value != ""
      && ';' !in t.value
      && start + |t.value| <= |c|
      && c[start..start + |t.value|] == t.value
      && (start + |t.value| == |c| || c[start + |t.value|] == ';')
    ensures Filled(cookie) && (exists i :: MatchAt(cookie.value, i)) ==> t.Some?
  {
    if !Filled(cookie) then None
    else
      match MatchFrom(cookie.value, 0)
      case None => None
      case Some(i) =>
        var rest := cookie.value[i + |CookieKey|..];
        var v := TakeUntil(rest, ';');
        assert rest[0] != ';';
        Some(v)
  }

  /** Lines 134-145: `auth.token || headers.authorization`, and the cookie only
      when both are empty. */
  function HandshakeToken(authToken: Option<string>, authorization: Option<string>,
                          cookie: Option<string>): (t: Option<string>)
    ensures t.Some? ==> t.value != ""
    ensures Filled(authToken) ==> t == authToken
    ensures !Filled(authToken) && Filled(authorization) ==> t == authorization
    ensures !Filled(authToken) && !Filled(authorization) ==> t == CookieRegexToken(cookie)
  {
    if Filled(authToken) then authToken
    else if Filled(authorization) then authorization
    else CookieRegexToken(cookie)
  }

  /** `token.replace("Bearer ", "")`: the first occurrence of "Bearer ", wherever
      it is, is cut out. */
  function StripBearer(token: string): (r: string)
    ensures Find(token, "Bearer ").None? ==> r == token
    ensures Find(token, "Bearer ").Some? ==>
      var i := Find(token, "Bearer ").value;
      |r| == |token| - 7 && r[..i] + "Bearer " + r[i..] == token
  {
    RemoveFirst(token, "Bearer ")
  }

  /** The socket's `data` bag, of which the middleware writes `user`. */
  class SocketData {
    var user: Option<Claim>

    constructor ()
      ensures user.None?
    {
      user := None;
    }

    /** The handshake middleware, lines 132-160. */
    method Authenticate(authToken: Option<string>, authorization: Option<string>,
                        cookie: Option<string>, verify: Verifier) returns (h: Handshake)
      modifies this
      ensures HandshakeToken(authToken, authorization, cookie).None? ==>
        h == Refused("Unauthorized access") && user == old(user)
      ensures HandshakeToken(authToken, authorization, cookie).Some? ==>
        var claim := verify(LegacySecret, StripBearer(HandshakeToken(authToken, authorization, cookie).value));
        if claim.Some? then h == Accepted && user == claim
        else h == Refused("Invalid or expired token") && user == old(user)
    {
      var token := if Filled(authToken) then authToken else authorization;
      if !Filled(token) {
        if Filled(cookie) {
          var m := MatchFrom(cookie.value, 0);
          if m.Some? {
            token := Some(TakeUntil(cookie.value[m.value + |CookieKey|..], ';'));
          }
        }
      }
      if !Filled(token) {
        return Refused(Messages.Unauthorized);
      }
      var decoded := verify(LegacySecret, StripBearer(token.value));
      if decoded.None? {
        return Refused(Messages.InvalidToken);
      }
      user := decoded;
      h := Accepted;
    }
  }

  /** Where a router response goes. */
  datatype Delivery = Callback(response: Response) | Emit(event: string, response: Response)

  /** Lines 178-183: to the acknowledgement callback when the client passed a
      function, else as a `response` event. */
  function Deliver(response: Response, hasCallback: bool): (d: Delivery)
    ensures d.response == response
    ensures d.Callback? <==> hasCallback
    ensures d.Emit? ==> d.event == "response"
  {
    if hasCallback then Callback(response) else Emit("response", response)
  }

  /** The `request` event, lines 169-184: route, then deliver once. */
  function OnRequest<H>(registry: map<string, map<string, H>>,
                        run: (H, Doc, Request) -> SocketRouter.HandlerResult,
                        req: Request, hasCallback: bool): (d: Delivery)
    ensures d.response == SocketRouter.HandleRequest(registry, run, req)
    ensures d.Callback? <==> hasCallback
  {
    Deliver(SocketRouter.HandleRequest(registry, run, req), hasCallback)
  }

  /** Both delivery modes carry the same envelope. */
  lemma DeliveryModesAgree<H>(registry: map<string, map<string, H>>,
                              run: (H, Doc, Request) -> SocketRouter.HandlerResult,
                              req: Request)
    ensures OnRequest(registry, run, req, true).response == OnRequest(registry, run, req, false).response
    ensures OnRequest(registry, run, req, true) != OnRequest(registry, run, req, false)
  {
  }

  /** Lines 187-191: the `broadcast` event is relayed to everyone only when the
      socket's claim says `admin`; otherwise nothing is emitted. */
  function Broadcast(user: Option<Claim>, data: Value): (relayed: Option<Value>)
    ensures relayed.Some? <==> user.Some? && user.value.role == Some(Admin)
    ensures relayed.Some? ==> relayed.value == data
  {
    if user.Some? && user.value.role == Some(Admin) then Some(data) else None
  }

  /** A claim that passes the broadcast gate passes every permission check. */
  lemma BroadcasterPassesEveryGate(user: Option<Claim>, data: Value, p: Permission)
    requires Broadcast(user, data).Some?
    ensures HasPermission(user.value.role.value, p)
  {
  }
}
