/** `setupSocketIO`: the role-aware socket server. Its handshake middleware
    writes `userId` and `userRole` onto the socket (access token first, guest
    token as fallback); its event handlers are gates over those two fields. */
module SocketSetup {
  import opened Values
  import opened Strings
  import opened Permissions
  import opened Tokens
  import Messages

  /** `cookie?.split("accessToken=")[1]?.split(";")[0]`: the text after the
      first `accessToken=` up to the next `;` or the next `accessToken=`. */
  function CookieToken(cookie: Option<string>): (t: Option<string>)
    ensures t.Some? ==> cookie.Some? && Find(cookie.value, "accessToken=").Some?
    ensures t.Some? ==>
      var c := cookie.value;
      var start := Find(c, "accessToken=").value + |"accessToken="|;
      && ';' !in t.value
      && start + |t.value| <= |c|
      && c[start..start + |t.value|] == t.value
      && (start + |t.value| == |c| || c[start + |t.value|] == ';' || OccursAt(c, "accessToken=", start + |t.value|))
      && (forall j :: start <= j < start + |t.value| ==> !OccursAt(c, "accessToken=", j))
    ensures cookie.Some? && Find(cookie.value, "accessToken=").Some? ==> t.Some?
  {
    if cookie.None? then None
    else
      match SecondPiece(cookie.value, "accessToken=")
      case None => None
      case Some(piece) => Some(TakeUntil(piece, ';'))
  }

  /** Lines 16-17: the handshake's `auth.token`, else the cookie token; an
      empty result is no token. */
  function HandshakeToken(authToken: Option<string>, cookie: Option<string>): (t: Option<string>)
    ensures t.Some? ==> t.value != ""
    ensures Filled(authToken) ==> t == authToken
    ensures !Filled(authToken) ==> t == (if Filled(CookieToken(cookie)) then CookieToken(cookie) else None)
  {
    if Filled(authToken) then authToken
    else if Filled(CookieToken(cookie)) then CookieToken(cookie)
    else None
  }

  /** `hasPermission(socket.userRole!, p)` where the role may be unset: an unset
      role passes only the public requirement. */
  predicate Permits(role: Option<Role>, p: Permission) {
    if role.Some? then HasPermission(role.value, p) else p == PublicPerm
  }

  /** The socket with the fields the middleware writes (`AuthenticatedSocket`). */
  class AuthenticatedSocket {
    var userId: Option<string>
    var userRole: Option<Role>

    constructor ()
      ensures userId.None? && userRole.None?
    {
      userId, userRole := None, None;
    }

    /** The handshake middleware, lines 14-38. */
    method Authenticate(authToken: Option<string>, cookie: Option<string>, verify: Verifier)
      returns (h: Handshake)
      modifies this
      ensures HandshakeToken(authToken, cookie).None? ==>
        h == Refused("Access token required") && userId == old(userId) && userRole == old(userRole)
      ensures HandshakeToken(authToken, cookie).Some? ==>
        match AccessThenGuest(verify, HandshakeToken(authToken, cookie).value)
        case None =>
          h == Refused("Socket authentication failed") && userId == old(userId) && userRole == old(userRole)
        case Some(GuestGrant) =>
          h == Accepted && userId == old(userId) && userRole == Some(Guest)
        case Some(AccessGrant(c)) =>
          h == Accepted && userId == c.userId && userRole == c.role
    {
      var token := HandshakeToken(authToken, cookie);
      if token.None? {
        return Refused(Messages.TokenRequired);
      }
      var decoded := verify(AccessSecret, token.value);
      if decoded.Some? {
        userId := decoded.value.userId;
        userRole := decoded.value.role;
      } else {
        if verify(GuestSecret, token.value).None? {
          return Refused(Messages.SocketAuthFailed);
        }
        userRole := Some(Guest);
      }
      h := Accepted;
    }
  }

  /** What an event handler emits. Timestamps are left out. */
  datatype Emission =
    | EmitError(message: string)              // `socket.emit("error", ...)`
    | GuestPong(data: Value)                  // `socket.emit("guest:pong", ...)`
    | PrivateReply(userId: string, data: Value) // to room `user:<userId>`
    | Announcement(text: Option<Value>)      // `io.emit("admin:announcement", ...)`
    | RoomJoined(room: string)                // `socket.emit("room:joined", ...)`
    | ListenerThrew                           // a `TypeError` escapes the listener; nothing is emitted

  /** `guest:ping` */
  function GuestPing(role: Option<Role>, data: Value): (e: Emission)
    ensures e == GuestPong(data) <==> role.Some?
    ensures role.None? ==> e == EmitError("Forbidden: Insufficient permissions")
  {
    if !Permits(role, GuestPerm) then EmitError(Messages.Forbidden) else GuestPong(data)
  }

  /** `private:message` */
  function PrivateMessage(userId: Option<string>, role: Option<Role>, data: Value): (e: Emission)
    ensures e.PrivateReply? <==> Filled(userId) && (role == Some(User) || role == Some(Admin))
    ensures e.PrivateReply? ==> e == PrivateReply(userId.value, data)
    ensures !e.PrivateReply? ==> e == EmitError("Unauthorized access")
  {
    if !Filled(userId) || !Permits(role, UserPerm) then EmitError(Messages.Unauthorized)
    else PrivateReply(userId.value, data)
  }

  /** `data.message` on a value that is not `null` or `undefined` (both are
      `Null` here): `undefined` unless `data` is an object holding it. */
  function MessageField(data: Value): (m: Option<Value>)
    ensures m.Some? <==> data.Obj? && "message" in data.fields
    ensures m.Some? ==> m.value == data.fields["message"]
  {
    if data.Obj? && "message" in data.fields then Some(data.fields["message"]) else None
  }

  /** `admin:broadcast` as written: past the admin gate it reads
      `data.message`, which throws when the event carries no data. */
  function AdminBroadcast(role: Option<Role>, data: Value): (e: Emission)
    ensures role != Some(Admin) ==> e == EmitError("Forbidden: Insufficient permissions")
    ensures role == Some(Admin) && data.Null? ==> e == ListenerThrew
    ensures e.Announcement? <==> role == Some(Admin) && !data.Null?
    ensures e.Announcement? ==> e.text == MessageField(data)
  {
    if !Permits(role, AdminPerm) then EmitError(Messages.Forbidden)
    else if data.Null? then ListenerThrew
    else Announcement(MessageField(data))
  }

  /** An admin broadcast without data announces nothing: the listener throws. */
  lemma AdminBroadcastWithoutData()
    ensures AdminBroadcast(Some(Admin), Null) == ListenerThrew
  {
  }

  /** `admin:broadcast` reading `data?.message`: every admin broadcast is
      announced, with the message when there is one. */
  function GuardedAdminBroadcast(role: Option<Role>, data: Value): (e: Emission)
    ensures e != ListenerThrew
    ensures e.Announcement? <==> role == Some(Admin)
    ensures e.Announcement? ==> e.text == MessageField(data)
    ensures !e.Announcement? ==> e == EmitError("Forbidden: Insufficient permissions")
    ensures !data.Null? ==> e == AdminBroadcast(role, data)
  {
    if !Permits(role, AdminPerm) then EmitError(Messages.Forbidden) else Announcement(MessageField(data))
  }

  /** `join:room`: any socket with a user id, whatever its role. */
  function JoinRoom(userId: Option<string>, roomName: string): (e: Emission)
    ensures e == RoomJoined(roomName) <==> Filled(userId)
    ensures !Filled(userId) ==> e == EmitError("Unauthorized access")
  {
    if !Filled(userId) then EmitError(Messages.Unauthorized) else RoomJoined(roomName)
  }

  /** A socket admitted on a guest token can ping but cannot send private
      messages, broadcast, or join rooms (it has no user id of its own unless
      an earlier handshake left one). */
  lemma GuestSocketGates(data: Value, room: string)
    ensures GuestPing(Some(Guest), data) == GuestPong(data)
    ensures PrivateMessage(None, Some(Guest), data) == EmitError(Messages.Unauthorized)
    ensures PrivateMessage(Some("u1"), Some(Guest), data) == EmitError(Messages.Unauthorized)
    ensures GuardedAdminBroadcast(Some(Guest), data) == EmitError(Messages.Forbidden)
    ensures AdminBroadcast(Some(Guest), data) == EmitError(Messages.Forbidden)
    ensures JoinRoom(None, room) == EmitError(Messages.Unauthorized)
  {
  }
}
