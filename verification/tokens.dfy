/** Token verification as an oracle, and the two orders in which the core
    falls back from one kind of token to the other. */
module Tokens {
  import opened Values
  import opened Permissions

  /** The signing secrets: `JWT_ACCESS_SECRET`, `JWT_GUEST_SECRET`,
      `JWT_REFRESH_SECRET`, and the `JWT_SECRET` that the type-action socket
      server verifies against. */
  datatype SecretKind = AccessSecret | GuestSecret | RefreshSecret | LegacySecret

  /** The decoded `TokenPayload`; any field may be missing from a token. */
  datatype Claim = Claim(userId: Option<string>, email: Option<string>, role: Option<Role>)

  /** `jwt.verify(token, secret)`: the decoded claim, or `None` when it throws
      (bad signature, wrong secret, expired). */
  type Verifier = (SecretKind, string) -> Option<Claim>

  /** What a successful verification attaches: the guest marker (role guest,
      no user id assigned) or the fields of an access-token claim. */
  datatype Grant = GuestGrant | AccessGrant(claim: Claim)

  /** Access first, then guest (`setupSocketIO`, lines 23-32). */
  function AccessThenGuest(verify: Verifier, token: string): (g: Option<Grant>)
    ensures g.None? <==> verify(AccessSecret, token).None? && verify(GuestSecret, token).None?
    ensures verify(AccessSecret, token).Some? ==> g == Some(AccessGrant(verify(AccessSecret, token).value))
    ensures g == Some(GuestGrant) <==> verify(AccessSecret, token).None? && verify(GuestSecret, token).Some?
  {
    match verify(AccessSecret, token)
    case Some(c) => Some(AccessGrant(c))
    case None =>
      if verify(GuestSecret, token).Some? then Some(GuestGrant) else None
  }

  /** Guest first, then access (`authenticateGuest`, lines 55-64). */
  function GuestThenAccess(verify: Verifier, token: string): (g: Option<Grant>)
    ensures g.None? <==> verify(AccessSecret, token).None? && verify(GuestSecret, token).None?
    ensures g == Some(GuestGrant) <==> verify(GuestSecret, token).Some?
    ensures g.Some? && g.value.AccessGrant? ==> verify(AccessSecret, token) == Some(g.value.claim)
  {
    if verify(GuestSecret, token).Some? then Some(GuestGrant)
    else
      match verify(AccessSecret, token)
      case Some(c) => Some(AccessGrant(c))
      case None => None
  }

  /** The two orders accept exactly the same tokens, and disagree only on a
      token that verifies under both secrets. */
  lemma FallbackOrdersAgree(verify: Verifier, token: string)
    ensures AccessThenGuest(verify, token).Some? <==> GuestThenAccess(verify, token).Some?
    ensures AccessThenGuest(verify, token) != GuestThenAccess(verify, token) ==>
      verify(AccessSecret, token).Some? && verify(GuestSecret, token).Some?
  {
  }

  /** The outcome of a socket handshake middleware: `next()` or
      `next(new Error(reason))`. */
  datatype Handshake = Accepted | Refused(reason: string)
}
