/** Roles, the rank order guest < user < admin, and the permission checks
    built on it. */
module Permissions {

  /** `UserRole` */
  datatype Role = Guest | User | Admin

  /** `PERMISSIONS`: the requirement an operation declares. */
  datatype Permission = PublicPerm | GuestPerm | UserPerm | AdminPerm

  /** `roleHierarchy` */
  function Rank(r: Role): nat {
    match r
    case Guest => 1
    case User => 2
    case Admin => 3
  }

  /** `hasPermission`: public admits everyone, guest and user compare ranks,
      admin is an exact match. */
  function HasPermission(role: Role, p: Permission): (b: bool)
    ensures p == PublicPerm ==> b
    ensures p == GuestPerm ==> b
    ensures p == UserPerm ==> (b <==> role != Guest)
    ensures p == AdminPerm ==> (b <==> role == Admin)
  {
    match p
    case PublicPerm => true
    case GuestPerm => Rank(role) >= Rank(Guest)
    case UserPerm => Rank(role) >= Rank(User)
    case AdminPerm => role == Admin
  }

  /** `checkMultiplePermissions`: `Array.some` of `hasPermission`. */
  function CheckMultiplePermissions(role: Role, ps: seq<Permission>): (b: bool)
    ensures b <==> exists i :: 0 <= i < |ps| && HasPermission(role, ps[i])
  {
    if ps == [] then false
    else HasPermission(role, ps[0]) || CheckMultiplePermissions(role, ps[1..])
  }

  /** The ranks are strictly increasing with privilege, so `Rank` is
      injective and orders the roles totally. */
  lemma RankStrictlyIncreasing()
    ensures Rank(Guest) < Rank(User) < Rank(Admin)
    ensures forall r1, r2 :: Rank(r1) == Rank(r2) ==> r1 == r2
  {
  }

  /** Every requirement is monotone in the rank: a role that passes it
      lets every higher-ranked role pass as well. */
  lemma Monotone(r1: Role, r2: Role, p: Permission)
    requires Rank(r1) <= Rank(r2)
    requires HasPermission(r1, p)
    ensures HasPermission(r2, p)
  {
  }

  /** The admin tier is sealed: it is not the `>=` rule that grants it, and
      no other role satisfies it. */
  lemma AdminSealed(role: Role)
    ensures HasPermission(role, AdminPerm) <==> role == Admin
    ensures role != Admin ==> !CheckMultiplePermissions(role, [AdminPerm])
  {
  }

  /** A list of requirements is passed as soon as one of them is, and never
      when it is empty; appending requirements can only help. */
  lemma {:induction false} CheckMultipleAppend(role: Role, ps: seq<Permission>, qs: seq<Permission>)
    ensures CheckMultiplePermissions(role, ps + qs)
      <==> CheckMultiplePermissions(role, ps) || CheckMultiplePermissions(role, qs)
  {
    if ps == [] {
      assert ps + qs == qs;
    } else {
      assert (ps + qs)[1..] == ps[1..] + qs;
      CheckMultipleAppend(role, ps[1..], qs);
    }
  }
}
