/** The two authorization middlewares: `requireRole(role)` on the token's
    principal, and `notBlocked` on the persisted user record. Both decide
    and change nothing. */
module Middleware {
  import opened Types

  /** `requireRole(role)`: 401 without an authenticated principal, 403 when
      the token's role differs from `role`, otherwise the request goes on. */
  function RequireRole(user: Option<Principal>, role: string): (g: Gate)
    ensures g == Reject(Unauthorized) <==> user.None?
    ensures g == Reject(Forbidden) <==> user.Some? && user.value.role != role
    ensures g == Next <==> user.Some? && user.value.role == role
  {
    match user
    case None => Reject(Unauthorized)
    case Some(p) => if p.role != role then Reject(Forbidden) else Next
  }

  /** `notBlocked`: 401 when the actor has no user record, 403 when the
      persisted record is blocked, otherwise the request goes on. */
  function NotBlocked(users: map<Id, User>, actor: Principal): (g: Gate)
    ensures g == Reject(Unauthorized) <==> actor.id !in users
    ensures g == Reject(Forbidden) <==> actor.id in users && users[actor.id].isBlocked
    ensures g == Next <==> actor.id in users && !users[actor.id].isBlocked
  {
    if actor.id !in users then Reject(Unauthorized)
    else if users[actor.id].isBlocked then Reject(Forbidden)
    else Next
  }

  /** `notBlocked` reads the stored flag, never the token: two principals
      with the same id get the same answer whatever roles their tokens carry,
      and a block takes effect on the very next request. */
  lemma NotBlockedIgnoresTokenRole(users: map<Id, User>, id: Id, role1: string, role2: string)
    ensures NotBlocked(users, Principal(id, role1)) == NotBlocked(users, Principal(id, role2))
  {
  }
}
