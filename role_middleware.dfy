/** `authorize(...roles)`: a request passes on when the user's role is one of the configured roles. */
module RoleMiddleware {

  const ACCESS_DENIED: string := "Access denied"

  /** `Next` calls the next handler; `Deny` is the reply sent instead. */
  datatype Decision = Next | Deny(status: int, message: string)

  function Authorize(roles: seq<string>, role: string): (d: Decision)
    ensures d == Next <==> role in roles
    ensures d != Next ==> d == Deny(403, ACCESS_DENIED)
  {
    if role !in roles then Deny(403, ACCESS_DENIED) else Next
  }

  /** With no roles configured every request is denied. */
  lemma EmptyRolesDenyAll(role: string)
    ensures Authorize([], role) == Deny(403, ACCESS_DENIED)
  {
  }

  /** Only the set of configured roles matters, not their order or repetition. */
  lemma SameRolesSameDecision(roles: seq<string>, others: seq<string>, role: string)
    requires forall i :: 0 <= i < |roles| ==> roles[i] in others
    requires forall i :: 0 <= i < |others| ==> others[i] in roles
    ensures Authorize(roles, role) == Authorize(others, role)
  {
  }
}
