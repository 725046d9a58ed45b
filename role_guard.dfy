/** `hasRoleGuard` of src/app/has-role.guard.ts. */
module RoleGuard {
  import opened AuthServices

  /** What the guard's observable yields: nothing yet (the auth status is
      still loading), `true`, or `false` after a navigation to `redirect`. */
  datatype Decision = Waiting | Allow | Deny(redirect: seq<string>)

  /** `expectedRoles.some(role => userRole === role)` */
  function SomeRoleMatches(expected: seq<Role>, role: Role): (r: bool)
    ensures r <==> role in expected
  {
    if |expected| == 0 then false
    else expected[0] == role || SomeRoleMatches(expected[1..], role)
  }

  /** The guard's decision from the loading flag, the current role and the
      route's `data.roles`. */
  function Decide(isLoading: bool, role: Role, expected: seq<Role>): (d: Decision)
    ensures isLoading <==> d == Waiting
    ensures !isLoading ==> (d == Allow <==> role in expected)
    ensures !isLoading && role !in expected ==> d == Deny(["products"])
  {
    if isLoading then Waiting
    else if SomeRoleMatches(expected, role) then Allow
    else Deny(["products"])
  }

  /** `hasRoleGuard` run against the current state of the auth service. */
  method HasRoleGuard(auth: AuthService, expected: seq<Role>) returns (d: Decision)
    ensures auth.isAuthStatusLoading <==> d == Waiting
    ensures !auth.isAuthStatusLoading ==> (d == Allow <==> auth.GetUserRole() in expected)
    ensures !auth.isAuthStatusLoading && auth.GetUserRole() !in expected ==> d == Deny(["products"])
  {
    d := Decide(auth.isAuthStatusLoading, auth.GetUserRole(), expected);
  }

  /** An empty role list lets nobody in. */
  lemma EmptyRolesDeny(isLoading: bool, role: Role)
    ensures Decide(isLoading, role, []) != Allow
  {
  }

  /** On the admin routes (roles `[USER]`), the guard admits exactly the
      signed-in session once the auth status has settled. */
  lemma AdminRoutesNeedSession(auth: AuthService)
    ensures !auth.isAuthStatusLoading ==>
      (Decide(auth.isAuthStatusLoading, auth.GetUserRole(), [User]) == Allow <==> auth.isAuth)
  {
  }
}
