/** Server-side helpers (src/lib/auth.ts): the role test on a session, the
    `withRole` wrapper for server actions, the fixed guard lists, and small
    session queries. Fetching the session is a parameter: each helper is
    given what `getServerSession` returned (None for null). */
module Auth {
  import opened Common
  import opened Claims
  import Middleware

  /** `hasRole(session, allowedRoles)`: no default role here, a session
      without a (non-empty) role has none of them. */
  function HasRole(session: Option<Session>, allowed: seq<string>): (b: bool)
    ensures b <==> GetCurrentUserRole(session).Some? && GetCurrentUserRole(session).value in allowed
  {
    session.Some? && HasRoleClaim(session.value.role) && session.value.role.value in allowed
  }

  /** False for no session or a missing/empty role; otherwise exactly membership. */
  lemma HasRoleIsMembership(session: Option<Session>, allowed: seq<string>)
    ensures session.None? ==> !HasRole(session, allowed)
    ensures session.Some? && !HasRoleClaim(session.value.role) ==> !HasRole(session, allowed)
    ensures session.Some? && HasRoleClaim(session.value.role) ==>
      (HasRole(session, allowed) <==> session.value.role.value in allowed)
  {
  }

  /** What `requireAuth` does: `redirect('/login')` for no session. */
  datatype AuthResult = RedirectTo(path: string) | Authenticated(session: Session)

  function RequireAuth(session: Option<Session>): (r: AuthResult)
    ensures r.RedirectTo? <==> session.None?
    ensures r.RedirectTo? ==> r.path == "/login"
    ensures r.Authenticated? ==> session == Some(r.session)
  {
    if session.None? then RedirectTo("/login") else Authenticated(session.value)
  }

  /** The three ways a wrapped server action can end. */
  datatype Guarded<R> = Redirected(path: string) | Thrown(message: string) | Returned(value: R)

  const AccessDeniedPrefix := "Access denied. Required roles: "

  /** The message of the error `withRole` throws. */
  function AccessDeniedMessage(allowed: seq<string>): (m: string)
    ensures StartsWith(m, AccessDeniedPrefix)
    ensures |allowed| == 1 ==> m == AccessDeniedPrefix + allowed[0]
  {
    StartsWithAppend(AccessDeniedPrefix, Join(allowed, ", "));
    AccessDeniedPrefix + Join(allowed, ", ")
  }

  /** `withRole(allowedRoles)(action)(...args)`: redirect when there is no
      session, throw when the role is refused, else the action's result. */
  function WithRole<A, R>(allowed: seq<string>, session: Option<Session>, action: A -> R, args: A): (r: Guarded<R>)
    ensures r.Redirected? <==> session.None?
    ensures r.Redirected? ==> r.path == "/login"
    ensures r.Returned? <==> session.Some? && HasRole(session, allowed)
    ensures r.Returned? ==> r.value == action(args)
    ensures r.Thrown? ==> r.message == AccessDeniedMessage(allowed)
  {
    match RequireAuth(session)
    case RedirectTo(path) => Redirected(path)
    case Authenticated(s) =>
      if !HasRole(Some(s), allowed) then Thrown(AccessDeniedMessage(allowed))
      else Returned(action(args))
  }

  /** No session: '/login' (no callbackUrl) before any role check. A refused
      role: the access-denied error. An admitted role: the action's own
      result on the same arguments. */
  lemma WithRoleOutcomes<A, R>(allowed: seq<string>, session: Option<Session>, action: A -> R, args: A)
    ensures session.None? ==> WithRole(allowed, session, action, args) == Redirected("/login")
    ensures session.Some? && !HasRole(session, allowed) ==>
      WithRole(allowed, session, action, args) == Thrown(AccessDeniedMessage(allowed))
    ensures HasRole(session, allowed) ==> WithRole(allowed, session, action, args) == Returned(action(args))
  {
  }

  /** When the action is not admitted it is not called: its outcome is the
      same for every action. */
  lemma WithRoleRefusalIgnoresAction<A, R>(allowed: seq<string>, session: Option<Session>, f: A -> R, g: A -> R, args: A)
    requires !HasRole(session, allowed)
    ensures WithRole(allowed, session, f, args) == WithRole(allowed, session, g, args)
    ensures !WithRole(allowed, session, f, args).Returned?
  {
  }

  // `roleGuards`
  const AdminRoles := [DeveloperName, SocialMediaManagerName]
  const StudentRoles := [StudentName]
  const EnrolledRoles := [StudentName, SocialMediaManagerName, DeveloperName]
  const AuthenticatedRoles := [NormalUserName, StudentName, SocialMediaManagerName, DeveloperName]
  const DeveloperRoles := [DeveloperName]

  /** The guard lists nest: developer within admin within enrolled within
      authenticated, student within enrolled, and no session passes both the
      student and the admin guard. */
  lemma GuardsNest(session: Option<Session>)
    ensures HasRole(session, DeveloperRoles) ==> HasRole(session, AdminRoles)
    ensures HasRole(session, AdminRoles) ==> HasRole(session, EnrolledRoles)
    ensures HasRole(session, EnrolledRoles) ==> HasRole(session, AuthenticatedRoles)
    ensures HasRole(session, StudentRoles) ==> HasRole(session, EnrolledRoles)
    ensures !(HasRole(session, StudentRoles) && HasRole(session, AdminRoles))
  {
  }

  /** `isAdmin()`: `hasRole` with Developer and SocialMediaManager. */
  function IsAdmin(session: Option<Session>): (b: bool)
    ensures b <==> session.Some? && session.value.role in {Some(DeveloperName), Some(SocialMediaManagerName)}
  {
    HasRole(session, AdminRoles)
  }

  /** `isStudent()`: `hasRole` with Student. */
  function IsStudent(session: Option<Session>): (b: bool)
    ensures b <==> session.Some? && session.value.role == Some(StudentName)
  {
    HasRole(session, StudentRoles)
  }

  /** `isAuthenticated()`: a session exists. */
  function IsAuthenticated(session: Option<Session>): (b: bool)
    ensures b <==> RequireAuth(session).Authenticated?
  {
    session.Some?
  }

  /** `getCurrentUserRole()`: the role, or null when missing or empty. */
  function GetCurrentUserRole(session: Option<Session>): (r: Option<string>)
    ensures r.Some? <==> session.Some? && HasRoleClaim(session.value.role)
    ensures r.Some? ==> r == session.value.role && r.value != ""
  {
    if session.Some? && HasRoleClaim(session.value.role) then session.value.role else None
  }

  /** `getEnrolledCourses()`: `profile.enrolledCourses`, or [] when any link
      of the chain is missing. */
  function GetEnrolledCourses(session: Option<Session>): (r: seq<int>)
    ensures session.Some? && session.value.profile.Some? && session.value.profile.value.enrolledCourses.Some? ==>
      r == session.value.profile.value.enrolledCourses.value
    ensures session.None? || session.value.profile.None? || session.value.profile.value.enrolledCourses.None? ==>
      r == []
  {
    if session.Some? && session.value.profile.Some? then
      session.value.profile.value.enrolledCourses.GetOr([])
    else []
  }

  /** The current role is exactly the role `hasRole` tests: a role list
      admits a session iff the session has a current role and it is listed. */
  lemma CurrentRoleAgreesWithHasRole(session: Option<Session>, allowed: seq<string>)
    ensures HasRole(session, allowed) <==>
      GetCurrentUserRole(session).Some? && GetCurrentUserRole(session).value in allowed
  {
  }

  /** Unlike the middleware, `hasRole` does not default a missing role to
      'NormalUser': the `authenticated` guard rejects a role-less session
      that the middleware lets into '/dashboard'. */
  lemma {:induction false} RolelessSessionAdmittedOnlyByMiddleware(pathname: string, session: Session)
    requires StartsWith(pathname, "/dashboard")
    requires !HasRoleClaim(session.role)
    ensures !HasRole(Some(session), AuthenticatedRoles)
    ensures Middleware.Evaluate(pathname, Some(Token(session.role))) == Middleware.Next
  {
    Middleware.AllowedRolePasses(pathname, 0, session.role);
  }
}
