/** The render-time role guard (src/components/auth/RequireRole.tsx): a
    chain of early returns on the session status, the session and role
    membership. Only the decision is modelled, not the markup. */
module RequireRole {
  import opened Common
  import opened Claims
  import Middleware

  /** `useSession().status` */
  datatype Status = Loading | Authenticated | Unauthenticated

  /** What the component renders. */
  datatype View =
    | LoadingCard
    | AuthenticationRequired(loginLink: bool)
    | AccessDenied(message: string, currentRole: string, link: string)
    | Children

  /** The properties of the component; `None` stands for a property not given. */
  datatype Props = Props(allowedRoles: seq<string>, fallbackMessage: Option<string>, showLogin: Option<bool>)

  const DashboardLink := "/dashboard"

  /** The denial text: `fallbackMessage || 'You need one of ... ' + roles`. */
  function DeniedMessage(props: Props): (m: string)
    ensures props.fallbackMessage.Some? && props.fallbackMessage.value != "" ==> m == props.fallbackMessage.value
    ensures props.fallbackMessage.None? || props.fallbackMessage.value == "" ==>
      m == "You need one of the following roles to access this page: " + Join(props.allowedRoles, ", ")
  {
    if props.fallbackMessage.Some? && props.fallbackMessage.value != "" then props.fallbackMessage.value
    else "You need one of the following roles to access this page: " + Join(props.allowedRoles, ", ")
  }

  function Render(status: Status, session: Option<Session>, props: Props): (v: View)
    ensures v == Children <==> status != Loading && session.Some? && EffectiveRole(session.value.role) in props.allowedRoles
    ensures v.AccessDenied? ==> v.link == DashboardLink && v.message == DeniedMessage(props)
  {
    if status == Loading then LoadingCard
    else if session.None? then AuthenticationRequired(props.showLogin.GetOr(true))
    else
      var userRole := EffectiveRole(session.value.role);
      if userRole !in props.allowedRoles then AccessDenied(DeniedMessage(props), userRole, DashboardLink)
      else Children
  }

  /** Loading comes first and never shows the children. */
  lemma LoadingFirst(session: Option<Session>, props: Props)
    ensures Render(Loading, session, props) == LoadingCard
  {
  }

  /** No session: the authentication card, with a '/login' link iff
      `showLogin`, which defaults to true. */
  lemma NoSessionCard(status: Status, props: Props)
    requires status != Loading
    ensures Render(status, None, props) == AuthenticationRequired(props.showLogin != Some(false))
  {
  }

  /** Children appear iff not loading, a session exists and the effective
      role ('NormalUser' for a missing or empty role) is allowed. */
  lemma ChildrenIff(status: Status, session: Option<Session>, props: Props)
    ensures Render(status, session, props) == Children <==>
      status != Loading && session.Some? && EffectiveRole(session.value.role) in props.allowedRoles
  {
  }

  /** The denial view: the fallback message or the joined roles, the
      current effective role, and a link to '/dashboard'. */
  lemma DeniedView(status: Status, session: Option<Session>, props: Props)
    requires status != Loading && session.Some?
    requires EffectiveRole(session.value.role) !in props.allowedRoles
    ensures Render(status, session, props).AccessDenied?
    ensures Render(status, session, props).currentRole == EffectiveRole(session.value.role)
    ensures Render(status, session, props).link == "/dashboard"
    ensures Render(status, session, props).message == DeniedMessage(props)
  {
  }

  /** For the role list of a protected prefix, the guard shows the children
      exactly when the middleware lets the same role through: both default
      to 'NormalUser' and both test membership. */
  lemma {:induction false} AgreesWithMiddleware(pathname: string, i: nat, session: Session, fallback: Option<string>, showLogin: Option<bool>)
    requires i < |Middleware.ProtectedRoutes| && StartsWith(pathname, Middleware.ProtectedRoutes[i].0)
    ensures Render(Authenticated, Some(session), Props(Middleware.ProtectedRoutes[i].1, fallback, showLogin)) == Children
      <==> Middleware.Evaluate(pathname, Some(Token(session.role))) == Middleware.Next
  {
    Middleware.AllowedRolePasses(pathname, i, session.role);
  }
}
