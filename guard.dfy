/** `PrivateRoute`: the decision taken before a protected page renders. */
module Guard {
  import opened Common
  import opened AuthContext

  /** The props a protected route declares. */
  datatype Requirement = Requirement(requiredRole: Option<Role>, requiredPermission: Option<string>)

  const NoRequirement := Requirement(None, None)

  /** What the guard renders: the page, a redirect to `/login` carrying the
      requested path, a redirect to `/not-authorized`, or an error thrown
      while rendering (the permission lookup on a role string that names no
      role). */
  datatype Decision = Render | RedirectToLogin(from: string) | RedirectNotAuthorized | RenderError

  /** The permission requirement is active only for a non-empty string. */
  predicate NeedsPermission(req: Requirement)
  {
    req.requiredPermission.Some? && req.requiredPermission.value != ""
  }

  /** Independent reading of "the session meets the requirement": the role,
      when one is required, is the session's role, and the permission, when
      one is required, is held by the role the session names. */
  predicate Meets(s: Session, req: Requirement)
  {
    (req.requiredRole.Some? ==> s.userRole == Some(RoleName(req.requiredRole.value))) &&
    (NeedsPermission(req) ==>
       exists role: Role :: s.userRole == Some(RoleName(role)) &&
                            req.requiredPermission.value in Permissions(role))
  }

  /** The guard: authentication first, then role, then permission. */
  function PrivateRoute(s: Session, req: Requirement, location: string): (d: Decision)
    ensures !s.isAuthenticated ==> d == RedirectToLogin(location)
    ensures d.RedirectToLogin? ==> !s.isAuthenticated
    ensures (s.isAuthenticated && req.requiredRole.Some? &&
             s.userRole != Some(RoleName(req.requiredRole.value))) ==> d == RedirectNotAuthorized
    ensures (s.isAuthenticated && req.requiredRole.None? && NeedsPermission(req) &&
             HasPermission(s.userRole, req.requiredPermission.value) == Ok(false))
            ==> d == RedirectNotAuthorized
    ensures d == Render <==> s.isAuthenticated && Meets(s, req)
    ensures d == RenderError ==> s.isAuthenticated && NeedsPermission(req)
                                 && Present(s.userRole) && ParseRole(s.userRole.value).None?
  {
    if !s.isAuthenticated then RedirectToLogin(location)
    else if req.requiredRole.Some? && s.userRole != Some(RoleName(req.requiredRole.value)) then
      RedirectNotAuthorized
    else if NeedsPermission(req) then
      match HasPermission(s.userRole, req.requiredPermission.value)
      case Err(_) => RenderError
      case Ok(held) =>
        if held then Render
        else
          assert forall role: Role :: s.userRole == Some(RoleName(role)) ==>
                   req.requiredPermission.value !in Permissions(role);
          RedirectNotAuthorized
    else Render
  }

  /** A session whose role field is absent or one of the three role names:
      every session `login` creates. */
  predicate WellTyped(s: Session)
  {
    s.userRole.Some? ==> ParseRole(s.userRole.value).Some?
  }

  /** For well-typed sessions the guard never throws, and with both
      requirements given it renders only when both hold. */
  lemma GuardTotalOnWellTypedSessions(s: Session, req: Requirement, location: string)
    requires WellTyped(s)
    ensures PrivateRoute(s, req, location) != RenderError
    ensures PrivateRoute(s, req, location) == Render && req.requiredRole.Some? && NeedsPermission(req)
            ==> s.userRole == Some(RoleName(req.requiredRole.value))
                && req.requiredPermission.value in Permissions(req.requiredRole.value)
  {
  }

  /** With no requirement, every authenticated session is let through. */
  lemma NoRequirementAdmitsEverySession(s: Session, location: string)
    requires s.isAuthenticated
    ensures PrivateRoute(s, NoRequirement, location) == Render
  {
  }
}
