/** `ProtectedRoute`: a screen wrapper that renders its children only for a signed-in user whose
    role the route allows, and otherwise sends the user elsewhere. */
module Guard {
  import opened Common

  /** `allowedRoles.includes(userRole)`: a null role is never among the listed role names. */
  predicate Allowed(userRole: Option<string>, allowedRoles: seq<string>) {
    userRole.Some? && userRole.value in allowedRoles
  }

  /** The screen the effect replaces the route with, or None when it leaves the route alone. */
  function Redirect(token: Option<string>, userRole: Option<string>, allowedRoles: seq<string>): (r: Option<string>)
    ensures !Truthy(token) ==> r == Some("Inicio")
    ensures Truthy(token) && !Allowed(userRole, allowedRoles) ==>
              r == Some(if userRole == Some("Checador") then "Checador" else "Eventos")
    ensures Truthy(token) && Allowed(userRole, allowedRoles) ==> r == None
  {
    if !Truthy(token) then Some("Inicio")
    else if !Allowed(userRole, allowedRoles) then
      if userRole == Some("Checador") then Some("Checador") else Some("Eventos")
    else None
  }

  /** Whether the wrapper returns its children (rather than null). */
  predicate Renders(token: Option<string>, userRole: Option<string>, allowedRoles: seq<string>) {
    !(!Truthy(token) || !Allowed(userRole, allowedRoles))
  }

  /** The effect and the render agree: the children show exactly when no redirect is issued, and
      that is exactly when the token is truthy and the role is allowed. A redirect never points
      back at a route the user could not leave: it is one of the three entry screens. */
  lemma RenderIffNoRedirect(token: Option<string>, userRole: Option<string>, allowedRoles: seq<string>)
    ensures Renders(token, userRole, allowedRoles) <==> Redirect(token, userRole, allowedRoles) == None
    ensures Renders(token, userRole, allowedRoles) <==> Truthy(token) && Allowed(userRole, allowedRoles)
    ensures Redirect(token, userRole, allowedRoles) in {None, Some("Inicio"), Some("Checador"), Some("Eventos")}
  {
  }

  /** A signed-in Checador sent away from a route is sent to the Checador screen, never back to
      sign in; every other signed-in role lands on the events list. */
  lemma SignedInNeverToLogin(token: Option<string>, userRole: Option<string>, allowedRoles: seq<string>)
    requires Truthy(token)
    ensures Redirect(token, userRole, allowedRoles) != Some("Inicio")
  {
  }
}
