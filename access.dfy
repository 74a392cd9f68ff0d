/** Who may see which screen: the route guard around the vendor and admin
    pages, and the check each dashboard repeats when it mounts. The token
    and the role are what the browser's storage holds (`None` when
    nothing is stored). */
module Access {
  import opened Js

  /** What the guard renders. */
  datatype Outcome = Render | RedirectTo(path: string)

  /** A stored token counts only when it is a non-empty string. */
  predicate HasToken(token: Option<string>) { token.Some? && token.value != "" }

  /** `allowedRoles.includes(userRole)`: a missing role is never listed. */
  predicate Listed(allowed: seq<string>, role: Option<string>) {
    role.Some? && role.value in allowed
  }

  /** The guard around a protected page. Without a token the visitor goes
      to the login page, whatever the role. With a token the page renders
      when no roles are required or the role is one of them; a logged-in
      user with another role is sent to their own dashboard, or to the
      login page when the role is unknown. */
  function Guard(token: Option<string>, role: Option<string>, allowedRoles: Option<seq<string>>): (o: Outcome)
    ensures !HasToken(token) ==> o == RedirectTo("/")
    ensures o.Render? <==> HasToken(token) && (allowedRoles.None? || Listed(allowedRoles.value, role))
    ensures HasToken(token) && allowedRoles.Some? && !Listed(allowedRoles.value, role) ==>
      o == RedirectTo(if role == Some("admin") then "/admin" else if role == Some("vendor") then "/vendor" else "/")
  {
    if !HasToken(token) then RedirectTo("/")
    else if allowedRoles.Some? && !Listed(allowedRoles.value, role) then
      if role == Some("admin") then RedirectTo("/admin")
      else if role == Some("vendor") then RedirectTo("/vendor")
      else RedirectTo("/")
    else Render
  }

  /** A redirect never leads a user back to a page whose roles exclude
      them: an admin sent away goes to "/admin" only when "admin" is not
      required there, and so for vendors. When "/admin" admits exactly the
      admins and "/vendor" exactly the vendors, the page reached after one
      redirect renders. */
  lemma RedirectLandsOnOwnDashboard(token: Option<string>, role: Option<string>, allowed: seq<string>)
    requires HasToken(token) && !Listed(allowed, role)
    requires role == Some("admin") || role == Some("vendor")
    ensures var o := Guard(token, role, Some(allowed));
      o.RedirectTo?
      && (o.path == "/admin" ==> Guard(token, role, Some(["admin"])) == Render)
      && (o.path == "/vendor" ==> Guard(token, role, Some(["vendor"])) == Render)
  {
  }

  /** The check a dashboard makes when it mounts: without a token, or with
      a role other than the dashboard's own, the visitor is sent to "/". */
  function MustLeave(token: Option<string>, role: Option<string>, own: string): (leave: bool)
    ensures !leave <==> HasToken(token) && role == Some(own)
  {
    !HasToken(token) || role != Some(own)
  }

  /** Mounting a dashboard admits exactly whom the guard admits on a page
      restricted to that dashboard's role. */
  lemma MountAgreesWithGuard(token: Option<string>, role: Option<string>, own: string)
    ensures !MustLeave(token, role, own) <==> Guard(token, role, Some([own])) == Render
  {
  }
}
