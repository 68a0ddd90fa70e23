/** The route guard: what a protected page shows for the current session. */
module ProtectedRoute {
  import opened Wrappers

  /** The signed-in user, as far as the guard looks at it. */
  datatype SignedIn = SignedIn(role: string)

  /** What the guard renders. */
  datatype Outcome = ShowSpinner | RedirectTo(path: string) | Render

  /** `ProtectedRoute`: wait while the session loads, send anonymous visitors to the
      login page, send users whose role is not listed home, and otherwise show the page.
      An empty list of roles admits every signed-in user. */
  function Decide(loading: bool, user: Option<SignedIn>, allowedRoles: seq<string>): (o: Outcome)
    ensures loading <==> o == ShowSpinner
    ensures o == RedirectTo("/login") <==> !loading && user.None?
    ensures o == RedirectTo("/") <==>
      !loading && user.Some? && |allowedRoles| > 0 && user.value.role !in allowedRoles
    ensures o == Render <==>
      !loading && user.Some? && (|allowedRoles| == 0 || user.value.role in allowedRoles)
    ensures o.RedirectTo? ==> o.path in {"/login", "/"}
  {
    if loading then ShowSpinner
    else if user.None? then RedirectTo("/login")
    else if |allowedRoles| > 0 && user.value.role !in allowedRoles then RedirectTo("/")
    else Render
  }

  /** Adding a role to the list never turns away a user who was let in. */
  lemma WideningRolesKeepsAccess(loading: bool, user: Option<SignedIn>, allowedRoles: seq<string>, role: string)
    requires |allowedRoles| > 0
    requires Decide(loading, user, allowedRoles) == Render
    ensures Decide(loading, user, allowedRoles + [role]) == Render
  {
  }
}
