/**
 * `ProtectedRoute`: what a protected view renders, and where it navigates,
 * for each `(isLoading, isAuthenticated)` pair the auth context reports.
 */
module RouteGuard {
  import opened Wrappers
  import Session

  /** What the component returns: the spinner, `null`, or its children. */
  datatype Render = Placeholder | Nothing | Children

  /** A `navigate(target, { replace })` call made by the effect. */
  datatype Navigation = Navigation(target: string, replace: bool)

  datatype Decision = Decision(render: Render, navigation: Option<Navigation>)

  /**
   * The render decision together with the redirect effect. While loading only
   * the placeholder shows and nothing navigates; once settled, an
   * authenticated session sees its children and any other is replaced by the
   * expired-login view.
   */
  function Guard(isLoading: bool, isAuthenticated: bool): (d: Decision)
    ensures d.render == Placeholder <==> isLoading
    ensures d.render == Children <==> !isLoading && isAuthenticated
    ensures d.render == Nothing <==> !isLoading && !isAuthenticated
    ensures d.navigation.Some? <==> !isLoading && !isAuthenticated
    ensures d.navigation.Some? ==> d.navigation.value == Navigation(Session.ExpiredLoginPath, true)
  {
    var navigation := if !isLoading && !isAuthenticated then Some(Navigation(Session.ExpiredLoginPath, true)) else None;
    if isLoading then Decision(Placeholder, navigation)
    else if !isAuthenticated then Decision(Nothing, navigation)
    else Decision(Children, navigation)
  }

  /**
   * Children are never shown together with a redirect, and a redirect always
   * lands where the response interceptor sends an expired session.
   */
  lemma RedirectExcludesChildren(isLoading: bool, isAuthenticated: bool)
    ensures Guard(isLoading, isAuthenticated).navigation.Some? ==>
              Guard(isLoading, isAuthenticated).render == Nothing
    ensures Guard(isLoading, isAuthenticated).navigation.Some? ==>
              Guard(isLoading, isAuthenticated).navigation.value.target
              == Session.InterceptResponse(Session.State(None, ""), Session.Rejected(Session.Failure(Some(Session.Response(401, "")), ""))).0.location
  {
  }
}
