/** The two route guards: decisions over the session store's `isLoggedIn()`,
    with the navigation they request when they refuse entry. */
module Guards {

  import opened Base
  import Session

  const SignInRoute: string := "/auth"
  const EventListRoute: string := "/event-list"

  /** Whether the route may be entered, and the route the guard asked the
      router to navigate to instead (`None` when it asked for nothing). */
  datatype Decision = Decision(allow: bool, redirect: Option<string>)

  /** `AuthGuard`: protected views are entered only with a session;
      otherwise the guard sends the user to the sign-in view. */
  function AuthGuard(auth: Session.AuthService): (d: Decision)
    reads auth`token
    ensures d.allow <==> auth.IsLoggedIn()
    ensures d.allow ==> d.redirect == None
    ensures !d.allow ==> d.redirect == Some(SignInRoute)
  {
    if auth.IsLoggedIn() then Decision(true, None)
    else Decision(false, Some(SignInRoute))
  }

  /** `NoAuthGuard`: the sign-in view is entered only without a session;
      otherwise the guard sends the user to the event list. */
  function NoAuthGuard(auth: Session.AuthService): (d: Decision)
    reads auth`token
    ensures d.allow <==> !auth.IsLoggedIn()
    ensures d.allow ==> d.redirect == None
    ensures !d.allow ==> d.redirect == Some(EventListRoute)
  {
    if !auth.IsLoggedIn() then Decision(true, None)
    else Decision(false, Some(EventListRoute))
  }

  /** In every session state exactly one of the two guards lets the user in. */
  lemma ExactlyOneGuardAllows(auth: Session.AuthService)
    ensures AuthGuard(auth).allow != NoAuthGuard(auth).allow
  {
  }

  /** With no stored token, the protected views redirect to sign-in. */
  lemma NoTokenRedirectsToSignIn(auth: Session.AuthService)
    requires auth.GetToken() == None
    ensures AuthGuard(auth) == Decision(false, Some(SignInRoute))
  {
  }
}
