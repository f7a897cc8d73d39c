/** `src/components/AuthCallback.tsx`: after the OAuth redirect the page asks the
    backend for the session and navigates on its answer. It shows "Loading..."
    throughout. */
module AuthCallback {
  import opened Backend
  import App

  /** The four ways `getSession` can come back: an `error`, a session, no session,
      or a thrown exception. */
  datatype SessionResult = SessionError(message: string) | SessionFound(session: Session) | NoSession | Threw(message: string)

  /** A `navigate(to, { replace })` call. */
  datatype Navigation = Navigation(to: string, replace: bool)

  /** The `navigate` calls one run of `handleAuthRedirect` makes. */
  function HandleAuthRedirect(result: SessionResult): (navs: seq<Navigation>)
    ensures |navs| <= 1
    ensures forall n | n in navs :: n.replace
    ensures navs == [] <==> result.NoSession?
    ensures result.SessionFound? ==> navs == [Navigation("/", true)]
    ensures result.SessionError? || result.Threw? ==> navs == [Navigation("/error", true)]
  {
    match result
    case SessionError(_) => [Navigation("/error", true)]
    case SessionFound(_) => [Navigation("/", true)]
    case NoSession => []
    case Threw(_) => [Navigation("/error", true)]
  }

  /** The error target matches no declared route, whatever the `user` state. */
  lemma ErrorTargetMatchesNoRoute(result: SessionResult, signedIn: bool)
    requires result.SessionError? || result.Threw?
    ensures App.RouteView(HandleAuthRedirect(result)[0].to, signedIn) == App.NoMatch
  {
    App.ErrorPathUnmatched(signedIn);
  }

  /** After a session is found the callback goes to `/`, which renders the home page
      once `user` is set and otherwise sends the visitor to the login page. */
  lemma SessionTargetIsHome(session: Session, signedIn: bool)
    ensures var nav := HandleAuthRedirect(SessionFound(session))[0];
      nav.to == "/" && App.RouteView(nav.to, signedIn) == (if signedIn then App.Render(App.HomePage) else App.Redirect("/login"))
  {
  }
}
