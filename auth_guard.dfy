/** The guard around protected pages: while the wallet reconnects a loader
    is shown, a disconnected visitor is sent to the sign-in page, and only a
    connected one sees the page. */
module AuthGuard {

  const SignInRoute: string := "/signin"

  datatype Outcome = ShowLoader | Redirect(route: string) | RenderChildren

  function Decide(isConnected: bool, isReconnecting: bool): (r: Outcome)
    ensures isReconnecting ==> r == ShowLoader
    ensures !isReconnecting && !isConnected ==> r == Redirect(SignInRoute)
    ensures r == RenderChildren <==> isConnected && !isReconnecting
    ensures r.Redirect? ==> r.route == SignInRoute
  {
    if isReconnecting then ShowLoader
    else if !isConnected then Redirect(SignInRoute)
    else RenderChildren
  }

  /** Reconnecting decides the outcome whatever the connected flag says. */
  lemma ReconnectingTakesPrecedence(c1: bool, c2: bool)
    ensures Decide(c1, true) == Decide(c2, true) == ShowLoader
  {
  }

  /** The protected content is never shown while reconnecting or when not
      connected, and the only redirect goes to sign-in. */
  lemma ChildrenOnlyWhenConnected(isConnected: bool, isReconnecting: bool)
    ensures Decide(isConnected, isReconnecting) == RenderChildren ==> isConnected
    ensures Decide(isConnected, isReconnecting) != ShowLoader ==> !isReconnecting
  {
  }
}
