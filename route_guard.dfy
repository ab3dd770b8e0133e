/**
 * The provider's route-protection effect: a decision, taken on every change
 * of the loading flag, the token or the location, whether to redirect.
 */
module RouteGuard {
  import opened Wrappers
  import opened Navigation
  import opened Storage
  import opened Session

  /**
   * The redirect the guard issues, if any. While loading it waits. A
   * signed-in user inside the sign-in group is sent to the signed-in root.
   * A signed-out user outside the sign-in group is deliberately left where
   * they are (the splash screen makes that initial decision), and every
   * other combination needs no move.
   */
  function DecideRedirect(isLoading: bool, userToken: Option<string>, segments: seq<string>): (r: Option<string>)
    ensures isLoading ==> r.None?
    ensures r.Some? <==> !isLoading && Truthy(userToken) && ZoneOf(segments) == AuthZone
    ensures r.Some? ==> r.value == TabsPath
  {
    if isLoading then None
    else
      var inAuthGroup := InAuthGroup(segments);
      if !Truthy(userToken) && !inAuthGroup then None
      else if Truthy(userToken) && inAuthGroup then Some(TabsPath)
      else None
  }

  /** A signed-out user outside the sign-in group is not redirected by the guard. */
  lemma GuardLeavesSignedOutUserInPlace(userToken: Option<string>, segments: seq<string>)
    requires !Truthy(userToken) && ZoneOf(segments) != AuthZone
    ensures DecideRedirect(false, userToken, segments).None?
  {
  }

  /** A redirect issued by the guard lands where the guard is silent: one redirect per change, no storm. */
  lemma GuardRedirectSettles(userToken: Option<string>, segments: seq<string>)
    requires DecideRedirect(false, userToken, segments).Some?
    ensures DecideRedirect(false, userToken, Landing(DecideRedirect(false, userToken, segments).value)).None?
    ensures ZoneOf(Landing(DecideRedirect(false, userToken, segments).value)) == TabsZone
  {
  }

  /**
   * Signing in from inside the sign-in group: setting the token re-runs the
   * guard, which redirects to the signed-in root whatever the storage writes
   * do, even when the first write rejects and sign-in's own redirect is
   * skipped.
   */
  lemma GuardRedirectsAfterSignIn<P(!new)>(w: World<P>, codec: Codec<P>, token: string, user: P,
                                           writeToken: Outcome, writeData: Outcome, segments: seq<string>)
    requires token != "" && !w.isLoading && InAuthGroup(segments)
    ensures var r := Login(w, codec, token, user, writeToken, writeData);
            DecideRedirect(r.isLoading, r.userToken, segments) == Some(TabsPath)
    ensures writeToken.Rejected? ==> Login(w, codec, token, user, writeToken, writeData).nav == w.nav
  {
  }
}
