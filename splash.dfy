/**
 * The splash screen shown at the app's root: once the provider has finished
 * loading it sends the user to one of the two zones.
 */
module Splash {
  import opened Wrappers
  import opened Navigation
  import opened Session
  import opened RouteGuard

  /**
   * The redirect the splash screen schedules: none while loading, otherwise
   * the signed-in root for a truthy token and the sign-in screen for a null
   * or empty one.
   */
  function SplashRedirect(isLoading: bool, userToken: Option<string>): (r: Option<string>)
    ensures r.None? <==> isLoading
    ensures r.Some? ==> (r.value == TabsPath <==> Truthy(userToken))
    ensures r.Some? ==> (r.value == LoginPath <==> !Truthy(userToken))
  {
    if isLoading then None
    else if Truthy(userToken) then Some(TabsPath)
    else Some(LoginPath)
  }

  /** Once loaded, the splash target is in the zone that matches the session. */
  lemma SplashTargetMatchesSession(userToken: Option<string>)
    ensures SplashRedirect(false, userToken).Some?
    ensures ZoneOf(Landing(SplashRedirect(false, userToken).value))
              == (if Truthy(userToken) then TabsZone else AuthZone)
  {
  }

  /**
   * Guard and splash together: once loaded, every token state has a
   * destination. Where the guard redirects, it agrees with the splash; where
   * a signed-out user is outside the sign-in group, the guard is silent and
   * the splash sends them to the sign-in screen.
   */
  lemma GuardAndSplashCoverEveryState(userToken: Option<string>, segments: seq<string>)
    ensures DecideRedirect(false, userToken, segments).Some? ==>
              DecideRedirect(false, userToken, segments) == SplashRedirect(false, userToken)
    ensures !Truthy(userToken) && ZoneOf(segments) != AuthZone ==>
              DecideRedirect(false, userToken, segments).None? && SplashRedirect(false, userToken) == Some(LoginPath)
  {
  }

  /** After the splash redirect, the guard at the new location issues no further redirect. */
  lemma SplashThenGuardSettles(userToken: Option<string>)
    ensures DecideRedirect(false, userToken, Landing(SplashRedirect(false, userToken).value)).None?
  {
  }

  /** An empty store at start-up: the restore finds no session and the splash screen sends the user to sign in. */
  lemma EmptyStoreRoutesToLogin<P(!new)>(codec: Codec<P>)
    ensures Restored(map[], codec).userToken.None?
    ensures SplashRedirect(Restored(map[], codec).isLoading, Restored(map[], codec).userToken) == Some(LoginPath)
  {
  }
}
