/**
 * Navigation as the session component sees it: the router's `replace`
 * calls, recorded in order, and the current location's route segments.
 */
module Navigation {

  /** The route group of the sign-in screens. */
  const AuthGroup: string := "(auth)"

  /** The route group of the signed-in tab screens. */
  const TabsGroup: string := "(tabs)"

  /** The signed-in zone's root, where a signed-in user is sent. */
  const TabsPath: string := "/(tabs)"

  /** The sign-in screen, where a signed-out user is sent. */
  const LoginPath: string := "/(auth)/login"

  /** The coarse zone a location belongs to. */
  datatype Zone = AuthZone | TabsZone | Neutral

  /** True when the first route segment is the sign-in group (`segments[0] === '(auth)'`). */
  predicate InAuthGroup(segments: seq<string>)
  {
    |segments| > 0 && segments[0] == AuthGroup
  }

  /** The zone of a location, decided by its first segment; an empty location (the splash screen) is neutral. */
  function ZoneOf(segments: seq<string>): (z: Zone)
    ensures z == AuthZone <==> InAuthGroup(segments)
    ensures z == TabsZone <==> |segments| > 0 && segments[0] == TabsGroup
  {
    if InAuthGroup(segments) then AuthZone
    else if |segments| > 0 && segments[0] == TabsGroup then TabsZone
    else Neutral
  }

  /** The route segments of the location reached by replacing to one of the two redirect targets. */
  function Landing(path: string): seq<string>
  {
    if path == TabsPath then [TabsGroup]
    else if path == LoginPath then [AuthGroup, "login"]
    else []
  }

  /** The router: each `replace(path)` is appended to `history`. */
  class Router {
    var history: seq<string>

    constructor ()
      ensures history == []
    {
      history := [];
    }

    method Replace(path: string)
      modifies this
      ensures history == old(history) + [path]
    {
      history := history + [path];
    }
  }
}
