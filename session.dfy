/**
 * The session lifecycle of the authentication provider as values: the
 * provider's three state fields, the persistent store and the router's
 * history together form a `World`, and each of the provider's operations is
 * a function from the world before to the world after. The imperative
 * provider in module AuthContext is proved to follow these functions.
 */
module Session {
  import opened Wrappers
  import opened Storage
  import opened Navigation

  /**
   * The profile serialiser and parser (`JSON.stringify` / `JSON.parse`);
   * `parse` yields None where `JSON.parse` throws.
   */
  datatype Codec<!P> = Codec(stringify: P -> string, parse: string -> Option<P>)

  /** A codec whose parser undoes its serialiser, and whose output is never the empty string. */
  ghost predicate Invertible<P(!new)>(codec: Codec<P>)
  {
    forall u :: codec.stringify(u) != "" && codec.parse(codec.stringify(u)) == Some(u)
  }

  /** JavaScript truthiness of a string-or-null value: null and "" are both falsy. */
  predicate Truthy(s: Option<string>)
  {
    s.Some? && s.value != ""
  }

  /** Everything the session component reads or changes. */
  datatype World<P> = World(
    userToken: Option<string>,
    userData: Option<P>,
    isLoading: bool,
    store: map<string, string>,
    nav: seq<string>)

  /** A provider that has just been mounted over `store`: loading, with no token and no profile. */
  function Mounted<P(!new)>(store: map<string, string>): (w: World<P>)
    ensures w.isLoading && w.userToken.None? && w.userData.None?
    ensures w.store == store && w.nav == []
  {
    World(None, None, true, store, [])
  }

  /** The two store keys are present together or absent together. */
  predicate Paired(store: map<string, string>)
  {
    TokenKey in store <==> DataKey in store
  }

  /**
   * The start-up restore. The token is read, then the profile; a rejected
   * read ends the restore with nothing set. When both values are truthy the
   * token is set first and the profile parsed after, so a profile that fails
   * to parse leaves the token set and the profile unset. Loading always ends.
   */
  function LoadAuth<P(!new)>(w: World<P>, codec: Codec<P>, readToken: Outcome, readData: Outcome): (r: World<P>)
    ensures !r.isLoading
    ensures r.store == w.store && r.nav == w.nav
    ensures r.userToken != w.userToken ==>
              readToken.Resolved? && readData.Resolved?
              && Truthy(Lookup(w.store, TokenKey)) && Truthy(Lookup(w.store, DataKey))
              && r.userToken == Lookup(w.store, TokenKey)
    ensures r.userData != w.userData ==>
              readToken.Resolved? && readData.Resolved?
              && Truthy(Lookup(w.store, TokenKey)) && Truthy(Lookup(w.store, DataKey))
              && DataKey in w.store && r.userToken == Lookup(w.store, TokenKey)
              && r.userData == codec.parse(w.store[DataKey])
    ensures readToken.Resolved? && readData.Resolved?
            && Truthy(Lookup(w.store, TokenKey)) && Truthy(Lookup(w.store, DataKey)) ==>
              r.userToken == Lookup(w.store, TokenKey)
              && (codec.parse(w.store[DataKey]).Some? ==> r.userData == codec.parse(w.store[DataKey]))
              && (codec.parse(w.store[DataKey]).None? ==> r.userData == w.userData)
  {
    var done := w.(isLoading := false);
    if readToken.Rejected? || readData.Rejected? then done
    else
      var token := Lookup(w.store, TokenKey);
      var user := Lookup(w.store, DataKey);
      if Truthy(token) && Truthy(user) then
        var withToken := done.(userToken := token);
        match codec.parse(user.value)
        case None => withToken
        case Some(u) => withToken.(userData := Some(u))
      else done
  }

  /**
   * Signing in: both fields are set at once; the token is persisted, then the
   * serialised profile; only when both writes resolved does the router move
   * to the signed-in root. A rejected write skips everything after it.
   */
  function Login<P(!new)>(w: World<P>, codec: Codec<P>, token: string, user: P,
                    writeToken: Outcome, writeData: Outcome): (r: World<P>)
    ensures r.userToken == Some(token) && r.userData == Some(user) && r.isLoading == w.isLoading
    ensures writeToken.Resolved? ==> TokenKey in r.store && r.store[TokenKey] == token
    ensures writeToken.Resolved? && writeData.Resolved? ==>
              DataKey in r.store && r.store[DataKey] == codec.stringify(user)
    ensures writeToken.Rejected? ==> r.store == w.store
    ensures writeToken.Resolved? && writeData.Rejected? ==> r.store == w.store[TokenKey := token]
    ensures forall k :: k != TokenKey && k != DataKey ==> Lookup(r.store, k) == Lookup(w.store, k)
    ensures r.nav == (if writeToken.Resolved? && writeData.Resolved? then w.nav + [TabsPath] else w.nav)
  {
    var signedIn := w.(userToken := Some(token), userData := Some(user));
    if writeToken.Rejected? then signedIn
    else
      var tokenStored := signedIn.(store := w.store[TokenKey := token]);
      if writeData.Rejected? then tokenStored
      else
        tokenStored.(store := tokenStored.store[DataKey := codec.stringify(user)], nav := w.nav + [TabsPath])
  }

  /**
   * Signing out: both fields are cleared at once; the token key is removed,
   * then the profile key; only when both removals resolved does the router
   * move to the sign-in screen.
   */
  function Logout<P(!new)>(w: World<P>, removeToken: Outcome, removeData: Outcome): (r: World<P>)
    ensures r.userToken.None? && r.userData.None? && r.isLoading == w.isLoading
    ensures removeToken.Resolved? ==> TokenKey !in r.store
    ensures removeToken.Resolved? && removeData.Resolved? ==> DataKey !in r.store
    ensures removeToken.Rejected? ==> r.store == w.store
    ensures removeToken.Resolved? && removeData.Rejected? ==> r.store == w.store - {TokenKey}
    ensures forall k :: k != TokenKey && k != DataKey ==> Lookup(r.store, k) == Lookup(w.store, k)
    ensures r.nav == (if removeToken.Resolved? && removeData.Resolved? then w.nav + [LoginPath] else w.nav)
  {
    var signedOut := w.(userToken := None, userData := None);
    if removeToken.Rejected? then signedOut
    else
      var tokenGone := signedOut.(store := w.store - {TokenKey});
      if removeData.Rejected? then tokenGone
      else tokenGone.(store := tokenGone.store - {DataKey}, nav := w.nav + [LoginPath])
  }

  /** A sign-in or sign-out requested by a screen, with every storage call resolving. */
  datatype Event<P> = SignIn(token: string, user: P) | SignOut

  function Step<P(!new)>(w: World<P>, codec: Codec<P>, e: Event<P>): World<P>
  {
    match e
    case SignIn(t, u) => Login(w, codec, t, u, Resolved, Resolved)
    case SignOut => Logout(w, Resolved, Resolved)
  }

  /** The world after the events, applied one after another in order. */
  function Run<P(!new)>(w: World<P>, codec: Codec<P>, events: seq<Event<P>>): World<P>
    decreases |events|
  {
    if events == [] then w
    else Step(Run(w, codec, events[..|events| - 1]), codec, events[|events| - 1])
  }

  /** Where the router is sent by an event. */
  function Target<P(!new)>(e: Event<P>): string
  {
    if e.SignIn? then TabsPath else LoginPath
  }

  /** The session a restart should restore after `e` was the last event. */
  function Expected<P(!new)>(e: Event<P>): Option<(string, P)>
  {
    if e.SignIn? && e.token != "" then Some((e.token, e.user)) else None
  }

  /** The session a fresh provider over `store` restores, all reads resolving. */
  function Restored<P(!new)>(store: map<string, string>, codec: Codec<P>): (r: World<P>)
    ensures !r.isLoading && r.store == store
  {
    LoadAuth(Mounted(store), codec, Resolved, Resolved)
  }

  // ---------------------------------------------------------------------
  // Properties of single operations

  /** A rejected read restores nothing: the fields are as before and loading is over. */
  lemma RejectedReadRestoresNothing<P(!new)>(w: World<P>, codec: Codec<P>, readToken: Outcome, readData: Outcome)
    requires readToken.Rejected? || readData.Rejected?
    ensures LoadAuth(w, codec, readToken, readData) == w.(isLoading := false)
  {
  }

  /** Only a stored truthy token together with a stored truthy profile restores anything. */
  lemma MissingKeyRestoresNothing<P(!new)>(store: map<string, string>, codec: Codec<P>)
    requires !Truthy(Lookup(store, TokenKey)) || !Truthy(Lookup(store, DataKey))
    ensures Restored(store, codec) == World(None, None, false, store, [])
  {
  }

  /** A profile that fails to parse leaves the token set and the profile unset. */
  lemma ParseFailureKeepsToken<P(!new)>(store: map<string, string>, codec: Codec<P>)
    requires Truthy(Lookup(store, TokenKey)) && Truthy(Lookup(store, DataKey))
    requires codec.parse(store[DataKey]).None?
    ensures Restored(store, codec) == World(Some(store[TokenKey]), None, false, store, [])
  {
  }

  /** A record whose keys are not paired never restores a session on a fresh provider. */
  lemma UnpairedRecordRestoresNothing<P(!new)>(store: map<string, string>, codec: Codec<P>)
    requires !Paired(store)
    ensures Restored(store, codec).userToken.None? && Restored(store, codec).userData.None?
  {
  }

  /** Signing in and restarting restores the same token and profile. */
  lemma LoginThenRestart<P(!new)>(w: World<P>, codec: Codec<P>, token: string, user: P)
    requires Invertible(codec) && token != ""
    ensures var r := Restored(Login(w, codec, token, user, Resolved, Resolved).store, codec);
            r.userToken == Some(token) && r.userData == Some(user)
  {
  }

  /** Signing out twice leaves the same fields and store as signing out once. */
  lemma LogoutIdempotent<P(!new)>(w: World<P>)
    ensures var once := Logout(w, Resolved, Resolved);
            var twice := Logout(once, Resolved, Resolved);
            twice.(nav := once.nav) == once && twice.nav == once.nav + [LoginPath]
  {
  }

  /** Signing out and restarting restores nothing. */
  lemma LogoutThenRestart<P(!new)>(w: World<P>, codec: Codec<P>)
    ensures var r := Restored(Logout(w, Resolved, Resolved).store, codec);
            r.userToken.None? && r.userData.None?
  {
  }

  /**
   * The two writes of a sign-in are not atomic: when the profile write is
   * rejected after the token write resolved, a profile left behind by an
   * earlier session stays in the store, and a restart restores the new token
   * together with that earlier profile.
   */
  lemma StaleProfileAfterRejectedWrite<P(!new)>(w: World<P>, codec: Codec<P>, token: string, user: P, earlier: P)
    requires Invertible(codec) && token != ""
    requires DataKey in w.store && w.store[DataKey] == codec.stringify(earlier)
    ensures var r := Restored(Login(w, codec, token, user, Resolved, Rejected).store, codec);
            r.userToken == Some(token) && r.userData == Some(earlier)
  {
  }

  // ---------------------------------------------------------------------
  // Properties of sequences of operations

  /**
   * Sign-ins and sign-outs keep the two store keys paired: after a non-empty
   * run both keys are present exactly when the last event was a sign-in,
   * whatever the store held before.
   */
  lemma RunKeepsRecordPaired<P(!new)>(w: World<P>, codec: Codec<P>, events: seq<Event<P>>)
    requires Paired(w.store)
    ensures Paired(Run(w, codec, events).store)
    ensures events != [] ==>
              (TokenKey in Run(w, codec, events).store <==> events[|events| - 1].SignIn?)
              && (DataKey in Run(w, codec, events).store <==> events[|events| - 1].SignIn?)
  {
  }

  /** Sign-ins and sign-outs never touch a store key other than the two session keys. */
  lemma {:induction false} RunKeepsOtherKeys<P(!new)>(w: World<P>, codec: Codec<P>, events: seq<Event<P>>, k: string)
    requires k != TokenKey && k != DataKey
    ensures Lookup(Run(w, codec, events).store, k) == Lookup(w.store, k)
    decreases |events|
  {
    if events != [] {
      RunKeepsOtherKeys(w, codec, events[..|events| - 1], k);
    }
  }

  /** One event appends its own target to the router history. */
  lemma StepNavigates<P(!new)>(w: World<P>, codec: Codec<P>, e: Event<P>)
    ensures Step(w, codec, e).nav == w.nav + [Target(e)]
  {
  }

  /** Every event moves the router exactly once, to the zone that matches it. */
  lemma {:induction false} RunNavigatesOncePerEvent<P(!new)>(w: World<P>, codec: Codec<P>, events: seq<Event<P>>)
    ensures |Run(w, codec, events).nav| == |w.nav| + |events|
    ensures Run(w, codec, events).nav[..|w.nav|] == w.nav
    ensures forall i :: 0 <= i < |events| ==> Run(w, codec, events).nav[|w.nav| + i] == Target(events[i])
    decreases |events|
  {
    if events != [] {
      var n := |events| - 1;
      var prefix := events[..n];
      RunNavigatesOncePerEvent(w, codec, prefix);
      var before := Run(w, codec, prefix);
      var after := Step(before, codec, events[n]);
      assert Run(w, codec, events) == after;
      StepNavigates(before, codec, events[n]);
      assert after.nav[..|w.nav|] == before.nav[..|w.nav|];
      forall i | 0 <= i < |events|
        ensures after.nav[|w.nav| + i] == Target(events[i])
      {
        if i < n {
          assert prefix[i] == events[i];
          assert after.nav[|w.nav| + i] == before.nav[|w.nav| + i];
        }
      }
    }
  }

  /** After any sign-ins and sign-outs, a restart restores exactly what the last event left. */
  lemma RestartRestoresLastEvent<P(!new)>(w: World<P>, codec: Codec<P>, events: seq<Event<P>>)
    requires Invertible(codec) && events != []
    ensures var r := Restored(Run(w, codec, events).store, codec);
            var e := events[|events| - 1];
            (Expected(e).Some? ==> r.userToken == Some(Expected(e).value.0) && r.userData == Some(Expected(e).value.1))
            && (Expected(e).None? ==> r.userToken.None? && r.userData.None?)
  {
  }
}
