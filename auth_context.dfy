/**
 * The authentication provider as the app runs it: an object whose three
 * state fields are changed step by step by its operations, over a shared
 * persistent store and router. Each operation is proved to follow the
 * value-level function of the same name in module Session.
 */
module AuthContext {
  import opened Wrappers
  import opened Storage
  import opened Navigation
  import Session
  import RouteGuard

  /** The message `useAuth` throws outside a provider. */
  const MissingProvider: string := "useAuth must be used within an AuthProvider"

  /** `useAuth`: the surrounding provider's context, or an error when there is none. */
  function UseAuth<C>(context: Option<C>): (r: Result<C, string>)
    ensures r.Success? <==> context.Some?
    ensures r.Success? ==> r.value == context.value
    ensures r.Failure? ==> r.error == MissingProvider
  {
    match context
    case Some(c) => Success(c)
    case None => Failure(MissingProvider)
  }

  class AuthProvider<P(!new)> {
    var userToken: Option<string>
    var userData: Option<P>
    var isLoading: bool
    const storage: KeyValueStore
    const router: Router
    const codec: Session.Codec<P>

    /** The provider's state together with the store and the router's history. */
    function World(): Session.World<P>
      reads this, storage, router
    {
      Session.World(userToken, userData, isLoading, storage.items, router.history)
    }

    /** Mounting: loading, with no token and no profile. */
    constructor (storage: KeyValueStore, router: Router, codec: Session.Codec<P>)
      ensures this.storage == storage && this.router == router && this.codec == codec
      ensures isLoading && userToken.None? && userData.None?
    {
      this.storage := storage;
      this.router := router;
      this.codec := codec;
      userToken := None;
      userData := None;
      isLoading := true;
    }

    /** The start-up restore; it reads the store and never writes it. */
    method LoadAuth(readToken: Outcome, readData: Outcome)
      modifies this
      ensures World() == Session.LoadAuth(old(World()), codec, readToken, readData)
      ensures storage.items == old(storage.items) && router.history == old(router.history)
    {
      var token := storage.GetItem(TokenKey, readToken);
      if token.Success? {
        var user := storage.GetItem(DataKey, readData);
        if user.Success? && Session.Truthy(token.value) && Session.Truthy(user.value) {
          userToken := token.value;
          var parsed := codec.parse(user.value.value);
          if parsed.Some? {
            userData := parsed;
          }
        }
      }
      isLoading := false;
    }

    /** Signing in; `resolved` is false when a storage write rejected the returned promise. */
    method Login(token: string, user: P, writeToken: Outcome, writeData: Outcome) returns (resolved: bool)
      modifies this, storage, router
      ensures World() == Session.Login(old(World()), codec, token, user, writeToken, writeData)
      ensures resolved <==> writeToken.Resolved? && writeData.Resolved?
    {
      userToken := Some(token);
      userData := Some(user);
      resolved := storage.SetItem(TokenKey, token, writeToken);
      if resolved {
        resolved := storage.SetItem(DataKey, codec.stringify(user), writeData);
        if resolved {
          router.Replace(TabsPath);
        }
      }
    }

    /** Signing out; `resolved` is false when a storage removal rejected the returned promise. */
    method Logout(removeToken: Outcome, removeData: Outcome) returns (resolved: bool)
      modifies this, storage, router
      ensures World() == Session.Logout(old(World()), removeToken, removeData)
      ensures resolved <==> removeToken.Resolved? && removeData.Resolved?
    {
      userToken := None;
      userData := None;
      resolved := storage.RemoveItem(TokenKey, removeToken);
      if resolved {
        resolved := storage.RemoveItem(DataKey, removeData);
        if resolved {
          router.Replace(LoginPath);
        }
      }
    }

    /** One run of the route-protection effect at the current location. */
    method GuardEffect(segments: seq<string>)
      modifies router
      ensures router.history == old(router.history) +
                (match RouteGuard.DecideRedirect(isLoading, userToken, segments)
                 case Some(path) => [path]
                 case None => [])
    {
      var target := RouteGuard.DecideRedirect(isLoading, userToken, segments);
      if target.Some? {
        router.Replace(target.value);
      }
    }
  }

  /**
   * A session survives a restart: signing in on one provider and mounting a
   * fresh provider over the same store restores the token and profile.
   */
  method RestartAfterLogin<P(!new)>(codec: Session.Codec<P>, initial: map<string, string>, token: string, user: P)
    returns (restored: AuthProvider<P>)
    requires Session.Invertible(codec) && token != ""
    ensures restored.userToken == Some(token) && restored.userData == Some(user) && !restored.isLoading
  {
    var storage := new KeyValueStore(initial);
    var router := new Router();
    var first := new AuthProvider(storage, router, codec);
    first.LoadAuth(Resolved, Resolved);
    ghost var beforeLogin := first.World();
    var _ := first.Login(token, user, Resolved, Resolved);
    Session.LoginThenRestart(beforeLogin, codec, token, user);
    var freshRouter := new Router();
    restored := new AuthProvider(storage, freshRouter, codec);
    restored.LoadAuth(Resolved, Resolved);
  }
}
