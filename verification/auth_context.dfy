/** The session reducer of providers/AuthContext.tsx: each action is a pure
    update of the provider's state, its `mounted` flag and the token store.
    The user fetch of `refreshAuth` and `initializeAuth` is an outcome
    parameter. */
module AuthContext {

  import opened Wrappers
  import opened AuthTypes
  import opened AuthService

  /** `defaultAuthState` */
  const DefaultAuthState := AuthState(None, None, false, true, None, None)

  /** What the provider holds: the session, whether it has mounted, and the
      browser's token store. */
  datatype Provider = Provider(auth: AuthState, mounted: bool, store: Store)

  /** The provider as first rendered. */
  function Initial(store: Store): Provider {
    Provider(DefaultAuthState, false, store)
  }

  /** The mount effect. */
  function Mount(p: Provider): (r: Provider)
    ensures r.mounted && r.auth == p.auth && r.store == p.store
  {
    p.(mounted := true)
  }

  /** `setUser(user)`: the session is authenticated exactly when there is a
      user; nothing else changes. */
  function SetUser(p: Provider, user: Option<User>): (r: Provider)
    ensures r.auth.user == user && r.auth.isAuthenticated == user.Some?
    ensures r.auth.business == p.auth.business && r.auth.isLoading == p.auth.isLoading
    ensures r.auth.accessToken == p.auth.accessToken && r.auth.refreshToken == p.auth.refreshToken
    ensures r.mounted == p.mounted && r.store == p.store
  {
    p.(auth := p.auth.(user := user, isAuthenticated := user.Some?))
  }

  /** `setBusiness(business)`: only the business changes. */
  function SetBusiness(p: Provider, business: Option<Business>): (r: Provider)
    ensures r.auth == p.auth.(business := business)
    ensures r.mounted == p.mounted && r.store == p.store
  {
    p.(auth := p.auth.(business := business))
  }

  /** `setTokens(access, refresh)`: both token fields are set; the store is
      written only once mounted. */
  function SetTokens(p: Provider, access: string, refresh: string): (r: Provider)
    ensures r.auth.accessToken == Some(access) && r.auth.refreshToken == Some(refresh)
    ensures r.auth.user == p.auth.user && r.auth.business == p.auth.business
    ensures r.auth.isAuthenticated == p.auth.isAuthenticated && r.auth.isLoading == p.auth.isLoading
    ensures r.mounted == p.mounted
    ensures p.mounted ==> GetAccessToken(r.store) == Some(access) && GetRefreshToken(r.store) == Some(refresh)
    ensures !p.mounted ==> r.store == p.store
  {
    var store := if p.mounted then StoreAuthTokens(p.store, access, refresh) else p.store;
    Provider(p.auth.(accessToken := Some(access), refreshToken := Some(refresh)), p.mounted, store)
  }

  /** `clearAuth()`: back to the default session; the store is cleared only
      once mounted. */
  function ClearAuth(p: Provider): (r: Provider)
    ensures r.auth == DefaultAuthState && r.mounted == p.mounted
    ensures p.mounted ==> r.store == ClearAuthTokens(p.store)
    ensures !p.mounted ==> r.store == p.store
  {
    Provider(DefaultAuthState, p.mounted, if p.mounted then ClearAuthTokens(p.store) else p.store)
  }

  /** `refreshAuth()`, given the outcome of fetching the current user. */
  function RefreshAuth(p: Provider, fetched: Result<User>): (r: Provider)
    ensures !p.mounted ==> r == p
    ensures p.mounted && fetched.Ok? ==> r == SetUser(p, Some(fetched.value))
    ensures p.mounted && fetched.Err? ==> r.auth == DefaultAuthState && !IsAuthenticated(r.store)
    ensures p.mounted && fetched.Err? ==> r == ClearAuth(p)
  {
    if !p.mounted then p
    else match fetched
      case Ok(user) => SetUser(p, Some(user))
      case Err(_) => ClearAuth(p)
  }

  /** `initializeAuth()`, given the outcome of fetching the current user
      (ignored when no fetch is made). */
  function InitializeAuth(p: Provider, fetched: Result<User>): (r: Provider)
    ensures !p.mounted ==> r == p
    ensures p.mounted ==> !r.auth.isLoading && r.mounted
    ensures p.mounted && Truthy(GetAccessToken(p.store)) && Truthy(GetRefreshToken(p.store)) && fetched.Ok? ==>
      r == p.(auth := AuthState(Some(fetched.value), None, true, false,
                                GetAccessToken(p.store), GetRefreshToken(p.store)))
    ensures p.mounted && !(Truthy(GetAccessToken(p.store)) && Truthy(GetRefreshToken(p.store))) ==>
      r == p.(auth := p.auth.(isLoading := false))
    ensures p.mounted && Truthy(GetAccessToken(p.store)) && Truthy(GetRefreshToken(p.store)) && fetched.Err? ==>
      r.auth == DefaultAuthState.(isLoading := false) && r.store == ClearAuthTokens(p.store)
  {
    if !p.mounted then p
    else
      var loading := p.(auth := p.auth.(isLoading := true));
      var access, refresh := GetAccessToken(p.store), GetRefreshToken(p.store);
      if Truthy(access) && Truthy(refresh) then
        match fetched
        case Ok(user) => loading.(auth := AuthState(Some(user), None, true, false, access, refresh))
        case Err(_) =>
          var cleared := ClearAuth(loading);
          cleared.(auth := cleared.auth.(isLoading := false))
      else loading.(auth := loading.auth.(isLoading := false))
  }

  /** Once initialised, the session claims authentication only when the
      store held both tokens and the user fetch succeeded; it then carries
      exactly the stored tokens. */
  lemma InitializedSessionMatchesStore(p: Provider, fetched: Result<User>)
    requires p.mounted && p.auth == DefaultAuthState
    ensures var r := InitializeAuth(p, fetched);
      && (r.auth.isAuthenticated <==>
            Truthy(GetAccessToken(p.store)) && Truthy(GetRefreshToken(p.store)) && fetched.Ok?)
      && (r.auth.isAuthenticated ==>
            r.auth.accessToken == GetAccessToken(p.store) && r.auth.refreshToken == GetRefreshToken(p.store)
            && r.store == p.store)
      && (!r.auth.isAuthenticated ==> r.auth == DefaultAuthState.(isLoading := false))
  {
  }

  /** Clearing is idempotent, and it forgets everything `setUser`,
      `setBusiness` and `setTokens` recorded. */
  lemma ClearAuthForgets(p: Provider, u: Option<User>, b: Option<Business>, access: string, refresh: string)
    ensures ClearAuth(ClearAuth(p)) == ClearAuth(p)
    ensures ClearAuth(SetTokens(SetBusiness(SetUser(p, u), b), access, refresh)).auth == DefaultAuthState
    ensures p.mounted ==>
      ClearAuth(SetTokens(SetBusiness(SetUser(p, u), b), access, refresh)).store == ClearAuth(p).store
  {
    if p.mounted {
      TokenStoreLaws(p.store, access, refresh);
    }
  }
}
