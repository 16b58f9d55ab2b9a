/** The mutation callbacks of hooks/useAuthMutations.ts, composed with the
    service calls they wrap: a request's outcome drives both the token store
    (through the service) and the session (through the provider). */
module AuthMutations {

  import opened Wrappers
  import opened AuthTypes
  import opened AuthService
  import opened AuthContext

  /** The `onSuccess` shared by create-account and login: set the user, the
      business when the response has one, then the tokens. */
  function ApplyAuthResponse(p: Provider, response: AuthResponse): (r: Provider)
    ensures r.auth.user == Some(response.user) && r.auth.isAuthenticated
    ensures r.auth.business == (if response.business.Some? then response.business else p.auth.business)
    ensures r.auth.accessToken == Some(response.accessToken) && r.auth.refreshToken == Some(response.refreshToken)
    ensures r.auth.isLoading == p.auth.isLoading && r.mounted == p.mounted
    ensures p.mounted ==> r.store == StoreAuthTokens(p.store, response.accessToken, response.refreshToken)
    ensures !p.mounted ==> r.store == p.store
  {
    var withUser := SetUser(p, Some(response.user));
    var withBusiness := if response.business.Some? then SetBusiness(withUser, response.business) else withUser;
    SetTokens(withBusiness, response.accessToken, response.refreshToken)
  }

  /** A create-account or login mutation: the service stores the tokens if
      the access token is truthy, then on success the callback updates the
      session and, once mounted, stores the tokens again unconditionally.
      On failure `onError` only logs, so the session is kept, while the
      store has been through the interceptor (`errorStatus` is the status of
      the failed answer). */
  function AuthMutation(p: Provider, outcome: Result<AuthResponse>, errorStatus: Option<int>): (r: Provider)
    ensures outcome.Err? ==>
      r.auth == p.auth && r.mounted == p.mounted && r.store == OnResponseError(p.store, errorStatus)
    ensures outcome.Err? && errorStatus != Some(401) ==> r == p
    ensures outcome.Ok? ==>
      var response := outcome.value;
      && r.auth.user == Some(response.user) && r.auth.isAuthenticated
      && r.auth.business == (if response.business.Some? then response.business else p.auth.business)
      && r.auth.accessToken == Some(response.accessToken)
      && r.auth.refreshToken == Some(response.refreshToken)
      && r.auth.isLoading == p.auth.isLoading && r.mounted == p.mounted
    ensures outcome.Ok? && p.mounted ==>
      r.store == StoreAuthTokens(p.store, outcome.value.accessToken, outcome.value.refreshToken)
    ensures outcome.Ok? && !p.mounted ==> r.store == AfterAuthRequest(p.store, outcome, errorStatus)
  {
    var afterService := p.(store := AfterAuthRequest(p.store, outcome, errorStatus));
    match outcome
    case Ok(response) =>
      StoreTwice(p.store, response.accessToken, response.refreshToken);
      ApplyAuthResponse(afterService, response)
    case Err(_) => afterService
  }

  /** Storing the same tokens twice is storing them once. */
  lemma StoreTwice(st: Store, access: string, refresh: string)
    ensures StoreAuthTokens(StoreAuthTokens(st, access, refresh), access, refresh)
         == StoreAuthTokens(st, access, refresh)
  {
  }

  function CreateAccountMutation(p: Provider, outcome: Result<AuthResponse>, errorStatus: Option<int>): Provider {
    AuthMutation(p, outcome, errorStatus)
  }

  function LoginMutation(p: Provider, outcome: Result<AuthResponse>, errorStatus: Option<int>): Provider {
    AuthMutation(p, outcome, errorStatus)
  }

  /** Create-account and login have identical effects on the session and the
      store; after a mounted success the store's access token is the
      response's, even an empty one the service itself declined to store. */
  lemma AuthMutationsAgree(p: Provider, outcome: Result<AuthResponse>, errorStatus: Option<int>)
    ensures CreateAccountMutation(p, outcome, errorStatus) == LoginMutation(p, outcome, errorStatus)
    ensures p.mounted && outcome.Ok? ==>
      GetAccessToken(CreateAccountMutation(p, outcome, errorStatus).store) == Some(outcome.value.accessToken)
    ensures !p.mounted && outcome.Ok? ==>
      CreateAccountMutation(p, outcome, errorStatus).store == AfterAuthRequest(p.store, outcome, errorStatus)
  {
  }

  /** A login that fails with 401 while signed in leaves the session
      claiming authentication with its tokens, while the store has lost the
      access token and kept the refresh token. */
  lemma UnauthorizedLoginDesyncs(p: Provider, e: string)
    requires p.auth.isAuthenticated && IsAuthenticated(p.store)
    ensures var r := LoginMutation(p, Err(e), Some(401));
      && r.auth == p.auth && r.auth.isAuthenticated
      && !IsAuthenticated(r.store)
      && GetRefreshToken(r.store) == GetRefreshToken(p.store)
  {
  }

  /** The logout mutation: the service clears the store whatever the
      request's outcome, and both callbacks clear the session. */
  function LogoutMutation(p: Provider, outcome: Result<()>): (r: Provider)
    ensures r.auth == DefaultAuthState
    ensures !IsAuthenticated(r.store) && GetRefreshToken(r.store).None?
  {
    ClearAuth(p.(store := Logout(p.store, outcome)))
  }

  /** A logout signs the session out whether or not the request failed, and
      the outcome makes no difference. */
  lemma LogoutIgnoresOutcome(p: Provider, e: string)
    ensures LogoutMutation(p, Ok(())) == LogoutMutation(p, Err(e))
  {
  }
}
