/** The token side of services/auth.service.ts. `localStorage` is a map from
    keys to strings; each request's outcome is a parameter. The
    server-rendering branches (no `window`) are not modelled. */
module AuthService {

  import opened Wrappers
  import opened AuthTypes

  type Store = map<string, string>

  /** `TOKEN_KEYS` */
  const AccessTokenKey := "auth_token"
  const RefreshTokenKey := "refresh_token"

  const NoRefreshToken := "No refresh token available"

  /** The keys a store agrees on with another, outside the two token keys. */
  ghost predicate SameOutsideTokens(a: Store, b: Store) {
    forall k :: k != AccessTokenKey && k != RefreshTokenKey ==>
      (k in a <==> k in b) && (k in a ==> a[k] == b[k])
  }

  /** `storeAuthTokens(access, refresh)` */
  function StoreAuthTokens(st: Store, access: string, refresh: string): (r: Store)
    ensures AccessTokenKey in r && r[AccessTokenKey] == access
    ensures RefreshTokenKey in r && r[RefreshTokenKey] == refresh
    ensures SameOutsideTokens(r, st)
  {
    st[AccessTokenKey := access][RefreshTokenKey := refresh]
  }

  /** `clearAuthTokens()` */
  function ClearAuthTokens(st: Store): (r: Store)
    ensures AccessTokenKey !in r && RefreshTokenKey !in r
    ensures SameOutsideTokens(r, st)
  {
    st - {AccessTokenKey, RefreshTokenKey}
  }

  /** `getAccessToken()` */
  function GetAccessToken(st: Store): (r: Option<string>)
    ensures r.Some? <==> AccessTokenKey in st
    ensures r.Some? ==> r.value == st[AccessTokenKey]
  {
    if AccessTokenKey in st then Some(st[AccessTokenKey]) else None
  }

  /** `getRefreshToken()` */
  function GetRefreshToken(st: Store): (r: Option<string>)
    ensures r.Some? <==> RefreshTokenKey in st
    ensures r.Some? ==> r.value == st[RefreshTokenKey]
  {
    if RefreshTokenKey in st then Some(st[RefreshTokenKey]) else None
  }

  /** A string is truthy when it is present and not empty. */
  predicate Truthy(s: Option<string>) {
    s.Some? && s.value != ""
  }

  /** `isAuthenticated()` */
  predicate IsAuthenticated(st: Store) {
    Truthy(GetAccessToken(st))
  }

  /** Storing then reading gives back the tokens; clearing forgets them and
      leaves the user unauthenticated; clearing undoes storing. */
  lemma TokenStoreLaws(st: Store, access: string, refresh: string)
    ensures GetAccessToken(StoreAuthTokens(st, access, refresh)) == Some(access)
    ensures GetRefreshToken(StoreAuthTokens(st, access, refresh)) == Some(refresh)
    ensures IsAuthenticated(StoreAuthTokens(st, access, refresh)) <==> access != ""
    ensures GetAccessToken(ClearAuthTokens(st)).None? && GetRefreshToken(ClearAuthTokens(st)).None?
    ensures !IsAuthenticated(ClearAuthTokens(st))
    ensures ClearAuthTokens(StoreAuthTokens(st, access, refresh)) == ClearAuthTokens(st)
  {
  }

  /** The error handler of the shared client's response interceptor: an
      error answer with status 401 removes the access token, and only it;
      any other failure, or none answered, leaves the store alone. Every
      service request goes through it before the service's own `catch`. */
  function OnResponseError(st: Store, status: Option<int>): (r: Store)
    ensures status == Some(401) ==>
      && GetAccessToken(r).None? && !IsAuthenticated(r)
      && GetRefreshToken(r) == GetRefreshToken(st)
      && SameOutsideTokens(r, st)
    ensures status != Some(401) ==> r == st
  {
    if status == Some(401) then st - {AccessTokenKey} else st
  }

  /** Where a failure is followed by clearing both tokens (`logout`'s
      `finally`, `refreshAccessToken`'s `catch`, `clearAuth` after a failed
      user fetch), the interceptor's removal makes no difference. */
  lemma ClearSubsumesResponseError(st: Store, status: Option<int>)
    ensures ClearAuthTokens(OnResponseError(st, status)) == ClearAuthTokens(st)
  {
  }

  /** The token step shared by `createAccount` and `login`: tokens are
      stored only when the request succeeded with a truthy access token; a
      failure is passed on after the interceptor has seen its status
      (`errorStatus`, read only on failure). */
  function AfterAuthRequest(st: Store, outcome: Result<AuthResponse>, errorStatus: Option<int>): (r: Store)
    ensures outcome.Ok? && outcome.value.accessToken != "" ==>
      r == StoreAuthTokens(st, outcome.value.accessToken, outcome.value.refreshToken)
    ensures outcome.Ok? && outcome.value.accessToken == "" ==> r == st
    ensures outcome.Err? && errorStatus == Some(401) ==>
      !IsAuthenticated(r) && GetRefreshToken(r) == GetRefreshToken(st) && SameOutsideTokens(r, st)
    ensures outcome.Err? && errorStatus != Some(401) ==> r == st
  {
    match outcome
    case Ok(response) =>
      if response.accessToken != "" then StoreAuthTokens(st, response.accessToken, response.refreshToken) else st
    case Err(_) => OnResponseError(st, errorStatus)
  }

  /** Whether a sign-up or login leaves the store authenticated: a truthy
      token came back, or the store was authenticated and the request
      neither replaced its token nor failed with 401. */
  predicate AuthenticatedAfter(st: Store, outcome: Result<AuthResponse>, errorStatus: Option<int>) {
    || (outcome.Ok? && outcome.value.accessToken != "")
    || (outcome.Ok? && outcome.value.accessToken == "" && IsAuthenticated(st))
    || (outcome.Err? && errorStatus != Some(401) && IsAuthenticated(st))
  }

  /** `createAccount(payload)` */
  function CreateAccount(st: Store, outcome: Result<AuthResponse>, errorStatus: Option<int>): (r: Store)
    ensures IsAuthenticated(r) <==> AuthenticatedAfter(st, outcome, errorStatus)
  {
    AfterAuthRequest(st, outcome, errorStatus)
  }

  /** `login(payload)` */
  function Login(st: Store, outcome: Result<AuthResponse>, errorStatus: Option<int>): (r: Store)
    ensures IsAuthenticated(r) <==> AuthenticatedAfter(st, outcome, errorStatus)
  {
    AfterAuthRequest(st, outcome, errorStatus)
  }

  /** `logout()`: the request's outcome does not matter. */
  function Logout(st: Store, outcome: Result<()>): (r: Store)
    ensures !IsAuthenticated(r) && GetRefreshToken(r).None?
    ensures SameOutsideTokens(r, st)
  {
    ClearAuthTokens(st)
  }

  /** `refreshAccessToken()`: the store afterwards, the result, and whether a
      request was made (only when a refresh token is stored). */
  datatype Refreshed = Refreshed(store: Store, result: Result<RefreshResponse>, requested: bool)

  function RefreshAccessToken(st: Store, outcome: Result<RefreshResponse>): (r: Refreshed)
    ensures r.requested <==> Truthy(GetRefreshToken(st))
    ensures !r.requested ==> r.result == Err(NoRefreshToken)
    ensures r.requested ==> r.result == outcome
    ensures r.result.Err? ==> r.store == ClearAuthTokens(st)
    ensures r.result.Ok? && r.result.value.accessToken != "" ==>
      r.store == StoreAuthTokens(st, r.result.value.accessToken, r.result.value.refreshToken)
    ensures r.result.Ok? && r.result.value.accessToken == "" ==> r.store == st
  {
    if !Truthy(GetRefreshToken(st)) then Refreshed(ClearAuthTokens(st), Err(NoRefreshToken), false)
    else match outcome
      case Err(e) => Refreshed(ClearAuthTokens(st), Err(e), true)
      case Ok(response) =>
        var st' := if response.accessToken != "" then StoreAuthTokens(st, response.accessToken, response.refreshToken) else st;
        Refreshed(st', Ok(response), true)
  }

  /** Any failed refresh, including having nothing to refresh with, leaves
      no tokens behind. */
  lemma FailedRefreshSignsOut(st: Store, outcome: Result<RefreshResponse>)
    requires RefreshAccessToken(st, outcome).result.Err?
    ensures !IsAuthenticated(RefreshAccessToken(st, outcome).store)
    ensures GetRefreshToken(RefreshAccessToken(st, outcome).store).None?
  {
  }
}
