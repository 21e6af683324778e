/**
 * The token store and the token effects of the authentication service
 * (src/services/authService.ts). The browser's `localStorage` is a
 * string-to-string map held by a `TokenManager` object; each request the
 * service awaits is described by the call it makes, and its settled outcome
 * is a parameter.
 */
module AuthServiceModel {
  import opened Wrappers

  const AccessKey := "accessToken"
  const RefreshKey := "refreshToken"
  const NoRefreshToken := "No refresh token available"

  /** The server's answer to login and register. */
  datatype AuthResponse = AuthResponse(accessToken: Option<string>, refreshToken: Option<string>, user: string)

  datatype RefreshResponse = RefreshResponse(accessToken: Option<string>)

  datatype Endpoint =
    | LoginEndpoint | RegisterEndpoint | LogoutEndpoint | ProfileEndpoint | RefreshEndpoint
    | VerifyEndpoint | ResendEndpoint | ResetEndpoint | ConfirmResetEndpoint | ChangePasswordEndpoint

  /** The JSON body a request carries. */
  datatype Body =
    | NoBody
    | Credentials(email: string, password: string)
    | Registration(name: string, regEmail: string, regPassword: string)
    | RefreshBody(refreshToken: string)
    | TokenBody(token: string)
    | EmailBody(resetEmail: string)
    | ConfirmResetBody(resetToken: string, newPassword: string)
    | ChangePasswordBody(currentPassword: string, changedPassword: string)

  datatype ApiCall = ApiCall(endpoint: Endpoint, body: Body)

  /** `TokenManager` over the key/value store it reads and writes. */
  class TokenManager {
    var storage: map<string, string>

    constructor (initial: map<string, string>)
      ensures storage == initial
    {
      storage := initial;
    }

    /** `getToken()`: the stored access token, `null` as `None`. */
    function Token(): (t: Option<string>)
      reads this
      ensures t.Some? <==> AccessKey in storage
      ensures t.Some? ==> t.value == storage[AccessKey]
    {
      if AccessKey in storage then Some(storage[AccessKey]) else None
    }

    /** `getRefreshToken()`. */
    function RefreshToken(): (t: Option<string>)
      reads this
      ensures t.Some? <==> RefreshKey in storage
      ensures t.Some? ==> t.value == storage[RefreshKey]
    {
      if RefreshKey in storage then Some(storage[RefreshKey]) else None
    }

    /** `isAuthenticated()`: an access token is stored and is not empty. */
    predicate IsAuthenticated()
      reads this
      ensures IsAuthenticated() <==> AccessKey in storage && storage[AccessKey] != ""
    {
      TruthyString(Token())
    }

    method SetToken(token: string)
      modifies this
      ensures storage == old(storage)[AccessKey := token]
      ensures Token() == Some(token) && RefreshToken() == old(RefreshToken())
    {
      storage := storage[AccessKey := token];
    }

    method RemoveToken()
      modifies this
      ensures storage == old(storage) - {AccessKey}
      ensures Token().None? && RefreshToken() == old(RefreshToken())
    {
      storage := storage - {AccessKey};
    }

    method SetRefreshToken(token: string)
      modifies this
      ensures storage == old(storage)[RefreshKey := token]
      ensures RefreshToken() == Some(token) && Token() == old(Token())
    {
      storage := storage[RefreshKey := token];
    }

    method RemoveRefreshToken()
      modifies this
      ensures storage == old(storage) - {RefreshKey}
      ensures RefreshToken().None? && Token() == old(Token())
    {
      storage := storage - {RefreshKey};
    }

    /** `clearTokens()`: both keys are removed; other entries of the store are untouched. */
    method ClearTokens()
      modifies this
      ensures storage == old(storage) - {AccessKey, RefreshKey}
      ensures Token().None? && RefreshToken().None? && !IsAuthenticated()
    {
      RemoveToken();
      RemoveRefreshToken();
    }
  }

  class AuthService {
    const tokens: TokenManager

    constructor (tokens: TokenManager)
      ensures this.tokens == tokens
    {
      this.tokens := tokens;
    }

    /**
     * Stores each token of a successful answer only when it is truthy, keeping
     * the previous value otherwise; a failed request stores nothing and is rethrown.
     */
    method SaveTokens(response: AuthResponse)
      modifies tokens
      ensures tokens.Token() == (if TruthyString(response.accessToken) then response.accessToken else old(tokens.Token()))
      ensures tokens.RefreshToken() == (if TruthyString(response.refreshToken) then response.refreshToken else old(tokens.RefreshToken()))
      ensures forall k :: k != AccessKey && k != RefreshKey ==>
        (k in tokens.storage <==> k in old(tokens.storage)) && (k in tokens.storage ==> tokens.storage[k] == old(tokens.storage)[k])
    {
      if TruthyString(response.accessToken) {
        tokens.SetToken(response.accessToken.value);
      }
      if TruthyString(response.refreshToken) {
        tokens.SetRefreshToken(response.refreshToken.value);
      }
    }

    /** `login(credentials)`. */
    method Login(email: string, password: string, outcome: Outcome<AuthResponse>) returns (call: ApiCall, r: Outcome<AuthResponse>)
      modifies tokens
      ensures call == ApiCall(LoginEndpoint, Credentials(email, password)) && r == outcome
      ensures outcome.Rejected? ==> tokens.storage == old(tokens.storage)
      ensures outcome.Resolved? ==>
        tokens.Token() == (if TruthyString(outcome.value.accessToken) then outcome.value.accessToken else old(tokens.Token())) &&
        tokens.RefreshToken() == (if TruthyString(outcome.value.refreshToken) then outcome.value.refreshToken else old(tokens.RefreshToken()))
      ensures outcome.Resolved? && TruthyString(outcome.value.accessToken) ==> tokens.IsAuthenticated()
      ensures outcome.Resolved? ==> forall k :: k != AccessKey && k != RefreshKey ==>
        (k in tokens.storage <==> k in old(tokens.storage)) && (k in tokens.storage ==> tokens.storage[k] == old(tokens.storage)[k])
    {
      call := ApiCall(LoginEndpoint, Credentials(email, password));
      r := outcome;
      if outcome.Resolved? {
        SaveTokens(outcome.value);
      }
    }

    /** `register(data)`: the same token effect as login. */
    method Register(name: string, email: string, password: string, outcome: Outcome<AuthResponse>) returns (call: ApiCall, r: Outcome<AuthResponse>)
      modifies tokens
      ensures call == ApiCall(RegisterEndpoint, Registration(name, email, password)) && r == outcome
      ensures outcome.Rejected? ==> tokens.storage == old(tokens.storage)
      ensures outcome.Resolved? ==>
        tokens.Token() == (if TruthyString(outcome.value.accessToken) then outcome.value.accessToken else old(tokens.Token())) &&
        tokens.RefreshToken() == (if TruthyString(outcome.value.refreshToken) then outcome.value.refreshToken else old(tokens.RefreshToken()))
      ensures outcome.Resolved? ==> forall k :: k != AccessKey && k != RefreshKey ==>
        (k in tokens.storage <==> k in old(tokens.storage)) && (k in tokens.storage ==> tokens.storage[k] == old(tokens.storage)[k])
    {
      call := ApiCall(RegisterEndpoint, Registration(name, email, password));
      r := outcome;
      if outcome.Resolved? {
        SaveTokens(outcome.value);
      }
    }

    /**
     * `logout()`: the request's failure is swallowed and both tokens are
     * cleared whatever the outcome.
     */
    method Logout(outcome: Outcome<()>) returns (call: ApiCall)
      modifies tokens
      ensures call == ApiCall(LogoutEndpoint, NoBody)
      ensures tokens.storage == old(tokens.storage) - {AccessKey, RefreshKey}
      ensures !tokens.IsAuthenticated() && tokens.RefreshToken().None?
    {
      call := ApiCall(LogoutEndpoint, NoBody);
      // Both the success and the failure path fall through to the `finally` block.
      tokens.ClearTokens();
    }

    /**
     * `refreshToken()`: without a truthy refresh token it fails before any
     * request; otherwise it sends the stored refresh token and replaces only
     * the access token, and only by a truthy one.
     */
    method Refresh(outcome: Outcome<RefreshResponse>) returns (call: Option<ApiCall>, r: Outcome<RefreshResponse>)
      modifies tokens
      ensures !TruthyString(old(tokens.RefreshToken())) ==>
        call.None? && r == Rejected(NoRefreshToken) && tokens.storage == old(tokens.storage)
      ensures TruthyString(old(tokens.RefreshToken())) ==>
        call == Some(ApiCall(RefreshEndpoint, RefreshBody(old(tokens.RefreshToken()).value))) && r == outcome
      ensures tokens.RefreshToken() == old(tokens.RefreshToken())
      ensures TruthyString(old(tokens.RefreshToken())) && outcome.Resolved? && TruthyString(outcome.value.accessToken) ==>
        tokens.Token() == outcome.value.accessToken &&
        tokens.storage == old(tokens.storage)[AccessKey := outcome.value.accessToken.value]
      ensures !(TruthyString(old(tokens.RefreshToken())) && outcome.Resolved? && TruthyString(outcome.value.accessToken)) ==>
        tokens.storage == old(tokens.storage)
    {
      var refreshToken := tokens.RefreshToken();
      if !TruthyString(refreshToken) {
        return None, Rejected(NoRefreshToken);
      }
      call := Some(ApiCall(RefreshEndpoint, RefreshBody(refreshToken.value)));
      r := outcome;
      if outcome.Resolved? && TruthyString(outcome.value.accessToken) {
        tokens.SetToken(outcome.value.accessToken.value);
      }
    }

    // The remaining operations only await their request; none of them may touch the store.

    method GetProfile(outcome: Outcome<string>) returns (call: ApiCall, r: Outcome<string>)
      ensures call == ApiCall(ProfileEndpoint, NoBody) && r == outcome
    {
      call := ApiCall(ProfileEndpoint, NoBody);
      r := outcome;
    }

    method VerifyEmail(token: string, outcome: Outcome<()>) returns (call: ApiCall, r: Outcome<()>)
      ensures call == ApiCall(VerifyEndpoint, TokenBody(token)) && r == outcome
    {
      call := ApiCall(VerifyEndpoint, TokenBody(token));
      r := outcome;
    }

    method ResendEmailVerification(outcome: Outcome<()>) returns (call: ApiCall, r: Outcome<()>)
      ensures call == ApiCall(ResendEndpoint, NoBody) && r == outcome
    {
      call := ApiCall(ResendEndpoint, NoBody);
      r := outcome;
    }

    method ResetPassword(email: string, outcome: Outcome<()>) returns (call: ApiCall, r: Outcome<()>)
      ensures call == ApiCall(ResetEndpoint, EmailBody(email)) && r == outcome
    {
      call := ApiCall(ResetEndpoint, EmailBody(email));
      r := outcome;
    }

    /** The new password travels under the name `password`. */
    method ConfirmPasswordReset(token: string, newPassword: string, outcome: Outcome<()>) returns (call: ApiCall, r: Outcome<()>)
      ensures call == ApiCall(ConfirmResetEndpoint, ConfirmResetBody(token, newPassword)) && r == outcome
    {
      call := ApiCall(ConfirmResetEndpoint, ConfirmResetBody(token, newPassword));
      r := outcome;
    }

    method ChangePassword(currentPassword: string, newPassword: string, outcome: Outcome<()>) returns (call: ApiCall, r: Outcome<()>)
      ensures call == ApiCall(ChangePasswordEndpoint, ChangePasswordBody(currentPassword, newPassword)) && r == outcome
    {
      call := ApiCall(ChangePasswordEndpoint, ChangePasswordBody(currentPassword, newPassword));
      r := outcome;
    }
  }
}
