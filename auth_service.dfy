/** The session manager of `src/services/authService.ts`: one persisted token
    slot, one session-scoped OAuth state slot, the expiry rule, and the steps
    of the OAuth 2.0 authorization-code grant (RFC 6749 section 4.1) against
    the Zoho accounts server. The browser's storage is the `WebStorage`
    object; the clock, the random nonce, the page origin and the token
    endpoint's reply are parameters. */
module AuthService {
  import opened Common
  import opened Text

  const ZOHO_BASE_URL := "https://accounts.zoho.eu"
  const CALLBACK_PATH := "/oauth/callback"
  const SCOPE := "DesktopCentralCloud.Common.READ,DesktopCentralCloud.Common.Update,DesktopCentralCloud.Inventory.READ"
  /** The localStorage key of the token slot (`WebStorage.tokens`). */
  const STORAGE_KEY := "desktop_central_tokens"
  /** Tokens count as expired this many milliseconds before the server's expiry. */
  const EXPIRY_BUFFER_MS := 5 * 60 * 1000

  /** `REDIRECT_URI`: the page's origin followed by the callback path. */
  function RedirectUri(origin: string): string {
    origin + CALLBACK_PATH
  }

  /** `AuthTokens`. The access token is optional because a token response
      may lack it; `expires_in` is in seconds, `obtained_at` in epoch ms. */
  datatype AuthTokens = AuthTokens(
    accessToken: Option<string>,
    refreshToken: Option<string>,
    expiresIn: Option<int>,
    obtainedAt: int)

  datatype OAuthCredentials = OAuthCredentials(clientId: string, clientSecret: string)

  /** The fields of the token endpoint's JSON answer that are read. */
  datatype TokenResponse = TokenResponse(
    accessToken: Option<string>,
    refreshToken: Option<string>,
    expiresIn: Option<int>)

  /** A storage entry: the JSON text of a value, or a raw string that
      `JSON.parse` does not turn into one. */
  datatype Stored<T> = Entry(value: T) | Unparsable(raw: string)

  /** The entry is a truthy string (`if (!stored)` fails only on ""). */
  predicate NonEmpty<T>(s: Stored<T>) {
    s.Entry? || s.raw != ""
  }

  /** The browser storage the application uses: the localStorage slot
      `desktop_central_tokens` and the sessionStorage slots `oauth_state`
      and `oauth_credentials`. `None` is a missing key. */
  class WebStorage {
    var tokens: Option<Stored<AuthTokens>>
    var oauthState: Option<string>
    var credentials: Option<Stored<OAuthCredentials>>

    constructor ()
      ensures tokens == None && oauthState == None && credentials == None
    {
      tokens, oauthState, credentials := None, None, None;
    }
  }

  /** A request given as its endpoint and its query or form parameters; the
      URL encoding and the parameter order are left to `URLSearchParams`. */
  datatype UrlRequest = UrlRequest(endpoint: string, params: map<string, string>)

  // ---------------------------------------------------------------------
  // Expiry

  /** Both `expires_in` and `obtained_at` are truthy, so the expiry rule applies. */
  predicate HasExpiry(t: AuthTokens) {
    t.expiresIn.Some? && t.expiresIn.value != 0 && t.obtainedAt != 0
  }

  /** `isTokenValid` at time `now`. */
  function IsTokenValid(tokens: Option<AuthTokens>, now: int): (valid: bool)
    ensures tokens.None? ==> !valid
    ensures tokens.Some? && !Present(tokens.value.accessToken) ==> !valid
    ensures tokens.Some? && Present(tokens.value.accessToken) && !HasExpiry(tokens.value) ==> valid
    ensures tokens.Some? && Present(tokens.value.accessToken) && HasExpiry(tokens.value) ==>
              (valid <==> now < tokens.value.obtainedAt + tokens.value.expiresIn.value * 1000 - 300000)
  {
    match tokens
    case None => false
    case Some(t) =>
      if !Present(t.accessToken) then false
      else if HasExpiry(t) then
        var expiresAt := t.obtainedAt + t.expiresIn.value * 1000;
        now < expiresAt - EXPIRY_BUFFER_MS
      else true
  }

  /** A token that is invalid at some time stays invalid at every later time. */
  lemma ExpiredStaysExpired(tokens: Option<AuthTokens>, now: int, later: int)
    requires now <= later && !IsTokenValid(tokens, now)
    ensures !IsTokenValid(tokens, later)
  {
  }

  /** A token with an access token and no `expires_in` is valid at every time. */
  lemma NoExpiryMeansAlwaysValid(tokens: AuthTokens, now: int)
    requires Present(tokens.accessToken) && tokens.expiresIn.None?
    ensures IsTokenValid(Some(tokens), now)
  {
  }

  // ---------------------------------------------------------------------
  // The token slot

  /** `saveTokens`: the slot now holds exactly `tokens`, stamped with the
      current time whatever `obtained_at` they came with. */
  method SaveTokens(st: WebStorage, tokens: AuthTokens, now: int)
    modifies st
    ensures st.tokens == Some(Entry(tokens.(obtainedAt := now)))
    ensures st.oauthState == old(st.oauthState) && st.credentials == old(st.credentials)
  {
    var tokenData := tokens.(obtainedAt := now);
    st.tokens := Some(Entry(tokenData));
  }

  /** `getStoredTokens`: the stored tokens, or `None` when the slot is
      missing, empty or does not parse. A read: storage cannot change. */
  function GetStoredTokens(st: WebStorage): (r: Option<AuthTokens>)
    reads st
    ensures r.Some? <==> st.tokens.Some? && st.tokens.value.Entry?
    ensures r.Some? ==> r.value == st.tokens.value.value
  {
    match st.tokens
    case None => None
    case Some(stored) =>
      if !NonEmpty(stored) then None
      else match stored
        case Entry(t) => Some(t)
        case Unparsable(_) => None
  }

  /** `clearTokens`: the token slot is removed, nothing else changes. */
  method ClearTokens(st: WebStorage)
    modifies st
    ensures st.tokens == None
    ensures st.oauthState == old(st.oauthState) && st.credentials == old(st.credentials)
  {
    st.tokens := None;
  }

  /** `getCurrentToken`: the stored access token exactly when stored tokens
      exist, parse and are valid at `now`. A read: it never clears storage. */
  function GetCurrentToken(st: WebStorage, now: int): (r: Option<string>)
    reads st
    ensures r.Some? <==> IsTokenValid(GetStoredTokens(st), now)
    ensures r.Some? ==> r.value != "" && Some(r.value) == GetStoredTokens(st).value.accessToken
  {
    var tokens := GetStoredTokens(st);
    if tokens.None? || !IsTokenValid(tokens, now) then None
    else tokens.value.accessToken
  }

  /** `logout`: after it no time has a current token. */
  method Logout(st: WebStorage)
    modifies st
    ensures st.tokens == None
    ensures st.oauthState == old(st.oauthState) && st.credentials == old(st.credentials)
    ensures forall now :: GetCurrentToken(st, now).None?
  {
    ClearTokens(st);
  }

  /** `setManualToken`: the token is stored without `expires_in`, so it is the
      current token at every time from now on (when it is not ""). The
      returned record and the stored one differ only in `obtained_at`: the
      source reads the clock once for each (`createdAt`, `savedAt`). */
  method SetManualToken(st: WebStorage, token: string, createdAt: int, savedAt: int)
    returns (tokens: AuthTokens)
    modifies st
    ensures tokens == AuthTokens(Some(token), None, None, createdAt)
    ensures st.tokens == Some(Entry(tokens.(obtainedAt := savedAt)))
    ensures st.oauthState == old(st.oauthState) && st.credentials == old(st.credentials)
    ensures token != "" ==> forall now :: GetCurrentToken(st, now) == Some(token)
  {
    tokens := AuthTokens(Some(token), None, None, createdAt);
    SaveTokens(st, tokens, savedAt);
  }

  // ---------------------------------------------------------------------
  // Authorization request (RFC 6749 section 4.1.1)

  newtype uint32 = x: int | 0 <= x < 0x1_0000_0000

  /** The four random words of `crypto.getRandomValues(new Uint32Array(4))`. */
  datatype Nonce = Nonce(w0: uint32, w1: uint32, w2: uint32, w3: uint32)

  /** `.join('')` of the nonce words: their decimal texts run together. */
  function NonceString(n: Nonce): (s: string)
    ensures s != [] && IsDigits(s)
  {
    var s := NatToString(n.w0 as nat) + NatToString(n.w1 as nat) + NatToString(n.w2 as nat) + NatToString(n.w3 as nat);
    assert s[0] == NatToString(n.w0 as nat)[0];
    s
  }

  /** The authorization request for `clientId` carrying `state`, with the
      Zoho provider extensions `access_type=offline` and `prompt=consent`. */
  function AuthorizationRequestFor(clientId: string, state: string, origin: string): (r: UrlRequest)
    ensures r.endpoint == ZOHO_BASE_URL + "/oauth/v2/auth"
    ensures r.params.Keys == {"response_type", "client_id", "scope", "redirect_uri", "access_type", "prompt", "state"}
    ensures r.params["response_type"] == "code"
    ensures r.params["client_id"] == clientId
    ensures r.params["scope"] == SCOPE
    ensures r.params["redirect_uri"] == RedirectUri(origin)
    ensures r.params["access_type"] == "offline" && r.params["prompt"] == "consent"
    ensures r.params["state"] == state
  {
    UrlRequest(ZOHO_BASE_URL + "/oauth/v2/auth",
      map[ "response_type" := "code",
           "client_id" := clientId,
           "scope" := SCOPE,
           "redirect_uri" := RedirectUri(origin),
           "access_type" := "offline",
           "prompt" := "consent",
           "state" := state ])
  }

  /** `generateAuthUrl`: the nonce's text is stored under `oauth_state` and
      is the `state` the request carries. */
  method GenerateAuthUrl(st: WebStorage, clientId: string, nonce: Nonce, origin: string)
    returns (url: UrlRequest)
    modifies st
    ensures st.oauthState == Some(NonceString(nonce))
    ensures url == AuthorizationRequestFor(clientId, NonceString(nonce), origin)
    ensures st.tokens == old(st.tokens) && st.credentials == old(st.credentials)
  {
    var state := NonceString(nonce);
    st.oauthState := Some(state);
    url := AuthorizationRequestFor(clientId, state, origin);
  }

  // ---------------------------------------------------------------------
  // Callback (RFC 6749 sections 10.12 and 4.1.3)

  /** The `state` check of `handleCallback`: the returned state must equal the
      saved one, and a missing saved state matches nothing. */
  predicate StateAccepted(saved: Option<string>, returned: string): (ok: bool)
    ensures ok ==> saved.Some?
    ensures ok <==> saved.Some? && saved.value == returned
  {
    saved == Some(returned)
  }

  /** The callback accepts exactly the state the authorization request sent
      out and the storage kept, and nothing when no state was stored. */
  lemma CallbackAcceptsOnlyIssuedState(clientId: string, nonce: Nonce, origin: string, returned: string)
    ensures StateAccepted(Some(NonceString(nonce)), returned) <==>
            AuthorizationRequestFor(clientId, NonceString(nonce), origin).params["state"] == returned
    ensures !StateAccepted(None, returned)
  {
  }

  /** The token request of the code exchange. */
  function TokenRequestFor(code: string, credentials: OAuthCredentials, origin: string): (r: UrlRequest)
    ensures r.endpoint == ZOHO_BASE_URL + "/oauth/v2/token"
    ensures r.params.Keys == {"code", "grant_type", "client_id", "client_secret", "redirect_uri", "scope"}
    ensures r.params["code"] == code
    ensures r.params["grant_type"] == "authorization_code"
    ensures r.params["client_id"] == credentials.clientId
    ensures r.params["client_secret"] == credentials.clientSecret
    ensures r.params["redirect_uri"] == RedirectUri(origin)
    ensures r.params["scope"] == SCOPE
  {
    UrlRequest(ZOHO_BASE_URL + "/oauth/v2/token",
      map[ "code" := code,
           "grant_type" := "authorization_code",
           "client_id" := credentials.clientId,
           "client_secret" := credentials.clientSecret,
           "redirect_uri" := RedirectUri(origin),
           "scope" := SCOPE ])
  }

  /** What the token exchange yields from the endpoint's reply: the tokens of
      the response stamped with `createdAt`, or the mapped error. */
  function ExchangeTokens(reply: HttpOutcome<TokenResponse>, createdAt: int): (r: Result<AuthTokens, Error>)
    ensures r.Success? <==> reply.Received? && IsOk(reply.status) && reply.body.Success?
    ensures r.Success? ==>
              var body := reply.body.value;
              r.value == AuthTokens(body.accessToken, body.refreshToken, body.expiresIn, createdAt)
    ensures reply.Received? && !IsOk(reply.status) ==>
              r == Failure(HttpFailed(TokenExchange, reply.status, reply.statusText))
    ensures reply.Rejected? ==>
              r == Failure(if reply.thrown == TypeError(FAILED_TO_FETCH) then NetworkError(TokenExchange)
                           else Rethrown(reply.thrown))
    ensures reply.Received? && IsOk(reply.status) && reply.body.Failure? ==>
              r == Failure(Caught(TokenExchange, reply.body.error))
  {
    match Exchange(TokenExchange, reply)
    case Failure(e) => Failure(e)
    case Success(body) =>
      Success(AuthTokens(body.accessToken, body.refreshToken, body.expiresIn, createdAt))
  }

  /** What `handleCallback` resolves or rejects with, given the saved state:
      a state mismatch before anything else, then the exchange's outcome. */
  function CallbackResult(saved: Option<string>, returnedState: string,
                          reply: HttpOutcome<TokenResponse>, createdAt: int): (r: Result<AuthTokens, Error>)
    ensures !StateAccepted(saved, returnedState) ==> r == Failure(InvalidState)
    ensures StateAccepted(saved, returnedState) ==> r == ExchangeTokens(reply, createdAt)
  {
    if !StateAccepted(saved, returnedState) then Failure(InvalidState)
    else ExchangeTokens(reply, createdAt)
  }

  /** `handleCallback`. A state that does not match the saved one (or a
      missing saved state) fails before any request and writes nothing;
      otherwise `oauth_state` is removed, the token request is sent, and on
      success the tokens are saved (stamped again at `savedAt`) and returned. */
  method HandleCallback(st: WebStorage, code: string, state: string, credentials: OAuthCredentials,
                        origin: string, reply: HttpOutcome<TokenResponse>, createdAt: int, savedAt: int)
    returns (sent: Option<UrlRequest>, r: Result<AuthTokens, Error>)
    modifies st
    ensures r == CallbackResult(old(st.oauthState), state, reply, createdAt)
    ensures st.credentials == old(st.credentials)
    ensures !StateAccepted(old(st.oauthState), state) ==>
              && sent == None && r == Failure(InvalidState)
              && st.tokens == old(st.tokens) && st.oauthState == old(st.oauthState)
    ensures StateAccepted(old(st.oauthState), state) ==>
              && st.oauthState == None
              && sent == Some(TokenRequestFor(code, credentials, origin))
              && r == ExchangeTokens(reply, createdAt)
              && st.tokens == (if r.Success? then Some(Entry(r.value.(obtainedAt := savedAt))) else old(st.tokens))
  {
    if !StateAccepted(st.oauthState, state) {
      return None, Failure(InvalidState);
    }
    st.oauthState := None;
    sent := Some(TokenRequestFor(code, credentials, origin));
    r := ExchangeTokens(reply, createdAt);
    if r.Success? {
      SaveTokens(st, r.value, savedAt);
    }
  }
}
