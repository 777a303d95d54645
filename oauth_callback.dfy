/** The effect of `src/components/OAuthCallback.tsx`, run once on the OAuth
    redirect page: a decision over the URL's `error`, `code` and `state`
    parameters and the `oauth_credentials` session slot, which ends in one
    navigation home. The effects are recorded in the order they happen. */
module OAuthCallback {
  import opened Common
  import AuthService
  import AuthContext

  /** `urlParams.get(...)` for the three parameters read; `None` is absent. */
  datatype UrlParams = UrlParams(code: Option<string>, state: Option<string>, error: Option<string>)

  /** What the effect does, besides the reads. */
  datatype Effect =
    | RemoveCredentials
    | CallHandleCallback(code: string, state: string, credentials: AuthService.OAuthCredentials)
    | Navigate(path: string, replace: bool, delayMs: nat)

  const HOME := "/"
  /** The wait before going home after a rejected `handleCallback`. */
  const ERROR_REDIRECT_DELAY_MS := 3000

  /** The wait before the final navigation, by how `handleCallback` settled. */
  function NavigationDelay(settled: AuthContext.Settlement): nat {
    if settled == AuthContext.Resolved then 0 else ERROR_REDIRECT_DELAY_MS
  }

  /** The code, state and parsed credentials are all there, so `handleCallback` is called. */
  predicate Proceeds(url: UrlParams, stored: Option<AuthService.Stored<AuthService.OAuthCredentials>>) {
    !Present(url.error) && Present(url.code) && Present(url.state) && stored.Some? && stored.value.Entry?
  }

  /** The effects, given the stored credentials and how `handleCallback`
      would settle. */
  function Plan(url: UrlParams, stored: Option<AuthService.Stored<AuthService.OAuthCredentials>>,
                settled: AuthContext.Settlement): (effects: seq<Effect>)
    ensures |effects| > 0
    ensures effects[|effects| - 1].Navigate? && effects[|effects| - 1].path == HOME && effects[|effects| - 1].replace
    ensures forall i :: 0 <= i < |effects| - 1 ==> !effects[i].Navigate?
    ensures (exists i :: 0 <= i < |effects| && effects[i].CallHandleCallback?) <==> Proceeds(url, stored)
    ensures Proceeds(url, stored) ==>
              effects == [ RemoveCredentials,
                           CallHandleCallback(url.code.value, url.state.value, stored.value.value),
                           Navigate(HOME, true, NavigationDelay(settled)) ]
    ensures (RemoveCredentials in effects) <==>
              Present(url.error) || !(Present(url.code) && Present(url.state)) || Proceeds(url, stored)
    ensures effects[|effects| - 1].delayMs != 0 <==> Proceeds(url, stored) && settled == AuthContext.Rejected
  {
    var home := Navigate(HOME, true, 0);
    if Present(url.error) then [RemoveCredentials, home]
    else if Present(url.code) && Present(url.state) then
      if stored.None? || !AuthService.NonEmpty(stored.value) then [home]
      else match stored.value
        case Unparsable(_) => [home]
        case Entry(credentials) =>
          var effects := [ RemoveCredentials,
                            CallHandleCallback(url.code.value, url.state.value, credentials),
                            Navigate(HOME, true, NavigationDelay(settled)) ];
          assert effects[1].CallHandleCallback?;
          effects
    else [RemoveCredentials, home]
  }

  /** An `error` parameter wins over everything else: the credentials are
      removed, nobody calls `handleCallback`, and the user goes home. */
  lemma ErrorTakesPriority(url: UrlParams, stored: Option<AuthService.Stored<AuthService.OAuthCredentials>>,
                           settled: AuthContext.Settlement)
    requires Present(url.error)
    ensures Plan(url, stored, settled) == [RemoveCredentials, Navigate(HOME, true, 0)]
  {
  }

  /** Credentials that do not parse are left in place, and the user goes home. */
  lemma UnparsableCredentialsStay(url: UrlParams, raw: string, settled: AuthContext.Settlement)
    requires !Present(url.error) && Present(url.code) && Present(url.state)
    ensures Plan(url, Some(AuthService.Unparsable(raw)), settled) == [Navigate(HOME, true, 0)]
  {
  }

  /** The effect itself, with the context's `handleCallback`. That promise
      never rejects, so the delayed navigation cannot happen. */
  method RunEffect(provider: AuthContext.AuthProvider, url: UrlParams,
                   reply: HttpOutcome<AuthService.TokenResponse>, createdAt: int, savedAt: int)
    returns (effects: seq<Effect>)
    requires provider.Valid()
    modifies provider, provider.storage
    ensures provider.Valid()
    ensures effects == Plan(url, old(provider.storage.credentials), AuthContext.Resolved)
    ensures effects[|effects| - 1] == Navigate(HOME, true, 0)
    ensures provider.storage.credentials ==
              if RemoveCredentials in effects then None else old(provider.storage.credentials)
    ensures Proceeds(url, old(provider.storage.credentials)) ==>
              provider.state == AuthContext.ReduceAll(old(provider.state),
                [ AuthContext.SetLoading(true),
                  AuthContext.CallbackAction(AuthService.CallbackResult(
                    old(provider.storage.oauthState), url.state.value, reply, createdAt)) ])
    ensures Proceeds(url, old(provider.storage.credentials)) ==>
              && provider.storage.oauthState ==
                   (if AuthService.StateAccepted(old(provider.storage.oauthState), url.state.value) then None
                    else old(provider.storage.oauthState))
              && var r := AuthService.CallbackResult(old(provider.storage.oauthState), url.state.value, reply, createdAt);
                 provider.storage.tokens ==
                   if r.Success? then Some(AuthService.Entry(r.value.(obtainedAt := savedAt)))
                   else old(provider.storage.tokens)
    ensures !Proceeds(url, old(provider.storage.credentials)) ==>
              && provider.state == old(provider.state)
              && provider.storage.tokens == old(provider.storage.tokens)
              && provider.storage.oauthState == old(provider.storage.oauthState)
  {
    var storage := provider.storage;
    if Present(url.error) {
      storage.credentials := None;
      effects := [RemoveCredentials, Navigate(HOME, true, 0)];
      return;
    }
    if Present(url.code) && Present(url.state) {
      var credentialsJson := storage.credentials;
      if credentialsJson.None? || !AuthService.NonEmpty(credentialsJson.value) {
        effects := [Navigate(HOME, true, 0)];
        return;
      }
      match credentialsJson.value
      case Unparsable(_) =>
        effects := [Navigate(HOME, true, 0)];
      case Entry(credentials) =>
        storage.credentials := None;
        var dispatched, sent, settled :=
          provider.HandleCallback(url.code.value, url.state.value, credentials, reply, createdAt, savedAt);
        effects := [ RemoveCredentials,
                     CallHandleCallback(url.code.value, url.state.value, credentials),
                     Navigate(HOME, true, NavigationDelay(settled)) ];
    } else {
      storage.credentials := None;
      effects := [RemoveCredentials, Navigate(HOME, true, 0)];
    }
  }
}
