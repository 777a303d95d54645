/** The handlers and view choice of `src/components/AuthButton.tsx`: the
    manual-token form, the OAuth credentials form, and which of the four
    views is shown. */
module AuthButton {
  import opened Common
  import opened Text
  import AuthService
  import AuthContext

  /** The client ID the OAuth form starts with. */
  const DEFAULT_CLIENT_ID := "1000.K37JWRX7Q8ZQY7WI1PLTPG0C7P4WON"

  /** The four things the component renders. */
  datatype View = LoggedIn | OAuthForm | TokenForm | LoginChoice

  /** The authenticated view first, then the OAuth form, then the token form. */
  function ChooseView(isAuthenticated: bool, showOAuthInputs: bool, showTokenInput: bool): (v: View)
    ensures v == LoggedIn <==> isAuthenticated
    ensures v == OAuthForm <==> !isAuthenticated && showOAuthInputs
    ensures v == TokenForm <==> !isAuthenticated && !showOAuthInputs && showTokenInput
    ensures v == LoginChoice <==> !isAuthenticated && !showOAuthInputs && !showTokenInput
  {
    if isAuthenticated then LoggedIn
    else if showOAuthInputs then OAuthForm
    else if showTokenInput then TokenForm
    else LoginChoice
  }

  /** The Save button of the token form is disabled while the input is blank. */
  function SaveDisabled(tokenInput: string): (d: bool)
    ensures d <==> Blank(tokenInput)
  {
    Trim(tokenInput) == ""
  }

  /** `handleOAuthLogin` goes ahead only when neither the client ID nor the
      client secret is blank. */
  function OAuthLoginReady(clientId: string, clientSecret: string): (ok: bool)
    ensures ok <==> !Blank(clientId) && !Blank(clientSecret)
  {
    Trim(clientId) != "" && Trim(clientSecret) != ""
  }

  /** The component's state; `auth` is the context it reads and calls. */
  class Component {
    var showTokenInput: bool
    var showOAuthInputs: bool
    var tokenInput: string
    var clientId: string
    var clientSecret: string
    const auth: AuthContext.AuthProvider

    constructor (auth: AuthContext.AuthProvider)
      ensures !showTokenInput && !showOAuthInputs && tokenInput == ""
      ensures clientId == DEFAULT_CLIENT_ID && clientSecret == ""
      ensures this.auth == auth
    {
      showTokenInput, showOAuthInputs, tokenInput := false, false, "";
      clientId, clientSecret := DEFAULT_CLIENT_ID, "";
      this.auth := auth;
    }

    function CurrentView(): View
      reads this, auth
    {
      ChooseView(auth.state.isAuthenticated, showOAuthInputs, showTokenInput)
    }

    /** `handleManualTokenSubmit`: a blank input changes nothing; otherwise
        the trimmed token is saved through the context, the input is cleared
        and the token form hidden. Returns the token saved, if any. */
    method HandleManualTokenSubmit(createdAt: int, savedAt: int) returns (saved: Option<string>)
      requires auth.Valid()
      modifies this, auth, auth.storage
      ensures auth.Valid()
      ensures Blank(old(tokenInput)) ==>
                && saved.None?
                && unchanged(this) && auth.state == old(auth.state) && unchanged(auth.storage)
      ensures !Blank(old(tokenInput)) ==>
                && saved == Some(Trim(old(tokenInput)))
                && tokenInput == "" && !showTokenInput
                && auth.state == AuthContext.Reduce(old(auth.state),
                     AuthContext.SetAuthenticated(AuthService.AuthTokens(saved, None, None, createdAt)))
                && auth.state == AuthContext.AuthState(true, Some(AuthService.AuthTokens(saved, None, None, createdAt)), false, None)
                && auth.storage.tokens == Some(AuthService.Entry(AuthService.AuthTokens(saved, None, None, savedAt)))
                && auth.storage.oauthState == old(auth.storage.oauthState)
                && auth.storage.credentials == old(auth.storage.credentials)
      ensures showOAuthInputs == old(showOAuthInputs) && clientId == old(clientId) && clientSecret == old(clientSecret)
    {
      var token := Trim(tokenInput);
      if token != "" {
        var _ := auth.SetManualToken(token, createdAt, savedAt);
        tokenInput := "";
        showTokenInput := false;
        saved := Some(token);
      } else {
        saved := None;
      }
    }

    /** `handleOAuthLogin`: only with a non-blank client ID and secret, the
        trimmed credentials go to `oauth_credentials` and then `login` runs
        with the trimmed client ID. Returns the redirect, if any. */
    method HandleOAuthLogin(nonce: AuthService.Nonce) returns (redirect: Option<AuthService.UrlRequest>)
      modifies auth.storage
      ensures redirect.Some? <==> OAuthLoginReady(clientId, clientSecret)
      ensures redirect.None? ==> unchanged(auth.storage)
      ensures redirect.Some? ==>
                && auth.storage.credentials ==
                     Some(AuthService.Entry(AuthService.OAuthCredentials(Trim(clientId), Trim(clientSecret))))
                && auth.storage.oauthState == Some(AuthService.NonceString(nonce))
                && redirect.value == AuthService.AuthorizationRequestFor(Trim(clientId), AuthService.NonceString(nonce), auth.origin)
      ensures auth.storage.tokens == old(auth.storage.tokens)
    {
      if OAuthLoginReady(clientId, clientSecret) {
        var id, secret := Trim(clientId), Trim(clientSecret);
        var storage := auth.storage;
        storage.credentials := Some(AuthService.Entry(AuthService.OAuthCredentials(id, secret)));
        var url := auth.Login(id, nonce);
        redirect := Some(url);
      } else {
        redirect := None;
      }
    }

    /** The "Login to Desktop Central" button opens the OAuth form; it is
        disabled while the context is loading, so a click then does nothing. */
    method OpenOAuthForm()
      modifies this
      ensures showOAuthInputs == (old(showOAuthInputs) || !auth.state.isLoading)
      ensures showTokenInput == old(showTokenInput) && tokenInput == old(tokenInput)
      ensures clientId == old(clientId) && clientSecret == old(clientSecret)
    {
      if !auth.state.isLoading {
        showOAuthInputs := true;
      }
    }

    /** "Enter token manually" opens the token form. */
    method OpenTokenForm()
      modifies this
      ensures showTokenInput && showOAuthInputs == old(showOAuthInputs) && tokenInput == old(tokenInput)
      ensures clientId == old(clientId) && clientSecret == old(clientSecret)
    {
      showTokenInput := true;
    }

    /** Cancel on either form hides it; what was typed stays. */
    method CancelForm(form: View)
      requires form == OAuthForm || form == TokenForm
      modifies this
      ensures showOAuthInputs == (old(showOAuthInputs) && form != OAuthForm)
      ensures showTokenInput == (old(showTokenInput) && form != TokenForm)
      ensures tokenInput == old(tokenInput) && clientId == old(clientId) && clientSecret == old(clientSecret)
    {
      if form == OAuthForm {
        showOAuthInputs := false;
      } else {
        showTokenInput := false;
      }
    }

    /** The logout button of the logged-in view calls the context's `logout`. */
    method LogoutClick() returns (dispatched: seq<AuthContext.Action>)
      requires auth.Valid()
      modifies auth, auth.storage
      ensures auth.Valid()
      ensures dispatched == [AuthContext.Action.Logout]
      ensures auth.state == AuthContext.SIGNED_OUT
      ensures CurrentView() != LoggedIn
      ensures auth.storage.tokens == None
      ensures auth.storage.oauthState == old(auth.storage.oauthState)
      ensures auth.storage.credentials == old(auth.storage.credentials)
    {
      dispatched := auth.SignOut();
    }
  }
}
