/** The authentication context of `src/contexts/AuthContext.tsx`: a pure
    reducer over the session state, and the provider whose actions run the
    session manager's storage updates and dispatch actions in order. */
module AuthContext {
  import opened Common
  import AuthService

  /** `AuthState`. */
  datatype AuthState = AuthState(
    isAuthenticated: bool,
    tokens: Option<AuthService.AuthTokens>,
    isLoading: bool,
    error: Option<string>)

  /** `AuthAction`; `Unknown` stands for any other action object, which the
      reducer's `default` branch receives. */
  datatype Action =
    | SetLoading(loading: bool)
    | SetAuthenticated(tokens: AuthService.AuthTokens)
    | SetError(message: string)
    | Logout
    | Unknown(tag: string)

  /** The state the provider starts in: signed out and loading. */
  const INITIAL := AuthState(false, None, true, None)

  /** The state after `LOGOUT`. */
  const SIGNED_OUT := AuthState(false, None, false, None)

  /** The invariant the reducer keeps: authenticated exactly when tokens are held. */
  predicate Consistent(s: AuthState) {
    s.isAuthenticated <==> s.tokens.Some?
  }

  /** `authReducer`. */
  function Reduce(s: AuthState, a: Action): (r: AuthState)
    ensures a.SetLoading? ==>
              && r.isLoading == a.loading && r.error.None?
              && r.isAuthenticated == s.isAuthenticated && r.tokens == s.tokens
    ensures a.SetAuthenticated? ==> r.isAuthenticated && r.tokens == Some(a.tokens) && !r.isLoading && r.error.None?
    ensures a.SetError? ==>
              && r.error == Some(a.message) && !r.isLoading
              && r.isAuthenticated == s.isAuthenticated && r.tokens == s.tokens
    ensures a.Logout? ==> !r.isAuthenticated && r.tokens.None? && !r.isLoading && r.error.None?
    ensures a.Unknown? ==> r == s
    ensures Consistent(s) ==> Consistent(r)
  {
    match a
    case SetLoading(loading) => s.(isLoading := loading, error := None)
    case SetAuthenticated(tokens) => AuthState(true, Some(tokens), false, None)
    case SetError(message) => s.(isLoading := false, error := Some(message))
    case Logout => SIGNED_OUT
    case Unknown(_) => s
  }

  /** The state after dispatching `actions` in order. */
  function ReduceAll(s: AuthState, actions: seq<Action>): (r: AuthState)
    ensures actions == [] ==> r == s
    ensures actions != [] && actions[|actions| - 1].Logout? ==> r == SIGNED_OUT
    ensures actions != [] && actions[|actions| - 1].SetAuthenticated? ==>
              r == AuthState(true, Some(actions[|actions| - 1].tokens), false, None)
    decreases |actions|
  {
    if actions == [] then s else ReduceAll(Reduce(s, actions[0]), actions[1..])
  }

  /** Dispatching two runs of actions is dispatching their concatenation. */
  lemma {:induction false} ReduceAllAppend(s: AuthState, xs: seq<Action>, ys: seq<Action>)
    ensures ReduceAll(s, xs + ys) == ReduceAll(ReduceAll(s, xs), ys)
    decreases |xs|
  {
    if xs != [] {
      assert (xs + ys)[1..] == xs[1..] + ys;
      ReduceAllAppend(Reduce(s, xs[0]), xs[1..], ys);
    } else {
      assert xs + ys == ys;
    }
  }

  /** Every run of actions keeps the invariant; in particular every state
      reached from `INITIAL` is consistent. */
  lemma {:induction false} ReduceAllKeepsConsistent(s: AuthState, actions: seq<Action>)
    requires Consistent(s)
    ensures Consistent(ReduceAll(s, actions))
    decreases |actions|
  {
    if actions != [] {
      ReduceAllKeepsConsistent(Reduce(s, actions[0]), actions[1..]);
    }
  }

  /** A `SET_ERROR` never signs the user out. */
  lemma ErrorKeepsSession(s: AuthState, message: string)
    ensures Reduce(s, SetError(message)).isAuthenticated == s.isAuthenticated
    ensures Reduce(s, SetError(message)).tokens == s.tokens
  {
  }

  /** The action `handleCallback` dispatches once the service has settled. */
  function CallbackAction(r: Result<AuthService.AuthTokens, Error>): (a: Action)
    ensures r.Success? <==> a.SetAuthenticated?
    ensures r.Success? ==> a == SetAuthenticated(r.value)
    ensures r.Failure? ==> a == SetError(MessageOr(r.error, "Authentication failed"))
  {
    match r
    case Success(tokens) => SetAuthenticated(tokens)
    case Failure(e) => SetError(MessageOr(e, "Authentication failed"))
  }

  /** How a returned promise settles. */
  datatype Settlement = Resolved | Rejected

  /** `AuthProvider`: the reducer's state, and the storage it shares with the
      session manager. `origin` is `window.location.origin`. */
  class AuthProvider {
    var state: AuthState
    const storage: AuthService.WebStorage
    const origin: string

    ghost predicate Valid()
      reads this
    {
      Consistent(state)
    }

    constructor (storage: AuthService.WebStorage, origin: string)
      ensures state == INITIAL && Valid()
      ensures this.storage == storage && this.origin == origin
    {
      state := INITIAL;
      this.storage := storage;
      this.origin := origin;
    }

    /** `dispatch`. */
    method Dispatch(a: Action)
      requires Valid()
      modifies this
      ensures state == Reduce(old(state), a) && Valid()
    {
      state := Reduce(state, a);
    }

    /** The startup effect: valid stored tokens authenticate the session;
        otherwise the token slot is cleared and loading ends. */
    method Startup(now: int) returns (dispatched: seq<Action>)
      requires Valid()
      modifies this, storage
      ensures state == ReduceAll(old(state), dispatched) && Valid()
      ensures storage.oauthState == old(storage.oauthState) && storage.credentials == old(storage.credentials)
      ensures var stored := old(AuthService.GetStoredTokens(storage));
              if stored.Some? && AuthService.IsTokenValid(stored, now) then
                dispatched == [SetAuthenticated(stored.value)] && storage.tokens == old(storage.tokens)
              else
                dispatched == [SetLoading(false)] && storage.tokens == None
      ensures old(state) == INITIAL ==>
                && !state.isLoading && state.error.None? && Consistent(state)
                && (state.isAuthenticated <==> AuthService.IsTokenValid(old(AuthService.GetStoredTokens(storage)), now))
    {
      var tokens := AuthService.GetStoredTokens(storage);
      if tokens.Some? && AuthService.IsTokenValid(tokens, now) {
        Dispatch(SetAuthenticated(tokens.value));
        dispatched := [SetAuthenticated(tokens.value)];
      } else {
        AuthService.ClearTokens(storage);
        Dispatch(SetLoading(false));
        dispatched := [SetLoading(false)];
      }
    }

    /** `login`: store a fresh state and redirect to the authorization request. */
    method Login(clientId: string, nonce: AuthService.Nonce) returns (redirect: AuthService.UrlRequest)
      modifies storage
      ensures redirect == AuthService.AuthorizationRequestFor(clientId, AuthService.NonceString(nonce), origin)
      ensures storage.oauthState == Some(AuthService.NonceString(nonce))
      ensures storage.tokens == old(storage.tokens) && storage.credentials == old(storage.credentials)
    {
      redirect := AuthService.GenerateAuthUrl(storage, clientId, nonce, origin);
    }

    /** `logout`: clear the token slot, then dispatch `LOGOUT`. */
    method SignOut() returns (dispatched: seq<Action>)
      requires Valid()
      modifies this, storage
      ensures Valid()
      ensures dispatched == [Action.Logout]
      ensures state == ReduceAll(old(state), dispatched) == SIGNED_OUT
      ensures storage.tokens == None && forall now :: AuthService.GetCurrentToken(storage, now).None?
      ensures storage.oauthState == old(storage.oauthState) && storage.credentials == old(storage.credentials)
    {
      AuthService.Logout(storage);
      Dispatch(Action.Logout);
      dispatched := [Action.Logout];
    }

    /** `setManualToken`: store the token, then dispatch `SET_AUTHENTICATED`
        with the record the service returned. */
    method SetManualToken(token: string, createdAt: int, savedAt: int) returns (dispatched: seq<Action>)
      requires Valid()
      modifies this, storage
      ensures Valid()
      ensures dispatched == [SetAuthenticated(AuthService.AuthTokens(Some(token), None, None, createdAt))]
      ensures state == ReduceAll(old(state), dispatched)
      ensures state.isAuthenticated && Consistent(state)
      ensures storage.tokens == Some(AuthService.Entry(AuthService.AuthTokens(Some(token), None, None, savedAt)))
      ensures storage.oauthState == old(storage.oauthState) && storage.credentials == old(storage.credentials)
    {
      var tokens := AuthService.SetManualToken(storage, token, createdAt, savedAt);
      Dispatch(SetAuthenticated(tokens));
      dispatched := [SetAuthenticated(tokens)];
    }

    /** `handleCallback`: `SET_LOADING(true)`, then exactly one of
        `SET_AUTHENTICATED` and `SET_ERROR`; the promise always resolves. */
    method HandleCallback(code: string, returnedState: string, credentials: AuthService.OAuthCredentials,
                          reply: HttpOutcome<AuthService.TokenResponse>, createdAt: int, savedAt: int)
      returns (dispatched: seq<Action>, sent: Option<AuthService.UrlRequest>, settled: Settlement)
      requires Valid()
      modifies this, storage
      ensures var r := AuthService.CallbackResult(old(storage.oauthState), returnedState, reply, createdAt);
              dispatched == [SetLoading(true), CallbackAction(r)]
      ensures state == ReduceAll(old(state), dispatched) && Valid()
      ensures settled == Resolved
      ensures sent.Some? <==> AuthService.StateAccepted(old(storage.oauthState), returnedState)
      ensures sent.Some? ==> sent.value == AuthService.TokenRequestFor(code, credentials, origin)
      ensures storage.oauthState ==
                if AuthService.StateAccepted(old(storage.oauthState), returnedState) then None
                else old(storage.oauthState)
      ensures var r := AuthService.CallbackResult(old(storage.oauthState), returnedState, reply, createdAt);
              storage.tokens ==
                if r.Success? then Some(AuthService.Entry(r.value.(obtainedAt := savedAt))) else old(storage.tokens)
      ensures storage.credentials == old(storage.credentials)
    {
      ghost var before := state;
      Dispatch(SetLoading(true));
      ghost var loading := state;
      var r;
      sent, r := AuthService.HandleCallback(storage, code, returnedState, credentials, origin, reply, createdAt, savedAt);
      Dispatch(CallbackAction(r));
      dispatched := [SetLoading(true), CallbackAction(r)];
      assert ReduceAll(before, [SetLoading(true)]) == loading;
      assert ReduceAll(loading, [CallbackAction(r)]) == state;
      ReduceAllAppend(before, [SetLoading(true)], [CallbackAction(r)]);
      assert [SetLoading(true)] + [CallbackAction(r)] == dispatched;
      settled := Resolved;
    }
  }
}
