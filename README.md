# Desktop Central license assistant: session and agent core

This project models the single-page app that lets a Desktop Central
administrator sign in to Zoho and ask an AI agent about license usage. It
covers the app's decision logic in Dafny:

- the session manager (`AuthService`): a persisted token slot, the
  session-scoped `oauth_state` slot, a token expiry rule with a five-minute
  buffer, and the authorization-code steps of the OAuth 2.0 grant (RFC 6749,
  sections 4.1.1 and 4.1.3, with the state check of section 10.12) against
  `accounts.zoho.eu`;
- the agent client (`AgentService`): one execute request, then a status
  loop bounded by `maxAttempts` (300 by default);
- the authentication context (`AuthContext`): a pure reducer, and the
  provider whose actions update storage and dispatch actions in order;
- the OAuth redirect page (`OAuthCallback`): the decision tree of its
  effect, recorded as an ordered list of effects;
- the chat component (`ChatInterface`): when the submit button is
  disabled, the submit guards, and the rule that picks the structured view
  over the plain one;
- the login control (`AuthButton`): the handler guards and the choice
  among its four views.

Browser storage is a `WebStorage` object whose fields the operations
update. The following are parameters:

- the clock: each `Date.now()` reading is an explicit argument;
- the random nonce;
- the page origin;
- the build-time configuration;
- the remote endpoints' replies, with the status replies given as an oracle
  indexed by call number;
- `JSON.stringify` and `JSON.parse`.

Two shared modules hold helpers:

- `Text` models `String.prototype.trim` with ECMAScript's whitespace set,
  and the decimal rendering of integers.
- `Common` holds the JSON values, the outcomes of a `fetch` call, the
  `catch` mapping that every remote call shares, and the exact messages of
  every error the services throw.

Behaviour of the code worth knowing:

- `oauth_state` is removed only after the state matches. A mismatch leaves
  it in place.
- Credentials that do not parse stay in `oauth_credentials`. Only the
  error branch, the missing-parameter branch and a successful parse remove
  them.
- The service's `setManualToken` stores any string, including `""`. Only
  `AuthButton` trims the token and refuses a blank one.
- `executeAgent` does not check the prompt. The blank-prompt guard lives in
  `ChatInterface` only.
- The status loop's first wait comes before its first call.
  `maxAttempts <= 0` makes no call and times out at once.

## Model

| member | source | states |
|---|---|---|
| Text.Trim | src/components/ChatInterface.tsx:35 | `trim()` is the slice of the input after its leading whitespace run, with the blank rest removed; it is empty exactly when every character is ECMAScript whitespace, and otherwise neither starts nor ends with whitespace |
| Text.LeadingBlanks | src/components/AuthButton.tsx:16 | the leading run stripped by `trim()` is all whitespace and is followed by a non-whitespace character |
| Text.TrailingStart | src/components/AuthButton.tsx:16 | the trailing run stripped by `trim()` is all whitespace and is preceded by a non-whitespace character |
| Text.TrimIdempotent | src/components/AuthButton.tsx:17 | trimming an already trimmed value (what `setManualToken` receives) changes nothing |
| Text.NatToString | src/services/authService.ts:27 | the decimal text of a number is non-empty digits with no leading zero |
| Text.DecimalRoundTrip | src/services/authService.ts:27 | reading back the decimal text of a number gives the number |
| Common.Caught | src/services/authService.ts:95-101 | exactly a `TypeError("Failed to fetch")` becomes the network error of the call; anything else is rethrown unchanged |
| Common.Exchange | src/services/agentService.ts:49-64 | success exactly for an ok (200–299) status with a parsed body, which it returns; a non-ok status fails naming status and status text; a rejected `fetch` or a rejected `response.json()` fails with the `catch` mapping of that value |
| Common.Message | src/services/agentService.ts:25-121 | every service error carries a message (the exact source texts), except a rethrown non-`Error` value |
| Common.MessageOr | src/components/ChatInterface.tsx:101 | `err instanceof Error ? err.message : fallback` |
| AuthService.IsTokenValid | src/services/authService.ts:127-139 | absent tokens or a falsy access token are invalid; without truthy `expires_in` and `obtained_at` a token is valid; otherwise valid iff `now < obtained_at + expires_in*1000 - 300000` |
| AuthService.ExpiredStaysExpired | src/services/authService.ts:130-135 | once invalid, a token stays invalid at every later time |
| AuthService.NoExpiryMeansAlwaysValid | src/services/authService.ts:138 | a token without `expires_in` is valid at every time |
| AuthService.WebStorage.constructor | src/services/authService.ts:112-114 | a fresh browser has no token slot and no session slots |
| AuthService.SaveTokens | src/services/authService.ts:104-110 | the token slot holds exactly the tokens restamped with the current time; the session slots are untouched |
| AuthService.GetStoredTokens | src/services/authService.ts:112-121 | tokens exactly when the slot holds a parseable entry, and then that entry; missing, empty or unparsable slots give none |
| AuthService.ClearTokens | src/services/authService.ts:123-125 | the token slot is removed and nothing else changes |
| AuthService.GetCurrentToken | src/services/authService.ts:141-147 | a token exactly when the stored tokens are valid at `now`, and then the stored, non-empty access token |
| AuthService.Logout | src/services/authService.ts:149-151 | after logout no time has a current token; the session slots are untouched |
| AuthService.SetManualToken | src/services/authService.ts:43-50 | returns `{access_token, obtained_at}` with no expiry; the stored copy differs only in its second clock reading, and a non-empty token is then current at every time |
| AuthService.NonceString | src/services/authService.ts:27 | the joined nonce is a non-empty string of digits |
| AuthService.AuthorizationRequestFor | src/services/authService.ts:30-40 | the authorization endpoint with exactly the seven parameters, including the client id, scope, redirect URI and state |
| AuthService.GenerateAuthUrl | src/services/authService.ts:26-41 | the nonce text is stored under `oauth_state` and is the request's `state`; the token and credential slots are untouched |
| AuthService.StateAccepted | src/services/authService.ts:53-54 | the returned state is accepted exactly when a state is stored and equals it |
| AuthService.CallbackAcceptsOnlyIssuedState | src/services/authService.ts:53-56 | the callback accepts exactly the state the authorization request carried, and nothing when none is stored |
| AuthService.TokenRequestFor | src/services/authService.ts:61-76 | the token endpoint with exactly the six form parameters, carrying the code and both credentials |
| AuthService.ExchangeTokens | src/services/authService.ts:70-101 | tokens from the response's three fields stamped with the first clock reading on an ok parsed reply; the status error on a non-ok reply; the network error or the rethrown value on a rejected `fetch` or a rejected `response.json()` |
| AuthService.CallbackResult | src/services/authService.ts:52-102 | a state mismatch fails with the invalid-state error before anything else; otherwise the exchange decides |
| AuthService.HandleCallback | src/services/authService.ts:52-102 | a mismatch sends nothing and writes nothing; a match removes `oauth_state`, sends the token request, and on success saves the tokens restamped; credentials are never touched |
| AgentService.ExecuteRequestFor | src/services/agentService.ts:35-47 | a request exactly when all three settings are truthy: the bearer token only in the header, the prompt and user token only in the body, the URL from account and agent id |
| AgentService.ExecuteAgent | src/services/agentService.ts:21-65 | the missing bearer token is reported first, then the missing ids; otherwise the execution id or the exchange's error |
| AgentService.MisconfiguredSendsNothing | src/services/agentService.ts:24-30 | a misconfigured call fails with a configuration error whatever the endpoint would reply, since no request is made |
| AgentService.GetExecutionStatus | src/services/agentService.ts:67-97 | only the bearer token is checked first; then the status exchange decides |
| AgentService.Classify | src/services/agentService.ts:108-116 | `finished` and `failed` stop the loop and nothing else does; success exactly for `finished` with a truthy answer, which is returned; otherwise "No answer" or "execution failed" |
| AgentService.StatusStep | src/services/agentService.ts:105-116 | a failing status call stops the loop with its error; the loop continues exactly when the call succeeds with a status other than `finished` and `failed` |
| AgentService.Poll | src/services/agentService.ts:99-122 | the reference loop: a spent budget times out with the calls made; otherwise at least one more call is made, and a stopping call decides after it; every successful answer is truthy |
| AgentService.PollSkipsContinues | src/services/agentService.ts:102-119 | polling resumes identically after a run of non-terminal answers |
| AgentService.FirstStopDecides | src/services/agentService.ts:102-119 | the first terminal answer or failed call decides the outcome, after exactly k+1 calls |
| AgentService.NeverTerminalTimesOut | src/services/agentService.ts:121 | with no terminal answer within the budget, the loop times out after exactly `maxAttempts` calls |
| AgentService.PollBounds | src/services/agentService.ts:99-122 | never more than `maxAttempts` status calls; a timeout means exactly that many |
| AgentService.PollUsesOnlyCalledReplies | src/services/agentService.ts:102-119 | the outcome depends only on the replies to calls actually made; nothing is polled after the loop stops |
| AgentService.HelloAfterThreePolls | src/services/agentService.ts:99-122 | two `running` answers, then `finished` with "Hello", return "Hello" after exactly three calls |
| AgentService.PollExecutionUntilComplete | src/services/agentService.ts:99-122 | the loop's outcome and call count are those of `Poll`, within the budget; one `POLL_INTERVAL_MS` wait is recorded before each status call |
| AgentService.ProcessPrompt | src/services/agentService.ts:124-137 | an execute failure is rethrown with no status call; otherwise the default-budget poll decides; at most 300 status calls, each after a one-second wait |
| AuthContext.Reduce | src/contexts/AuthContext.tsx:21-48 | each action's effect on the four fields (loading clears the error; authenticated sets the tokens; an error keeps the session; logout clears all); unknown actions change nothing; the authenticated-iff-tokens invariant is kept |
| AuthContext.ReduceAll | src/contexts/AuthContext.tsx:21-48 | dispatching nothing keeps the state; a run ending in `LOGOUT` ends signed out; a run ending in `SET_AUTHENTICATED` ends authenticated with those tokens, not loading and without error |
| AuthContext.ReduceAllAppend | src/contexts/AuthContext.tsx:21-48 | dispatching two runs of actions is dispatching their concatenation |
| AuthContext.ReduceAllKeepsConsistent | src/contexts/AuthContext.tsx:55-60 | every state reached by dispatching from a consistent one (the initial state) is consistent |
| AuthContext.ErrorKeepsSession | src/contexts/AuthContext.tsx:32-37 | `SET_ERROR` never signs the user out |
| AuthContext.CallbackAction | src/contexts/AuthContext.tsx:95-99 | `SET_AUTHENTICATED` with the tokens on success, otherwise `SET_ERROR` with the message or "Authentication failed" |
| AuthContext.AuthProvider.constructor | src/contexts/AuthContext.tsx:55-60 | the provider starts signed out and loading |
| AuthContext.AuthProvider.Dispatch | src/contexts/AuthContext.tsx:21-48 | the state becomes the reducer's result and stays consistent |
| AuthContext.AuthProvider.Startup | src/contexts/AuthContext.tsx:62-70 | valid stored tokens authenticate the session with the token slot kept; otherwise the slot is cleared and loading ends; starting from the initial state, authenticated iff the stored tokens are valid |
| AuthContext.AuthProvider.Login | src/contexts/AuthContext.tsx:72-75 | the redirect is the authorization request for the given client id and the stored nonce |
| AuthContext.AuthProvider.SignOut | src/contexts/AuthContext.tsx:77-80 | the token slot is cleared, `LOGOUT` is dispatched and the state is signed out |
| AuthContext.AuthProvider.SetManualToken | src/contexts/AuthContext.tsx:82-90 | the token is stored and `SET_AUTHENTICATED` is dispatched with the record the service returned |
| AuthContext.AuthProvider.HandleCallback | src/contexts/AuthContext.tsx:92-101 | `SET_LOADING(true)`, then exactly the callback's success or error action; the promise always resolves; `oauth_state` is removed exactly when the state matched, the tokens are saved exactly on success, and the credential slot is untouched |
| OAuthCallback.Plan | src/components/OAuthCallback.tsx:10-55 | exactly one navigation home, and it is last; `handleCallback` is called iff there is no error, both code and state are present, and the credentials parse; the credentials are removed iff error, missing parameters, or a successful parse; the 3 s delay only after a rejected call |
| OAuthCallback.ErrorTakesPriority | src/components/OAuthCallback.tsx:16-22 | an `error` parameter removes the credentials and goes home, nothing else |
| OAuthCallback.UnparsableCredentialsStay | src/components/OAuthCallback.tsx:46-49 | unparsable credentials are left in place and the user goes home |
| OAuthCallback.RunEffect | src/components/OAuthCallback.tsx:10-55 | the effects are those of the plan with the context's (never rejecting) `handleCallback`; the credential slot and the provider's state change accordingly; when `handleCallback` runs, `oauth_state` is consumed on a match and the tokens are saved on success |
| ChatInterface.IsButtonDisabled | src/components/ChatInterface.tsx:34-35 | disabled iff loading, blank prompt, not authenticated, or no current token |
| ChatInterface.SubmitGuard | src/components/ChatInterface.tsx:40-48 | a blank prompt is refused first, then a missing token; otherwise the untrimmed prompt and the token go ahead |
| ChatInterface.EnabledButtonPassesGuard | src/components/ChatInterface.tsx:35-48 | a submit the enabled button allows always passes both guards |
| ChatInterface.ResponseText | src/components/ChatInterface.tsx:61-69 | a string answer is kept as is, anything else is stringified |
| ChatInterface.IsStructured | src/components/ChatInterface.tsx:77-88 | a structured answer is an object holding truthy `usage`, `proposal` and `suggestions` |
| ChatInterface.ShapeCandidate | src/components/ChatInterface.tsx:75-86 | an object or array answer is its own candidate; anything else is re-read with `JSON.parse` from the response text |
| ChatInterface.StructuredView | src/components/ChatInterface.tsx:72-98 | only values with truthy `usage`, `proposal`, `suggestions` are shown structured; an object answer is its own candidate, an array never is, a string answer is parsed |
| ChatInterface.ScalarAnswerIsPlain | src/components/ChatInterface.tsx:80-86 | a number, boolean, null or array answer is always shown plain |
| ChatInterface.Component.constructor | src/components/ChatInterface.tsx:28-32 | empty prompt, response and error; no parsed response; not loading |
| ChatInterface.Component.HandleSubmit | src/components/ChatInterface.tsx:37-56 | a refused submit sets only the message; otherwise loading starts, error, response and parsed response are cleared and the request carries the prompt and token |
| ChatInterface.Component.Resume | src/components/ChatInterface.tsx:56-104 | a failure sets the error message or "An error occurred"; a success stores the response text and the structured view; loading ends either way |
| AuthButton.ChooseView | src/components/AuthButton.tsx:35-173 | the logged-in view wins, then the OAuth form, then the token form, else the login choice |
| AuthButton.SaveDisabled | src/components/AuthButton.tsx:122 | Save is disabled exactly while the token input is blank |
| AuthButton.OAuthLoginReady | src/components/AuthButton.tsx:25 | OAuth login goes ahead exactly when neither client id nor secret is blank |
| AuthButton.Component.constructor | src/components/AuthButton.tsx:8-12 | both forms hidden, empty inputs, the default client id |
| AuthButton.Component.HandleManualTokenSubmit | src/components/AuthButton.tsx:14-21 | a blank input changes nothing; otherwise the trimmed token is stored, `SET_AUTHENTICATED` makes the context authenticated with it, not loading and without error, the input is cleared and the form hidden; the session slots are untouched |
| AuthButton.Component.HandleOAuthLogin | src/components/AuthButton.tsx:23-33 | only with non-blank id and secret: the trimmed credentials are stored and the login redirect for the trimmed id is returned |
| AuthButton.Component.OpenOAuthForm | src/components/AuthButton.tsx:143-145 | the OAuth form opens unless the context is loading |
| AuthButton.Component.OpenTokenForm | src/components/AuthButton.tsx:166-167 | the token form opens |
| AuthButton.Component.CancelForm | src/components/AuthButton.tsx:94-96 | Cancel hides that form and keeps what was typed |
| AuthButton.Component.LogoutClick | src/components/AuthButton.tsx:41-47 | the logout button signs out, so the logged-in view is gone; the token slot is cleared and `oauth_state` and `oauth_credentials` stay as they were |

## Left out

- Network access, `window.location` redirects, timers and logging are not modelled. The replies are parameters and a redirect is a returned request. The one-second poll wait is recorded as the total `waitedMs`, and the three-second error delay as the `delayMs` of the final navigation; no clock advances.
- When a non-ok response's `response.text()` itself rejects (src/services/authService.ts:79, src/services/agentService.ts:50, 84), the source rethrows that rejection through the `catch` instead of the status error. `HttpOutcome` cannot express this case.
- JavaScript numbers are modelled as unbounded integers. Floating-point `expires_in` arithmetic and `NaN` are not modelled.
- URL encoding and parameter order are left to `URLSearchParams`: a request is its endpoint plus a parameter map.
- The status request's URL (`/agent/{executionId}/status`) and the execution id passed to it are not modelled. The poll takes a reply per call.
- Malformed JSON bodies whose shape differs from the declared types are not modelled. Examples: a status answer without `execution`, or a stored record that is not an `AuthTokens`. Any stored text that does not parse to the record is `Unparsable`.
- Storage write exceptions (quota, private mode) are not modelled, so the `catch` branch of the context's `setManualToken` (`'Invalid token'`) cannot be reached in the model.
- Concurrency and interleaving of React renders are not modelled, and neither are StrictMode's double effects. Each handler runs to completion; `handleSubmit` is split at its `await` into `HandleSubmit` and `Resume`.
- The redirect page's effect depends on `[handleCallback, navigate]` (src/components/OAuthCallback.tsx:55), and `handleCallback` is a new function on every provider render (src/contexts/AuthContext.tsx:92). So after `SET_LOADING(true)` the effect runs again. That second run finds the credentials already removed and navigates home at once (src/components/OAuthCallback.tsx:26-30), before the exchange settles. `OAuthCallback.RunEffect` models one run only.
- The app as wired does not reach the redirect page or the context. `App.tsx` routes every path to `ChatInterface` and has no `/oauth/callback` route (src/App.tsx:6-9), and `main.tsx` does not wrap `App` in `AuthProvider` (src/main.tsx:12-18). The model composes the components as their code intends.
- Rendering (JSX, CSS, `UsageChart`, `AuthInstructions`, the markdown view), `main.tsx`, `App.tsx` routing and `vite.config.ts` are not part of this model.
- ChatInterface.StructuredView: for a non-string answer, `JSON.parse` is modelled as any function of the stringified text. `ScalarAnswerIsPlain` therefore assumes the round trip itself.
