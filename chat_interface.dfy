/** The decision logic of `src/components/ChatInterface.tsx`: when the submit
    button is disabled, how a submit is validated, which state it resets
    before the request, and how the agent's answer is stored and sorted into
    a structured (usage, proposal, suggestions) or a plain markdown view.
    `JSON.stringify` and `JSON.parse` are parameters. */
module ChatInterface {
  import opened Common
  import opened Text

  const PROMPT_REQUIRED := "Please enter a prompt"
  const AUTH_REQUIRED := "Please authenticate first"
  const FALLBACK_ERROR := "An error occurred"

  /** `isButtonDisabled`. */
  function IsButtonDisabled(isLoading: bool, prompt: string, isAuthenticated: bool, authToken: Option<string>): (d: bool)
    ensures d <==> isLoading || Blank(prompt) || !isAuthenticated || !Present(authToken)
  {
    isLoading || Trim(prompt) == "" || !isAuthenticated || !Present(authToken)
  }

  /** What `handleSubmit` does before the request: refuse with a message, or
      go ahead with the prompt (as typed, not trimmed) and the token. */
  datatype Guard = Refuse(message: string) | Proceed(prompt: string, authToken: string)

  /** The two checks of `handleSubmit`, the prompt first. */
  function SubmitGuard(prompt: string, authToken: Option<string>): (g: Guard)
    ensures g.Refuse? <==> Blank(prompt) || !Present(authToken)
    ensures Blank(prompt) ==> g == Refuse(PROMPT_REQUIRED)
    ensures !Blank(prompt) && !Present(authToken) ==> g == Refuse(AUTH_REQUIRED)
    ensures g.Proceed? ==> g.prompt == prompt && g.authToken == authToken.value
  {
    if Trim(prompt) == "" then Refuse(PROMPT_REQUIRED)
    else if !Present(authToken) then Refuse(AUTH_REQUIRED)
    else Proceed(prompt, authToken.value)
  }

  /** A submit the enabled button allows always passes both checks. */
  lemma EnabledButtonPassesGuard(isLoading: bool, prompt: string, isAuthenticated: bool, authToken: Option<string>)
    requires !IsButtonDisabled(isLoading, prompt, isAuthenticated, authToken)
    ensures SubmitGuard(prompt, authToken).Proceed?
  {
  }

  /** The text stored as `response`: a string answer as it is, anything
      else as its JSON text. */
  function ResponseText(result: Json, stringify: Json -> string): (s: string)
    ensures result.JStr? ==> s == result.s
    ensures !result.JStr? ==> s == stringify(result)
  {
    if result.JStr? then result.s else stringify(result)
  }

  /** The answer has the structured shape: an object whose `usage`,
      `proposal` and `suggestions` are all present and truthy. */
  predicate IsStructured(v: Json): (b: bool)
    ensures b ==> v.JObj? && {"usage", "proposal", "suggestions"} <= v.fields.Keys
    ensures b ==> Truthy(v.fields["usage"]) && Truthy(v.fields["proposal"]) && Truthy(v.fields["suggestions"])
  {
    && v.JObj?
    && "usage" in v.fields && Truthy(v.fields["usage"])
    && "proposal" in v.fields && Truthy(v.fields["proposal"])
    && "suggestions" in v.fields && Truthy(v.fields["suggestions"])
  }

  /** The value the shape test looks at: an object or array answer as it
      is, anything else re-read from the response text (`None` when
      `JSON.parse` throws). */
  function ShapeCandidate(result: Json, responseText: string, parse: string -> Option<Json>): (c: Option<Json>)
    ensures result.JObj? || result.JArr? ==> c == Some(result)
    ensures !(result.JObj? || result.JArr?) ==> c == parse(responseText)
  {
    if result.JObj? || result.JArr? then Some(result) else parse(responseText)
  }

  /** `parsedResponse` after a successful request: the structured value, or
      `None` for the plain view (also when parsing throws). */
  function StructuredView(result: Json, stringify: Json -> string, parse: string -> Option<Json>): (p: Option<Json>)
    ensures p.Some? ==> IsStructured(p.value)
    ensures result.JObj? ==> p == (if IsStructured(result) then Some(result) else None)
    ensures result.JArr? ==> p.None?
    ensures result.JStr? ==>
              p == (if parse(result.s).Some? && IsStructured(parse(result.s).value) then parse(result.s) else None)
  {
    var candidate := ShapeCandidate(result, ResponseText(result, stringify), parse);
    if candidate.Some? && IsStructured(candidate.value) then candidate else None
  }

  /** An answer that is neither a string nor an object (a number, a boolean,
      `null`, an array) is shown plain, whenever `JSON.parse` reads back what
      `JSON.stringify` wrote. */
  lemma ScalarAnswerIsPlain(result: Json, stringify: Json -> string, parse: string -> Option<Json>)
    requires !result.JStr? && !result.JObj?
    requires parse(stringify(result)) == Some(result)
    ensures StructuredView(result, stringify, parse).None?
  {
  }

  /** The component's state. */
  class Component {
    var prompt: string
    var response: string
    var parsedResponse: Option<Json>
    var isLoading: bool
    var error: string

    constructor ()
      ensures prompt == "" && response == "" && parsedResponse.None? && !isLoading && error == ""
    {
      prompt, response, parsedResponse, isLoading, error := "", "", None, false, "";
    }

    /** `handleSubmit` up to its `await`: a refused submit only sets the
        message; otherwise loading starts, the error, response and parsed
        response are cleared, and the request to `processPrompt` is returned. */
    method HandleSubmit(authToken: Option<string>) returns (request: Option<(string, string)>)
      modifies this
      ensures prompt == old(prompt)
      ensures SubmitGuard(old(prompt), authToken).Refuse? ==>
                && request.None?
                && error == SubmitGuard(old(prompt), authToken).message
                && response == old(response) && parsedResponse == old(parsedResponse) && isLoading == old(isLoading)
      ensures SubmitGuard(old(prompt), authToken).Proceed? ==>
                && request == Some((old(prompt), authToken.value))
                && isLoading && error == "" && response == "" && parsedResponse.None?
    {
      match SubmitGuard(prompt, authToken)
      case Refuse(message) =>
        error := message;
        request := None;
      case Proceed(p, token) =>
        isLoading := true;
        error := "";
        response := "";
        parsedResponse := None;
        request := Some((p, token));
    }

    /** `handleSubmit` after its `await`, given how `processPrompt` settled.
        A failure sets the error message; a success stores the response text
        and the structured view, leaving the (cleared) error alone. Loading
        ends either way. */
    method Resume(outcome: Result<Json, Error>, stringify: Json -> string, parse: string -> Option<Json>)
      modifies this
      ensures !isLoading && prompt == old(prompt)
      ensures outcome.Failure? ==>
                && error == MessageOr(outcome.error, FALLBACK_ERROR)
                && response == old(response) && parsedResponse == old(parsedResponse)
      ensures outcome.Success? ==>
                && error == old(error)
                && response == ResponseText(outcome.value, stringify)
                && parsedResponse == StructuredView(outcome.value, stringify, parse)
    {
      match outcome {
        case Failure(e) =>
          error := MessageOr(e, FALLBACK_ERROR);
        case Success(result) =>
          var responseString := ResponseText(result, stringify);
          response := responseString;
          var candidate := ShapeCandidate(result, responseString, parse);
          if candidate.Some? && IsStructured(candidate.value) {
            parsedResponse := candidate;
          } else {
            parsedResponse := None;
          }
      }
      isLoading := false;
    }
  }
}
