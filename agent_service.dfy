/** The execution client of `src/services/agentService.ts`: submit one prompt
    to the agent's execute endpoint, then poll its status endpoint until a
    terminal status or until the attempts run out. The deployment settings
    are a `Config`; the replies of the remote endpoints are parameters, the
    status replies an oracle indexed by the number of the status call. */
module AgentService {
  import opened Common

  const API_BASE_URL := "https://beta-cloud.integrail.ai/api"
  /** The default `maxAttempts` of the poll loop, used by `processPrompt`. */
  const MAX_ATTEMPTS := 300
  /** The wait before each status call, in milliseconds. */
  const POLL_INTERVAL_MS := 1000

  /** The build-time settings `VITE_INTEGRAIL_BEARER_TOKEN`,
      `VITE_INTEGRAIL_ACCOUNT_ID` and `VITE_INTEGRAIL_AGENT_ID`. */
  datatype Config = Config(bearerToken: Option<string>, accountId: Option<string>, agentId: Option<string>)

  /** The execute request: the service credential only in the header, the
      user's prompt and token only in the body `{inputs: {userPrompt, authToken}}`. */
  datatype ExecuteRequest = ExecuteRequest(
    url: string,
    authorization: string,
    userPrompt: string,
    authToken: string)

  /** The execute endpoint's answer `{executionId}`. */
  datatype ExecutionStarted = ExecutionStarted(executionId: string)

  /** `execution` of a status answer; `answer` is `outputs?.answer`. */
  datatype Execution = Execution(id: string, status: string, answer: Option<Json>)

  /** The status endpoint's answer `{status, execution}`. */
  datatype StatusResponse = StatusResponse(status: string, execution: Execution)

  /** The status replies, one per status call, numbered from 0. */
  type StatusOracle = nat -> HttpOutcome<StatusResponse>

  /** The execute request `executeAgent` sends, or `None` when the
      configuration stops it before any request. */
  function ExecuteRequestFor(cfg: Config, userPrompt: string, authToken: string): (r: Option<ExecuteRequest>)
    ensures r.Some? <==> Present(cfg.bearerToken) && Present(cfg.accountId) && Present(cfg.agentId)
    ensures r.Some? ==>
              && r.value.authorization == "Bearer " + cfg.bearerToken.value
              && r.value.userPrompt == userPrompt
              && r.value.authToken == authToken
              && r.value.url == API_BASE_URL + "/" + cfg.accountId.value + "/agent/" + cfg.agentId.value + "/execute"
  {
    if !Present(cfg.bearerToken) || !Present(cfg.accountId) || !Present(cfg.agentId) then None
    else
      Some(ExecuteRequest(
        API_BASE_URL + "/" + cfg.accountId.value + "/agent/" + cfg.agentId.value + "/execute",
        "Bearer " + cfg.bearerToken.value,
        userPrompt,
        authToken))
  }

  /** `executeAgent`: the execution id, or the error it throws. A missing
      bearer token is reported before missing identifiers, and either one
      stops the call before the request, so the reply plays no part. */
  function ExecuteAgent(cfg: Config, userPrompt: string, authToken: string, reply: HttpOutcome<ExecutionStarted>)
    : (r: Result<string, Error>)
    ensures !Present(cfg.bearerToken) ==> r == Failure(NotConfigured(BearerToken))
    ensures Present(cfg.bearerToken) && !(Present(cfg.accountId) && Present(cfg.agentId)) ==>
              r == Failure(NotConfigured(AccountOrAgentId))
    ensures ExecuteRequestFor(cfg, userPrompt, authToken).Some? ==>
              match Exchange(Execute, reply)
              case Success(started) => r == Success(started.executionId)
              case Failure(e) => r == Failure(e)
  {
    if !Present(cfg.bearerToken) then Failure(NotConfigured(BearerToken))
    else if !Present(cfg.accountId) || !Present(cfg.agentId) then Failure(NotConfigured(AccountOrAgentId))
    else
      match Exchange(Execute, reply)
      case Success(started) => Success(started.executionId)
      case Failure(e) => Failure(e)
  }

  /** A configuration that stops the execute request makes the outcome the
      same whatever the endpoint would have replied: no request was made. */
  lemma MisconfiguredSendsNothing(cfg: Config, userPrompt: string, authToken: string,
                                  r1: HttpOutcome<ExecutionStarted>, r2: HttpOutcome<ExecutionStarted>)
    requires ExecuteRequestFor(cfg, userPrompt, authToken).None?
    ensures ExecuteAgent(cfg, userPrompt, authToken, r1) == ExecuteAgent(cfg, userPrompt, authToken, r2)
    ensures ExecuteAgent(cfg, userPrompt, authToken, r1).Failure?
    ensures ExecuteAgent(cfg, userPrompt, authToken, r1).error.NotConfigured?
  {
  }

  /** `getExecutionStatus`: the status answer, or the error it throws. Only
      the bearer token is checked before the request. */
  function GetExecutionStatus(cfg: Config, reply: HttpOutcome<StatusResponse>): (r: Result<StatusResponse, Error>)
    ensures !Present(cfg.bearerToken) ==> r == Failure(NotConfigured(BearerToken))
    ensures Present(cfg.bearerToken) ==> r == Exchange(Status, reply)
  {
    if !Present(cfg.bearerToken) then Failure(NotConfigured(BearerToken))
    else Exchange(Status, reply)
  }

  /** What one loop iteration decides from a status answer. */
  datatype Step = Continue | Stop(outcome: Result<Json, Error>)

  /** `finished` stops with the answer when it is truthy and with "No answer"
      otherwise, `failed` stops with a failure, any other status continues. */
  function Classify(e: Execution): (s: Step)
    ensures s.Stop? <==> e.status == "finished" || e.status == "failed"
    ensures s.Stop? && s.outcome.Success? <==>
              e.status == "finished" && e.answer.Some? && Truthy(e.answer.value)
    ensures s.Stop? && s.outcome.Success? ==> s.outcome.value == e.answer.value
    ensures s.Stop? && s.outcome.Failure? ==>
              s.outcome.error == (if e.status == "failed" then ExecutionFailed else NoAnswer)
  {
    if e.status == "finished" then
      if e.answer.Some? && Truthy(e.answer.value) then Stop(Success(e.answer.value))
      else Stop(Failure(NoAnswer))
    else if e.status == "failed" then Stop(Failure(ExecutionFailed))
    else Continue
  }

  /** The effect of status call number `i`: a failing call stops the loop
      with its error, a successful one is classified. */
  function StatusStep(cfg: Config, replies: StatusOracle, i: nat): (s: Step)
    ensures GetExecutionStatus(cfg, replies(i)).Failure? ==>
              s == Stop(Failure(GetExecutionStatus(cfg, replies(i)).error))
    ensures s.Continue? <==>
              && GetExecutionStatus(cfg, replies(i)).Success?
              && GetExecutionStatus(cfg, replies(i)).value.execution.status != "finished"
              && GetExecutionStatus(cfg, replies(i)).value.execution.status != "failed"
  {
    match GetExecutionStatus(cfg, replies(i))
    case Failure(e) => Stop(Failure(e))
    case Success(response) => Classify(response.execution)
  }

  /** The poll loop from `attempts` calls already made: its outcome and the
      total number of status calls. */
  function Poll(cfg: Config, replies: StatusOracle, maxAttempts: int, attempts: nat): (r: (Result<Json, Error>, nat))
    ensures attempts >= maxAttempts ==> r == (Failure(Timeout), attempts)
    ensures attempts < maxAttempts ==> attempts < r.1
    ensures attempts < maxAttempts && StatusStep(cfg, replies, attempts).Stop? ==>
              r == (StatusStep(cfg, replies, attempts).outcome, attempts + 1)
    ensures r.0.Success? ==> Truthy(r.0.value)
    decreases maxAttempts - attempts
  {
    if attempts >= maxAttempts then (Failure(Timeout), attempts)
    else
      match StatusStep(cfg, replies, attempts)
      case Stop(outcome) => (outcome, attempts + 1)
      case Continue => Poll(cfg, replies, maxAttempts, attempts + 1)
  }

  /** Every status call before `k` continued the loop. */
  ghost predicate AllContinue(cfg: Config, replies: StatusOracle, k: nat) {
    forall i: nat :: i < k ==> StatusStep(cfg, replies, i) == Continue
  }

  /** After calls `j .. k-1` all continue, polling from `j` is polling from `k`. */
  lemma {:induction false} PollSkipsContinues(cfg: Config, replies: StatusOracle, maxAttempts: int, j: nat, k: nat)
    requires j <= k <= maxAttempts || j <= k == 0
    requires AllContinue(cfg, replies, k)
    ensures Poll(cfg, replies, maxAttempts, j) == Poll(cfg, replies, maxAttempts, k)
    decreases k - j
  {
    if j < k {
      PollSkipsContinues(cfg, replies, maxAttempts, j + 1, k);
    }
  }

  /** The loop ends at the first status call that stops it: its outcome is
      returned (the answer of the first `finished` status with a truthy
      answer, "No answer" or the failure), after exactly `k + 1` calls. */
  lemma FirstStopDecides(cfg: Config, replies: StatusOracle, maxAttempts: int, k: nat)
    requires k < maxAttempts
    requires AllContinue(cfg, replies, k)
    requires StatusStep(cfg, replies, k).Stop?
    ensures Poll(cfg, replies, maxAttempts, 0) == (StatusStep(cfg, replies, k).outcome, k + 1)
  {
    PollSkipsContinues(cfg, replies, maxAttempts, 0, k);
  }

  /** When no status call within the budget stops the loop, it times out
      after exactly `maxAttempts` calls (zero calls when `maxAttempts <= 0`). */
  lemma NeverTerminalTimesOut(cfg: Config, replies: StatusOracle, maxAttempts: int)
    requires maxAttempts <= 0 || AllContinue(cfg, replies, maxAttempts as nat)
    ensures Poll(cfg, replies, maxAttempts, 0) == (Failure(Timeout), if maxAttempts <= 0 then 0 else maxAttempts as nat)
  {
    if maxAttempts > 0 {
      PollSkipsContinues(cfg, replies, maxAttempts, 0, maxAttempts as nat);
    }
  }

  /** The loop never makes more than `maxAttempts` calls, and a timeout means
      it made exactly that many. */
  lemma {:induction false} PollBounds(cfg: Config, replies: StatusOracle, maxAttempts: int, j: nat)
    requires j <= maxAttempts || j == 0
    ensures var (outcome, calls) := Poll(cfg, replies, maxAttempts, j);
            && j <= calls
            && (calls <= maxAttempts || calls == 0)
            && (outcome == Failure(Timeout) ==> calls == (if maxAttempts <= 0 then 0 else maxAttempts as nat))
    decreases maxAttempts - j
  {
    if j < maxAttempts && StatusStep(cfg, replies, j).Continue? {
      PollBounds(cfg, replies, maxAttempts, j + 1);
    }
  }

  /** The outcome depends only on the replies to the calls actually made:
      no status call is made after the loop has stopped. */
  lemma {:induction false} PollUsesOnlyCalledReplies(cfg: Config, r1: StatusOracle, r2: StatusOracle, maxAttempts: int, j: nat)
    requires forall i: nat :: j <= i < Poll(cfg, r1, maxAttempts, j).1 ==> r1(i) == r2(i)
    ensures Poll(cfg, r1, maxAttempts, j) == Poll(cfg, r2, maxAttempts, j)
    decreases maxAttempts - j
  {
    if j < maxAttempts {
      assert r1(j) == r2(j) by {
        PollBounds(cfg, r1, maxAttempts, j + 1);
      }
      if StatusStep(cfg, r1, j).Continue? {
        PollUsesOnlyCalledReplies(cfg, r1, r2, maxAttempts, j + 1);
      }
    }
  }

  /** `pollExecutionUntilComplete`: the loop, waiting `POLL_INTERVAL_MS`
      before each status call. Returns the outcome, the number of status
      calls made and the total time waited. */
  method PollExecutionUntilComplete(cfg: Config, replies: StatusOracle, maxAttempts: int)
    returns (outcome: Result<Json, Error>, calls: nat, waitedMs: nat)
    ensures (outcome, calls) == Poll(cfg, replies, maxAttempts, 0)
    ensures calls <= maxAttempts || calls == 0
    ensures waitedMs == calls * POLL_INTERVAL_MS
  {
    var attempts: nat := 0;
    waitedMs := 0;
    while attempts < maxAttempts
      invariant attempts <= maxAttempts || attempts == 0
      invariant Poll(cfg, replies, maxAttempts, 0) == Poll(cfg, replies, maxAttempts, attempts)
      invariant waitedMs == attempts * POLL_INTERVAL_MS
      decreases maxAttempts - attempts
    {
      waitedMs := waitedMs + POLL_INTERVAL_MS;
      var statusResponse := GetExecutionStatus(cfg, replies(attempts));
      if statusResponse.Failure? {
        return Failure(statusResponse.error), attempts + 1, waitedMs;
      }
      var execution := statusResponse.value.execution;
      if execution.status == "finished" {
        if execution.answer.Some? && Truthy(execution.answer.value) {
          return Success(execution.answer.value), attempts + 1, waitedMs;
        } else {
          return Failure(NoAnswer), attempts + 1, waitedMs;
        }
      } else if execution.status == "failed" {
        return Failure(ExecutionFailed), attempts + 1, waitedMs;
      }
      attempts := attempts + 1;
    }
    outcome, calls := Failure(Timeout), attempts;
  }

  /** `processPrompt`: `executeAgent`, then the loop with the default budget;
      any error is rethrown as it is. Returns the execute request sent, the
      outcome and the number of status calls. */
  method ProcessPrompt(cfg: Config, userPrompt: string, authToken: string,
                       executeReply: HttpOutcome<ExecutionStarted>, replies: StatusOracle)
    returns (sent: Option<ExecuteRequest>, outcome: Result<Json, Error>, calls: nat, waitedMs: nat)
    ensures sent == ExecuteRequestFor(cfg, userPrompt, authToken)
    ensures waitedMs == calls * POLL_INTERVAL_MS
    ensures ExecuteAgent(cfg, userPrompt, authToken, executeReply).Failure? ==>
              outcome == Failure(ExecuteAgent(cfg, userPrompt, authToken, executeReply).error) && calls == 0
    ensures ExecuteAgent(cfg, userPrompt, authToken, executeReply).Success? ==>
              (outcome, calls) == Poll(cfg, replies, MAX_ATTEMPTS, 0)
    ensures calls <= MAX_ATTEMPTS
  {
    sent := ExecuteRequestFor(cfg, userPrompt, authToken);
    var executionId := ExecuteAgent(cfg, userPrompt, authToken, executeReply);
    if executionId.Failure? {
      return sent, Failure(executionId.error), 0, 0;
    }
    outcome, calls, waitedMs := PollExecutionUntilComplete(cfg, replies, MAX_ATTEMPTS);
  }

  /** The scenario of one execution: two `running` answers, then `finished`
      with answer "Hello"; the loop returns "Hello" after exactly 3 calls. */
  lemma HelloAfterThreePolls(cfg: Config)
    requires Present(cfg.bearerToken)
    ensures var replies: StatusOracle := i =>
              Received(200, "OK", Success(StatusResponse("success",
                Execution("exec-1", if i < 2 then "running" else "finished",
                          if i < 2 then None else Some(JStr("Hello"))))));
            Poll(cfg, replies, MAX_ATTEMPTS, 0) == (Success(JStr("Hello")), 3)
  {
    var replies: StatusOracle := i =>
      Received(200, "OK", Success(StatusResponse("success",
        Execution("exec-1", if i < 2 then "running" else "finished",
                  if i < 2 then None else Some(JStr("Hello"))))));
    assert StatusStep(cfg, replies, 0) == Continue;
    assert StatusStep(cfg, replies, 1) == Continue;
    FirstStopDecides(cfg, replies, MAX_ATTEMPTS, 2);
  }
}
