/** The decisions the submit-signing-request task takes, and the effects of
    each of its steps, as functions of the action's inputs and of what the
    connector, the API and the clock answer. */
module TaskSteps {
  import opened Wrappers
  import opened Effects
  import opened Http
  import opened Dtos
  import opened UrlText
  import opened Utils
  import opened DecimalParseInt
  import opened SignPathUrls

  const MaxWaitingTimeForSigningRequestCompletionMs := 1000 * 60 * 60
  const MinDelayBetweenSigningRequestStatusChecksMs := 1000 * 60
  const MaxDelayBetweenSigningRequestStatusChecksMs := 1000 * 60 * 20

  /** The inputs of the action, as `core.getInput` returns them. */
  datatype Inputs = Inputs(
    connectorUrl: string,                   // connector-url
    artifactName: string,                   // artifact-name
    signedArtifactDestinationPath: string,  // signed-artifact-destination-path
    organizationId: string,                 // organization-id
    apiToken: string,                       // api-token
    projectSlug: string,                    // project-slug
    gitHubToken: string,                    // github-token
    signingPolicySlug: string,              // signing-policy-slug
    artifactConfigurationSlug: string)      // artifact-configuration-slug

  /** The workflow's environment variables the payload carries. */
  datatype Environment = Environment(
    gitHubApiUrl: Option<string>,           // GITHUB_API_URL
    gitHubWorkflowRef: Option<string>,      // GITHUB_WORKFLOW_REF
    gitHubWorkflowSha: Option<string>,      // GITHUB_WORKFLOW_SHA
    gitHubRunId: Option<string>,            // GITHUB_RUN_ID
    gitHubRunAttempt: Option<string>,       // GITHUB_RUN_ATTEMPT
    gitHubRepository: Option<string>,       // GITHUB_REPOSITORY
    actionsRuntimeUrl: Option<string>,      // ACTIONS_RUNTIME_URL
    actionsRuntimeToken: Option<string>)    // ACTIONS_RUNTIME_TOKEN

  /** What the outside world answers during one run: the connector's answer
      to the submit, the API's answer to each status request in turn, the
      clock readings of the retry loop, the outcome of the artifact
      download, and Node's `url.parse`. */
  datatype World = World(
    submitResponse: Result<SubmitSigningRequestResult, HttpError>,
    statusResponses: seq<Result<SigningRequestDto, HttpError>>,
    clock: seq<int>,
    downloadError: Option<string>,
    urlParse: string -> UrlParts)

  /** `moment.utc(ms).format("hh:mm")`: the hour on a 12-hour clock and the
      minute of the UTC time of day. */
  function ClockTimeText(ms: nat): (t: string)
    ensures |t| == 5 && t[2] == ':'
  {
    var minuteOfDay := ms / 60000 % 1440;
    var hour := minuteOfDay / 60 % 12;
    var h := if hour == 0 then 12 else hour;
    [DigitChar(h / 10), DigitChar(h % 10), ':', DigitChar(minuteOfDay % 60 / 10), DigitChar(minuteOfDay % 60 % 10)]
  }

  lemma MaxWaitingTimeText()
    ensures ClockTimeText(MaxWaitingTimeForSigningRequestCompletionMs) == "01:00"
  {
  }

  // ---------------------------------------------------------------------
  // Submit

  function SubmitPayloadOf(inputs: Inputs, env: Environment): SubmitPayload
  {
    SubmitPayload(
      inputs.apiToken, inputs.artifactName,
      env.gitHubApiUrl, env.gitHubWorkflowRef, env.gitHubWorkflowSha, env.gitHubRunId,
      env.gitHubRunAttempt, env.gitHubRepository, inputs.gitHubToken,
      env.actionsRuntimeUrl, env.actionsRuntimeToken,
      inputs.organizationId, inputs.projectSlug, inputs.signingPolicySlug,
      inputs.artifactConfigurationSlug)
  }

  /** The inputs reach the connector under the payload's own names. */
  lemma PayloadCarriesInputs(inputs: Inputs, env: Environment)
    ensures var p := SubmitPayloadOf(inputs, env);
      && p.apiToken == inputs.apiToken
      && p.signPathOrganizationId == inputs.organizationId
      && p.artifactName == inputs.artifactName
      && p.signPathProjectSlug == inputs.projectSlug
      && p.signPathSigningPolicySlug == inputs.signingPolicySlug
      && p.gitHubToken == inputs.gitHubToken
      && p.signPathArtifactConfigurationSlug == inputs.artifactConfigurationSlug
  {
  }

  /** The text a failed submit call fails with: a truthy string body as it
      is, and otherwise the transport's message. */
  function SubmitFailureText(err: HttpError): (r: string)
    ensures HasStringBody(err) ==> r == err.response.value.text
    ensures !HasStringBody(err) ==> r == err.message
  {
    if HasStringBody(err) then err.response.value.text else err.message
  }

  /** It agrees with `httpErrorResponseToText` except on object bodies,
      which the submit does not turn into JSON text. */
  lemma SubmitFailureTextAgrees(err: HttpError)
    ensures SubmitFailureText(err) == HttpErrorResponseToText(err)
         || (HasTruthyBody(err) && err.response.value.Obj?)
  {
  }

  predicate HasValidationErrors(r: SubmitSigningRequestResult)
  {
    r.validationResult.Some? && |r.validationResult.value.errors| > 0
  }

  datatype SubmitVerdict =
    | ConnectorError(message: string)
    | ValidationFailed(errors: seq<ValidationError>)
    | NotCreated
    | Created(signingRequestId: string, signingRequestUrl: Option<string>)

  /** The connector's answer, examined in order: its error, then the
      validation errors, then the presence of a request id. */
  function ClassifySubmitResponse(r: SubmitSigningRequestResult): (v: SubmitVerdict)
    ensures v.ConnectorError? <==> TruthyText(r.error)
    ensures v.ConnectorError? ==> v.message == r.error.value
    ensures v.ValidationFailed? <==> !TruthyText(r.error) && HasValidationErrors(r)
    ensures v.ValidationFailed? ==> v.errors == r.validationResult.value.errors
    ensures v.NotCreated? <==> !TruthyText(r.error) && !HasValidationErrors(r) && !TruthyText(r.signingRequestId)
    ensures v.Created? <==> !TruthyText(r.error) && !HasValidationErrors(r) && TruthyText(r.signingRequestId)
    ensures v.Created? ==> v.signingRequestId == r.signingRequestId.value && v.signingRequestUrl == r.signingRequestUrl
  {
    if TruthyText(r.error) then ConnectorError(r.error.value)
    else if HasValidationErrors(r) then ValidationFailed(r.validationResult.value.errors)
    else if !TruthyText(r.signingRequestId) then NotCreated
    else Created(r.signingRequestId.value, r.signingRequestUrl)
  }

  /** An empty list of validation errors does not fail the submit by itself. */
  lemma EmptyValidationResultPasses(r: SubmitSigningRequestResult)
    requires !TruthyText(r.error) && TruthyText(r.signingRequestId)
    requires r.validationResult == Some(ValidationResult([]))
    ensures ClassifySubmitResponse(r) == Created(r.signingRequestId.value, r.signingRequestUrl)
  {
  }

  /** The log lines of one validation error: the error, then its remedy
      when there is one. */
  function ValidationErrorLog(e: ValidationError): seq<Event>
  {
    [CoreError(ValidationErrorLine(e.error))] + (if TruthyText(e.howToFix) then [CoreInfo(Verbatim(e.howToFix.value))] else [])
  }

  function ValidationLog(errors: seq<ValidationError>): seq<Event>
  {
    if errors == [] then []
    else ValidationLog(errors[..|errors| - 1]) + ValidationErrorLog(errors[|errors| - 1])
  }

  /** The remedies given, in order. */
  function Remedies(errors: seq<ValidationError>): seq<Message>
  {
    if errors == [] then []
    else
      var e := errors[|errors| - 1];
      Remedies(errors[..|errors| - 1]) + (if TruthyText(e.howToFix) then [Verbatim(e.howToFix.value)] else [])
  }

  /** The messages of the `core.error` lines of a trace, in order. */
  function ErrorLines(trace: seq<Event>): seq<Message>
  {
    if trace == [] then []
    else
      var e := trace[|trace| - 1];
      ErrorLines(trace[..|trace| - 1]) + (if e.CoreError? then [e.message] else [])
  }

  /** The messages of the `core.info` lines of a trace, in order. */
  function InfoLines(trace: seq<Event>): seq<Message>
  {
    if trace == [] then []
    else
      var e := trace[|trace| - 1];
      InfoLines(trace[..|trace| - 1]) + (if e.CoreInfo? then [e.message] else [])
  }

  lemma {:induction false} LinesAppend(a: seq<Event>, b: seq<Event>)
    ensures ErrorLines(a + b) == ErrorLines(a) + ErrorLines(b)
    ensures InfoLines(a + b) == InfoLines(a) + InfoLines(b)
  {
    if b == [] {
      assert a + b == a;
    } else {
      assert (a + b)[..|a + b| - 1] == a + b[..|b| - 1];
      LinesAppend(a, b[..|b| - 1]);
    }
  }

  lemma ErrorLogLines(e: ValidationError)
    ensures ErrorLines(ValidationErrorLog(e)) == [ValidationErrorLine(e.error)]
    ensures InfoLines(ValidationErrorLog(e)) == (if TruthyText(e.howToFix) then [Verbatim(e.howToFix.value)] else [])
  {
    var first := [CoreError(ValidationErrorLine(e.error))];
    assert first[..0] == [];
    assert ErrorLines(first) == [ValidationErrorLine(e.error)];
    assert InfoLines(first) == [];
    if TruthyText(e.howToFix) {
      var log := first + [CoreInfo(Verbatim(e.howToFix.value))];
      assert ValidationErrorLog(e) == log;
      assert log[..1] == first;
      assert ErrorLines(log) == ErrorLines(first);
      assert InfoLines(log) == InfoLines(first) + [Verbatim(e.howToFix.value)];
    } else {
      assert ValidationErrorLog(e) == first;
    }
  }

  /** Every validation error is logged at error level, in order, and every
      remedy given at info level; absent or empty remedies are skipped. */
  lemma {:induction false} ValidationLogLines(errors: seq<ValidationError>)
    ensures |ErrorLines(ValidationLog(errors))| == |errors|
    ensures forall i | 0 <= i < |errors| :: ErrorLines(ValidationLog(errors))[i] == ValidationErrorLine(errors[i].error)
    ensures InfoLines(ValidationLog(errors)) == Remedies(errors)
  {
    if errors != [] {
      var init, last := errors[..|errors| - 1], errors[|errors| - 1];
      ValidationLogLines(init);
      LinesAppend(ValidationLog(init), ValidationErrorLog(last));
      ErrorLogLines(last);
      var lines := ErrorLines(ValidationLog(init));
      assert ErrorLines(ValidationLog(errors)) == lines + [ValidationErrorLine(last.error)];
      forall i | 0 <= i < |errors|
        ensures ErrorLines(ValidationLog(errors))[i] == ValidationErrorLine(errors[i].error)
      {
        if i < |init| {
          assert errors[i] == init[i] && (lines + [ValidationErrorLine(last.error)])[i] == lines[i];
        }
      }
    }
  }

  /** The validation log has no `setFailed` in it. */
  lemma {:induction false} ValidationLogNoFailure(errors: seq<ValidationError>)
    ensures NoFailure(ValidationLog(errors))
  {
    if errors != [] {
      var init, last := errors[..|errors| - 1], errors[|errors| - 1];
      ValidationLogNoFailure(init);
      NoFailureAppend(ValidationLog(init), ValidationErrorLog(last));
    }
  }

  /** `protocol + '//' + host` of the parsed request URL. */
  function DeriveBaseUrl(parts: UrlParts): string
  {
    parts.protocol + "//" + parts.host
  }

  /** For a URL scheme://host/..., the derived base is scheme://host. */
  lemma DeriveBaseUrlOf(scheme: string, host: string, path: string)
    requires IsModelledScheme(scheme) && IsModelledHostname(host)
    requires path == [] || path[0] == '/'
    ensures ParseUrl(scheme + "://" + host + path).Some?
    ensures DeriveBaseUrl(ParseUrl(scheme + "://" + host + path).value) == scheme + "://" + host
  {
    ParseUrlOf(scheme, host, path);
  }

  /** The request URL of the tests, https://domain/api/SigningRequests,
      gives https://domain/API as API URL. */
  lemma DerivedApiUrlOfTestUrl()
    ensures ParseUrl("https" + "://" + "domain" + "/api/SigningRequests").Some?
    ensures DeriveBaseUrl(ParseUrl("https" + "://" + "domain" + "/api/SigningRequests").value) + "/API"
         == "https" + "://" + "domain" + "/API"
  {
    assert IsModelledScheme("https");
    assert IsModelledHostname("domain");
    DeriveBaseUrlOf("https", "domain", "/api/SigningRequests");
  }

  /** Node's `url.parse`, as far as it is modelled: any supplied parser
      that agrees with `ParseUrl` wherever that is defined. */
  ghost predicate AgreesWithParseUrl(urlParse: string -> UrlParts)
  {
    forall u :: ParseUrl(u).Some? ==> urlParse(u) == ParseUrl(u).value
  }

  function CreatedEvents(signingRequestId: string, signingRequestUrl: string, baseUrl: string): seq<Event>
  {
    [ CoreInfo(RequestSubmitted),
      CoreInfo(RequestIdIs(signingRequestId)),
      CoreInfo(RequestViewAt(signingRequestUrl)),
      SetOutput(SigningRequestIdOutput, signingRequestId),
      SetOutput(SigningRequestWebUrlOutput, signingRequestUrl),
      SetOutput(SignPathApiUrlOutput, baseUrl + "/API") ]
  }

  /** The effects and the result of the submit step, and the base URL it
      derives when the request was created. */
  datatype SubmitStep = SubmitStep(events: seq<Event>, result: Result<string, Message>, baseUrl: Option<string>)

  /** What the submit step logs before the connector answers: the
      progress note and the POST itself. */
  function SubmitRequestEvents(inputs: Inputs, env: Environment, submitUrl: string): seq<Event>
  {
    [CoreInfo(Submitting), HttpPost(submitUrl, SubmitPayloadOf(inputs, env))]
  }

  /** What the submit step does with the connector's answer: the events
      after the POST, the result, and the derived base URL. */
  function SubmitAnswerOf(inputs: Inputs, world: World): (s: SubmitStep)
    ensures s.result.Ok? <==> s.baseUrl.Some?
  {
    match world.submitResponse
    case Err(e) =>
      SubmitStep([CoreError(SubmitCallError(e.message))], Err(Verbatim(SubmitFailureText(e))), None)
    case Ok(r) =>
      match ClassifySubmitResponse(r)
      case ConnectorError(m) => SubmitStep([], Err(Verbatim(m)), None)
      case ValidationFailed(errors) =>
        SubmitStep([StartGroup(ValidationGroupTitle), CoreError(ValidationHeader(inputs.artifactName))]
                   + ValidationLog(errors) + [EndGroup],
                   Err(CiValidationFailed), None)
      case NotCreated => SubmitStep([], Err(RequestNotCreated), None)
      case Created(id, None) => SubmitStep([], Err(MissingUrlArgument), None)
      case Created(id, Some(u)) =>
        var base := DeriveBaseUrl(world.urlParse(u));
        SubmitStep(CreatedEvents(id, u, base), Ok(id), Some(base))
  }

  function SubmitStepOf(inputs: Inputs, env: Environment, submitUrl: string, world: World): (s: SubmitStep)
    ensures s.result.Ok? <==> s.baseUrl.Some?
  {
    var a := SubmitAnswerOf(inputs, world);
    SubmitStep(SubmitRequestEvents(inputs, env, submitUrl) + a.events, a.result, a.baseUrl)
  }

  /** What the submit step does with the base URL it derives. `AsWritten`
      stores it in a field of the builder that no URL is built from, as
      task.ts:151 does; `Corrected` makes the derived base followed by
      "/API" the builder's API base, the URL the step publishes. */
  datatype BaseUpdate = AsWritten | Corrected

  /** The API base the status requests use after the submit step `s`,
      when the builder held `apiBaseUrl` before it. */
  function ApiBaseAfter(s: SubmitStep, apiBaseUrl: string, update: BaseUpdate): string
  {
    if update.Corrected? && s.baseUrl.Some? then s.baseUrl.value + "/API" else apiBaseUrl
  }

  /** The outcome of the submit, by the connector's answer. */
  lemma SubmitOutcome(inputs: Inputs, env: Environment, submitUrl: string, world: World)
    ensures var s := SubmitStepOf(inputs, env, submitUrl, world);
      match world.submitResponse
      case Err(e) => s.result == Err(Verbatim(SubmitFailureText(e)))
      case Ok(r) =>
        && (TruthyText(r.error) ==> s.result == Err(Verbatim(r.error.value)))
        && (!TruthyText(r.error) && HasValidationErrors(r) ==> s.result == Err(CiValidationFailed))
        && (ClassifySubmitResponse(r).NotCreated? ==> s.result == Err(RequestNotCreated))
        && (ClassifySubmitResponse(r).Created? && r.signingRequestUrl.Some? ==> s.result == Ok(r.signingRequestId.value))
        && (ClassifySubmitResponse(r).Created? && r.signingRequestUrl.None? ==> s.result == Err(MissingUrlArgument))
  {
  }

  /** A created request with a web URL publishes its id, that URL and the
      API URL derived from it. */
  lemma SubmitCreatedOutputs(inputs: Inputs, env: Environment, submitUrl: string, world: World)
    requires world.submitResponse.Ok?
    requires ClassifySubmitResponse(world.submitResponse.value).Created?
    requires world.submitResponse.value.signingRequestUrl.Some?
    ensures var s := SubmitStepOf(inputs, env, submitUrl, world);
      var r := world.submitResponse.value;
      var base := DeriveBaseUrl(world.urlParse(r.signingRequestUrl.value));
      && SetOutput(SigningRequestIdOutput, r.signingRequestId.value) in s.events
      && SetOutput(SigningRequestWebUrlOutput, r.signingRequestUrl.value) in s.events
      && SetOutput(SignPathApiUrlOutput, base + "/API") in s.events
  {
    var s := SubmitStepOf(inputs, env, submitUrl, world);
    var r := world.submitResponse.value;
    var c := SubmitAnswerOf(inputs, world).events;
    var pre := SubmitRequestEvents(inputs, env, submitUrl);
    assert s.events == pre + c;
    assert c[3] in s.events && c[4] in s.events && c[5] in s.events by {
      assert s.events[5] == c[3] && s.events[6] == c[4] && s.events[7] == c[5];
    }
  }

  /** Only the corrected update sends the status requests to the API URL
      the submit step publishes; as written they keep the builder's base. */
  lemma StatusBaseAfterCreated(inputs: Inputs, env: Environment, submitUrl: string, world: World, apiBaseUrl: string)
    requires world.submitResponse.Ok?
    requires ClassifySubmitResponse(world.submitResponse.value).Created?
    requires world.submitResponse.value.signingRequestUrl.Some?
    ensures var s := SubmitStepOf(inputs, env, submitUrl, world);
      && SetOutput(SignPathApiUrlOutput, ApiBaseAfter(s, apiBaseUrl, Corrected)) in s.events
      && ApiBaseAfter(s, apiBaseUrl, AsWritten) == apiBaseUrl
  {
    SubmitCreatedOutputs(inputs, env, submitUrl, world);
  }

  lemma SubmitStepNoFailure(inputs: Inputs, env: Environment, submitUrl: string, world: World)
    ensures NoFailure(SubmitStepOf(inputs, env, submitUrl, world).events)
  {
    var a := SubmitAnswerOf(inputs, world);
    if world.submitResponse.Ok? {
      var r := world.submitResponse.value;
      if ClassifySubmitResponse(r).ValidationFailed? {
        var errors := r.validationResult.value.errors;
        var head := [StartGroup(ValidationGroupTitle), CoreError(ValidationHeader(inputs.artifactName))];
        assert a.events == head + ValidationLog(errors) + [EndGroup];
        ValidationLogNoFailure(errors);
        NoFailureAppend(head, ValidationLog(errors));
        NoFailureAppend(head + ValidationLog(errors), [EndGroup]);
      }
    }
    assert NoFailure(a.events);
    NoFailureAppend(SubmitRequestEvents(inputs, env, submitUrl), a.events);
  }

  // ---------------------------------------------------------------------
  // Polling

  /** Why one status check failed: no API base, a transport failure, a
      failure with a string body, or a snapshot that is not final yet. */
  datatype PollError = UrlNotSet | Transport(message: string) | StringBody(data: string) | NotFinal

  /** A snapshot is returned when final, and turned into the retry signal
      otherwise. */
  function PollDecision(dto: SigningRequestDto): (r: Result<SigningRequestDto, PollError>)
    ensures r.Ok? <==> dto.isFinalStatus
    ensures r.Ok? ==> r.value == dto
    ensures r.Err? ==> r.error == NotFinal
  {
    if dto.isFinalStatus then Ok(dto) else Err(NotFinal)
  }

  /** One call of the polled operation, given the status URL (or the
      builder's error) and the API's answer. */
  function PollAttempt(statusUrl: Result<string, string>, response: Result<SigningRequestDto, HttpError>, apiToken: string)
    : (a: Attempt<SigningRequestDto, PollError>)
    ensures NoFailure(a.events)
    ensures a.outcome.Ok? <==> statusUrl.Ok? && response.Ok? && response.value.isFinalStatus
    ensures a.outcome.Ok? ==> a.outcome.value == response.value
  {
    match statusUrl
    case Err(m) => Attempt([ConsoleError(m)], Err(UrlNotSet))
    case Ok(url) =>
      var get := [HttpGet(url, "Bearer " + apiToken)];
      match response
      case Err(e) =>
        Attempt(get + [CoreError(StatusCallError(e.message)), CoreError(StatusUrlIs(url))],
                Err(if HasStringBody(e) then StringBody(e.response.value.text) else Transport(e.message)))
      case Ok(dto) =>
        Attempt(get + (if dto.isFinalStatus then [] else [CoreInfo(StatusNotFinal(dto.status))]), PollDecision(dto))
  }

  function PollAttempts(statusUrl: Result<string, string>, responses: seq<Result<SigningRequestDto, HttpError>>,
                        apiToken: string): (attempts: seq<Attempt<SigningRequestDto, PollError>>)
    ensures |attempts| == |responses|
    ensures forall i | 0 <= i < |responses| :: attempts[i] == PollAttempt(statusUrl, responses[i], apiToken)
  {
    seq(|responses|, i requires 0 <= i < |responses| => PollAttempt(statusUrl, responses[i], apiToken))
  }

  /** The polling loop comes to an end on the scripted answers and clock. */
  predicate PollsEnd(statusUrl: Result<string, string>, apiToken: string, world: World)
  {
    var attempts := PollAttempts(statusUrl, world.statusResponses, apiToken);
    ClockFits(attempts, world.clock) && Stops(attempts, world.clock, MaxWaitingTimeForSigningRequestCompletionMs)
  }

  /** What the task goes on with after polling: the snapshot, or the raw
      string body of the last failure. */
  datatype RequestData = Snapshot(dto: SigningRequestDto) | RawText(text: string)

  /** The `.catch` after the loop. A failure with a string body travels as
      JSON text starting with '{' and is parsed back into that string; any
      other failure is passed on with its message. */
  function CatchPollFailure(outcome: Result<SigningRequestDto, PollError>): (r: Result<RequestData, Message>)
    ensures outcome.Ok? ==> r == Ok(Snapshot(outcome.value))
    ensures outcome.Err? && outcome.error.StringBody? ==> r == Ok(RawText(outcome.error.data))
    ensures outcome == Err(NotFinal) ==> r == Err(RetryStatusCheck)
    ensures outcome == Err(UrlNotSet) ==> r == Err(Verbatim(BaseUrlNotSet))
    ensures outcome.Err? && outcome.error.Transport? ==> r == Err(Verbatim(outcome.error.message))
  {
    match outcome
    case Ok(dto) => Ok(Snapshot(dto))
    case Err(StringBody(d)) => Ok(RawText(d))
    case Err(UrlNotSet) => Err(Verbatim(BaseUrlNotSet))
    case Err(Transport(m)) => Err(Verbatim(m))
    case Err(NotFinal) => Err(RetryStatusCheck)
  }

  /** `${requestData.status}`: a string has no status field. */
  function StatusText(d: RequestData): string
  {
    if d.Snapshot? then d.dto.status else "undefined"
  }

  predicate IsFinal(d: RequestData)
  {
    d.Snapshot? && d.dto.isFinalStatus
  }

  datatype Completion = Completion(events: seq<Event>, result: Result<SigningRequestDto, Message>)

  /** The final check: only a final snapshot with status "Completed" passes. */
  function CheckCompletion(d: RequestData): (c: Completion)
    ensures c.result.Ok? <==> IsFinal(d) && d.dto.status == "Completed"
    ensures c.result.Ok? ==> c.result.value == d.dto
    ensures NoFailure(c.events)
  {
    var info := [CoreInfo(StatusIs(StatusText(d)))];
    if !IsFinal(d) then
      Completion(info + [CoreError(WaitExceeded(ClockTimeText(MaxWaitingTimeForSigningRequestCompletionMs)))],
                 Err(CurrentStatusNotCompleted(StatusText(d))))
    else if d.dto.status != "Completed" then Completion(info, Err(FinalStatusNotCompleted(d.dto.status)))
    else Completion(info, Ok(d.dto))
  }

  /** A failed check says the request is not completed and ends with the
      status it saw. */
  lemma CheckCompletionNamesStatus(d: RequestData)
    requires CheckCompletion(d).result.Err?
    ensures var m := Text(CheckCompletion(d).result.error);
      && |m| >= |NotCompletedText| + |StatusText(d)|
      && m[..|NotCompletedText|] == NotCompletedText
      && m[|m| - |StatusText(d)|..] == StatusText(d)
  {
    var s := StatusText(d);
    var e := CheckCompletion(d).result.error;
    if IsFinal(d) {
      assert e == FinalStatusNotCompleted(s);
      Framed(NotCompletedText, " The final status is \"", s);
    } else {
      assert e == CurrentStatusNotCompleted(s);
      Framed(NotCompletedText, " The current status is \"", s);
    }
  }

  /** `a + b + c` starts with `a` and ends with `c`. */
  lemma Framed(a: string, b: string, c: string)
    ensures |a + b + c| >= |a| + |c|
    ensures (a + b + c)[..|a|] == a
    ensures (a + b + c)[|a + b + c| - |c|..] == c
  {
    assert a + b + c == a + (b + c);
  }

  /** The effects and the result of `ensureSigningRequestCompleted`. */
  datatype EnsureStep = EnsureStep(events: seq<Event>, result: Result<SigningRequestDto, Message>)

  function EnsureStepOf(statusUrl: Result<string, string>, apiToken: string, world: World): EnsureStep
    requires PollsEnd(statusUrl, apiToken, world)
  {
    var attempts := PollAttempts(statusUrl, world.statusResponses, apiToken);
    var calls := FirstStop(attempts, world.clock, MaxWaitingTimeForSigningRequestCompletionMs) + 1;
    var pre := [CoreInfo(Checking)]
      + RetryTrace(attempts, MinDelayBetweenSigningRequestStatusChecksMs, MaxDelayBetweenSigningRequestStatusChecksMs, calls);
    match CatchPollFailure(attempts[calls - 1].outcome)
    case Err(m) => EnsureStep(pre, Err(m))
    case Ok(d) =>
      var c := CheckCompletion(d);
      EnsureStep(pre + c.events, c.result)
  }

  /** `EnsureStepOf` once the loop's outcome and trace are known. */
  lemma EnsureStepOfLoop(statusUrl: Result<string, string>, apiToken: string, world: World,
                         outcome: Result<SigningRequestDto, PollError>, trace: seq<Event>)
    requires PollsEnd(statusUrl, apiToken, world)
    requires var attempts := PollAttempts(statusUrl, world.statusResponses, apiToken);
      var calls := FirstStop(attempts, world.clock, MaxWaitingTimeForSigningRequestCompletionMs) + 1;
      && outcome == attempts[calls - 1].outcome
      && trace == RetryTrace(attempts, MinDelayBetweenSigningRequestStatusChecksMs, MaxDelayBetweenSigningRequestStatusChecksMs, calls)
    ensures var pre := [CoreInfo(Checking)] + trace;
      EnsureStepOf(statusUrl, apiToken, world)
        == match CatchPollFailure(outcome)
           case Err(m) => EnsureStep(pre, Err(m))
           case Ok(d) => EnsureStep(pre + CheckCompletion(d).events, CheckCompletion(d).result)
  {
  }

  /** The snapshot the loop stopped at, when it stopped at one. */
  function LastAttempt(statusUrl: Result<string, string>, apiToken: string, world: World): Attempt<SigningRequestDto, PollError>
    requires PollsEnd(statusUrl, apiToken, world)
  {
    var attempts := PollAttempts(statusUrl, world.statusResponses, apiToken);
    attempts[FirstStop(attempts, world.clock, MaxWaitingTimeForSigningRequestCompletionMs)]
  }

  /** How the wait ends: with the completed snapshot, with the final status
      that is not "Completed", with the retry signal when time ran out on a
      snapshot that was not final, with the "current status" message when
      the last failure carried a string body, and otherwise with the
      failure's own message. */
  lemma EnsureOutcome(statusUrl: Result<string, string>, apiToken: string, world: World)
    requires PollsEnd(statusUrl, apiToken, world)
    ensures var r := EnsureStepOf(statusUrl, apiToken, world).result;
      var o := LastAttempt(statusUrl, apiToken, world).outcome;
      && (o.Ok? && o.value.status == "Completed" ==> r == Ok(o.value))
      && (o.Ok? && o.value.status != "Completed" ==> r == Err(FinalStatusNotCompleted(o.value.status)))
      && (o == Err(NotFinal) ==> r == Err(RetryStatusCheck))
      && (o.Err? && o.error.StringBody? ==> r == Err(CurrentStatusNotCompleted("undefined")))
      && (o == Err(UrlNotSet) ==> r == Err(Verbatim(BaseUrlNotSet)))
      && (o.Err? && o.error.Transport? ==> r == Err(Verbatim(o.error.message)))
  {
    var attempts := PollAttempts(statusUrl, world.statusResponses, apiToken);
    var i := FirstStop(attempts, world.clock, MaxWaitingTimeForSigningRequestCompletionMs);
    var o := attempts[i].outcome;
    if o.Ok? {
      assert statusUrl.Ok? && world.statusResponses[i].Ok? && o.value == world.statusResponses[i].value;
    }
  }

  /** The status requests succeed only when the base is set and the
      snapshot is final: the loop keeps going on everything else. */
  lemma PollAttemptOutcome(statusUrl: Result<string, string>, response: Result<SigningRequestDto, HttpError>, apiToken: string)
    ensures var o := PollAttempt(statusUrl, response, apiToken).outcome;
      && (statusUrl.Err? ==> o == Err(UrlNotSet))
      && (statusUrl.Ok? && response.Ok? ==> o == PollDecision(response.value))
      && (statusUrl.Ok? && response.Err? ==>
            o == Err(if HasStringBody(response.error) then StringBody(response.error.response.value.text)
                     else Transport(response.error.message)))
  {
  }

  lemma {:induction false} RetryTraceNoFailure<T, E>(attempts: seq<Attempt<T, E>>, minDelayMs: int, maxDelayMs: int, n: nat)
    requires n <= |attempts|
    requires forall i | 0 <= i < |attempts| :: NoFailure(attempts[i].events)
    ensures NoFailure(RetryTrace(attempts, minDelayMs, maxDelayMs, n))
  {
    if n > 0 {
      RetryTraceNoFailure(attempts, minDelayMs, maxDelayMs, n - 1);
      var prefix := RetryTrace(attempts, minDelayMs, maxDelayMs, n - 1);
      var wait := if n == 1 then [] else Wait(Delay(minDelayMs, maxDelayMs, n - 1));
      NoFailureAppend(prefix, wait);
      NoFailureAppend(prefix + wait, attempts[n - 1].events);
    }
  }

  lemma EnsureStepNoFailure(statusUrl: Result<string, string>, apiToken: string, world: World)
    requires PollsEnd(statusUrl, apiToken, world)
    ensures NoFailure(EnsureStepOf(statusUrl, apiToken, world).events)
  {
    var attempts := PollAttempts(statusUrl, world.statusResponses, apiToken);
    var calls := FirstStop(attempts, world.clock, MaxWaitingTimeForSigningRequestCompletionMs) + 1;
    RetryTraceNoFailure(attempts, MinDelayBetweenSigningRequestStatusChecksMs, MaxDelayBetweenSigningRequestStatusChecksMs, calls);
    var pre := [CoreInfo(Checking)]
      + RetryTrace(attempts, MinDelayBetweenSigningRequestStatusChecksMs, MaxDelayBetweenSigningRequestStatusChecksMs, calls);
    NoFailureAppend([CoreInfo(Checking)],
      RetryTrace(attempts, MinDelayBetweenSigningRequestStatusChecksMs, MaxDelayBetweenSigningRequestStatusChecksMs, calls));
    var caught := CatchPollFailure(attempts[calls - 1].outcome);
    if caught.Ok? {
      NoFailureAppend(pre, CheckCompletion(caught.value).events);
    }
  }

  // ---------------------------------------------------------------------
  // Run

  /** The download is outside the model; what remains is the published
      link, the log line and the request for the artifact. */
  function DownloadEvents(inputs: Inputs, dto: SigningRequestDto): seq<Event>
  {
    [ SetOutput(SignedArtifactDownloadUrlOutput, dto.signedArtifactLink),
      CoreInfo(SignedArtifactUrl(dto.signedArtifactLink)),
      DownloadArtifact(dto.signedArtifactLink, "Bearer " + inputs.apiToken, inputs.signedArtifactDestinationPath) ]
  }

  /** The effects of a run before its one `setFailed`, and the message it
      fails with, if any. */
  datatype RunBody = RunBody(events: seq<Event>, failure: Option<Message>)

  /** The failure of the download, when the world makes it fail. */
  function DownloadFailure(world: World): Option<Message>
  {
    if world.downloadError.Some? then Some(Verbatim(world.downloadError.value)) else None
  }

  /** The polls of a run come to an end, when the run polls at all. */
  predicate RunPollsEnd(inputs: Inputs, env: Environment, world: World, submitUrl: string, apiBaseUrl: string, update: BaseUpdate)
  {
    PollsAfterSubmit(inputs, world, SubmitStepOf(inputs, env, submitUrl, world), apiBaseUrl, update)
  }

  predicate PollsAfterSubmit(inputs: Inputs, world: World, s: SubmitStep, apiBaseUrl: string, update: BaseUpdate)
  {
    s.result.Ok? && inputs.signedArtifactDestinationPath != "" ==>
      PollsEnd(GetSigningRequestUrl(ApiBaseAfter(s, apiBaseUrl, update), inputs.organizationId, s.result.value), inputs.apiToken, world)
  }

  /** The run before its `catch`, from a builder whose API base is
      `apiBaseUrl`, with the submit step updating the builder as `update`
      says. */
  function RunBodyOf(inputs: Inputs, env: Environment, world: World, submitUrl: string, apiBaseUrl: string, update: BaseUpdate): RunBody
    requires RunPollsEnd(inputs, env, world, submitUrl, apiBaseUrl, update)
  {
    RunBodyAfterSubmit(inputs, world, SubmitStepOf(inputs, env, submitUrl, world), apiBaseUrl, update)
  }

  /** The run once the submit step `s` is done: its effects, then what
      follows them. */
  function RunBodyAfterSubmit(inputs: Inputs, world: World, s: SubmitStep, apiBaseUrl: string, update: BaseUpdate): RunBody
    requires PollsAfterSubmit(inputs, world, s, apiBaseUrl, update)
  {
    var after := AfterSubmit(inputs, world, s, apiBaseUrl, update);
    RunBody(s.events + after.events, after.failure)
  }

  /** What follows the submit step `s`: stop on its error or without a
      destination path, else wait for the request and download. */
  function AfterSubmit(inputs: Inputs, world: World, s: SubmitStep, apiBaseUrl: string, update: BaseUpdate): RunBody
    requires PollsAfterSubmit(inputs, world, s, apiBaseUrl, update)
  {
    if s.result.Err? then RunBody([], Some(s.result.error))
    else if inputs.signedArtifactDestinationPath == "" then RunBody([], None)
    else
      var statusUrl := GetSigningRequestUrl(ApiBaseAfter(s, apiBaseUrl, update), inputs.organizationId, s.result.value);
      var e := EnsureStepOf(statusUrl, inputs.apiToken, world);
      if e.result.Err? then RunBody(e.events, Some(e.result.error))
      else RunBody(e.events + DownloadEvents(inputs, e.result.value), DownloadFailure(world))
  }

  /** The whole trace of a run: any failure ends in one `setFailed`. */
  function RunTrace(inputs: Inputs, env: Environment, world: World, submitUrl: string, apiBaseUrl: string, update: BaseUpdate): seq<Event>
    requires RunPollsEnd(inputs, env, world, submitUrl, apiBaseUrl, update)
  {
    var b := RunBodyOf(inputs, env, world, submitUrl, apiBaseUrl, update);
    b.events + (if b.failure.Some? then [SetFailed(b.failure.value)] else [])
  }

  lemma RunBodyNoFailure(inputs: Inputs, env: Environment, world: World, submitUrl: string, apiBaseUrl: string, update: BaseUpdate)
    requires RunPollsEnd(inputs, env, world, submitUrl, apiBaseUrl, update)
    ensures NoFailure(RunBodyOf(inputs, env, world, submitUrl, apiBaseUrl, update).events)
  {
    var s := SubmitStepOf(inputs, env, submitUrl, world);
    SubmitStepNoFailure(inputs, env, submitUrl, world);
    if s.result.Ok? && inputs.signedArtifactDestinationPath != "" {
      var statusUrl := GetSigningRequestUrl(ApiBaseAfter(s, apiBaseUrl, update), inputs.organizationId, s.result.value);
      var e := EnsureStepOf(statusUrl, inputs.apiToken, world);
      EnsureStepNoFailure(statusUrl, inputs.apiToken, world);
      NoFailureAppend(s.events, e.events);
      if e.result.Ok? {
        NoFailureAppend(s.events + e.events, DownloadEvents(inputs, e.result.value));
      }
    }
  }

  /** Every run calls `setFailed` at most once: exactly once, as its last
      effect and with the failure's message, when a step failed, and never
      otherwise. */
  lemma RunFailsAtMostOnce(inputs: Inputs, env: Environment, world: World, submitUrl: string, apiBaseUrl: string, update: BaseUpdate)
    requires RunPollsEnd(inputs, env, world, submitUrl, apiBaseUrl, update)
    ensures var b := RunBodyOf(inputs, env, world, submitUrl, apiBaseUrl, update);
      var t := RunTrace(inputs, env, world, submitUrl, apiBaseUrl, update);
      && FailureCount(t) == (if b.failure.Some? then 1 else 0)
      && (b.failure.Some? ==> t[|t| - 1] == SetFailed(b.failure.value))
  {
    var b := RunBodyOf(inputs, env, world, submitUrl, apiBaseUrl, update);
    RunBodyNoFailure(inputs, env, world, submitUrl, apiBaseUrl, update);
    NoFailureCount(b.events);
    var tail := if b.failure.Some? then [SetFailed(b.failure.value)] else [];
    FailureCountAppend(b.events, tail);
    if b.failure.Some? {
      assert tail[..0] == [];
    }
  }

  /** Without a destination path the run ends after the submit: no status
      request, no download. */
  lemma RunWithoutDestination(inputs: Inputs, env: Environment, world: World, submitUrl: string, apiBaseUrl: string, update: BaseUpdate)
    requires inputs.signedArtifactDestinationPath == ""
    ensures RunPollsEnd(inputs, env, world, submitUrl, apiBaseUrl, update)
    ensures var s := SubmitStepOf(inputs, env, submitUrl, world);
      RunBodyOf(inputs, env, world, submitUrl, apiBaseUrl, update)
        == RunBody(s.events, if s.result.Err? then Some(s.result.error) else None)
  {
  }
}
