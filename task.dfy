/** The task object: it owns the URL builder, whose API base the submit
    step overwrites, and records every effect the run has. Each method is
    proved against the step functions of `TaskSteps`. */
module SubmitTask {
  import opened Wrappers
  import opened Effects
  import opened Http
  import opened Dtos
  import opened Utils
  import opened SignPathUrls
  import opened TaskSteps

  class Task {
    const inputs: Inputs
    const env: Environment
    const urlBuilder: SignPathUrlBuilder
    /** Everything the task has done so far, in order. */
    var events: seq<Event>

    constructor(inputs: Inputs, env: Environment)
      ensures this.inputs == inputs && this.env == env
      ensures fresh(urlBuilder)
      ensures urlBuilder.signPathApiBaseUrl == DefaultApiBaseUrl
      ensures urlBuilder.signPathGitHubConnectorBaseUrl == UrlText.TrimSlash(inputs.connectorUrl)
      ensures urlBuilder.signPathBaseUrl == None
      ensures events == []
    {
      this.inputs := inputs;
      this.env := env;
      this.urlBuilder := new SignPathUrlBuilder(inputs.connectorUrl);
      this.events := [];
    }

    method Emit(e: Event)
      modifies this
      ensures events == old(events) + [e]
    {
      events := events + [e];
    }

    /** The `forEach` over the validation errors. */
    method LogValidationErrors(errors: seq<ValidationError>)
      modifies this
      ensures events == old(events) + ValidationLog(errors)
    {
      for i := 0 to |errors|
        invariant events == old(events) + ValidationLog(errors[..i])
      {
        assert errors[..i + 1][..i] == errors[..i];
        Emit(CoreError(ValidationErrorLine(errors[i].error)));
        if TruthyText(errors[i].howToFix) {
          Emit(CoreInfo(Verbatim(errors[i].howToFix.value)));
        }
      }
      assert errors[..|errors|] == errors;
    }

    /** The logs of a response with validation errors. */
    method ReportValidationErrors(errors: seq<ValidationError>)
      modifies this
      ensures events == old(events) + [StartGroup(ValidationGroupTitle), CoreError(ValidationHeader(inputs.artifactName))]
                        + ValidationLog(errors) + [EndGroup]
    {
      Emit(StartGroup(ValidationGroupTitle));
      Emit(CoreError(ValidationHeader(inputs.artifactName)));
      LogValidationErrors(errors);
      Emit(EndGroup);
    }

    /** The logs and outputs of a created request; returns the base URL. */
    method ReportCreated(id: string, webUrl: string, world: World) returns (base: string)
      modifies this
      ensures base == DeriveBaseUrl(world.urlParse(webUrl))
      ensures events == old(events) + CreatedEvents(id, webUrl, base)
    {
      var parts := world.urlParse(webUrl);
      base := parts.protocol + "//" + parts.host;
      Emit(CoreInfo(RequestSubmitted));
      Emit(CoreInfo(RequestIdIs(id)));
      Emit(CoreInfo(RequestViewAt(webUrl)));
      Emit(SetOutput(SigningRequestIdOutput, id));
      Emit(SetOutput(SigningRequestWebUrlOutput, webUrl));
      Emit(SetOutput(SignPathApiUrlOutput, base + "/API"));
    }

    /** Everything `submitSigningRequest` does except updating the builder:
        the call, the examination of the answer, the logs and outputs; a
        created request also yields the base URL derived from its web URL. */
    method SubmitAndReport(world: World) returns (r: Result<string, Message>, baseUrl: Option<string>)
      modifies this
      ensures var s := SubmitStepOf(inputs, env, urlBuilder.BuildSubmitSigningRequestUrl(), world);
        events == old(events) + s.events && r == s.result && baseUrl == s.baseUrl
    {
      var submitUrl := urlBuilder.BuildSubmitSigningRequestUrl();
      Emit(CoreInfo(Submitting));
      Emit(HttpPost(submitUrl, SubmitPayloadOf(inputs, env)));
      ghost var mid := events;
      assert mid == old(events) + SubmitRequestEvents(inputs, env, submitUrl);
      r, baseUrl := ReportAnswer(world);
      ghost var a := SubmitAnswerOf(inputs, world);
      assert events == mid + a.events;
      Regroup(old(events), SubmitRequestEvents(inputs, env, submitUrl), a.events, []);
    }

    /** The examination of the connector's answer (or of the failed call),
        with the logs and outputs each case has. */
    method ReportAnswer(world: World) returns (r: Result<string, Message>, baseUrl: Option<string>)
      modifies this
      ensures var a := SubmitAnswerOf(inputs, world);
        events == old(events) + a.events && r == a.result && baseUrl == a.baseUrl
    {
      if world.submitResponse.Err? {
        var e := world.submitResponse.error;
        Emit(CoreError(SubmitCallError(e.message)));
        if HasStringBody(e) {
          return Err(Verbatim(e.response.value.text)), None;
        }
        return Err(Verbatim(e.message)), None;
      }
      var response := world.submitResponse.value;
      if TruthyText(response.error) {
        return Err(Verbatim(response.error.value)), None;
      }
      if response.validationResult.Some? && |response.validationResult.value.errors| > 0 {
        ReportValidationErrors(response.validationResult.value.errors);
        return Err(CiValidationFailed), None;
      }
      if !TruthyText(response.signingRequestId) {
        return Err(RequestNotCreated), None;
      }
      if response.signingRequestUrl.None? {
        return Err(MissingUrlArgument), None;
      }
      var base := ReportCreated(response.signingRequestId.value, response.signingRequestUrl.value, world);
      return Ok(response.signingRequestId.value), Some(base);
    }

    /** `submitSigningRequest` with the builder update its outputs announce:
        a created request points the status requests at the derived base
        followed by "/API". */
    method SubmitSigningRequest(world: World) returns (r: Result<string, Message>)
      modifies this, urlBuilder
      ensures var s := SubmitStepOf(inputs, env, old(urlBuilder.BuildSubmitSigningRequestUrl()), world);
        && events == old(events) + s.events && r == s.result
        && urlBuilder.signPathApiBaseUrl == ApiBaseAfter(s, old(urlBuilder.signPathApiBaseUrl), Corrected)
      ensures urlBuilder.signPathGitHubConnectorBaseUrl == old(urlBuilder.signPathGitHubConnectorBaseUrl)
      ensures urlBuilder.signPathBaseUrl == old(urlBuilder.signPathBaseUrl)
    {
      var baseUrl;
      r, baseUrl := SubmitAndReport(world);
      if baseUrl.Some? {
        urlBuilder.signPathApiBaseUrl := baseUrl.value + "/API";
      }
    }

    /** `submitSigningRequest` as written: the derived base goes to a field
        of its own that the builder never reads, so the API base stays what
        it was. */
    method SubmitSigningRequestAsWritten(world: World) returns (r: Result<string, Message>)
      modifies this, urlBuilder
      ensures var s := SubmitStepOf(inputs, env, old(urlBuilder.BuildSubmitSigningRequestUrl()), world);
        && events == old(events) + s.events && r == s.result
        && urlBuilder.signPathBaseUrl == (if s.baseUrl.Some? then s.baseUrl else old(urlBuilder.signPathBaseUrl))
      ensures urlBuilder.signPathApiBaseUrl == old(urlBuilder.signPathApiBaseUrl)
      ensures urlBuilder.signPathGitHubConnectorBaseUrl == old(urlBuilder.signPathGitHubConnectorBaseUrl)
    {
      var baseUrl;
      r, baseUrl := SubmitAndReport(world);
      if baseUrl.Some? {
        urlBuilder.signPathBaseUrl := baseUrl;
      }
    }

    /** The submit step with the builder update `update`. */
    method Submit(world: World, update: BaseUpdate) returns (r: Result<string, Message>)
      modifies this, urlBuilder
      ensures var s := SubmitStepOf(inputs, env, old(urlBuilder.BuildSubmitSigningRequestUrl()), world);
        && events == old(events) + s.events && r == s.result
        && urlBuilder.signPathApiBaseUrl == ApiBaseAfter(s, old(urlBuilder.signPathApiBaseUrl), update)
        && urlBuilder.signPathBaseUrl == (if update.AsWritten? && s.baseUrl.Some? then s.baseUrl else old(urlBuilder.signPathBaseUrl))
      ensures urlBuilder.signPathGitHubConnectorBaseUrl == old(urlBuilder.signPathGitHubConnectorBaseUrl)
    {
      if update.Corrected? {
        r := SubmitSigningRequest(world);
      } else {
        r := SubmitSigningRequestAsWritten(world);
      }
    }

    /** `ensureSigningRequestCompleted`: polls the status with back-off
        until a final snapshot or the time budget, then checks it. */
    method EnsureSigningRequestCompleted(signingRequestId: string, world: World) returns (r: Result<SigningRequestDto, Message>)
      requires PollsEnd(urlBuilder.BuildGetSigningRequestUrl(inputs.organizationId, signingRequestId), inputs.apiToken, world)
      modifies this
      ensures var e := EnsureStepOf(urlBuilder.BuildGetSigningRequestUrl(inputs.organizationId, signingRequestId),
                                    inputs.apiToken, world);
        events == old(events) + e.events && r == e.result
    {
      ghost var start := events;
      Emit(CoreInfo(Checking));
      var statusUrl := urlBuilder.BuildGetSigningRequestUrl(inputs.organizationId, signingRequestId);
      var attempts := PollAttempts(statusUrl, world.statusResponses, inputs.apiToken);
      var outcome, calls, trace := ExecuteWithRetries(
        attempts, world.clock, MaxWaitingTimeForSigningRequestCompletionMs,
        MinDelayBetweenSigningRequestStatusChecksMs, MaxDelayBetweenSigningRequestStatusChecksMs);
      events := events + trace;
      ghost var pre := [CoreInfo(Checking)] + trace;
      Regroup(start, [CoreInfo(Checking)], trace, []);
      EnsureStepOfLoop(statusUrl, inputs.apiToken, world, outcome, trace);
      var caught := CatchPollFailure(outcome);
      if caught.Err? {
        return Err(caught.error);
      }
      r := CheckCompletionReport(caught.value);
      Regroup(start, pre, CheckCompletion(caught.value).events, []);
    }

    /** The final check, with its log lines. */
    method CheckCompletionReport(data: RequestData) returns (r: Result<SigningRequestDto, Message>)
      modifies this
      ensures events == old(events) + CheckCompletion(data).events
      ensures r == CheckCompletion(data).result
    {
      Emit(CoreInfo(StatusIs(StatusText(data))));
      if !IsFinal(data) {
        Emit(CoreError(WaitExceeded(ClockTimeText(MaxWaitingTimeForSigningRequestCompletionMs))));
        return Err(CurrentStatusNotCompleted(StatusText(data)));
      } else if data.dto.status != "Completed" {
        return Err(FinalStatusNotCompleted(data.dto.status));
      }
      return Ok(data.dto);
    }

    /** What is kept of `downloadTheSignedArtifact`: the published link, the
        log line, the request for the artifact and its outcome. */
    method DownloadTheSignedArtifact(signingRequest: SigningRequestDto, world: World) returns (failure: Option<Message>)
      modifies this
      ensures events == old(events) + DownloadEvents(inputs, signingRequest)
      ensures failure == DownloadFailure(world)
    {
      Emit(SetOutput(SignedArtifactDownloadUrlOutput, signingRequest.signedArtifactLink));
      Emit(CoreInfo(SignedArtifactUrl(signingRequest.signedArtifactLink)));
      Emit(DownloadArtifact(signingRequest.signedArtifactLink, "Bearer " + inputs.apiToken,
                            inputs.signedArtifactDestinationPath));
      failure := if world.downloadError.Some? then Some(Verbatim(world.downloadError.value)) else None;
    }

    /** The wait for the request and the download, once a destination path
        is set; the first error is returned as the run's failure. */
    method CompleteAndDownload(signingRequestId: string, world: World) returns (failure: Option<Message>)
      requires PollsEnd(urlBuilder.BuildGetSigningRequestUrl(inputs.organizationId, signingRequestId), inputs.apiToken, world)
      modifies this
      ensures var e := EnsureStepOf(urlBuilder.BuildGetSigningRequestUrl(inputs.organizationId, signingRequestId),
                                    inputs.apiToken, world);
        && events == old(events) + e.events + (if e.result.Ok? then DownloadEvents(inputs, e.result.value) else [])
        && failure == (if e.result.Err? then Some(e.result.error) else DownloadFailure(world))
    {
      var completed := EnsureSigningRequestCompleted(signingRequestId, world);
      if completed.Err? {
        failure := Some(completed.error);
      } else {
        failure := DownloadTheSignedArtifact(completed.value, world);
      }
    }

    static lemma AppendNothing(a: seq<Event>, b: seq<Event>)
      requires b == []
      ensures a + b == a
    {
    }

    /** `a + b + c + d` and `a + b + c` regrouped after `a`. */
    static lemma Regroup(a: seq<Event>, b: seq<Event>, c: seq<Event>, d: seq<Event>)
      ensures a + b + c + d == a + (b + c + d)
      ensures a + b + c == a + (b + c)
    {
    }

    /** What the `try` block of `run` does after the submit step `s`: stop
        on its error or without a destination path, else wait for the
        request and download the artifact. */
    method StepsAfterSubmit(submitted: Result<string, Message>, world: World, ghost s: SubmitStep,
                            ghost apiBaseUrl: string, ghost update: BaseUpdate) returns (failure: Option<Message>)
      requires submitted == s.result
      requires urlBuilder.signPathApiBaseUrl == ApiBaseAfter(s, apiBaseUrl, update)
      requires PollsAfterSubmit(inputs, world, s, apiBaseUrl, update)
      modifies this
      ensures var after := AfterSubmit(inputs, world, s, apiBaseUrl, update);
        events == old(events) + after.events && failure == after.failure
    {
      if submitted.Err? {
        failure := Some(submitted.error);
        AppendNothing(events, []);
      } else if inputs.signedArtifactDestinationPath != "" {
        ghost var statusUrl := GetSigningRequestUrl(ApiBaseAfter(s, apiBaseUrl, update), inputs.organizationId, s.result.value);
        assert urlBuilder.BuildGetSigningRequestUrl(inputs.organizationId, submitted.value) == statusUrl;
        failure := CompleteAndDownload(submitted.value, world);
      } else {
        failure := None;
        AppendNothing(events, []);
      }
    }

    /** The `try` block of `run`: submit, updating the builder as `update`
        says, then, when a destination path is set, wait for the request
        and download the artifact; the first error stops the steps and is
        handed back. */
    method RunSteps(world: World, update: BaseUpdate) returns (failure: Option<Message>)
      requires RunPollsEnd(inputs, env, world, urlBuilder.BuildSubmitSigningRequestUrl(), urlBuilder.signPathApiBaseUrl, update)
      modifies this, urlBuilder
      ensures var b := RunBodyOf(inputs, env, world, old(urlBuilder.BuildSubmitSigningRequestUrl()),
                                 old(urlBuilder.signPathApiBaseUrl), update);
        events == old(events) + b.events && failure == b.failure
      ensures var s := SubmitStepOf(inputs, env, old(urlBuilder.BuildSubmitSigningRequestUrl()), world);
        && urlBuilder.signPathApiBaseUrl == ApiBaseAfter(s, old(urlBuilder.signPathApiBaseUrl), update)
        && urlBuilder.signPathBaseUrl == (if update.AsWritten? && s.baseUrl.Some? then s.baseUrl else old(urlBuilder.signPathBaseUrl))
      ensures urlBuilder.signPathGitHubConnectorBaseUrl == old(urlBuilder.signPathGitHubConnectorBaseUrl)
    {
      ghost var submitUrl, apiBaseUrl := urlBuilder.BuildSubmitSigningRequestUrl(), urlBuilder.signPathApiBaseUrl;
      ghost var start := events;
      ghost var s := SubmitStepOf(inputs, env, submitUrl, world);
      ghost var after := AfterSubmit(inputs, world, s, apiBaseUrl, update);
      var submitted := Submit(world, update);
      failure := StepsAfterSubmit(submitted, world, s, apiBaseUrl, update);
      assert events == start + s.events + after.events;
      assert RunBodyOf(inputs, env, world, submitUrl, apiBaseUrl, update) == RunBody(s.events + after.events, after.failure);
      Regroup(start, s.events, after.events, []);
    }

    /** `run`: the steps, and the `catch` that turns their error into one
        `setFailed`. `AsWritten` is the action as it stands; `Corrected`
        has the submit step of the Findings. */
    method Run(world: World, update: BaseUpdate)
      requires RunPollsEnd(inputs, env, world, urlBuilder.BuildSubmitSigningRequestUrl(), urlBuilder.signPathApiBaseUrl, update)
      modifies this, urlBuilder
      ensures events == old(events)
        + RunTrace(inputs, env, world, old(urlBuilder.BuildSubmitSigningRequestUrl()), old(urlBuilder.signPathApiBaseUrl), update)
      ensures var s := SubmitStepOf(inputs, env, old(urlBuilder.BuildSubmitSigningRequestUrl()), world);
        && urlBuilder.signPathApiBaseUrl == ApiBaseAfter(s, old(urlBuilder.signPathApiBaseUrl), update)
        && urlBuilder.signPathBaseUrl == (if update.AsWritten? && s.baseUrl.Some? then s.baseUrl else old(urlBuilder.signPathBaseUrl))
      ensures urlBuilder.signPathGitHubConnectorBaseUrl == old(urlBuilder.signPathGitHubConnectorBaseUrl)
    {
      ghost var b := RunBodyOf(inputs, env, world, urlBuilder.BuildSubmitSigningRequestUrl(), urlBuilder.signPathApiBaseUrl, update);
      ghost var start := events;
      var failure := RunSteps(world, update);
      ghost var tail := if failure.Some? then [SetFailed(failure.value)] else [];
      if failure.Some? {
        Emit(SetFailed(failure.value));
      }
      assert events == start + b.events + tail;
      Regroup(start, b.events, tail, []);
    }
  }
}
