/** The runs the task's tests describe, and the consequence of the API-base
    assignment as written. */
module TaskScenarios {
  import opened Wrappers
  import opened Effects
  import opened Http
  import opened Dtos
  import opened UrlText
  import opened SignPathUrls
  import opened Utils
  import opened TaskSteps

  const TestSigningRequestUrl := "https" + "://" + "domain" + "/api/SigningRequests"
  const TestSignedArtifactLink := "https://domain/api/artifactlink"

  /** The tests' inputs; an input they do not stub reads as "test". */
  function TestInputs(): Inputs
  {
    Inputs("test", "test", "test", "TEST_ORGANIZATION_ID", "TEST_TOKEN", "TEST_PROJECT_SLUG",
           "TEST_GITHUB_TOKEN", "TEST_POLICY_SLUG", "TEST_ARTIFACT_CONFIGURATION_SLUG")
  }

  function CreatedAnswer(): SubmitSigningRequestResult
  {
    SubmitSigningRequestResult(Some("TEST_ID"), None, Some(TestSigningRequestUrl), None, [])
  }

  function Snapshot(status: string): SigningRequestDto
  {
    SigningRequestDto(status, "", TestSignedArtifactLink, "", true, "")
  }

  /** A world answering the submit with `submit` and the one status request
      with `status`. */
  function TestWorld(submit: Result<SubmitSigningRequestResult, HttpError>, status: string,
                     urlParse: string -> UrlParts): World
  {
    World(submit, [Ok(Snapshot(status))], [0, 0], None, urlParse)
  }

  /** An error from the connector fails the run, once, with that error. */
  lemma SubmitErrorFailsOnce(env: Environment, urlParse: string -> UrlParts, submitUrl: string, apiBaseUrl: string, update: BaseUpdate)
    ensures var world := TestWorld(Ok(SubmitSigningRequestResult(None, None, None, Some("Failed"), [])), "Completed", urlParse);
      && RunPollsEnd(TestInputs(), env, world, submitUrl, apiBaseUrl, update)
      && RunBodyOf(TestInputs(), env, world, submitUrl, apiBaseUrl, update).failure == Some(Verbatim("Failed"))
      && FailureCount(RunTrace(TestInputs(), env, world, submitUrl, apiBaseUrl, update)) == 1
  {
    var world := TestWorld(Ok(SubmitSigningRequestResult(None, None, None, Some("Failed"), [])), "Completed", urlParse);
    RunFailsAtMostOnce(TestInputs(), env, world, submitUrl, apiBaseUrl, update);
  }

  /** A created request whose one status answer is final: the polling
      ends at once, and the wait's verdict is that snapshot's status. */
  lemma SingleFinalSnapshot(inputs: Inputs, env: Environment, world: World, submitUrl: string, apiBaseUrl: string, update: BaseUpdate)
    requires world.submitResponse.Ok? && ClassifySubmitResponse(world.submitResponse.value).Created?
    requires world.submitResponse.value.signingRequestUrl.Some?
    requires update.Corrected? || apiBaseUrl != ""
    requires |world.statusResponses| == 1 && |world.clock| == 2
    requires world.statusResponses[0].Ok? && world.statusResponses[0].value.isFinalStatus
    ensures RunPollsEnd(inputs, env, world, submitUrl, apiBaseUrl, update)
    ensures var s := SubmitStepOf(inputs, env, submitUrl, world);
      var statusUrl := GetSigningRequestUrl(ApiBaseAfter(s, apiBaseUrl, update), inputs.organizationId, s.result.value);
      PollsEnd(statusUrl, inputs.apiToken, world)
    ensures var s := SubmitStepOf(inputs, env, submitUrl, world);
      var statusUrl := GetSigningRequestUrl(ApiBaseAfter(s, apiBaseUrl, update), inputs.organizationId, s.result.value);
      var dto := world.statusResponses[0].value;
      var r := EnsureStepOf(statusUrl, inputs.apiToken, world).result;
      && (dto.status == "Completed" ==> r == Ok(dto))
      && (dto.status != "Completed" ==> r == Err(FinalStatusNotCompleted(dto.status)))
  {
    var s := SubmitStepOf(inputs, env, submitUrl, world);
    var statusUrl := GetSigningRequestUrl(ApiBaseAfter(s, apiBaseUrl, update), inputs.organizationId, s.result.value);
    var attempts := PollAttempts(statusUrl, world.statusResponses, inputs.apiToken);
    assert StopsAt(attempts, world.clock, MaxWaitingTimeForSigningRequestCompletionMs, 0);
    EnsureOutcome(statusUrl, inputs.apiToken, world);
  }

  /** A final status other than "Completed" fails the run, once, with a
      message that says so and names the status. */
  lemma FinalStatusFailsOnce(inputs: Inputs, env: Environment, world: World, submitUrl: string, apiBaseUrl: string, update: BaseUpdate)
    requires inputs.signedArtifactDestinationPath != ""
    requires world.submitResponse.Ok? && ClassifySubmitResponse(world.submitResponse.value).Created?
    requires world.submitResponse.value.signingRequestUrl.Some?
    requires update.Corrected? || apiBaseUrl != ""
    requires |world.statusResponses| == 1 && |world.clock| == 2
    requires world.statusResponses[0].Ok? && world.statusResponses[0].value.isFinalStatus
    requires world.statusResponses[0].value.status != "Completed"
    ensures RunPollsEnd(inputs, env, world, submitUrl, apiBaseUrl, update)
    ensures var status := world.statusResponses[0].value.status;
      && RunBodyOf(inputs, env, world, submitUrl, apiBaseUrl, update).failure == Some(FinalStatusNotCompleted(status))
      && FailureCount(RunTrace(inputs, env, world, submitUrl, apiBaseUrl, update)) == 1
  {
    SingleFinalSnapshot(inputs, env, world, submitUrl, apiBaseUrl, update);
    RunFailsAtMostOnce(inputs, env, world, submitUrl, apiBaseUrl, update);
  }

  /** Validation errors fail the run, once; the error and its remedy are
      both logged. */
  lemma ValidationErrorsFailOnce(inputs: Inputs, env: Environment, world: World, submitUrl: string, apiBaseUrl: string, update: BaseUpdate,
                                 error: string, fix: string)
    requires world.submitResponse.Ok? && world.submitResponse.value.error == None
    requires world.submitResponse.value.validationResult == Some(ValidationResult([ValidationError(error, Some(fix))]))
    requires fix != ""
    ensures RunPollsEnd(inputs, env, world, submitUrl, apiBaseUrl, update)
    ensures var t := RunTrace(inputs, env, world, submitUrl, apiBaseUrl, update);
      && RunBodyOf(inputs, env, world, submitUrl, apiBaseUrl, update).failure == Some(CiValidationFailed)
      && FailureCount(t) == 1
      && CoreError(ValidationErrorLine(error)) in t
      && CoreInfo(Verbatim(fix)) in t
  {
    var errors := [ValidationError(error, Some(fix))];
    assert ClassifySubmitResponse(world.submitResponse.value) == ValidationFailed(errors);
    RunFailsAtMostOnce(inputs, env, world, submitUrl, apiBaseUrl, update);
    assert errors[..0] == [];
    assert ValidationLog(errors) == [CoreError(ValidationErrorLine(error)), CoreInfo(Verbatim(fix))];
    var s := SubmitStepOf(inputs, env, submitUrl, world);
    var t := RunTrace(inputs, env, world, submitUrl, apiBaseUrl, update);
    assert t == s.events + [SetFailed(CiValidationFailed)];
    assert t[4] == CoreError(ValidationErrorLine(error));
    assert t[5] == CoreInfo(Verbatim(fix));
  }

  /** A submit call that fails with a string body fails the run, once, with
      that body. */
  lemma ConnectorHttpErrorFailsOnce(env: Environment, urlParse: string -> UrlParts, submitUrl: string, apiBaseUrl: string, update: BaseUpdate)
    ensures var world := TestWorld(Err(HttpError("", Some(Str("Http call error")))), "Completed", urlParse);
      && RunPollsEnd(TestInputs(), env, world, submitUrl, apiBaseUrl, update)
      && RunBodyOf(TestInputs(), env, world, submitUrl, apiBaseUrl, update).failure == Some(Verbatim("Http call error"))
      && FailureCount(RunTrace(TestInputs(), env, world, submitUrl, apiBaseUrl, update)) == 1
  {
    var world := TestWorld(Err(HttpError("", Some(Str("Http call error")))), "Completed", urlParse);
    RunFailsAtMostOnce(TestInputs(), env, world, submitUrl, apiBaseUrl, update);
  }

  /** A created request with a web URL, a status URL that can be built,
      one final "Completed" status answer and a download that succeeds. */
  predicate CompletesAtOnce(inputs: Inputs, world: World, apiBaseUrl: string, update: BaseUpdate)
  {
    && inputs.signedArtifactDestinationPath != ""
    && world.submitResponse.Ok? && ClassifySubmitResponse(world.submitResponse.value).Created?
    && world.submitResponse.value.signingRequestUrl.Some?
    && (update.Corrected? || apiBaseUrl != "")
    && |world.statusResponses| == 1 && |world.clock| == 2
    && world.statusResponses[0].Ok? && world.statusResponses[0].value.isFinalStatus
    && world.statusResponses[0].value.status == "Completed"
    && world.downloadError == None
  }

  /** Such a run is the submit step, the wait and the download, and it
      does not fail. */
  lemma CompletedRunTrace(inputs: Inputs, env: Environment, world: World, submitUrl: string, apiBaseUrl: string, update: BaseUpdate)
    requires CompletesAtOnce(inputs, world, apiBaseUrl, update)
    ensures RunPollsEnd(inputs, env, world, submitUrl, apiBaseUrl, update)
    ensures var s := SubmitStepOf(inputs, env, submitUrl, world);
      var statusUrl := GetSigningRequestUrl(ApiBaseAfter(s, apiBaseUrl, update), inputs.organizationId, s.result.value);
      var t := RunTrace(inputs, env, world, submitUrl, apiBaseUrl, update);
      && t == s.events + (EnsureStepOf(statusUrl, inputs.apiToken, world).events
                          + DownloadEvents(inputs, world.statusResponses[0].value))
      && FailureCount(t) == 0
  {
    var s := SubmitStepOf(inputs, env, submitUrl, world);
    var statusUrl := GetSigningRequestUrl(ApiBaseAfter(s, apiBaseUrl, update), inputs.organizationId, s.result.value);
    SingleFinalSnapshot(inputs, env, world, submitUrl, apiBaseUrl, update);
    var e := EnsureStepOf(statusUrl, inputs.apiToken, world);
    var dto := world.statusResponses[0].value;
    assert e.result == Ok(dto);
    var tail := e.events + DownloadEvents(inputs, dto);
    assert AfterSubmit(inputs, world, s, apiBaseUrl, update) == RunBody(tail, None);
    assert RunBodyOf(inputs, env, world, submitUrl, apiBaseUrl, update) == RunBody(s.events + tail, None);
    RunFailsAtMostOnce(inputs, env, world, submitUrl, apiBaseUrl, update);
  }

  /** A request that is created and then completes publishes its id, its
      web URL, the API URL derived from it and the link of the signed
      artifact, and the run does not fail. */
  lemma CompletedRunOutputs(inputs: Inputs, env: Environment, world: World, submitUrl: string, apiBaseUrl: string, update: BaseUpdate)
    requires CompletesAtOnce(inputs, world, apiBaseUrl, update)
    ensures RunPollsEnd(inputs, env, world, submitUrl, apiBaseUrl, update)
    ensures var r := world.submitResponse.value;
      var t := RunTrace(inputs, env, world, submitUrl, apiBaseUrl, update);
      && SetOutput(SigningRequestIdOutput, r.signingRequestId.value) in t
      && SetOutput(SigningRequestWebUrlOutput, r.signingRequestUrl.value) in t
      && SetOutput(SignPathApiUrlOutput, DeriveBaseUrl(world.urlParse(r.signingRequestUrl.value)) + "/API") in t
      && SetOutput(SignedArtifactDownloadUrlOutput, world.statusResponses[0].value.signedArtifactLink) in t
      && FailureCount(t) == 0
  {
    var s := SubmitStepOf(inputs, env, submitUrl, world);
    var statusUrl := GetSigningRequestUrl(ApiBaseAfter(s, apiBaseUrl, update), inputs.organizationId, s.result.value);
    CompletedRunTrace(inputs, env, world, submitUrl, apiBaseUrl, update);
    SubmitCreatedOutputs(inputs, env, submitUrl, world);
    var e := EnsureStepOf(statusUrl, inputs.apiToken, world).events;
    var d := DownloadEvents(inputs, world.statusResponses[0].value);
    var t := RunTrace(inputs, env, world, submitUrl, apiBaseUrl, update);
    assert d[0] in t by { assert t[|s.events| + |e|] == d[0]; }
  }

  /** Its one status request goes to the status URL built from the API
      base the submit step leaves in the builder. */
  lemma CompletedRunStatusRequest(inputs: Inputs, env: Environment, world: World, submitUrl: string, apiBaseUrl: string,
                                  update: BaseUpdate)
    requires CompletesAtOnce(inputs, world, apiBaseUrl, update)
    ensures RunPollsEnd(inputs, env, world, submitUrl, apiBaseUrl, update)
    ensures var s := SubmitStepOf(inputs, env, submitUrl, world);
      HttpGet(SigningRequestUrl(ApiBaseAfter(s, apiBaseUrl, update), inputs.organizationId, s.result.value),
              "Bearer " + inputs.apiToken) in RunTrace(inputs, env, world, submitUrl, apiBaseUrl, update)
  {
    var s := SubmitStepOf(inputs, env, submitUrl, world);
    var statusUrl := GetSigningRequestUrl(ApiBaseAfter(s, apiBaseUrl, update), inputs.organizationId, s.result.value);
    CompletedRunTrace(inputs, env, world, submitUrl, apiBaseUrl, update);
    SingleStatusRequest(statusUrl, inputs.apiToken, world);
    var e := EnsureStepOf(statusUrl, inputs.apiToken, world).events;
    var t := RunTrace(inputs, env, world, submitUrl, apiBaseUrl, update);
    assert t[|s.events| + 1] == e[1];
  }

  /** The one status check of a single-snapshot wait starts with the
      status request. */
  lemma SingleStatusRequest(statusUrl: Result<string, string>, apiToken: string, world: World)
    requires statusUrl.Ok?
    requires |world.statusResponses| == 1 && |world.clock| == 2
    requires PollsEnd(statusUrl, apiToken, world)
    ensures var e := EnsureStepOf(statusUrl, apiToken, world).events;
      |e| > 1 && e[1] == HttpGet(statusUrl.value, "Bearer " + apiToken)
  {
    var attempts := PollAttempts(statusUrl, world.statusResponses, apiToken);
    assert FirstStop(attempts, world.clock, MaxWaitingTimeForSigningRequestCompletionMs) == 0;
    var a := attempts[0].events;
    assert RetryTrace(attempts, MinDelayBetweenSigningRequestStatusChecksMs, MaxDelayBetweenSigningRequestStatusChecksMs, 1) == a;
    assert a[0] == HttpGet(statusUrl.value, "Bearer " + apiToken);
  }

  /** The tests' run from a new task's builder. For the tests' web URL the
      published API URL is https://domain/API; the status request goes
      there only with the corrected update, and as written it goes to the
      default API. */
  lemma TestRunStatusRequest(env: Environment, urlParse: string -> UrlParts, submitUrl: string, update: BaseUpdate)
    requires AgreesWithParseUrl(urlParse)
    ensures var inputs, world := TestInputs(), TestWorld(Ok(CreatedAnswer()), "Completed", urlParse);
      var announced := "https" + "://" + "domain" + "/API";
      var polled := if update.Corrected? then announced else DefaultApiBaseUrl;
      && RunPollsEnd(inputs, env, world, submitUrl, DefaultApiBaseUrl, update)
      && var t := RunTrace(inputs, env, world, submitUrl, DefaultApiBaseUrl, update);
      && SetOutput(SignPathApiUrlOutput, announced) in t
      && HttpGet(SigningRequestUrl(polled, inputs.organizationId, "TEST_ID"), "Bearer " + inputs.apiToken) in t
  {
    var inputs, world := TestInputs(), TestWorld(Ok(CreatedAnswer()), "Completed", urlParse);
    DerivedApiUrlOfTestUrl();
    var announced := "https" + "://" + "domain" + "/API";
    var s := SubmitStepOf(inputs, env, submitUrl, world);
    assert ClassifySubmitResponse(CreatedAnswer()) == Created("TEST_ID", Some(TestSigningRequestUrl));
    assert s.result == Ok("TEST_ID") && s.baseUrl == Some(DeriveBaseUrl(world.urlParse(TestSigningRequestUrl)));
    assert world.urlParse(TestSigningRequestUrl) == ParseUrl(TestSigningRequestUrl).value;
    assert ApiBaseAfter(s, DefaultApiBaseUrl, update) == if update.Corrected? then announced else DefaultApiBaseUrl;
    assert CompletesAtOnce(inputs, world, DefaultApiBaseUrl, update);
    CompletedRunOutputs(inputs, env, world, submitUrl, DefaultApiBaseUrl, update);
    CompletedRunStatusRequest(inputs, env, world, submitUrl, DefaultApiBaseUrl, update);
  }

  /** The submit step starts with the announcement and the request. */
  lemma SubmitStepStarts(inputs: Inputs, env: Environment, submitUrl: string, world: World)
    ensures var s := SubmitStepOf(inputs, env, submitUrl, world);
      && |s.events| > 1 && s.events[0] == CoreInfo(Submitting)
      && s.events[1] == HttpPost(submitUrl, SubmitPayloadOf(inputs, env))
  {
    var pre := SubmitRequestEvents(inputs, env, submitUrl);
    var s := SubmitStepOf(inputs, env, submitUrl, world);
    var tail := SubmitAnswerOf(inputs, world).events;
    assert s.events == pre + tail;
    assert s.events[0] == pre[0] && s.events[1] == pre[1] by {
      assert (pre + tail)[0] == pre[0] && (pre + tail)[1] == pre[1];
    }
  }

  /** Every run starts with the announcement and the submit request; by
      `PayloadCarriesInputs` that request carries the inputs. */
  lemma RunStartsWithSubmit(inputs: Inputs, env: Environment, world: World, submitUrl: string, apiBaseUrl: string, update: BaseUpdate)
    requires RunPollsEnd(inputs, env, world, submitUrl, apiBaseUrl, update)
    ensures var t := RunTrace(inputs, env, world, submitUrl, apiBaseUrl, update);
      && |t| > 1 && t[0] == CoreInfo(Submitting) && t[1] == HttpPost(submitUrl, SubmitPayloadOf(inputs, env))
  {
    var s := SubmitStepOf(inputs, env, submitUrl, world);
    SubmitStepStarts(inputs, env, submitUrl, world);
    var after := AfterSubmit(inputs, world, s, apiBaseUrl, update);
    var b := RunBodyOf(inputs, env, world, submitUrl, apiBaseUrl, update);
    assert b.events == s.events + after.events;
    var t := RunTrace(inputs, env, world, submitUrl, apiBaseUrl, update);
    var rest := after.events + (if b.failure.Some? then [SetFailed(b.failure.value)] else []);
    assert t == s.events + rest;
    assert t[0] == s.events[0] && t[1] == s.events[1];
  }

  /** As written, the derived base never reaches the builder, so the status
      requests keep going to https://signpath.io/Api while the task
      announces https://domain/API: for every organization and request the
      two status URLs differ. */
  lemma AsWrittenStatusUrlMissesDerivedApi(organizationId: string, signingRequestId: string)
    ensures GetSigningRequestUrl(DefaultApiBaseUrl, organizationId, signingRequestId)
         != GetSigningRequestUrl(DeriveBaseUrl(UrlParts("https:", "domain")) + "/API", organizationId, signingRequestId)
  {
    var announced := DeriveBaseUrl(UrlParts("https:", "domain")) + "/API";
    SigningRequestUrlShape(DefaultApiBaseUrl, organizationId, signingRequestId);
    SigningRequestUrlShape(announced, organizationId, signingRequestId);
    var u1 := SigningRequestUrl(DefaultApiBaseUrl, organizationId, signingRequestId);
    var u2 := SigningRequestUrl(announced, organizationId, signingRequestId);
    assert u1[8] == DefaultApiBaseUrl[8] == 's';
    assert u2[8] == announced[8] == 'd';
  }
}
