# SignPath submit-signing-request action, modelled in Dafny

This project models the core of the `submit-signing-request` GitHub action.

The action's task runs in these steps:

1. It sends a signing request to the SignPath GitHub Actions connector.
2. It examines the connector's answer: an error, validation errors, no request created, or a created request.
3. It publishes the request's id, its web URL and the SignPath API URL derived from that web URL.
4. It then polls the SignPath API for the request's status.
   - The polling uses a back-off: one minute at first, doubled each time, capped at twenty minutes, within a budget of one hour.
5. It checks that the final status is `Completed`.
6. It downloads the signed artifact when a destination path is given.

Any error ends the run with exactly one `setFailed`.

Modules, in dependency order:

- `Wrappers`: `Option` and `Result`.
- `Dtos`: the connector's and the API's JSON shapes.
- `Effects`: the observable effects of the task as a trace of `Event`s:
  - `core.info`, `core.error`, the log groups, `setOutput` and `setFailed`;
  - the console lines;
  - the waits;
  - the HTTP requests.

  Each log line and each error text is a `Message`: one constructor per text the task writes, with the values it interpolates as fields. `Effects.Text` renders a message in the task's exact wording. The four output names are the `Output` datatype, rendered by `Effects.OutputName`.
- `Http`: the failure of an HTTP call, and the kinds of `response.data` with their JavaScript truthiness.
- `UriEncoding`: ECMAScript `encodeURIComponent`, with a decoder as its inverse.
- `DecimalParseInt`: ECMAScript `parseInt(value, 10)`, with `None` for `NaN`.
- `UrlText`: `trimSlash`, which both builders share, and the part of Node's `url.parse` the task relies on.
- `Utils`: `executeWithRetries`, `httpErrorResponseToText` and `getInputNumber`.
  - `executeWithRetries` is an imperative method with its loop.
  - It is proved against `FirstStop` and `RetryTrace`, and lemmas about those give its schedule, its clock and its termination.
- `ConnectorUrls`: the connector URL builder. Its fields never change, so it is a datatype.
- `SignPathUrls`: the SignPath URL builder.
  - It is a class, because the task overwrites its API base.
  - The extra `signPathBaseUrl` field models the property that `task.ts` creates on it.
- `TaskSteps`: each step of the task, and the whole run, as functions of the inputs and of a `World`.
  - The step functions say which events the step produces and what it returns.
  - A `World` holds what the connector, the API, the clock and the file download answer.
  - A `BaseUpdate` says what the submit does with the base URL it derives from the web URL. `AsWritten` is the action as it stands: the base goes to a field that no URL is built from. `Corrected` is the repair described under Findings: the API base becomes that base followed by "/API". The run functions, and `SubmitTask.Task.Run`, take it as a parameter.
- `SubmitTask`: the task object as a class.
  - It owns the builder and appends to `events`.
  - Each method is proved equal to its step function.
- `TaskScenarios`: the runs the task's tests describe, and the consequence of the builder update as written.

## Model

| member | source | states |
|---|---|---|
| Utils.Delay | actions/submit-signing-request/utils.ts:16-29 | every delay after the first is at most the maximum delay |
| Utils.Schedule | actions/submit-signing-request/utils.ts:16-29 | the i-th wait of the loop is the i-th delay, for every i |
| Utils.DelayClosedForm | actions/submit-signing-request/utils.ts:5-10 | the k-th delay is min(minimum * 2^(k-1), maximum): start from the minimum, double, then stay at the cap |
| Utils.DelaysNonDecreasing | actions/submit-signing-request/utils.ts:7-10 | for 0 <= minimum <= maximum, every delay lies between the two and no delay is shorter than the one before |
| Utils.FirstStop | actions/submit-signing-request/utils.ts:18-31 | the call the loop stops at succeeds or fails after the budget, and every earlier call does neither |
| Utils.FailedBeforeStop | actions/submit-signing-request/utils.ts:18-31 | every call before the one the loop stops at failed within the budget |
| Utils.ExecuteWithRetries | actions/submit-signing-request/utils.ts:12-33 | it makes FirstStop + 1 calls and returns the last call's outcome; every earlier call failed within the budget; a returned failure came after the budget; its trace has exactly one wait between consecutive calls, none after the last |
| Utils.RetryTraceSleeps | actions/submit-signing-request/utils.ts:27-29 | the waits of a loop that made n calls are exactly the first n-1 delays of the schedule |
| Utils.ElapsedAtLeast | actions/submit-signing-request/utils.ts:24-28 | with a clock that honours the waits, k calls in, at least k minimum delays have elapsed |
| Utils.StopsWithin | actions/submit-signing-request/utils.ts:18-30 | with a positive minimum delay, the loop stops within k + 1 calls once k minimum delays exceed the budget |
| Utils.HttpErrorResponseToText | actions/submit-signing-request/utils.ts:44-60 | a truthy string body is returned as is, a truthy object body as its JSON text, and otherwise the error's message |
| Utils.ResponseTextIsMessageOrBody | actions/submit-signing-request/utils.ts:46-59 | the text differs from the message only when the body is truthy and a string or an object |
| Utils.GetInputNumber | actions/submit-signing-request/utils.ts:35-42 | it fails exactly when parseInt gives NaN, with "Input <name> is not a number", and otherwise returns parseInt's value |
| Utils.GetInputNumberRejects | actions/submit-signing-request/utils.ts:37-40 | the input is rejected exactly when no numeral starts after its leading white space |
| Utils.GetInputNumberOfNumeral | actions/submit-signing-request/utils.ts:35-42 | the decimal text of any integer reads back as that integer |
| Utils.GetInputNumberOfPrefix | actions/submit-signing-request/utils.ts:37 | white space, an optional sign and digits are read as the signed value, whatever follows |
| DecimalParseInt.ParseIntNaN | actions/submit-signing-request/utils.ts:37-38 | parseInt gives NaN exactly when no numeral follows the leading white space |
| DecimalParseInt.ParseIntOf | actions/submit-signing-request/utils.ts:37 | parseInt skips white space, reads an optional sign and the longest run of digits, and ignores the rest |
| DecimalParseInt.ParseIntOfNumeral | actions/submit-signing-request/utils.ts:37 | parseInt inverts the decimal text of any integer |
| UriEncoding.EncodeURIComponent | actions/submit-signing-request/connector-url-builder.ts:7 | the result is made of unreserved characters and upper-case %XX escapes only, and is no shorter than the input |
| UriEncoding.EncodedHasNoDelimiters | actions/submit-signing-request/connector-url-builder.ts:15 | an encoded id never holds '/', '?', '&' or '#', so it cannot change a URL's path or query |
| UriEncoding.EncodeIdentity | actions/submit-signing-request/connector-url-builder.ts:7 | text made of unreserved characters only, such as a UUID, is left unchanged |
| UriEncoding.DecodeEncode | actions/submit-signing-request/signpath-url-builder.ts:20 | percent-decoding an encoded string gives the string back |
| UriEncoding.EncodeInjective | actions/submit-signing-request/signpath-url-builder.ts:20 | distinct ids are encoded differently |
| UrlText.TrimSlash | actions/submit-signing-request/connector-url-builder.ts:22-27 | a text ending in '/' loses that one '/' and any other text is kept unchanged |
| UrlText.TrimSlashOfAppended | actions/submit-signing-request/signpath-url-builder.ts:23-28 | appending one '/' and trimming gives the text back |
| UrlText.TrimSlashRemovesOne | actions/submit-signing-request/signpath-url-builder.ts:23-28 | only one trailing '/' is removed |
| UrlText.ParseUrlOf | actions/submit-signing-request/task.ts:150 | for scheme://host/path with a lower-case scheme and a plain host name, the protocol is the scheme with its ':' and the host is the host |
| ConnectorUrls.UrlShapes | actions/submit-signing-request/connector-url-builder.ts:5-20 | the route and the submit, status and signed-artifact URLs, written out from the trimmed base, the encoded ids and api-version 1.0 |
| ConnectorUrls.SubmitUrlOfPlainIds | actions/submit-signing-request/connector-url-builder.ts:10-12 | with a base without a trailing '/' and an organization id of unreserved characters (a UUID, say), the submit URL holds the id verbatim |
| ConnectorUrls.StatusUrlOfPlainIds | actions/submit-signing-request/connector-url-builder.ts:14-16 | with ids of unreserved characters, the status URL is base/org/SigningRequests/id/Status?api-version=1.0 |
| ConnectorUrls.SignedArtifactUrlOfPlainIds | actions/submit-signing-request/connector-url-builder.ts:18-20 | with ids of unreserved characters, the artifact URL is base/org/SigningRequests/id/SignedArtifact?api-version=1.0 |
| ConnectorUrls.TrailingSlashIgnored | actions/submit-signing-request/connector-url-builder.ts:5-8 | a base given with a trailing '/' builds the same builder, and so the same URLs, as without it |
| ConnectorUrls.UrlsShareRouteAndQuery | actions/submit-signing-request/connector-url-builder.ts:10-20 | all three URLs start with the route and end in the single api-version query, with no other '?' or '&' |
| ConnectorUrls.RequestUrlInjective | actions/submit-signing-request/connector-url-builder.ts:14-20 | equal request URLs on one route have equal ids and equal resources |
| ConnectorUrls.RequestUrlsDistinct | actions/submit-signing-request/connector-url-builder.ts:14-20 | distinct requests get distinct status and artifact URLs, and no status URL is an artifact URL |
| SignPathUrls.GetSigningRequestUrl | actions/submit-signing-request/signpath-url-builder.ts:14-21 | it fails exactly when the API base is empty, with "SignPath Base Url is not set", and otherwise gives base/v1/org/SigningRequests/id with both ids encoded |
| SignPathUrls.SignPathUrlBuilder.constructor | actions/submit-signing-request/signpath-url-builder.ts:3-8 | the API base starts at https://signpath.io/Api and the connector base is trimmed of one trailing '/' |
| SignPathUrls.SignPathUrlBuilder.BuildSubmitSigningRequestUrl | actions/submit-signing-request/signpath-url-builder.ts:10-12 | the submit URL is the connector base followed by "/api/sign" |
| SignPathUrls.SignPathUrlBuilder.BuildGetSigningRequestUrl | actions/submit-signing-request/signpath-url-builder.ts:14-21 | the status URL is built from the builder's current API base |
| SignPathUrls.SigningRequestUrlInjective | actions/submit-signing-request/signpath-url-builder.ts:20 | on one API base, equal status URLs have equal organization and request ids |
| SignPathUrls.SigningRequestUrlShape | actions/submit-signing-request/signpath-url-builder.ts:20 | the URL extends the API base and holds no query and no fragment past it, whatever the ids |
| TaskSteps.MaxWaitingTimeText | actions/submit-signing-request/task.ts:217 | the budget of one hour is printed as "01:00" |
| TaskSteps.PayloadCarriesInputs | actions/submit-signing-request/task.ts:88-104 | the payload carries the token, the organization, the project, the policy, the artifact configuration, the artifact name and the GitHub token under its own field names |
| TaskSteps.SubmitFailureTextAgrees | actions/submit-signing-request/task.ts:111-117 | a failed submit call fails with the same text as httpErrorResponseToText, except on object bodies |
| TaskSteps.ClassifySubmitResponse | actions/submit-signing-request/task.ts:120-148 | a truthy error wins; then a non-empty validation list; then a missing or empty id; otherwise the request is created, each case if and only if its condition holds |
| TaskSteps.EmptyValidationResultPasses | actions/submit-signing-request/task.ts:125 | an empty list of validation errors does not stop a request with an id |
| TaskSteps.ValidationLogLines | actions/submit-signing-request/task.ts:132-138 | one "[error]" line per validation error, carrying that error's text, in order; the info lines are exactly the truthy remedies |
| TaskSteps.ValidationLogNoFailure | actions/submit-signing-request/task.ts:132-138 | logging the validation errors never calls setFailed |
| TaskSteps.DeriveBaseUrlOf | actions/submit-signing-request/task.ts:150-151 | the base derived from scheme://host/path is scheme://host |
| TaskSteps.DerivedApiUrlOfTestUrl | actions/submit-signing-request/task.ts:160 | for the web URL https://domain/api/SigningRequests the published API URL is https://domain/API |
| TaskSteps.SubmitAnswerOf | actions/submit-signing-request/task.ts:111-162 | the connector's answer yields a request id exactly when it yields a derived base |
| TaskSteps.SubmitOutcome | actions/submit-signing-request/task.ts:107-150 | the submit's result for each kind of answer: the call's failure text, the connector's error, the validation failure, the not-created message, the id, or, for a created request without a web URL, the TypeError of `url.parse` |
| TaskSteps.SubmitCreatedOutputs | actions/submit-signing-request/task.ts:153-160 | a created request with a web URL publishes its id, that URL and the derived base followed by "/API" |
| TaskSteps.StatusBaseAfterCreated | actions/submit-signing-request/task.ts:150-160 | after a created request, the status base is the published API URL with the corrected update, and stays the builder's base as written |
| TaskSteps.SubmitStepNoFailure | actions/submit-signing-request/task.ts:83-163 | the submit itself never calls setFailed |
| TaskSteps.PollDecision | actions/submit-signing-request/task.ts:194-201 | a snapshot passes exactly when it is final, and otherwise becomes the retry signal |
| TaskSteps.PollAttempt | actions/submit-signing-request/task.ts:169-203 | a status check succeeds exactly when the URL can be built, the call succeeds and the snapshot is final, and then returns that snapshot |
| TaskSteps.PollAttemptOutcome | actions/submit-signing-request/task.ts:183-201 | how each status check fails: no API base, a string body, a transport message, or a snapshot that is not final |
| TaskSteps.CatchPollFailure | actions/submit-signing-request/task.ts:207-213 | a string body that wrapped a failure is recovered as data; every other failure is passed on with its message |
| TaskSteps.CheckCompletion | actions/submit-signing-request/task.ts:215-226 | the check passes, with the snapshot, exactly when the data is a final snapshot whose status is "Completed" |
| TaskSteps.CheckCompletionNamesStatus | actions/submit-signing-request/task.ts:219-222 | a failed check says the request is not completed and ends with the status it saw |
| TaskSteps.EnsureOutcome | actions/submit-signing-request/task.ts:165-227 | the wait ends with the completed snapshot, the final-status message, the retry message, the "current status" message for a string body, the missing-base message or the transport message, by how the last check ended |
| TaskSteps.EnsureStepNoFailure | actions/submit-signing-request/task.ts:165-227 | polling never calls setFailed |
| TaskSteps.RunFailsAtMostOnce | actions/submit-signing-request/task.ts:30-45 | a run, as written or corrected, calls setFailed once, as its last effect, when a step fails, and never otherwise |
| TaskSteps.RunWithoutDestination | actions/submit-signing-request/task.ts:34 | without a destination path the run ends after the submit: no status check, no download |
| SubmitTask.Task.constructor | actions/submit-signing-request/task.ts:26-28 | the task's builder starts from the connector URL input, with the default API base |
| SubmitTask.Task.LogValidationErrors | actions/submit-signing-request/task.ts:132-138 | the loop logs exactly the validation log of the errors |
| SubmitTask.Task.ReportAnswer | actions/submit-signing-request/task.ts:111-162 | effects, result and derived base as the connector's answer: the call error, the connector's error, the validation report, the not-created message, the TypeError for a missing web URL, or the created request's logs and outputs |
| SubmitTask.Task.SubmitSigningRequest | actions/submit-signing-request/task.ts:83-163 | effects and result as the submit step, and the builder's API base becomes the announced base + "/API" |
| SubmitTask.Task.SubmitSigningRequestAsWritten | actions/submit-signing-request/task.ts:150-151 | effects and result as the submit step, and the builder's API base is left unchanged |
| SubmitTask.Task.Submit | actions/submit-signing-request/task.ts:83-163 | effects and result as the submit step; the builder's API base ends as `ApiBaseAfter` says for the chosen update, its connector base is kept, and only as written does `signPathBaseUrl` take the derived base |
| SubmitTask.Task.EnsureSigningRequestCompleted | actions/submit-signing-request/task.ts:165-227 | effects and result as the polling step, from the builder's status URL |
| SubmitTask.Task.CheckCompletionReport | actions/submit-signing-request/task.ts:215-226 | effects and result as the final check |
| SubmitTask.Task.DownloadTheSignedArtifact | actions/submit-signing-request/task.ts:229-237 | publishes and logs the artifact link, requests it with the API token, and returns the download's failure |
| SubmitTask.Task.CompleteAndDownload | actions/submit-signing-request/task.ts:36-37 | effects as the polling step followed, when it succeeds, by the download; the failure is the polling error, else the download's |
| SubmitTask.Task.StepsAfterSubmit | actions/submit-signing-request/task.ts:34-37 | after the submit: its error, nothing without a destination path, else the polling and the download, exactly as the step functions say |
| SubmitTask.Task.RunSteps | actions/submit-signing-request/task.ts:32-40 | the effects and the error of the steps are exactly the run body of its inputs, its world and the chosen update; the builder ends with the API base that update leaves and its connector base unchanged |
| SubmitTask.Task.Run | actions/submit-signing-request/task.ts:30-45 | the task's effects are exactly the run trace of its inputs, its world and the chosen update: the steps, then one setFailed when they failed; the builder ends as in `RunSteps` |
| TaskScenarios.SubmitErrorFailsOnce | actions/submit-signing-request/task.ts:120-123 | a connector error "Failed" fails the run once, with "Failed" |
| TaskScenarios.SingleFinalSnapshot | actions/submit-signing-request/task.ts:165-227 | when the first status check returns a final snapshot, polling ends there: with the snapshot if its status is "Completed", and otherwise with the final-status message naming that status |
| TaskScenarios.FinalStatusFailsOnce | actions/submit-signing-request/task.ts:215-222 | a final status other than "Completed" (the tests use TEST_FAILED) fails the run once, with the final-status message naming that status |
| TaskScenarios.ValidationErrorsFailOnce | actions/submit-signing-request/task.ts:125-143 | a validation error fails the run once, with "CI system validation failed.", after logging the error and its remedy |
| TaskScenarios.ConnectorHttpErrorFailsOnce | actions/submit-signing-request/task.ts:111-117 | a submit call failing with the body "Http call error" fails the run once, with that body |
| TaskScenarios.CompletedRunTrace | actions/submit-signing-request/task.ts:30-45 | a created request that completes at once runs the submit, the wait and the download, in that order, and does not fail |
| TaskScenarios.CompletedRunOutputs | actions/submit-signing-request/task.ts:153-160 | a created and completed request publishes its id, its web URL, the derived API URL and the artifact link, and the run does not fail |
| TaskScenarios.SingleStatusRequest | actions/submit-signing-request/task.ts:169-182 | a wait on one final snapshot starts with the status request to the status URL, with the API token |
| TaskScenarios.CompletedRunStatusRequest | actions/submit-signing-request/task.ts:169-182 | the status request of such a run goes to the status URL on the API base the submit leaves in the builder |
| TaskScenarios.TestRunStatusRequest | actions/submit-signing-request/task.ts:150-160 | the tests' run from a new builder publishes https://domain/API, and sends its status request there only when corrected; as written it goes to https://signpath.io/Api |
| TaskScenarios.RunStartsWithSubmit | actions/submit-signing-request/task.ts:85-110 | every run starts with the announcement and the submit request carrying the payload |
| TaskScenarios.AsWrittenStatusUrlMissesDerivedApi | actions/submit-signing-request/task.ts:151 | the status URL on the default API base is never the one on the announced base https://domain/API |

## Left out

- The surrounding program is not part of this model: `index.ts`, `config.ts`, `helper-input-output.ts`, `helper-artifact-download.ts`, `timeout-stream.ts` and the build scripts. They lie outside the core: input, output and file plumbing around the task.
- `core.getInput` is not modelled: its trimming and its "required" errors are left out. `Inputs` holds the values it returns, and `GetInputNumber` takes the value as a parameter.
- `process.env` is not read; it becomes the `Environment` datatype, with `None` for an unset variable.
- The HTTP calls, the clock, the sleeps and the download are not performed. The `World` datatype supplies their answers and the readings of `Date.now()`.
  - The status call's answers are a sequence, one per call.
- `Utils.ExecuteWithRetries` takes the outcomes of the calls as a sequence rather than calling a closure.
  - It requires that the sequence reaches a stop: a success, or a failure after the budget.
  - A run that polls forever is not modelled.
  - `Utils.StopsWithin` proves that a clock which honours the waits always reaches such a stop.
- The text of `moment.duration(delay).humanize()` is left out; the console line is the event `NextCheckIn(delay)`.
- `moment.utc(...).format("hh:mm")` is modelled only as the hour on a 12-hour clock and the minute (`TaskSteps.ClockTimeText`).
- Node's `url.parse` is modelled only for lower-case scheme://host[/path] URLs, in `UrlText.ParseUrl`. The task takes the parser from `World.urlParse`; the scenario for the tests' URL requires that this parser agrees with `ParseUrl` there.
- `TaskSteps.CatchPollFailure`: a transport error message that itself starts with '{' would be JSON-parsed by the task; the model passes it on as a message, because `JSON.parse` is not modelled.
- `TaskSteps.PollAttempt`: a falsy status body (null, empty) and missing JSON fields are not modelled; a body is either a full snapshot or a failure.
- The connector's `logs` are carried in `SubmitSigningRequestResult` but not re-emitted, as the task does not emit them either.
- `SubmitTask.Task.DownloadTheSignedArtifact`: the effects after the request are left out, because they are file-system calls. These are joining the workspace path, creating the directory, streaming to the file and its log lines, and `logArtifactFileStat`'s size text. The download's outcome comes from `World.downloadError`.
- `UriEncoding.EncodeURIComponent`: lone surrogates, which make JavaScript throw a `URIError`, are not modelled; a `char` here is a Unicode scalar value.
- `DecimalParseInt.ParseInt`: values beyond 2^53, which JavaScript rounds to a double, and `-0` are read as exact integers.
- `SubmitTask.Task.Run`, `SubmitTask.Task.RunSteps` and `TaskSteps.RunBodyOf` model the action as written only with `AsWritten`. With `Corrected` they follow the repaired line 151 of the Findings, which the action does not do.
- `TaskSteps.SubmitCreatedOutputs` states what a created request publishes, not where the status requests then go. `TaskSteps.StatusBaseAfterCreated` states that: the published API URL only when corrected, the builder's unchanged base as written.
- `TaskSteps.SubmitAnswerOf`: a web URL that is JSON `null` is not modelled apart from an absent one. For an absent one the model fails with the TypeError text of current Node versions; older versions word it differently.
- Where the tests and the code disagree, the code is followed:
  - `tests/utils.test.ts` expects retry and result objects that `utils.ts` does not produce;
  - `tests/task.test.ts` builds `Task` with two arguments and stubs `github-artifact-name`, while `task.ts` reads `artifact-name`.

## Findings

| source | as written | input that shows it | evidently intended | confidence | as-written member | corrected member |
|---|---|---|---|---|---|---|
| actions/submit-signing-request/task.ts:151 | the base derived from the web URL is stored in a new `signPathBaseUrl` property that the builder never reads, so the status requests keep using https://signpath.io/Api | a created request whose web URL is https://domain/api/SigningRequests: the task publishes https://domain/API, yet polls https://signpath.io/Api/v1/... | the status requests use the published API base, base + "/API" | not executed; medium | SubmitTask.Task.SubmitSigningRequestAsWritten, TaskScenarios.AsWrittenStatusUrlMissesDerivedApi, TaskScenarios.TestRunStatusRequest | SubmitTask.Task.SubmitSigningRequest, TaskSteps.StatusBaseAfterCreated |
