/** The observable effects of a run, recorded in order: the `@actions/core`
    logging and output calls, console output, outbound HTTP requests and the
    sleeps of the retry loop. */
module Effects {
  import opened Dtos

  /** What the task logs or fails with. Each of the task's own texts is a
      constructor, with the values it interpolates; `Text` gives its exact
      wording. `Verbatim` is a text passed on unchanged (a connector error,
      a remedy, a transport message). */
  datatype Message =
    | Verbatim(text: string)
    | Submitting
    | SubmitCallError(error: string)
    | ValidationGroupTitle
    | ValidationHeader(artifactName: string)
    | ValidationErrorLine(error: string)
    | CiValidationFailed
    | RequestNotCreated
    | MissingUrlArgument  // the TypeError of Node's `url.parse` when it is given no URL
    | RequestSubmitted
    | RequestIdIs(signingRequestId: string)
    | RequestViewAt(signingRequestUrl: string)
    | Checking
    | StatusNotFinal(status: string)
    | StatusCallError(error: string)
    | StatusUrlIs(url: string)
    | StatusIs(status: string)
    | WaitExceeded(maxWaitingTime: string)
    | CurrentStatusNotCompleted(status: string)
    | FinalStatusNotCompleted(status: string)
    | RetryStatusCheck
    | SignedArtifactUrl(link: string)

  const NotCompletedText := "The signing request is not completed."

  /** The wording of each message, as the task writes it. */
  function Text(m: Message): string
  {
    match m
    case Verbatim(t) => t
    case Submitting => "Submitting the signing request to SignPath CI connector..."
    case SubmitCallError(e) => "SignPath API call error: " + e + "."
    case ValidationGroupTitle => "CI system setup validation errors"
    case ValidationHeader(name) =>
      "[error]Build artifact \"" + name
        + "\" cannot be signed because of continuous integration system setup validation errors:"
    case ValidationErrorLine(e) => "[error]" + e
    case CiValidationFailed => "CI system validation failed."
    case RequestNotCreated =>
      "SignPath signing request was not created. Please make sure that SignPathConnectorUrl is pointing to the SignPath GitHub Actions connector endpoint."
    case MissingUrlArgument => "The \"url\" argument must be of type string. Received undefined"
    case RequestSubmitted => "SignPath signing request has been successfully submitted"
    case RequestIdIs(id) => "The signing request id is " + id
    case RequestViewAt(u) => "You can view the signing request here: " + u
    case Checking => "Checking the signing request status..."
    case StatusNotFinal(st) =>
      "The signing request status is " + st + ", which is not a final status; after a delay, we will check again..."
    case StatusCallError(e) => "SignPath API call error: " + e
    case StatusUrlIs(u) => "Signing request details API URL is: " + u
    case StatusIs(st) => "Signing request status is " + st
    case WaitExceeded(t) =>
      "We have exceeded the maximum waiting time, which is " + t + ", and the signing request is still not in a final state"
    case CurrentStatusNotCompleted(st) => NotCompletedText + " The current status is \"" + st
    case FinalStatusNotCompleted(st) => NotCompletedText + " The final status is \"" + st
    case RetryStatusCheck => "Retry signing request status check."
    case SignedArtifactUrl(l) => "Signed artifact url " + l
  }

  /** The outputs the action sets. */
  datatype Output = SigningRequestIdOutput | SigningRequestWebUrlOutput | SignPathApiUrlOutput | SignedArtifactDownloadUrlOutput

  function OutputName(o: Output): string
  {
    match o
    case SigningRequestIdOutput => "signing-request-id"
    case SigningRequestWebUrlOutput => "signing-request-web-url"
    case SignPathApiUrlOutput => "signpath-api-url"
    case SignedArtifactDownloadUrlOutput => "signed-artifact-download-url"
  }

  datatype Event =
    | CoreInfo(message: Message)                // core.info
    | CoreError(message: Message)               // core.error
    | StartGroup(title: Message)                // core.startGroup
    | EndGroup                                  // core.endGroup
    | SetOutput(output: Output, value: string)  // core.setOutput
    | SetFailed(message: Message)               // core.setFailed
    | ConsoleError(text: string)                // console.error
    | NextCheckIn(delayMs: int)                 // console.log of the humanized delay
    | Sleep(delayMs: int)                       // the awaited setTimeout
    | HttpPost(url: string, payload: SubmitPayload)   // axios.post of the submit payload
    | HttpGet(url: string, authorization: string)
    | DownloadArtifact(link: string, authorization: string, destination: string)

  /** Number of `setFailed` calls in a trace. */
  function FailureCount(trace: seq<Event>): nat
  {
    if trace == [] then 0
    else (if trace[|trace| - 1].SetFailed? then 1 else 0) + FailureCount(trace[..|trace| - 1])
  }

  /** A trace that calls `setFailed` nowhere. */
  predicate NoFailure(trace: seq<Event>)
  {
    forall i :: 0 <= i < |trace| ==> !trace[i].SetFailed?
  }

  lemma {:induction false} NoFailureCount(trace: seq<Event>)
    requires NoFailure(trace)
    ensures FailureCount(trace) == 0
  {
    if trace != [] {
      NoFailureCount(trace[..|trace| - 1]);
    }
  }

  lemma NoFailureAppend(a: seq<Event>, b: seq<Event>)
    requires NoFailure(a) && NoFailure(b)
    ensures NoFailure(a + b)
  {
    forall i | 0 <= i < |a + b|
      ensures !(a + b)[i].SetFailed?
    {
      if i >= |a| {
        assert (a + b)[i] == b[i - |a|];
      }
    }
  }

  lemma {:induction false} FailureCountAppend(a: seq<Event>, b: seq<Event>)
    ensures FailureCount(a + b) == FailureCount(a) + FailureCount(b)
  {
    if b != [] {
      assert (a + b)[..|a + b| - 1] == a + b[..|b| - 1];
      FailureCountAppend(a, b[..|b| - 1]);
    } else {
      assert a + b == a;
    }
  }
}
