/** The JSON shapes exchanged with the connector and the SignPath API. A
    field the server may leave out, or send empty, is an `Option`. */
module Dtos {
  import opened Wrappers

  /** A signing request as the status endpoint reports it. */
  datatype SigningRequestDto = SigningRequestDto(
    status: string,
    workflowStatus: string,
    signedArtifactLink: string,
    projectSlug: string,
    isFinalStatus: bool,
    unsignedArtifactLink: string)

  datatype ValidationError = ValidationError(error: string, howToFix: Option<string>)

  datatype ValidationResult = ValidationResult(errors: seq<ValidationError>)

  datatype LogEntry = LogEntry(message: string, level: string)

  /** The connector's answer to a submit. */
  datatype SubmitSigningRequestResult = SubmitSigningRequestResult(
    signingRequestId: Option<string>,
    validationResult: Option<ValidationResult>,
    signingRequestUrl: Option<string>,
    error: Option<string>,
    logs: seq<LogEntry>)

  /** The body of the submit call: the action's inputs and the workflow's
      environment variables (`None` where a variable is not set). */
  datatype SubmitPayload = SubmitPayload(
    apiToken: string,
    artifactName: string,
    gitHubApiUrl: Option<string>,
    gitHubWorkflowRef: Option<string>,
    gitHubWorkflowSha: Option<string>,
    gitHubWorkflowRunId: Option<string>,
    gitHubWorkflowRunAttempt: Option<string>,
    gitHubRepository: Option<string>,
    gitHubToken: string,
    gitHubActionsRuntimeUrl: Option<string>,
    gitHubActionsRuntimeToken: Option<string>,
    signPathOrganizationId: string,
    signPathProjectSlug: string,
    signPathSigningPolicySlug: string,
    signPathArtifactConfigurationSlug: string)

  const LogLevelDebug := "Debug"
  const LogLevelInformation := "Information"
  const LogLevelWarning := "Warning"
  const LogLevelError := "Error"
}
