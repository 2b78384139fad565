/**
 * The two endpoint wrappers (internal/api/deployment.go, internal/api/build.go):
 * the payloads, the decoded responses, and one POST each, composed of the retry
 * loop and the response handling of `ApiClient`.
 */
module Events {
  import opened Wrappers
  import opened Json
  import opened ApiClient

  /** A parsed RFC 3339 timestamp, as nanoseconds since the Unix epoch. */
  type Instant = int

  /** `DeploymentEventCreate`. Optional fields are "" when absent, and an empty
      `extraMetadata` is omitted from the payload like a nil map. */
  datatype DeploymentEventCreate = DeploymentEventCreate(
    productName: string, version: string, environmentName: string, status: string,
    sourceSystem: string, buildNumber: string, scmSha: string, scmRepository: string,
    deployURL: string, invokeID: string,
    deployedBy: string, deployedByEmail: string, deployedByName: string,
    completedAt: Option<Instant>, skipPreflightChecks: bool,
    extraMetadata: map<string, Value>)

  /** `DeploymentResponse`. */
  datatype DeploymentResponse = DeploymentResponse(
    id: string, productID: string, versionID: string, environmentID: string,
    status: string, deployedAt: Option<Instant>)

  /** `BuildEventCreate`. */
  datatype BuildEventCreate = BuildEventCreate(
    productName: string, version: string, status: string,
    sourceSystem: string, buildNumber: string, scmSha: string, scmBranch: string,
    scmRepository: string, buildURL: string, invokeID: string,
    builtBy: string, builtByEmail: string, builtByName: string,
    startedAt: Option<Instant>, completedAt: Option<Instant>,
    extraMetadata: map<string, Value>)

  /** `BuildResponse`. */
  datatype BuildResponse = BuildResponse(
    id: string, productID: string, versionID: string, status: string,
    startedAt: Option<Instant>, completedAt: Option<Instant>)

  const DeploymentEventsPath: string := "/deployment-events/"

  const BuildEventsPath: string := "/build-events/"

  /** `CreateDeploymentEvent`: one POST to /deployment-events/; a loop error is
      returned as it is, and only a response is handed to `handleResponse`.
      `Result` holds exactly one of the response and the error. */
  method CreateDeploymentEvent(
    c: Client, event: DeploymentEventCreate, transport: Transport<DeploymentEventCreate>,
    parse: string -> Result<DeploymentResponse, string>, decode: string -> Decoded)
    returns (r: Result<DeploymentResponse, Error>)
    ensures r == Submit(c, DeploymentEventsPath, event, transport, parse, decode)
  {
    var resp, attempts;
    ghost var pauses;
    resp, attempts, pauses := DoRequest(c, "POST", DeploymentEventsPath, event, transport);
    if resp.Failure? {
      return Failure(Plain(resp.error));
    }
    r := HandleResponse(resp.value, parse, decode);
  }

  /** `CreateBuildEvent`: the same composition, POSTing to /build-events/. */
  method CreateBuildEvent(
    c: Client, event: BuildEventCreate, transport: Transport<BuildEventCreate>,
    parse: string -> Result<BuildResponse, string>, decode: string -> Decoded)
    returns (r: Result<BuildResponse, Error>)
    ensures r == Submit(c, BuildEventsPath, event, transport, parse, decode)
  {
    var resp, attempts;
    ghost var pauses;
    resp, attempts, pauses := DoRequest(c, "POST", BuildEventsPath, event, transport);
    if resp.Failure? {
      return Failure(Plain(resp.error));
    }
    r := HandleResponse(resp.value, parse, decode);
  }

  /** A deployment rejected by a preflight check (409, 423 or 428 on the first
      answer) comes back after one request as a preflight `APIError`. */
  lemma PreflightRejection(
    c: Client, event: DeploymentEventCreate, transport: Transport<DeploymentEventCreate>,
    parse: string -> Result<DeploymentResponse, string>, decode: string -> Decoded)
    requires var a := transport(BuildRequest(c, "POST", DeploymentEventsPath, event), 0);
      a.Answered? && a.response.body.Content? &&
      (a.response.statusCode == 409 || a.response.statusCode == 423 || a.response.statusCode == 428)
    ensures Retry(BuildRequest(c, "POST", DeploymentEventsPath, event), transport).attempts == 1
    ensures var r := Submit(c, DeploymentEventsPath, event, transport, parse, decode);
      r.Failure? && r.error.Api? && IsPreflightError(r.error.api)
  {
    ClientErrorAfterOneRequest(c, DeploymentEventsPath, event, transport, parse, decode);
  }
}
