/**
 * The two tracking commands (internal/cmd/track_deployment.go and
 * internal/cmd/track_build.go): how each field is resolved from the command
 * line, the configuration and the detected CI system, the local checks made
 * before anything is sent, and how the outcome of the submission becomes an
 * exit code and a GitHub Actions report.
 *
 * The command line is the flags the user gave; the configuration is what
 * viper reads from the config file and the VERSIONER_ variables, and `Viper`
 * combines the two as `viper.GetString` does. Timestamp
 * parsing, the metadata merge, the JSON decoder and the `%v` rendering of an
 * error detail are parameters.
 */
module Track {
  import opened Wrappers
  import opened Json
  import Status
  import Detector
  import Metadata
  import opened ApiClient
  import opened Events

  // ---------------------------------------------------------------------------
  // Flags and configuration.

  /** The settings the two commands read. Each is a viper key, `ConfigKey`
      (a configuration file entry, or the variable VERSIONER_<key> in upper
      case). All but the last three are also a flag of a tracking command,
      the key with '-' for '_'; `ApiUrl` and `ApiKey` are the root command's
      `--api-url` and `--api-key`, and `UiUrl` has no flag. */
  datatype Setting =
    | Product | Environment | Version | StatusSetting | SourceSystem | BuildNumber
    | ScmSha | ScmBranch | ScmRepository | DeployUrl | BuildUrl | InvokeId
    | DeployedBy | DeployedByEmail | DeployedByName | BuiltBy | BuiltByEmail | BuiltByName
    | StartedAt | CompletedAt | ExtraMetadata | FailOnApiErrorSetting | SkipPreflightChecks
    | ApiUrl | ApiKey | UiUrl

  function ConfigKey(s: Setting): string {
    match s
    case Product => "product"
    case Environment => "environment"
    case Version => "version"
    case StatusSetting => "status"
    case SourceSystem => "source_system"
    case BuildNumber => "build_number"
    case ScmSha => "scm_sha"
    case ScmBranch => "scm_branch"
    case ScmRepository => "scm_repository"
    case DeployUrl => "deploy_url"
    case BuildUrl => "build_url"
    case InvokeId => "invoke_id"
    case DeployedBy => "deployed_by"
    case DeployedByEmail => "deployed_by_email"
    case DeployedByName => "deployed_by_name"
    case BuiltBy => "built_by"
    case BuiltByEmail => "built_by_email"
    case BuiltByName => "built_by_name"
    case StartedAt => "started_at"
    case CompletedAt => "completed_at"
    case ExtraMetadata => "extra_metadata"
    case FailOnApiErrorSetting => "fail_on_api_error"
    case SkipPreflightChecks => "skip_preflight_checks"
    case ApiUrl => "api_url"
    case ApiKey => "api_key"
    case UiUrl => "ui_url"
  }

  /** The flags set on the command line, the root command's included. A flag
      that is absent reads as its default and is not `Changed`; one given as
      `--name=` is in the map with the value "". */
  datatype Flags = Flags(strings: map<Setting, string>, bools: map<Setting, bool>)

  function FlagString(f: Flags, s: Setting, default: string): string {
    if s in f.strings then f.strings[s] else default
  }

  function FlagBool(f: Flags, s: Setting, default: bool): bool {
    if s in f.bools then f.bools[s] else default
  }

  predicate Changed(f: Flags, s: Setting) {
    s in f.strings || s in f.bools
  }

  /** What viper finds for a key apart from flags and defaults: the
      VERSIONER_ variable (one set to "" counts as unset) or the config file
      entry. A missing key reads here as "" or false and is not `IsSet`;
      `Viper` adds the flags and the `api_url` default. */
  datatype Config = Config(strings: map<Setting, string>, bools: map<Setting, bool>)

  function ConfigString(c: Config, s: Setting): string {
    if s in c.strings then c.strings[s] else ""
  }

  function ConfigBool(c: Config, s: Setting): bool {
    s in c.bools && c.bools[s]
  }

  predicate IsSet(c: Config, s: Setting) {
    s in c.strings || s in c.bools
  }

  /** The command being run. */
  datatype Command = DeploymentCommand | BuildCommand

  /** The keys `viper.BindPFlag` ties to a flag the running command parses.
      The root command's `--api-url` and `--api-key` are bound for both. Both
      commands' `init` bind the keys they share, and track_deployment.go is
      initialised after track_build.go (Go initialises a package's files in
      name order), so its binding wins: in a build run those keys are tied to
      flags of the deployment command, which are never given, and only the
      build-only keys follow the build's flags. */
  predicate BoundTo(cmd: Command, s: Setting) {
    s == ApiUrl || s == ApiKey ||
    (match cmd
     case DeploymentCommand =>
       s == Product || s == Environment || s == Version || s == StatusSetting ||
       s == SourceSystem || s == BuildNumber || s == ScmSha || s == ScmRepository ||
       s == DeployUrl || s == InvokeId || s == DeployedBy || s == DeployedByEmail ||
       s == DeployedByName || s == FailOnApiErrorSetting
     case BuildCommand =>
       s == ScmBranch || s == BuildUrl || s == BuiltBy || s == BuiltByEmail || s == BuiltByName)
  }

  /** The one default set with `viper.SetDefault`. The flag defaults viper
      would fall back to last are "" for every key read through viper. */
  const DefaultApiUrl: string := "https://api.versioner.io"

  /** `viper.GetString(key)` in the command `cmd`. */
  function Viper(cmd: Command, f: Flags, c: Config, s: Setting): string {
    if BoundTo(cmd, s) && s in f.strings then f.strings[s]
    else if s in c.strings then c.strings[s]
    else if s == ApiUrl then DefaultApiUrl
    else ""
  }

  /** viper's precedence: a bound flag that was given wins, even when it was
      given as ""; then the variable or config file entry; then the
      `api_url` default, and "" for any other key. A key with no flag of the
      running command reads as the configuration. */
  lemma ViperPrecedence(cmd: Command, f: Flags, c: Config, s: Setting)
    ensures var v := Viper(cmd, f, c, s);
      (BoundTo(cmd, s) && s in f.strings ==> v == f.strings[s]) &&
      (!(BoundTo(cmd, s) && s in f.strings) && s in c.strings ==> v == c.strings[s]) &&
      (!(BoundTo(cmd, s) && s in f.strings) && s !in c.strings ==> v == (if s == ApiUrl then DefaultApiUrl else "")) &&
      (!BoundTo(cmd, s) && s != ApiUrl ==> v == ConfigString(c, s))
  {
  }

  // ---------------------------------------------------------------------------
  // Precedence.

  /** The first non-empty candidate, or "" when all are empty. */
  function FirstNonEmpty(candidates: seq<string>): string {
    if candidates == [] then ""
    else if candidates[0] != "" then candidates[0]
    else FirstNonEmpty(candidates[1..])
  }

  /** `FirstNonEmpty` is one of the candidates, preceded only by empty ones,
      and empty only when every candidate is. */
  lemma {:induction false} FirstNonEmptyIsFirst(candidates: seq<string>)
    ensures var v := FirstNonEmpty(candidates);
      (v == "" <==> forall i :: 0 <= i < |candidates| ==> candidates[i] == "") &&
      (v != "" ==> exists k :: 0 <= k < |candidates| && candidates[k] == v &&
                     forall i :: 0 <= i < k ==> candidates[i] == "")
  {
    if candidates != [] && candidates[0] == "" {
      var rest := candidates[1..];
      FirstNonEmptyIsFirst(rest);
      var v := FirstNonEmpty(candidates);
      assert v == FirstNonEmpty(rest);
      if v != "" {
        var k :| 0 <= k < |rest| && rest[k] == v && forall i :: 0 <= i < k ==> rest[i] == "";
        assert candidates[k + 1] == v;
        assert forall i :: 0 <= i < k + 1 ==> candidates[i] == "" by {
          forall i | 0 <= i < k + 1 ensures candidates[i] == "" {
            if i > 0 { assert candidates[i] == rest[i - 1]; }
          }
        }
      } else {
        forall i | 0 <= i < |candidates| ensures candidates[i] == "" {
          if i > 0 { assert candidates[i] == rest[i - 1]; }
        }
      }
    }
  }

  /** `getWithFallback`: the flag if it is non-empty, else the configuration
      value if that is non-empty, else the detected value. */
  function GetWithFallback(flag: string, config: string, fallback: string): (v: string)
    ensures v == "" <==> flag == "" && config == "" && fallback == ""
  {
    if flag != "" then flag
    else if config != "" then config
    else fallback
  }

  /** `getWithFallback` is the first non-empty of flag, configuration and
      detected value. */
  lemma GetWithFallbackIsFirstNonEmpty(flag: string, config: string, fallback: string)
    ensures GetWithFallback(flag, config, fallback) == FirstNonEmpty([flag, config, fallback])
  {
    assert [flag, config, fallback][1..] == [config, fallback];
    assert [config, fallback][1..] == [fallback];
    assert [fallback][1..] == [];
    assert FirstNonEmpty([fallback]) == fallback;
    assert FirstNonEmpty([config, fallback]) == if config != "" then config else fallback;
  }

  /** The value of `getWithFallback(flagName, viperKey, fallback)` in the
      command `cmd`. */
  function Fallback(cmd: Command, f: Flags, c: Config, s: Setting, fallback: string): string {
    GetWithFallback(FlagString(f, s, ""), Viper(cmd, f, c, s), fallback)
  }

  /** `getWithFallback` gives a non-empty flag; else, when a bound flag was
      given as "", the fallback, since viper answers with that flag; else the
      configuration if it is non-empty, else the fallback. */
  lemma FallbackCases(cmd: Command, f: Flags, c: Config, s: Setting, fallback: string)
    ensures var v := Fallback(cmd, f, c, s, fallback);
      (FlagString(f, s, "") != "" ==> v == FlagString(f, s, "")) &&
      (BoundTo(cmd, s) && s in f.strings && f.strings[s] == "" ==> v == fallback) &&
      (!(BoundTo(cmd, s) && s in f.strings) && FlagString(f, s, "") == "" && s != ApiUrl ==>
        v == (if ConfigString(c, s) != "" then ConfigString(c, s) else fallback))
  {
  }

  /** `fail_on_api_error` in `runDeploymentTrack`: the flag when it was given,
      else the configuration when it sets the key, else true. */
  function FailOnApiError(f: Flags, c: Config): (b: bool)
    ensures Changed(f, FailOnApiErrorSetting) ==> b == FlagBool(f, FailOnApiErrorSetting, true)
    ensures !Changed(f, FailOnApiErrorSetting) && IsSet(c, FailOnApiErrorSetting) ==> b == ConfigBool(c, FailOnApiErrorSetting)
    ensures !b ==> Changed(f, FailOnApiErrorSetting) || IsSet(c, FailOnApiErrorSetting)
  {
    if Changed(f, FailOnApiErrorSetting) then FlagBool(f, FailOnApiErrorSetting, true)
    else if IsSet(c, FailOnApiErrorSetting) then ConfigBool(c, FailOnApiErrorSetting)
    else true
  }

  // ---------------------------------------------------------------------------
  // Local checks.

  /** The errors `RunE` returns before anything is sent. */
  datatype LocalError =
    | MissingProduct
    | MissingEnvironment
    | MissingVersion
    | MissingApiKey
    | BadStartedAt(cause: string)
    | BadCompletedAt(cause: string)
    | BadMetadata(error: Metadata.ParseError)

  const ProductRequired: string := "--product is required"
  const EnvironmentRequired: string := "--environment is required"
  const VersionRequired: string := "--version is required"
  const ApiKeyRequired: string :=
    "API key is required. Set VERSIONER_API_KEY environment variable or use --api-key flag"
  const InvalidStartedAt: string := "invalid started-at timestamp: "
  const InvalidCompletedAt: string := "invalid completed-at timestamp: "

  /** The text of each local error. */
  function LocalErrorMessage(e: LocalError): (msg: string)
    ensures e.BadStartedAt? ==> msg == InvalidStartedAt + e.cause
    ensures e.BadCompletedAt? ==> msg == InvalidCompletedAt + e.cause
    ensures e.BadMetadata? ==> msg == Metadata.ErrorMessage(e.error)
  {
    match e
    case MissingProduct => ProductRequired
    case MissingEnvironment => EnvironmentRequired
    case MissingVersion => VersionRequired
    case MissingApiKey => ApiKeyRequired
    case BadStartedAt(cause) => InvalidStartedAt + cause
    case BadCompletedAt(cause) => InvalidCompletedAt + cause
    case BadMetadata(error) => Metadata.ErrorMessage(error)
  }

  /** RFC 3339 parsing as `time.Parse` does it: an instant or the error text. */
  type TimeParser = string -> Result<Instant, string>

  /** The user's metadata document as the event carries it: nothing for no
      document. */
  function UserMetadata(p: Metadata.Parsed): map<string, Value> {
    if p.Document? then p.fields else map[]
  }

  // ---------------------------------------------------------------------------
  // Reports and exit codes.

  const DeploymentAction: string := "Deployment"
  const ApiErrorType: string := "API Error"
  const NetworkErrorType: string := "Network Error"

  /** The GitHub Actions writer a command calls, with its arguments. */
  datatype Report =
    | Silent
    | RejectionReport(statusCode: nat, errorCode: string, message: string, ruleName: string,
                      retryAfter: string, details: map<string, Value>)   // WriteErrorAnnotation
    | FailureReport(action: string, errorType: string, message: string)  // WriteGenericErrorAnnotation
    | SuccessReport(action: string, environment: string, status: string, version: string,
                    scmSha: string, uiURL: string, resourceID: string)   // WriteSuccessSummary

  /** How a run ends. */
  datatype Outcome =
    | Panicked                                // `SCMSha[:8]` panicked inside `Detect`
    | Refused(error: LocalError)              // `RunE` returned an error; nothing was sent
    | Exited(code: nat, report: Report)       // `os.Exit(code)` after a failed submission
    | Tracked(eventID: string, report: Report) // `RunE` returned nil

  /** The rule name `handlePreflightError` takes from the details: the string
      under "rule_name", or "" when it is missing or not a string. */
  function RuleNameOf(details: Option<map<string, Value>>): (name: string)
    ensures details.Some? ==> TakenIfString(details.value, "rule_name", name)
    ensures details.None? ==> name == ""
  {
    match details
    case None => ""
    case Some(fields) => StringField(fields, "rule_name")
  }

  /** `handlePreflightError`: the annotation of a preflight rejection, when its
      detail is an object; without one only text goes to standard error. */
  function PreflightReport(e: ApiError): (r: Report)
    ensures r.Silent? <==> GetPreflightDetails(e).None?
    ensures !r.Silent? ==> var p := GetPreflightDetails(e).value;
      r == RejectionReport(e.statusCode, p.code, p.message, RuleNameOf(p.details), p.retryAfter,
                           if p.details.Some? then p.details.value else map[])
  {
    match GetPreflightDetails(e)
    case None => Silent
    case Some(p) =>
      RejectionReport(e.statusCode, p.code, p.message, RuleNameOf(p.details), p.retryAfter,
                      if p.details.Some? then p.details.value else map[])
  }

  /** The exit code `runDeploymentTrack` gives a submission: 0 for success, 5
      for a preflight rejection, 4 for another API error, 1 for any other error. */
  function DeploymentExitCode(r: Result<DeploymentResponse, Error>): (code: nat)
    ensures code == 0 <==> r.Success?
    ensures code == 5 <==> r.Failure? && r.error.Api? && IsPreflightError(r.error.api)
    ensures code == 4 <==> r.Failure? && r.error.Api? && !IsPreflightError(r.error.api)
    ensures code == 1 <==> r.Failure? && r.error.Plain?
  {
    match r
    case Success(_) => 0
    case Failure(Api(e)) => if IsPreflightError(e) then 5 else 4
    case Failure(Plain(_)) => 1
  }

  /** The report `runDeploymentTrack` makes of a failed submission. */
  function DeploymentFailureReport(e: Error, show: Value -> string): (r: Report)
    ensures e.Api? && IsPreflightError(e.api) ==> r == PreflightReport(e.api)
    ensures e.Api? && !IsPreflightError(e.api) ==> r == FailureReport(DeploymentAction, ApiErrorType, ErrorText(e.api, show))
    ensures e.Plain? ==> r == FailureReport(DeploymentAction, NetworkErrorType, e.message)
  {
    match e
    case Api(api) =>
      if IsPreflightError(api) then PreflightReport(api)
      else FailureReport(DeploymentAction, ApiErrorType, ErrorText(api, show))
    case Plain(message) => FailureReport(DeploymentAction, NetworkErrorType, message)
  }

  /** The exit code `runBuildTrack` gives a submission: 0 for success and 2 for
      every error, API or transport alike. */
  function BuildExitCode(r: Result<BuildResponse, Error>): (code: nat)
    ensures code == 0 <==> r.Success?
    ensures r.Failure? ==> code == 2
  {
    if r.Success? then 0 else 2
  }

  // ---------------------------------------------------------------------------
  // `runDeploymentTrack`.

  /** The defaults of the two `--status` flags. */
  const DefaultDeploymentStatus: string := "success"
  const DefaultBuildStatus: string := "completed"

  /** The deployment event as resolved from flags, configuration and
      detection, before timestamps and metadata are added. */
  function DeploymentDraft(d: Detector.Values, f: Flags, c: Config): DeploymentEventCreate {
    DeploymentEventCreate(
      productName := Fallback(DeploymentCommand, f, c, Product, d.product),
      version := Fallback(DeploymentCommand, f, c, Version, d.version),
      environmentName := Fallback(DeploymentCommand, f, c, Environment, ""),
      status := FlagString(f, StatusSetting, DefaultDeploymentStatus),
      sourceSystem := Fallback(DeploymentCommand, f, c, SourceSystem, Detector.Tag(d.system)),
      buildNumber := Fallback(DeploymentCommand, f, c, BuildNumber, d.buildNumber),
      scmSha := Fallback(DeploymentCommand, f, c, ScmSha, d.scmSha),
      scmRepository := Fallback(DeploymentCommand, f, c, ScmRepository, d.scmRepository),
      deployURL := Fallback(DeploymentCommand, f, c, DeployUrl, d.buildURL),
      invokeID := Fallback(DeploymentCommand, f, c, InvokeId, d.invokeID),
      deployedBy := Fallback(DeploymentCommand, f, c, DeployedBy, d.builtBy),
      deployedByEmail := Fallback(DeploymentCommand, f, c, DeployedByEmail, d.builtByEmail),
      deployedByName := Fallback(DeploymentCommand, f, c, DeployedByName, d.builtByName),
      completedAt := None, skipPreflightChecks := false, extraMetadata := map[])
  }

  /** The presence checks of `runDeploymentTrack`, in order: product,
      environment, version, and the API key viper gives. */
  function DeploymentMissing(e: DeploymentEventCreate, apiKey: string): Option<LocalError> {
    if e.productName == "" then Some(MissingProduct)
    else if e.environmentName == "" then Some(MissingEnvironment)
    else if e.version == "" then Some(MissingVersion)
    else if apiKey == "" then Some(MissingApiKey)
    else None
  }

  /** The rest of `runDeploymentTrack`'s local steps: the completion time,
      the detected and the user's metadata, and the preflight switch. */
  function CompleteDeployment(
    draft: DeploymentEventCreate, f: Flags, auto: map<string, string>, parseTime: TimeParser,
    decode: string -> Decoded, merge: (map<string, string>, map<string, Value>) -> map<string, Value>)
    : Result<DeploymentEventCreate, LocalError>
  {
    var completedAt := FlagString(f, CompletedAt, "");
    var extra := FlagString(f, ExtraMetadata, "");
    var user := if extra != "" then Metadata.ParseExtraMetadata(extra, decode) else Metadata.NoDocument;
    if completedAt != "" && parseTime(completedAt).Failure? then Failure(BadCompletedAt(parseTime(completedAt).error))
    else if user.Rejected? then Failure(BadMetadata(user.error))
    else Success(draft.(
      completedAt := if completedAt != "" then Some(parseTime(completedAt).value) else draft.completedAt,
      extraMetadata := merge(auto, UserMetadata(user)),
      skipPreflightChecks := FlagBool(f, SkipPreflightChecks, false)))
  }

  /** What `runDeploymentTrack` sends, or the first local error, checked in
      the order of the source. `auto` is the detected `vi_` metadata. */
  function PrepareDeployment(
    d: Detector.Values, auto: map<string, string>, f: Flags, c: Config, parseTime: TimeParser,
    decode: string -> Decoded, merge: (map<string, string>, map<string, Value>) -> map<string, Value>)
    : Result<DeploymentEventCreate, LocalError>
  {
    var draft := DeploymentDraft(d, f, c);
    var missing := DeploymentMissing(draft, Viper(DeploymentCommand, f, c, ApiKey));
    if missing.Some? then Failure(missing.value)
    else CompleteDeployment(draft, f, auto, parseTime, decode, merge)
  }

  /** Product and version are resolved flag, then viper, then detection; the
      environment only from flag and viper. */
  lemma DeploymentPrecedence(d: Detector.Values, f: Flags, c: Config)
    ensures var e := DeploymentDraft(d, f, c);
      e.productName == FirstNonEmpty([FlagString(f, Product, ""), Viper(DeploymentCommand, f, c, Product), d.product]) &&
      e.version == FirstNonEmpty([FlagString(f, Version, ""), Viper(DeploymentCommand, f, c, Version), d.version]) &&
      e.environmentName == FirstNonEmpty([FlagString(f, Environment, ""), Viper(DeploymentCommand, f, c, Environment)])
  {
    GetWithFallbackIsFirstNonEmpty(FlagString(f, Product, ""), Viper(DeploymentCommand, f, c, Product), d.product);
    GetWithFallbackIsFirstNonEmpty(FlagString(f, Version, ""), Viper(DeploymentCommand, f, c, Version), d.version);
    var flag, config := FlagString(f, Environment, ""), Viper(DeploymentCommand, f, c, Environment);
    GetWithFallbackIsFirstNonEmpty(flag, config, "");
    assert FirstNonEmpty([flag, config, ""]) == FirstNonEmpty([flag, config]) by {
      assert [flag, config, ""][1..] == [config, ""];
      assert [config, ""][1..] == [""];
      assert [""][1..] == [];
      assert [flag, config][1..] == [config];
      assert [config][1..] == [];
    }
  }

  /** A product or environment flag given empty hides the configuration: the
      product then comes from detection and the environment stays empty. Without
      the flag the configuration is used. */
  lemma DeploymentFlagShadowsConfig(d: Detector.Values, f: Flags, c: Config)
    ensures var e := DeploymentDraft(d, f, c);
      (Product !in f.strings ==> e.productName == (if ConfigString(c, Product) != "" then ConfigString(c, Product) else d.product)) &&
      (Environment !in f.strings ==> e.environmentName == ConfigString(c, Environment)) &&
      (Product in f.strings && f.strings[Product] == "" ==> e.productName == d.product) &&
      (Environment in f.strings && f.strings[Environment] == "" ==> e.environmentName == "")
  {
    FallbackCases(DeploymentCommand, f, c, Product, d.product);
    FallbackCases(DeploymentCommand, f, c, Environment, "");
  }

  /** The order of the deployment checks for any draft and API key. */
  lemma DeploymentStepsInOrder(
    e: DeploymentEventCreate, apiKey: string, auto: map<string, string>, f: Flags, parseTime: TimeParser,
    decode: string -> Decoded, merge: (map<string, string>, map<string, Value>) -> map<string, Value>)
    ensures var missing := DeploymentMissing(e, apiKey);
      var p := if missing.Some? then Failure(missing.value) else CompleteDeployment(e, f, auto, parseTime, decode, merge);
      var completedAt := FlagString(f, CompletedAt, "");
      var extra := FlagString(f, ExtraMetadata, "");
      var earlier := e.productName != "" && e.environmentName != "" && e.version != "" && apiKey != "";
      (p == Failure(MissingProduct) <==> e.productName == "") &&
      (p == Failure(MissingEnvironment) <==> e.productName != "" && e.environmentName == "") &&
      (p == Failure(MissingVersion) <==> e.productName != "" && e.environmentName != "" && e.version == "") &&
      (p == Failure(MissingApiKey) <==> e.productName != "" && e.environmentName != "" && e.version != "" && apiKey == "") &&
      ((p.Failure? && p.error.BadCompletedAt?) <==> earlier && completedAt != "" && parseTime(completedAt).Failure?) &&
      ((p.Failure? && p.error.BadMetadata?) <==>
        earlier && (completedAt == "" || parseTime(completedAt).Success?) &&
        extra != "" && Metadata.ParseExtraMetadata(extra, decode).Rejected?) &&
      (p.Success? <==>
        earlier && (completedAt == "" || parseTime(completedAt).Success?) &&
        (extra == "" || !Metadata.ParseExtraMetadata(extra, decode).Rejected?))
  {
  }

  /** The local checks run in the order product, environment, version, API
      key, completion time, metadata: each error is reported exactly when every
      earlier check passes and its own fails. */
  lemma DeploymentChecksInOrder(
    d: Detector.Values, auto: map<string, string>, f: Flags, c: Config, parseTime: TimeParser,
    decode: string -> Decoded, merge: (map<string, string>, map<string, Value>) -> map<string, Value>)
    ensures var p := PrepareDeployment(d, auto, f, c, parseTime, decode, merge);
      var e := DeploymentDraft(d, f, c);
      var completedAt := FlagString(f, CompletedAt, "");
      var extra := FlagString(f, ExtraMetadata, "");
      var earlier := e.productName != "" && e.environmentName != "" && e.version != "" && Viper(DeploymentCommand, f, c, ApiKey) != "";
      (p == Failure(MissingProduct) <==> e.productName == "") &&
      (p == Failure(MissingEnvironment) <==> e.productName != "" && e.environmentName == "") &&
      (p == Failure(MissingVersion) <==> e.productName != "" && e.environmentName != "" && e.version == "") &&
      (p == Failure(MissingApiKey) <==>
        e.productName != "" && e.environmentName != "" && e.version != "" && Viper(DeploymentCommand, f, c, ApiKey) == "") &&
      ((p.Failure? && p.error.BadCompletedAt?) <==> earlier && completedAt != "" && parseTime(completedAt).Failure?) &&
      ((p.Failure? && p.error.BadMetadata?) <==>
        earlier && (completedAt == "" || parseTime(completedAt).Success?) &&
        extra != "" && Metadata.ParseExtraMetadata(extra, decode).Rejected?) &&
      (p.Success? <==>
        earlier && (completedAt == "" || parseTime(completedAt).Success?) &&
        (extra == "" || !Metadata.ParseExtraMetadata(extra, decode).Rejected?))
  {
    DeploymentStepsInOrder(DeploymentDraft(d, f, c), Viper(DeploymentCommand, f, c, ApiKey), auto, f, parseTime, decode, merge);
  }

  /** The status sent is the raw `--status` flag, "success" by default, whatever
      `Normalize` makes of it; the source system is never empty, and is the
      detected system's tag when neither flag nor viper gives one. */
  lemma DeploymentSendsRawStatus(
    d: Detector.Values, auto: map<string, string>, f: Flags, c: Config, parseTime: TimeParser,
    decode: string -> Decoded, merge: (map<string, string>, map<string, Value>) -> map<string, Value>)
    requires PrepareDeployment(d, auto, f, c, parseTime, decode, merge).Success?
    ensures var e := PrepareDeployment(d, auto, f, c, parseTime, decode, merge).value;
      e.status == FlagString(f, StatusSetting, DefaultDeploymentStatus) &&
      (StatusSetting !in f.strings ==> e.status == "success") &&
      e.sourceSystem != "" &&
      (FlagString(f, SourceSystem, "") == "" && Viper(DeploymentCommand, f, c, SourceSystem) == "" ==>
        e.sourceSystem == Detector.Tag(d.system))
  {
    assert Detector.Tag(d.system) != "" by {
      match d.system
      case GitHub => case GitLab => case Jenkins => case CircleCI =>
      case Bitbucket => case Azure => case Travis => case Rundeck => case Unknown =>
    }
  }

  /** A status that `Normalize` would rewrite (an alias such as "SUCCESS" or
      "deployed") is sent as given, not as its canonical form. */
  lemma AliasStatusSentAsGiven(
    d: Detector.Values, auto: map<string, string>, f: Flags, c: Config, parseTime: TimeParser,
    decode: string -> Decoded, merge: (map<string, string>, map<string, Value>) -> map<string, Value>)
    requires PrepareDeployment(d, auto, f, c, parseTime, decode, merge).Success?
    requires Status.Normalize(FlagString(f, StatusSetting, DefaultDeploymentStatus)).wasNormalized
    ensures var e := PrepareDeployment(d, auto, f, c, parseTime, decode, merge).value;
      e.status == FlagString(f, StatusSetting, DefaultDeploymentStatus) &&
      e.status != Status.Normalize(e.status).canonical
  {
    DeploymentSendsRawStatus(d, auto, f, c, parseTime, decode, merge);
    Status.RewrittenDiffersFromCanonical(FlagString(f, StatusSetting, DefaultDeploymentStatus));
  }

  /** `--environment=` given as "" hides VERSIONER_ENVIRONMENT and the config
      file, because viper answers with the flag: the run is refused with
      "--environment is required" whatever the configuration says. */
  lemma EmptyEnvironmentFlagRefused(
    d: Detector.Values, auto: map<string, string>, f: Flags, c: Config, parseTime: TimeParser,
    decode: string -> Decoded, merge: (map<string, string>, map<string, Value>) -> map<string, Value>)
    requires Environment in f.strings && f.strings[Environment] == ""
    requires DeploymentDraft(d, f, c).productName != ""
    ensures PrepareDeployment(d, auto, f, c, parseTime, decode, merge) == Failure(MissingEnvironment)
    ensures LocalErrorMessage(MissingEnvironment) == "--environment is required"
  {
  }

  /** A `getWithFallback` flag given as "" sends the detected value in a
      deployment: `--source-system=` gives the detected system's tag even
      when the configuration names a source system. */
  lemma EmptyDeploymentFlagFallsToDetection(d: Detector.Values, f: Flags, c: Config)
    requires SourceSystem in f.strings && f.strings[SourceSystem] == ""
    ensures DeploymentDraft(d, f, c).sourceSystem == Detector.Tag(d.system)
  {
  }

  /** In a build run the keys it shares with the deployment command are bound
      to the deployment command's flags, so a shared flag given as "" leaves
      viper with the configuration, while a build-only flag given as "" hides
      it. */
  lemma EmptyBuildFlags(d: Detector.Values, f: Flags, c: Config)
    requires SourceSystem in f.strings && f.strings[SourceSystem] == ""
    requires ScmBranch in f.strings && f.strings[ScmBranch] == ""
    ensures var e := BuildDraft(d, f, c);
      (ConfigString(c, SourceSystem) != "" ==> e.sourceSystem == ConfigString(c, SourceSystem)) &&
      e.scmBranch == d.scmBranch
  {
  }

  /** With nothing detected the source system sent is "unknown". */
  lemma UnknownSourceSystem(
    env: Detector.Env, auto: map<string, string>, f: Flags, c: Config, parseTime: TimeParser,
    decode: string -> Decoded, merge: (map<string, string>, map<string, Value>) -> map<string, Value>)
    requires Detector.DetectSystem(env) == Detector.Unknown
    requires FlagString(f, SourceSystem, "") == "" && ConfigString(c, SourceSystem) == ""
    requires PrepareDeployment(Detector.Empty(Detector.Unknown), auto, f, c, parseTime, decode, merge).Success?
    ensures PrepareDeployment(Detector.Empty(Detector.Unknown), auto, f, c, parseTime, decode, merge).value.sourceSystem
      == "unknown"
    ensures Detector.DetectValues(env) == Some(Detector.Empty(Detector.Unknown))
  {
    Detector.DetectUnknownIsEmpty(env);
  }

  /** The part of `runDeploymentTrack` before the submission: field
      resolution, the local checks and the assembly of the event. */
  method PrepareDeploymentEvent(
    detected: Detector.Values, autoMetadata: map<string, string>, flags: Flags, config: Config,
    parseTime: TimeParser, decode: string -> Decoded,
    merge: (map<string, string>, map<string, Value>) -> map<string, Value>)
    returns (r: Result<DeploymentEventCreate, LocalError>)
    ensures r == PrepareDeployment(detected, autoMetadata, flags, config, parseTime, decode, merge)
  {
    var product := FlagString(flags, Product, "");
    if product == "" {
      product := Viper(DeploymentCommand, flags, config, Product);
    }
    if product == "" {
      product := detected.product;
    }
    var environment := FlagString(flags, Environment, "");
    if environment == "" {
      environment := Viper(DeploymentCommand, flags, config, Environment);
    }
    var version := FlagString(flags, Version, "");
    if version == "" {
      version := Viper(DeploymentCommand, flags, config, Version);
    }
    if version == "" {
      version := detected.version;
    }
    ghost var draft := DeploymentDraft(detected, flags, config);
    assert draft.productName == product && draft.environmentName == environment && draft.version == version;

    if product == "" {
      return Failure(MissingProduct);
    }
    if environment == "" {
      return Failure(MissingEnvironment);
    }
    if version == "" {
      return Failure(MissingVersion);
    }
    if Viper(DeploymentCommand, flags, config, ApiKey) == "" {
      return Failure(MissingApiKey);
    }

    var event := DeploymentDraft(detected, flags, config);
    assert DeploymentMissing(event, Viper(DeploymentCommand, flags, config, ApiKey)) == None;
    r := CompleteDeploymentEvent(event, flags, autoMetadata, parseTime, decode, merge);
  }

  /** The completion time, the metadata and the preflight switch of a
      deployment that passed the presence checks. */
  method CompleteDeploymentEvent(
    draft: DeploymentEventCreate, flags: Flags, autoMetadata: map<string, string>, parseTime: TimeParser,
    decode: string -> Decoded, merge: (map<string, string>, map<string, Value>) -> map<string, Value>)
    returns (r: Result<DeploymentEventCreate, LocalError>)
    ensures r == CompleteDeployment(draft, flags, autoMetadata, parseTime, decode, merge)
  {
    var event := draft;
    var completedAtStr := FlagString(flags, CompletedAt, "");
    if completedAtStr != "" {
      var completedAt := parseTime(completedAtStr);
      if completedAt.Failure? {
        return Failure(BadCompletedAt(completedAt.error));
      }
      event := event.(completedAt := Some(completedAt.value));
    }
    var userMetadata: map<string, Value> := map[];
    var extraMetadataStr := FlagString(flags, ExtraMetadata, "");
    if extraMetadataStr != "" {
      var parsed := Metadata.ParseExtraMetadata(extraMetadataStr, decode);
      if parsed.Rejected? {
        return Failure(BadMetadata(parsed.error));
      }
      userMetadata := parsed.fields;
    }
    event := event.(extraMetadata := merge(autoMetadata, userMetadata));
    event := event.(skipPreflightChecks := FlagBool(flags, SkipPreflightChecks, false));
    return Success(event);
  }

  /** `runDeploymentTrack`: detection, the local steps, the submission, and
      the exit code and report of its outcome. `userAgent` stands for
      `version.GetUserAgent()`. */
  method RunDeploymentTrack(
    env: Detector.Env, flags: Flags, config: Config, debug: bool, userAgent: string,
    transport: Transport<DeploymentEventCreate>, parseTime: TimeParser,
    decode: string -> Decoded, parseResponse: string -> Result<DeploymentResponse, string>,
    merge: (map<string, string>, map<string, Value>) -> map<string, Value>, show: Value -> string)
    returns (o: Outcome)
    ensures o.Panicked? <==> Detector.DetectValues(env).None?
    ensures Detector.DetectValues(env).Some? ==>
      var d := Detector.DetectValues(env).value;
      var p := PrepareDeployment(d, Detector.ExtraMetadata(d, env), flags, config, parseTime, decode, merge);
      (o.Refused? <==> p.Failure?) && (p.Failure? ==> o.error == p.error) &&
      (p.Success? ==>
        var client := NewClient(Viper(DeploymentCommand, flags, config, ApiUrl), Viper(DeploymentCommand, flags, config, ApiKey), debug, userAgent);
        var r := Submit(client, DeploymentEventsPath, p.value, transport, parseResponse, decode);
        (r.Success? ==> o == Tracked(r.value.id, SuccessReport(DeploymentAction, p.value.environmentName,
                                       p.value.status, p.value.version, p.value.scmSha,
                                       Viper(DeploymentCommand, flags, config, UiUrl), r.value.id))) &&
        (r.Failure? ==> o == Exited(DeploymentExitCode(r), DeploymentFailureReport(r.error, show))))
  {
    var detected, ok := Detector.Detect(env);
    if !ok {
      return Panicked;
    }
    var autoMetadata := Detector.ExtraMetadata(detected, env);
    var prepared := PrepareDeploymentEvent(detected, autoMetadata, flags, config, parseTime, decode, merge);
    if prepared.Failure? {
      return Refused(prepared.error);
    }
    var event := prepared.value;
    var failOnApiError := FailOnApiError(flags, config);  // the three-argument NewClient ignores it
    var client := NewClient(Viper(DeploymentCommand, flags, config, ApiUrl), Viper(DeploymentCommand, flags, config, ApiKey), debug, userAgent);

    var r := CreateDeploymentEvent(client, event, transport, parseResponse, decode);
    if r.Failure? {
      if r.error.Api? {
        if IsPreflightError(r.error.api) {
          return Exited(5, PreflightReport(r.error.api));
        }
        return Exited(4, FailureReport(DeploymentAction, ApiErrorType, ErrorText(r.error.api, show)));
      }
      return Exited(1, FailureReport(DeploymentAction, NetworkErrorType, r.error.message));
    }
    var uiURL := Viper(DeploymentCommand, flags, config, UiUrl);
    o := Tracked(r.value.id, SuccessReport(DeploymentAction, event.environmentName, event.status, event.version,
                                           event.scmSha, uiURL, r.value.id));
  }

  // ---------------------------------------------------------------------------
  // `runBuildTrack`.

  /** The build event as resolved from flags, configuration and detection,
      before timestamps and metadata are added. */
  function BuildDraft(d: Detector.Values, f: Flags, c: Config): BuildEventCreate {
    BuildEventCreate(
      productName := Fallback(BuildCommand, f, c, Product, d.product),
      version := Fallback(BuildCommand, f, c, Version, d.version),
      status := FlagString(f, StatusSetting, DefaultBuildStatus),
      sourceSystem := Fallback(BuildCommand, f, c, SourceSystem, Detector.Tag(d.system)),
      buildNumber := Fallback(BuildCommand, f, c, BuildNumber, d.buildNumber),
      scmSha := Fallback(BuildCommand, f, c, ScmSha, d.scmSha),
      scmBranch := Fallback(BuildCommand, f, c, ScmBranch, d.scmBranch),
      scmRepository := Fallback(BuildCommand, f, c, ScmRepository, d.scmRepository),
      buildURL := Fallback(BuildCommand, f, c, BuildUrl, d.buildURL),
      invokeID := Fallback(BuildCommand, f, c, InvokeId, d.invokeID),
      builtBy := Fallback(BuildCommand, f, c, BuiltBy, d.builtBy),
      builtByEmail := Fallback(BuildCommand, f, c, BuiltByEmail, d.builtByEmail),
      builtByName := Fallback(BuildCommand, f, c, BuiltByName, d.builtByName),
      startedAt := None, completedAt := None, extraMetadata := map[])
  }

  /** The presence checks of `runBuildTrack`, in order: product, version,
      and the API key viper gives. */
  function BuildMissing(e: BuildEventCreate, apiKey: string): Option<LocalError> {
    if e.productName == "" then Some(MissingProduct)
    else if e.version == "" then Some(MissingVersion)
    else if apiKey == "" then Some(MissingApiKey)
    else None
  }

  /** The rest of `runBuildTrack`'s local steps: the start and completion
      times and the user's metadata. */
  function CompleteBuild(draft: BuildEventCreate, f: Flags, parseTime: TimeParser, decode: string -> Decoded)
    : Result<BuildEventCreate, LocalError>
  {
    var startedAt := FlagString(f, StartedAt, "");
    var completedAt := FlagString(f, CompletedAt, "");
    var extra := FlagString(f, ExtraMetadata, "");
    var user := if extra != "" then Metadata.ParseExtraMetadata(extra, decode) else Metadata.NoDocument;
    if startedAt != "" && parseTime(startedAt).Failure? then Failure(BadStartedAt(parseTime(startedAt).error))
    else if completedAt != "" && parseTime(completedAt).Failure? then Failure(BadCompletedAt(parseTime(completedAt).error))
    else if user.Rejected? then Failure(BadMetadata(user.error))
    else Success(draft.(
      startedAt := if startedAt != "" then Some(parseTime(startedAt).value) else draft.startedAt,
      completedAt := if completedAt != "" then Some(parseTime(completedAt).value) else draft.completedAt,
      extraMetadata := if user.Document? then user.fields else draft.extraMetadata))
  }

  /** What `runBuildTrack` sends, or the first local error. */
  function PrepareBuild(d: Detector.Values, f: Flags, c: Config, parseTime: TimeParser, decode: string -> Decoded)
    : Result<BuildEventCreate, LocalError>
  {
    var draft := BuildDraft(d, f, c);
    var missing := BuildMissing(draft, Viper(BuildCommand, f, c, ApiKey));
    if missing.Some? then Failure(missing.value)
    else CompleteBuild(draft, f, parseTime, decode)
  }

  /** The order of the build checks for any draft and API key. */
  lemma BuildStepsInOrder(e: BuildEventCreate, apiKey: string, f: Flags, parseTime: TimeParser, decode: string -> Decoded)
    ensures var missing := BuildMissing(e, apiKey);
      var p := if missing.Some? then Failure(missing.value) else CompleteBuild(e, f, parseTime, decode);
      var startedAt := FlagString(f, StartedAt, "");
      var completedAt := FlagString(f, CompletedAt, "");
      var earlier := e.productName != "" && e.version != "" && apiKey != "";
      (p == Failure(MissingProduct) <==> e.productName == "") &&
      (p == Failure(MissingVersion) <==> e.productName != "" && e.version == "") &&
      (p == Failure(MissingApiKey) <==> e.productName != "" && e.version != "" && apiKey == "") &&
      ((p.Failure? && p.error.BadStartedAt?) <==> earlier && startedAt != "" && parseTime(startedAt).Failure?) &&
      ((p.Failure? && p.error.BadCompletedAt?) <==>
        earlier && (startedAt == "" || parseTime(startedAt).Success?) &&
        completedAt != "" && parseTime(completedAt).Failure?) &&
      (p.Failure? ==> !p.error.MissingEnvironment?)
  {
  }

  /** The build checks run in the order product, version, API key, start time,
      completion time, metadata; the environment plays no part. */
  lemma BuildChecksInOrder(d: Detector.Values, f: Flags, c: Config, parseTime: TimeParser, decode: string -> Decoded)
    ensures var p := PrepareBuild(d, f, c, parseTime, decode);
      var e := BuildDraft(d, f, c);
      var startedAt := FlagString(f, StartedAt, "");
      var completedAt := FlagString(f, CompletedAt, "");
      var earlier := e.productName != "" && e.version != "" && Viper(BuildCommand, f, c, ApiKey) != "";
      (p == Failure(MissingProduct) <==> e.productName == "") &&
      (p == Failure(MissingVersion) <==> e.productName != "" && e.version == "") &&
      (p == Failure(MissingApiKey) <==> e.productName != "" && e.version != "" && Viper(BuildCommand, f, c, ApiKey) == "") &&
      ((p.Failure? && p.error.BadStartedAt?) <==> earlier && startedAt != "" && parseTime(startedAt).Failure?) &&
      ((p.Failure? && p.error.BadCompletedAt?) <==>
        earlier && (startedAt == "" || parseTime(startedAt).Success?) &&
        completedAt != "" && parseTime(completedAt).Failure?) &&
      (p.Failure? ==> !p.error.MissingEnvironment?)
  {
    BuildStepsInOrder(BuildDraft(d, f, c), Viper(BuildCommand, f, c, ApiKey), f, parseTime, decode);
  }

  /** A build carries the raw `--status` ("completed" by default), a source
      system that is never empty, and only the user's metadata, never the
      detected `vi_` keys. */
  lemma BuildEventProperties(d: Detector.Values, f: Flags, c: Config, parseTime: TimeParser, decode: string -> Decoded)
    requires PrepareBuild(d, f, c, parseTime, decode).Success?
    ensures var e := PrepareBuild(d, f, c, parseTime, decode).value;
      var extra := FlagString(f, ExtraMetadata, "");
      e.status == FlagString(f, StatusSetting, DefaultBuildStatus) &&
      e.sourceSystem != "" &&
      (extra == "" ==> e.extraMetadata == map[]) &&
      (extra != "" ==> Metadata.ParseExtraMetadata(extra, decode) == Metadata.Document(e.extraMetadata))
  {
    assert Detector.Tag(d.system) != "" by {
      match d.system
      case GitHub => case GitLab => case Jenkins => case CircleCI =>
      case Bitbucket => case Azure => case Travis => case Rundeck => case Unknown =>
    }
  }

  /** The part of `runBuildTrack` before the submission. */
  method PrepareBuildEvent(
    detected: Detector.Values, flags: Flags, config: Config, parseTime: TimeParser, decode: string -> Decoded)
    returns (r: Result<BuildEventCreate, LocalError>)
    ensures r == PrepareBuild(detected, flags, config, parseTime, decode)
  {
    var product := FlagString(flags, Product, "");
    if product == "" {
      product := Viper(BuildCommand, flags, config, Product);
    }
    if product == "" {
      product := detected.product;
    }
    var version := FlagString(flags, Version, "");
    if version == "" {
      version := Viper(BuildCommand, flags, config, Version);
    }
    if version == "" {
      version := detected.version;
    }

    if product == "" {
      return Failure(MissingProduct);
    }
    if version == "" {
      return Failure(MissingVersion);
    }
    if Viper(BuildCommand, flags, config, ApiKey) == "" {
      return Failure(MissingApiKey);
    }

    var event := BuildDraft(detected, flags, config);
    assert event.productName == product && event.version == version;
    assert BuildMissing(event, Viper(BuildCommand, flags, config, ApiKey)) == None;
    r := CompleteBuildEvent(event, flags, parseTime, decode);
  }

  /** The start and completion times and the metadata of a build that passed
      the presence checks. */
  method CompleteBuildEvent(draft: BuildEventCreate, flags: Flags, parseTime: TimeParser, decode: string -> Decoded)
    returns (r: Result<BuildEventCreate, LocalError>)
    ensures r == CompleteBuild(draft, flags, parseTime, decode)
  {
    var event := draft;
    var startedAtStr := FlagString(flags, StartedAt, "");
    if startedAtStr != "" {
      var startedAt := parseTime(startedAtStr);
      if startedAt.Failure? {
        return Failure(BadStartedAt(startedAt.error));
      }
      event := event.(startedAt := Some(startedAt.value));
    }
    var completedAtStr := FlagString(flags, CompletedAt, "");
    if completedAtStr != "" {
      var completedAt := parseTime(completedAtStr);
      if completedAt.Failure? {
        return Failure(BadCompletedAt(completedAt.error));
      }
      event := event.(completedAt := Some(completedAt.value));
    }
    var extraMetadataStr := FlagString(flags, ExtraMetadata, "");
    if extraMetadataStr != "" {
      var parsed := Metadata.ParseExtraMetadata(extraMetadataStr, decode);
      if parsed.Rejected? {
        return Failure(BadMetadata(parsed.error));
      }
      event := event.(extraMetadata := parsed.fields);
    }
    return Success(event);
  }

  /** `runBuildTrack`: like `runDeploymentTrack` without an environment, with
      start and completion times, no success summary and exit code 2 for every
      failed submission. */
  method RunBuildTrack(
    env: Detector.Env, flags: Flags, config: Config, debug: bool, userAgent: string,
    transport: Transport<BuildEventCreate>, parseTime: TimeParser,
    decode: string -> Decoded, parseResponse: string -> Result<BuildResponse, string>)
    returns (o: Outcome)
    ensures o.Panicked? <==> Detector.DetectValues(env).None?
    ensures Detector.DetectValues(env).Some? ==>
      var d := Detector.DetectValues(env).value;
      var p := PrepareBuild(d, flags, config, parseTime, decode);
      (o.Refused? <==> p.Failure?) && (p.Failure? ==> o.error == p.error) &&
      (p.Success? ==>
        var client := NewClient(Viper(BuildCommand, flags, config, ApiUrl), Viper(BuildCommand, flags, config, ApiKey), debug, userAgent);
        var r := Submit(client, BuildEventsPath, p.value, transport, parseResponse, decode);
        (r.Success? ==> o == Tracked(r.value.id, Silent)) &&
        (r.Failure? ==> o == Exited(BuildExitCode(r), Silent)))
  {
    var detected, ok := Detector.Detect(env);
    if !ok {
      return Panicked;
    }
    var prepared := PrepareBuildEvent(detected, flags, config, parseTime, decode);
    if prepared.Failure? {
      return Refused(prepared.error);
    }
    var client := NewClient(Viper(BuildCommand, flags, config, ApiUrl), Viper(BuildCommand, flags, config, ApiKey), debug, userAgent);
    var r := CreateBuildEvent(client, prepared.value, transport, parseResponse, decode);
    if r.Failure? {
      return Exited(2, Silent);
    }
    o := Tracked(r.value.id, Silent);
  }
}
