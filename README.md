# versioner-cli decision core in Dafny

`versioner` is a command-line tool that CI pipelines run to report builds and
deployments to the Versioner API. This project models the logic that decides
what the tool sends and how it ends a run, and proves properties of that model:

- **Status normaliser** (`Status`, status.dfy). The alias table maps a trimmed,
  lower-cased status onto the five lifecycle states. Unknown input passes
  through unchanged.
- **CI/CD detector** (`Detector`, detector.dfy):
  - the marker chain that picks one of eight CI systems or `unknown`;
  - each system's field extraction, with its product and version fallbacks and
    its all-or-nothing build URLs;
  - `normalizeGitURL`;
  - the `vi_` metadata bag.

  The environment is an immutable map in which an unset variable reads as "".
- **Metadata parser** (`Metadata`, metadata.dfy). The "no document" rule, the
  100 KiB ceiling checked before decoding, and the refusal of anything but a
  JSON object.
- **API client** (`ApiClient`, client.dfy; `Events`, events.dfy):
  - the retry loop: at most four requests, pauses of 1 s, 2 s and 4 s, a 2xx or
    a 4xx other than 429 returned at once;
  - the handling of a response;
  - the `APIError` helpers;
  - the two POST wrappers.
- **GitHub Actions output** (`Annotations`, annotations.dfy):
  - the titles, the status decoration, workflow-command escaping and
    `replaceAll`;
  - the conditional lines of the three writers.
- **The two commands** (`Track`, track.dfy):
  - flag → viper → detection precedence, where viper answers with a bound
    flag the user gave (even as ""), then the `VERSIONER_` variable or config
    file entry, then the `api_url` default;
  - the local checks and their order;
  - the event that is sent;
  - how the outcome of the submission becomes an exit code and a report.

Abstractions:
- Go strings are byte strings: each `char` of a Dafny `string` stands for one
  byte.
- Everything the core gets from outside is a parameter:
  - the HTTP exchange: per attempt, a transport error or a response;
  - the JSON decoder;
  - RFC 3339 parsing;
  - the metadata merge;
  - Go's `%v` rendering;
  - `json.MarshalIndent`.
- The pauses of the retry loop are a ghost log, in seconds.
- What the writers print or append to the summary file is returned as a value.
- `os.Exit(n)` is the `Exited(n, …)` outcome.

The status codes are 409 Conflict (section 15.5.10 of RFC 9110), 423 Locked
(section 11.3 of RFC 4918), 428 Precondition Required (section 3 of RFC 6585)
and 429 Too Many Requests (section 4 of RFC 6585).

## Model

| member | source | states |
|---|---|---|
| Status.Normalize | internal/status/validator.go:54-63 | For a valid status: a canonical state, the table entry of lower(trim(status)), flagged exactly when that key differs from the entry. Otherwise: the input unchanged, not flagged. A flag implies validity. |
| Status.AliasesAreCanonical | internal/status/validator.go:6-50 | Every table value is one of the five canonical states, and each canonical state maps to itself. |
| Status.TableKeyIsLowerWord | internal/status/validator.go:15-50 | Every key of the table is a non-empty word of lower-case letters and '_'. |
| Status.CanonicalIsOwnKey | internal/status/validator.go:6-12 | A canonical state is its own lookup key. |
| Status.CanonicalNotNormalized | internal/status/validator.go:54-59 | A canonical state is valid, and normalising it returns it unflagged. |
| Status.NormalizeTableKey | internal/status/validator.go:57-59 | A table key normalises to its entry, flagged exactly when key and entry differ (aliases yes, canonical states no). |
| Status.RewrittenDiffersFromCanonical | internal/status/validator.go:55-58 | A status reported as rewritten is not equal to the canonical value returned. |
| Status.GetCanonicalIdempotent | internal/status/validator.go:73-76 | `GetCanonical(GetCanonical(x)) == GetCanonical(x)`. |
| Status.ValidCanonicalIsFixpoint | internal/status/validator.go:66-76 | For a valid x, `GetCanonical(x)` is valid and normalising it reports no change. |
| Status.NormalizeByKey | internal/status/validator.go:54-63 | `Normalize` depends on the status only through its lookup key when that key is in the table, and returns the status itself when it is not. |
| Status.KeyIgnoresCase | internal/status/validator.go:55 | The lookup key of a lower-cased status is the key of the status itself. |
| Status.NormalizeIgnoresCase | internal/status/validator.go:55-59 | A status is valid exactly when its lower-case form is, and both normalise alike (the "SUCCESS", "PENDING", "Failed" vectors). |
| Status.NormalizeIgnoresPadding | internal/status/validator.go:55-59 | A table key padded with a space on each side normalises as the key does (the " completed ", " success " vectors). |
| Status.NormalizeUnknown | internal/status/validator.go:61-62 | "unknown" and "invalid" come back unchanged and unflagged. |
| Status.InvalidStatuses | internal/status/validator.go:66-70 | "", "running" and "done" are not valid. |
| Metadata.ParseExtraMetadata | internal/cmd/metadata.go:14-36 | The result is "no document" exactly for "". The size error, carrying the length, comes exactly for input over 102400 bytes. Within the size: a document exactly when the decoder yields an object, and it carries that object's fields. The null error exactly for `null`. The invalid-JSON error with the decoder's own reason for malformed input. The invalid-JSON error with the type-mismatch text for any other value. |
| Metadata.ErrorMessage | internal/cmd/metadata.go:20-33 | The texts of the size, invalid-JSON (wrapping the decoder's error) and null errors. |
| Metadata.SizeCheckPrecedesDecoding | internal/cmd/metadata.go:19-22 | Over-long input gets the same result under any decoder, with the message naming both sizes. |
| Metadata.CeilingIsInclusive | internal/cmd/metadata.go:10-22 | Exactly 102400 bytes passes the size check and reaches the decoder. |
| Metadata.EmptyInputVersusEmptyObject | internal/cmd/metadata.go:15-17 | "" is no document; `{}` is a present, empty document; the two differ. |
| Metadata.NonObjectsRejected | internal/cmd/metadata.go:25-28 | Arrays and bare strings are refused with the decoder's type-mismatch text. |
| Detector.DetectSystem | internal/cicd/detector.go:142-168 | The system returned has its marker set, and no system earlier in the fixed order has. |
| Detector.DetectSystemIsFirstMarker | internal/cicd/detector.go:142-168 | Both directions: s is detected exactly when its marker holds and no earlier marker does (Unknown: no marker at all). |
| Detector.ShaVersion | internal/cicd/detector.go:195-198 | The SHA fallback fails (the `[:8]` panic) exactly for an empty version and a SHA of 1 to 7 bytes. Otherwise the version is kept, or is the SHA's first 8 bytes. |
| Detector.PairProduct | internal/cicd/detector.go:187-193 | The product is kept if set. Else, for a repository with exactly one '/', it is the part after it; for any other repository it stays empty. |
| Detector.LastProduct | internal/cicd/detector.go:213-219 | The product is kept if set or if the repository is empty. Else it is the last '/'-segment: all of the repository when there is no '/', else what follows the last one. |
| Detector.JenkinsProduct | internal/cicd/detector.go:238-244 | The product is kept if set or if the repository is empty. Else it is the last '/'-segment minus one trailing ".git": exactly the segment when it has no such suffix, the segment without its last four bytes when it has. It never holds a '/'. |
| Detector.NormalizeGitURL | internal/cicd/detector.go:391-401 | The output is never longer than the input. |
| Detector.ScpStyleURL | internal/cicd/detector.go:394-398 | `git@host:path.git` becomes `host/path` for a host without ':'. |
| Detector.HttpsURL | internal/cicd/detector.go:392-395 | `https://rest.git` becomes `rest` when no other rule applies. |
| Detector.HttpURL | internal/cicd/detector.go:393 | `http://rest` becomes `rest` when no other rule applies. |
| Detector.PlainURLUnchanged | internal/cicd/detector.go:391-401 | A URL with no scheme, no "git@", no ".git" and no ':' is unchanged. |
| Detector.NormalizeGitURLVectors | internal/cicd/detector_test.go:146-149 | The four test vectors all give "github.com/owner/repo". |
| Detector.ScpVector | internal/cicd/detector_test.go:148 | The scp-style vector "git@github.com:owner/repo.git" gives "github.com/owner/repo". |
| Text.TrimPrefix | internal/cicd/detector.go:392-394 | With the prefix present the input is prefix + result; without it the input is unchanged. |
| Text.TrimSuffix | internal/cicd/detector.go:395 | With the suffix present the input is result + suffix; without it the input is unchanged. |
| Text.SplitJoin | internal/cicd/detector.go:189 | Joining the parts of `strings.Split` with the separator gives back the input, and no part holds the separator. |
| Text.SplitCount | internal/cicd/detector.go:189-190 | There is one part more than there are separators, so `len(parts) == 2` means exactly one '/'. |
| Text.LastSegmentIsLastPart | internal/cicd/detector.go:215-217 | The last segment is `parts[len(parts)-1]` of `strings.Split`. |
| Detector.DetectGitHub | internal/cicd/detector.go:171-199 | The field-by-field updates give the GitHub extraction; `ok` is false exactly where `[:8]` panics. |
| Detector.DetectGitLab | internal/cicd/detector.go:202-225 | The same, for GitLab. |
| Detector.DetectJenkins | internal/cicd/detector.go:228-250 | The field-by-field updates give the Jenkins extraction (it cannot panic). |
| Detector.DetectCircleCI | internal/cicd/detector.go:253-279 | The same, for CircleCI, including the CIRCLE_TAG branch fallback. |
| Detector.DetectBitbucket | internal/cicd/detector.go:282-309 | The same, for Bitbucket. |
| Detector.DetectAzure | internal/cicd/detector.go:312-334 | The same, for Azure (no panic). |
| Detector.DetectTravis | internal/cicd/detector.go:337-360 | The same, for Travis. |
| Detector.DetectRundeck | internal/cicd/detector.go:363-388 | The same, for Rundeck (no panic). |
| Detector.Detect | internal/cicd/detector.go:114-139 | The detected system's extractor applied to fresh values; `ok` is false exactly when it panics; the system field is `detectSystem`'s answer. |
| Detector.DetectUnknownIsEmpty | internal/cicd/detector.go:114-139 | With no marker, every field but the system is "", and the system's text is "unknown". |
| Detector.DetectPanicsOnShortSha | internal/cicd/detector.go:195-198 | `Detect` panics exactly for the five SHA-fallback systems whose SHA variable holds 1 to 7 bytes. |
| Detector.DetectedGitHub | internal/cicd/detector.go:171-199 | Repository and run id as read. The build URL is set exactly when server, repository and run id all are, and is then `server/repo/actions/runs/id`. The product follows the two-segment rule; the version is the SHA's first 8 bytes. |
| Detector.DetectedGitLab | internal/cicd/detector.go:202-225 | The pipeline URL as read, the last-segment product, the short-SHA version. |
| Detector.DetectedJenkins | internal/cicd/detector.go:228-250 | The normalised GIT_URL as repository. The product is empty for an empty repository, else the repository's last segment minus one trailing ".git". The build number is the version. |
| Detector.DetectedCircleCI | internal/cicd/detector.go:253-279 | The repository `user/name` exactly when both are set, the branch falling back to the tag, the reponame product, the short-SHA version. |
| Detector.DetectedBitbucket | internal/cicd/detector.go:282-309 | The build URL `https://bitbucket.org/<full>/pipelines/results/<n>` exactly when the full name is set, the branch falling back to the tag, the slug product, the short-SHA version. |
| Detector.DetectedAzure | internal/cicd/detector.go:312-334 | The last-segment product and the build-number version. |
| Detector.DetectedTravis | internal/cicd/detector.go:337-360 | The branch falling back to the tag, the two-segment product, the short-SHA version. |
| Detector.DetectedRundeck | internal/cicd/detector.go:363-388 | Exec id as build number, invoke id and version; the user-name fallback; the execution URL exactly when server, project and id are set; the job-name product. |
| Detector.AddIfPresent | internal/cicd/detector.go:107-111 | Sets the key exactly when the value is non-empty and leaves every other entry as it was. |
| Detector.AddAllPresent | internal/cicd/detector.go:45-101 | A run of `addIfPresent` calls adds only its own keys and keeps the others. With distinct keys, each key is present exactly when its variable is set, holding its value. |
| Detector.MetadataVariablesWellFormed | internal/cicd/detector.go:46-100 | Each system's keys are distinct and all start with "vi_". |
| Detector.ExtraMetadata | internal/cicd/detector.go:42-104 | Only the detected system's keys, all "vi_"-prefixed. Each is present exactly when its variable is non-empty, with the variable's value. Empty for unknown. |
| ApiClient.RetryFrom | internal/api/client.go:43-71 | From attempt k at least one and at most 4 − k more requests are made. |
| ApiClient.RetryFromSettles | internal/api/client.go:43-71 | Every attempt before the last was retried. A response comes back exactly when the last attempt returned one, and it is that attempt's response. A failure comes only after attempt 3 and wraps its failure text. |
| ApiClient.RetryCharacterized | internal/api/client.go:37-72 | The loop makes 1 to 4 requests and returns the first 2xx or non-429 4xx response. Otherwise it returns "request failed after 3 retries: " + the fourth failure. |
| ApiClient.ReturnedStatusRange | internal/api/client.go:56-64 | A returned response has a status in [200,300) or [400,500) other than 429. |
| ApiClient.PausesBounded | internal/api/client.go:41-47 | There is one pause fewer than there are requests, and the pauses total at most 7 s. |
| ApiClient.ServerErrorsThenSuccess | internal/api/client.go:43-69 | [500, 500, 200] gives three requests, pauses 1 s and 2 s, and the 200 response. |
| ApiClient.RateLimitedThroughout | internal/api/client.go:66-71 | Four 429s give four requests and the error naming "HTTP 429". |
| ApiClient.DoRequest | internal/api/client.go:37-72 | The loop's result and count are the retry specification's, and its pauses are the first attempts − 1 backoff values. |
| ApiClient.DetailField | internal/api/client.go:137-141 | The `Detail` field decoding into the struct fills. It is the value under "detail" when that key is present, else null when no key matches "detail" up to ASCII case, else the value of the one key that does. Any other result is null or the value of a matching key. |
| ApiClient.DetailOf | internal/api/client.go:137-152 | An object body gives its `Detail` field as above. A body that is not JSON gives the raw body. Any other result is null, or the raw body for a non-object. |
| ApiClient.DetailMatchedUpToCase | internal/api/client.go:137-151 | A 423 whose body is `{"Detail": {"code": "X"}}` is a preflight `APIError` whose details carry the code "X". |
| ApiClient.HandleResponse | internal/api/client.go:119-155 | An unreadable body is an error. A 2xx is the parsed result or the parse error. Every other status is an `APIError` with that status and the body's detail. |
| ApiClient.ErrorText | internal/api/client.go:163-176 | A string detail verbatim; "validation error" for an empty list and "validation error: …" for a non-empty one; "API error: …" for anything else. |
| ApiClient.RawBodyIsTheMessage | internal/api/client.go:141-147 | A 4xx whose body is not JSON is reported by its raw body. |
| ApiClient.PreflightIsTerminal | internal/api/client.go:179-181 | 409, 423 and 428 are client errors the loop never retries. |
| ApiClient.GetPreflightDetails | internal/api/client.go:184-208 | ok exactly for an object detail. error, message, code and retry_after are taken when string-typed, else "". `details` is taken exactly when object-typed. |
| ApiClient.LoopErrorPropagated | internal/api/deployment.go:47-50 | A loop error comes back unchanged, whatever the body parser and decoder. |
| ApiClient.ClientErrorAfterOneRequest | internal/api/client.go:61-64 | A first answer that is a non-429 4xx ends after one request with an `APIError` of that status, a preflight error exactly for 409/423/428. |
| ApiClient.SuccessYieldsParsedBody | internal/api/client.go:128-135 | A 2xx with a parsable body yields the parsed result. |
| ApiClient.ApiErrorOnlyFromResponses | internal/api/client.go:119-155 | An `APIError` arises only from a non-2xx response the loop returned, with its status. |
| Events.CreateDeploymentEvent | internal/api/deployment.go:46-58 | One POST to "/deployment-events/" followed by the response handling. A loop error is returned as it is. Exactly one of result and error. |
| Events.CreateBuildEvent | internal/api/build.go:36-48 | The same, to "/build-events/". |
| Events.PreflightRejection | internal/api/deployment.go:47-55 | A first 409/423/428 answer comes back after one request as a preflight `APIError`. |
| Annotations.FormatTitle | internal/github/annotations.go:256-273 | 423 and 428 titles end with a non-empty rule name. A 428 title starts with the error code. Every other title starts with "Deployment". |
| Annotations.ConflictAndScheduleTitles | internal/github/annotations_test.go:16-36 | The 409 and 423 vectors. |
| Annotations.PreconditionTitles | internal/github/annotations_test.go:37-50 | The 428 vectors. |
| Annotations.TitleDependsOnStatus | internal/github/annotations.go:256-273 | Error code and rule name matter only to 428 and 423. Any status but 409, 423 and 428 gives "Deployment Rejected". |
| Annotations.FormatStatus | internal/github/annotations.go:134-149 | The result ends with the status. It is longer exactly for the eight known statuses, which get a non-ASCII first byte (the emoji) and a space before the status. Unknown statuses are unchanged. |
| Annotations.RuneBytes | internal/github/annotations.go:292 | Go's `string(b)`: ASCII bytes as themselves, bytes from 0x80 on as a two-byte UTF-8 sequence encoding the value. |
| Annotations.ReplaceAllAsWritten | internal/github/annotations.go:285-296 | The loop as written computes the left-to-right, non-overlapping replacement, re-encoding each unmatched byte with `string(s[i])`. |
| Annotations.ReplaceAll | internal/github/annotations.go:285-296 | The corrected loop computes the left-to-right, non-overlapping replacement, copying each unmatched byte. |
| Annotations.AsWrittenAgreesOnAscii | internal/github/annotations.go:292 | On ASCII text the two loops agree. |
| Annotations.AsWrittenMangles | internal/github/annotations.go:292 | "é" (C3 A9) comes out of the loop as written as C3 83 C2 A9, and unchanged from the corrected one. |
| Annotations.ReplacedWithoutMatch | internal/github/annotations.go:285-296 | Without an occurrence of `old` the text comes back unchanged. |
| Annotations.Escaped | internal/github/annotations.go:277-282 | An escaped message holds no CR or LF, and text without '%', CR and LF escapes to itself. |
| Annotations.ThreePassesEscapeEachByte | internal/github/annotations.go:277-282 | The three ordered passes ("%" first) amount to escaping each byte once. |
| Annotations.EscapeWorkflowCommand | internal/github/annotations.go:277-282 | The three passes of the corrected `replaceAll` give the byte-wise escape. On ASCII text that is also what the passes as written produce. |
| Annotations.EscapeWorkflowCommandAsWritten | internal/github/annotations.go:277-296 | The three passes of the loop as written give `EscapedAsWritten`, which on ASCII text is the byte-wise escape. |
| Annotations.EscapedAsWrittenOnAscii | internal/github/annotations.go:277-296 | For ASCII text the escape as written equals the byte-wise escape. |
| Annotations.AsWrittenReencodes | internal/github/annotations.go:292 | Without the searched-for byte, the loop as written passes every byte through `string(b)`. |
| Annotations.EscapeAsWrittenMangles | internal/github/annotations.go:277-296 | "é" (C3 A9) comes out of the escape as written as 16 bytes, because each pass re-encodes every byte from 0x80 on again. The byte-wise escape leaves it unchanged. |
| Annotations.EscapeRoundTrip | internal/github/annotations.go:275-282 | Decoding %25, %0D and %0A back gives the original message. |
| Annotations.EscapeAroundSpecial | internal/github/annotations_test.go:70-88 | One '%', CR or LF between plain text is the only thing that changes (the single-character vectors). |
| Annotations.WriteWorkflowCommand | internal/github/annotations.go:152-160 | The line is `::error title=<formatTitle>::<escaped message>`. For an ASCII message it also equals the line the escape as written gives. |
| Annotations.KeyInformation | internal/github/annotations.go:182-191 | The error code and the message always appear. The rule appears exactly for a non-empty rule name, and the retry time exactly for a non-empty one. Every piece is a labelled field. |
| Annotations.StatusHeading | internal/github/annotations.go:170-180 | The "Deployment Rejected" heading first. The conflict subheading exactly for 409, the schedule one exactly for 423 and the precondition one exactly for 428; no guidance and no field. |
| Annotations.Guidance | internal/github/annotations.go:195-231 | Only guidance lines. A wait-until line exactly for a 423 with a retry time, and it carries that time. A can-deploy-at line exactly for a 428 INSUFFICIENT_SOAK_TIME with a retry time, carrying it. The emergency hint exactly for 423 and for the 428 codes other than FLOW_VIOLATION, QUALITY_APPROVAL_REQUIRED and APPROVAL_REQUIRED. Nothing at all for other statuses. |
| Annotations.RejectionSummary | internal/github/annotations.go:169-242 | The summary starts with the "Deployment Rejected" heading. It has the conflict, schedule or precondition subheading exactly for 409, 423 or 428. It names the code and message, and the rule and retry time exactly when known. It shows the details block exactly for non-empty details. Its guidance obeys the `Guidance` facts and none appears for other statuses. |
| Annotations.WriteJobSummary | internal/github/annotations.go:163-253 | A summary exactly when GITHUB_STEP_SUMMARY is set. The summary is as `RejectionSummary` states: the status subheading exactly for 409, 423 and 428; the code, message, rule and retry time; the guidance lines as `Guidance` states; the details block exactly for non-empty details. |
| Annotations.WriteErrorAnnotation | internal/github/annotations.go:11-22 | Nothing outside GitHub Actions. Inside, the `::error` line always (for an ASCII message, the one the escape as written gives), and the job summary exactly when there is a summary file. That summary has the status subheading and the guidance as `WriteJobSummary` states. |
| Annotations.ViewURL | internal/github/annotations.go:52-63 | A link exactly when the UI URL and the id are set and the action is Deployment or Build, with the deployments or the versions path. |
| Annotations.SuccessFields | internal/github/annotations.go:40-50 | Action, status and version always. Environment and SHA exactly when non-empty. |
| Annotations.WriteSuccessSummary | internal/github/annotations.go:25-74 | A summary exactly inside GitHub Actions with a summary file. It holds the decorated status, the conditional fields, and the link exactly when `ViewURL` gives one. |
| Annotations.PossibleCausesOf | internal/github/annotations.go:100-114 | The API and network causes for those two types. The "check error message" line exactly for any other type. |
| Annotations.GenericSummary | internal/github/annotations.go:94-120 | The heading, the error type and the error line first, then the causes for the type and the fixed steps; no labelled field. |
| Annotations.WriteGenericErrorAnnotation | internal/github/annotations.go:78-131 | Nothing at all without GitHub Actions or without a summary file. Otherwise the "Versioner <action> Failed" line with the escaped message, and the generic summary. For an ASCII message the line equals the one the escape as written gives. |
| Track.GetWithFallback | internal/cmd/track_deployment.go:164-175 | Empty exactly when the flag, viper's value and the fallback all are. |
| Track.ViperPrecedence | internal/cmd/track_deployment.go:82-95 | `viper.GetString`: a flag bound to the running command and given by the user wins, even as "". Otherwise the `VERSIONER_` variable or config file entry. Otherwise "https://api.versioner.io" for `api_url` and "" for any other key. A key the command has not bound reads the configuration only. |
| Track.FallbackCases | internal/cmd/track_deployment.go:164-175 | A non-empty flag wins. A bound flag given as "" gives the fallback. Without such a flag, the non-empty configuration, else the fallback. |
| Track.GetWithFallbackIsFirstNonEmpty | internal/cmd/track_build.go:121-132 | `getWithFallback` is the first non-empty of the flag, viper's value and the detected value. |
| Track.FailOnApiError | internal/cmd/track_deployment.go:151-158 | The flag if changed, else the configuration if set, else true. |
| Track.LocalErrorMessage | internal/cmd/track_build.go:152-173 | The timestamp errors wrap the parser's error after their prefix. Metadata errors are the parser's own text. |
| Track.RuleNameOf | internal/cmd/track_deployment.go:297-303 | The rule name is the string under "rule_name" when there is one, else "". |
| Track.PreflightReport | internal/cmd/track_deployment.go:288-306 | No annotation exactly when the detail is not an object. Otherwise `WriteErrorAnnotation` with the status, code, message, rule name, retry time and details. |
| Track.DeploymentExitCode | internal/cmd/track_deployment.go:252-269 | 0 exactly on success; 5 exactly for a preflight `APIError`; 4 exactly for any other `APIError`; 1 exactly for any other error. |
| Track.DeploymentFailureReport | internal/cmd/track_deployment.go:253-268 | A preflight error gets the preflight report, another API error the "API Error" annotation with its text, and any other error the "Network Error" annotation. |
| Track.BuildExitCode | internal/cmd/track_build.go:199-209 | 0 exactly on success and 2 for every error, API or transport. |
| Track.DeploymentPrecedence | internal/cmd/track_deployment.go:102-122 | Product and version are the first non-empty of the flag, viper's value and detection. The environment is the first non-empty of the flag and viper's value only. |
| Track.DeploymentFlagShadowsConfig | internal/cmd/track_deployment.go:103-114 | Without a product or environment flag, the configuration is used (the product falling back to detection). With `--product=` the product is the detected one. With `--environment=` the environment is "", whatever the configuration says. |
| Track.EmptyEnvironmentFlagRefused | internal/cmd/track_deployment.go:111-138 | With `--environment=` and a product, the run is refused with "--environment is required", even when VERSIONER_ENVIRONMENT or the config file sets one. |
| Track.EmptyDeploymentFlagFallsToDetection | internal/cmd/track_deployment.go:164-183 | With `--source-system=` a deployment sends the detected system's tag, even when the configuration names a source system. |
| Track.EmptyBuildFlags | internal/cmd/track_build.go:57-69 | In a build, `--source-system=` leaves the configured source system in place, because that key is bound to the deployment command's flag. `--scm-branch=` is bound to the build's own flag, so it sends the detected branch. |
| Track.DeploymentChecksInOrder | internal/cmd/track_deployment.go:132-214 | Each local error is reported exactly when all earlier checks pass and its own fails, in the order product, environment, version, API key, completed-at, metadata. Success exactly when all pass. |
| Track.DeploymentSendsRawStatus | internal/cmd/track_deployment.go:124-183 | The event's status is the raw `--status` flag, "success" by default. The source system is never empty. It is the detected system's tag when neither the flag nor viper gives one. |
| Track.AliasStatusSentAsGiven | internal/cmd/track_deployment.go:124-130 | A status that `Normalize` would rewrite is sent as given, different from its canonical form. |
| Track.UnknownSourceSystem | internal/cmd/track_deployment.go:183 | With nothing detected the event's source system is "unknown". |
| Track.PrepareDeploymentEvent | internal/cmd/track_deployment.go:102-227 | The step-by-step resolution and checks give the specification's event or its first local error. |
| Track.CompleteDeploymentEvent | internal/cmd/track_deployment.go:194-227 | The completion time, merged metadata and preflight switch are set as specified, or the first parse error is returned. |
| Track.RunDeploymentTrack | internal/cmd/track_deployment.go:98-285 | A panic exactly when `Detect` panics. A refusal exactly for a local error, before any request. Otherwise exactly one submission: success gives the event id and the success summary; failure gives a 5/4/1 exit with its report. |
| Track.BuildChecksInOrder | internal/cmd/track_build.go:101-175 | Product, version, API key, started-at and completed-at checks, each reported exactly when the earlier ones pass; the environment plays no part. |
| Track.BuildEventProperties | internal/cmd/track_build.go:134-175 | The raw status ("completed" by default), a source system that is never empty, and only the user's metadata document, never the detected `vi_` keys. |
| Track.PrepareBuildEvent | internal/cmd/track_build.go:76-175 | The step-by-step resolution and checks give the specification's build event or its first local error. |
| Track.CompleteBuildEvent | internal/cmd/track_build.go:151-175 | Start and completion times and the metadata document set as specified, or the first parse error. |
| Track.RunBuildTrack | internal/cmd/track_build.go:72-220 | A panic exactly when `Detect` panics. A refusal exactly for a local error. Otherwise one submission: success gives the event id; every failure gives exit 2. |

## Left out

- The HTTP transport itself (`performRequest`: marshalling, headers, `http.Client.Do`, the 30 s timeout, debug printing) is a parameter. Per attempt it gives a transport error or a response.
- `time.Sleep` is not modelled as time. The pauses are a ghost log of seconds, and there is no deadline or cancellation to model.
- `encoding/json` decoding is a parameter returning a JSON value or a syntax error. `json.MarshalIndent` and Go's `%v` rendering are parameters too.
- ApiClient.DetailField: when several keys match "detail" up to case, Go fills `Detail` from the last of them in document order. The decoded object is a map and does not keep that order. The model instead takes the exact key "detail" when it is among them, and null otherwise. The contract is weaker for that case only.
- ApiClient.DetailOf: inherits the `DetailField` gap above when several keys match "detail" up to case.
- ApiClient.DetailField: keys are compared by ASCII case only; Go's Unicode case folding of non-ASCII bytes in keys is not modelled.
- EscapeWorkflowCommand: it computes the corrected escape because the rest of the model uses the corrected `replaceAll` (see Findings). The escape as written is EscapeWorkflowCommandAsWritten. The two agree on ASCII text and differ from byte 0x80 on.
- WriteWorkflowCommand: its line carries the corrected escape. It equals the source's line only for an ASCII message.
- WriteErrorAnnotation: its `::error` line carries the corrected escape. It equals the source's line only for an ASCII message.
- WriteGenericErrorAnnotation: its `::error` line carries the corrected escape. It equals the source's line only for an ASCII message.
- `strings.ToLower` and `strings.TrimSpace` are modelled on ASCII bytes only. Their Unicode behaviour is not.
- RFC 3339 timestamp parsing (`time.Parse`) is a parameter.
- `MergeMetadata` is called by `runDeploymentTrack` but is not defined in any file of the model. It is an uninterpreted parameter.
- The viper configuration (config file and `VERSIONER_` variables) and cobra's flag set are abstracted as two maps keyed by a `Setting` enumeration, not by flag-name strings. A `VERSIONER_` variable set to "" reads as unset, as viper's `AutomaticEnv` does by default. `Track.Viper` follows viper's order: a changed bound flag, the variable or the file, then the api_url default. The bool flags and all flag defaults other than "" are read from the flags, never through viper.
- Track.BoundTo: the binding of the shared keys to the deployment command's flags rests on Go running `init` functions in file-name order. track_deployment.go's bindings run after track_build.go's, so they replace them. The model fixes that order; it does not derive it.
- `Track.FailOnApiError`: the value is resolved as the command does, but the three-argument `NewClient` in internal/api/client.go takes no such argument. So it changes nothing, and the soft-fail mode and its placeholder responses are not modelled.
- Standard-error prose is not modelled: the verbose listing, the deprecation warning of `--skip-preflight-checks`, and the text `handlePreflightError` prints. That includes the normalised status, which is used only for a verbose message.
- Printing, file appends to the summary file, and `os.Exit` are not performed. The writers return the line and the summary pieces, and a run returns its exit code.
- The summary-file write failing silently is not modelled, and neither is anything in main.go.
- `Events.CreateDeploymentEvent` returns one `Result` value rather than a nil/non-nil pair. "Exactly one of result and error" therefore holds by construction.
- internal/cmd/root.go is modelled only for its `--api-url` and `--api-key` bindings and the `api_url` default (in `Track.Viper`). The config file search, the `--config` flag and the warning about `--api-key` are left out.
- internal/cmd/track.go, internal/cmd/version.go and internal/version/version.go (cobra wiring, `GetVersion`, `GetUserAgent`) are not part of this model. The user agent is a parameter.
- internal/api/client_test.go tests `FailOnAPIError` and `handleAPIError`, which internal/api/client.go does not define. Those tests have no counterpart here.
- Status.NormalizeIgnoresCase: the upper-case test vectors ("SUCCESS", "PENDING", "Failed") are stated once for every status rather than as literal probes.
- Status.NormalizeIgnoresPadding: the padded vectors are stated for table keys with one space on each side, not for arbitrary white space.
- Detector.NormalizeGitURL: its own contract states only the length bound. The rewrite rules are stated by the URL-shape lemmas and the test vectors.

## Findings

| source | as written | input that shows it | evidently intended | confidence | as-written member | corrected member |
|---|---|---|---|---|---|---|
| internal/github/annotations.go:292 | An unmatched byte is appended as `string(s[i])`, which converts the byte to a rune and re-encodes it as UTF-8, so every byte from 0x80 on becomes two bytes. | `replaceAll("é", "%", "%25")` turns the bytes C3 A9 into C3 83 C2 A9 ("Ã©"). Each of the three passes of `escapeWorkflowCommand("é")` does this again, giving 16 bytes. | Each unmatched byte is copied unchanged, so non-ASCII messages survive escaping. | not executed | Annotations.ReplaceAllAsWritten, Annotations.AsWrittenMangles, Annotations.EscapeWorkflowCommandAsWritten, Annotations.EscapeAsWrittenMangles | Annotations.ReplaceAll, Annotations.EscapeWorkflowCommand, Annotations.EscapeRoundTrip |
