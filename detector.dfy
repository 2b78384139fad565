/**
 * Detection of the CI/CD system a command runs under, and extraction of the
 * values that system exposes (internal/cicd/detector.go).
 *
 * The process environment is an immutable map in which a variable that is not
 * set reads as "". The Go `detect*` functions fill a `*DetectedValues` field
 * by field; here `DetectedValues` is the value `Values`, and each detector
 * method reassigns it field by field in the same order. Slicing a SHA shorter
 * than 8 bytes panics in Go; here that is a `false` result.
 */
module Detector {
  import opened Text
  import opened Wrappers

  /** The process environment. */
  type Env = map<string, string>

  /** `os.Getenv`: an unset variable reads as "". */
  function Getenv(env: Env, name: string): string {
    if name in env then env[name] else ""
  }

  datatype System = GitHub | GitLab | Jenkins | CircleCI | Bitbucket | Azure | Travis | Rundeck | Unknown

  /** The string value of each `System` constant. */
  function Tag(s: System): string {
    match s
    case GitHub => "github"
    case GitLab => "gitlab"
    case Jenkins => "jenkins"
    case CircleCI => "circleci"
    case Bitbucket => "bitbucket"
    case Azure => "azure-devops"
    case Travis => "travis"
    case Rundeck => "rundeck"
    case Unknown => "unknown"
  }

  /** The systems in the order their markers are tested. */
  const Order: seq<System> := [GitHub, GitLab, Jenkins, CircleCI, Bitbucket, Azure, Travis, Rundeck]

  /** The variable that announces each system and the test made on it: four
      must be "true", Azure's must be "True", three need only be set. */
  predicate Marker(s: System, env: Env) {
    match s
    case GitHub => Getenv(env, "GITHUB_ACTIONS") == "true"
    case GitLab => Getenv(env, "GITLAB_CI") == "true"
    case Jenkins => Getenv(env, "JENKINS_URL") != ""
    case CircleCI => Getenv(env, "CIRCLECI") == "true"
    case Bitbucket => Getenv(env, "BITBUCKET_BUILD_NUMBER") != ""
    case Azure => Getenv(env, "TF_BUILD") == "True"
    case Travis => Getenv(env, "TRAVIS") == "true"
    case Rundeck => Getenv(env, "RD_JOB_ID") != ""
    case Unknown => false
  }

  /** Position of a system in `Order`; `Unknown` comes after all of them. */
  function Rank(s: System): (k: nat)
    ensures s != Unknown ==> k < |Order| && Order[k] == s
    ensures s == Unknown ==> k == |Order|
  {
    match s
    case GitHub => 0
    case GitLab => 1
    case Jenkins => 2
    case CircleCI => 3
    case Bitbucket => 4
    case Azure => 5
    case Travis => 6
    case Rundeck => 7
    case Unknown => 8
  }

  /** `detectSystem`: the first system in `Order` whose marker holds, else `Unknown`. */
  function DetectSystem(env: Env): (s: System)
    ensures s != Unknown ==> Marker(s, env)
    ensures forall i :: 0 <= i < Rank(s) ==> !Marker(Order[i], env)
  {
    if Getenv(env, "GITHUB_ACTIONS") == "true" then GitHub
    else if Getenv(env, "GITLAB_CI") == "true" then GitLab
    else if Getenv(env, "JENKINS_URL") != "" then Jenkins
    else if Getenv(env, "CIRCLECI") == "true" then CircleCI
    else if Getenv(env, "BITBUCKET_BUILD_NUMBER") != "" then Bitbucket
    else if Getenv(env, "TF_BUILD") == "True" then Azure
    else if Getenv(env, "TRAVIS") == "true" then Travis
    else if Getenv(env, "RD_JOB_ID") != "" then Rundeck
    else Unknown
  }

  /** The converse: a system is the one detected exactly when its marker holds
      and no marker earlier in `Order` does. */
  lemma DetectSystemIsFirstMarker(env: Env, s: System)
    ensures DetectSystem(env) == s <==>
      (s == Unknown || Marker(s, env)) && forall i :: 0 <= i < Rank(s) ==> !Marker(Order[i], env)
  {
    var t := DetectSystem(env);
    if t != Unknown {
      assert Order[Rank(t)] == t;
    }
  }

  /** `DetectedValues`. */
  datatype Values = Values(
    system: System,
    product: string,
    version: string,
    scmRepository: string,
    scmSha: string,
    scmBranch: string,
    buildNumber: string,
    buildURL: string,
    invokeID: string,
    builtBy: string,
    builtByEmail: string,
    builtByName: string)

  /** A freshly allocated `DetectedValues` with only its system set. */
  function Empty(s: System): Values {
    Values(s, "", "", "", "", "", "", "", "", "", "", "")
  }

  /** Version fallback to a short SHA: `sha[:8]` when the version is still empty
      and a SHA is known; `None` is the panic of slicing a shorter SHA. */
  function ShaVersion(current: string, sha: string): (r: Option<string>)
    ensures r.None? <==> current == "" && 0 < |sha| < 8
    ensures current != "" ==> r == Some(current)
    ensures current == "" && r.Some? ==> r.value <= sha && |r.value| == (if sha == "" then 0 else 8)
  {
    if current == "" && sha != "" then
      if |sha| < 8 then None else Some(sha[..8])
    else Some(current)
  }

  /** Keep `current` unless it is empty and `alternative` is not. */
  function Fallback(current: string, alternative: string): (r: string)
    ensures r == (if current == "" then alternative else current)
  {
    if current == "" && alternative != "" then alternative else current
  }

  /** Product fallback of GitHub and Travis: the name part of an `owner/name`
      repository, and nothing when the repository has any other shape. */
  function PairProduct(current: string, repo: string): (p: string)
    ensures current != "" ==> p == current
    ensures current == "" && Count(repo, '/') == 1 ==> '/' !in p && HasSuffix(repo, "/" + p)
    ensures current == "" && Count(repo, '/') != 1 ==> p == ""
  {
    SplitCount(repo, '/');
    if current == "" && repo != "" then
      var parts := Split(repo, '/');
      if |parts| == 2 then
        TwoParts(repo, '/');
        var k := IndexOf(repo, '/');
        assert repo == repo[..k] + ("/" + parts[1]);
        parts[1]
      else current
    else current
  }

  /** The last `/`-separated segment: no '/' in it, all of `repo` when `repo`
      has no '/', else what follows the last one. */
  lemma LastPartIsTail(repo: string)
    ensures var parts := Split(repo, '/'); var p := parts[|parts| - 1];
      '/' !in p && (if '/' in repo then HasSuffix(repo, "/" + p) else p == repo)
  {
    LastSegmentIsLastPart(repo, '/');
    LastSegmentIsSuffix(repo, '/');
    LastSegmentIsTail(repo, '/');
    var p := LastSegment(repo, '/');
    if '/' in repo {
      var j := |repo| - |p| - 1;
      assert repo[j..] == [repo[j]] + repo[j + 1..];
      assert repo[j..] == "/" + p;
    }
  }

  /** Product fallback of GitLab and Azure: the last `/`-separated segment. */
  function LastProduct(current: string, repo: string): (p: string)
    ensures current != "" || repo == "" ==> p == current
    ensures current == "" && repo != "" ==>
      '/' !in p && (if '/' in repo then HasSuffix(repo, "/" + p) else p == repo)
  {
    if current == "" && repo != "" then
      var parts := Split(repo, '/');
      LastPartIsTail(repo);
      parts[|parts| - 1]
    else current
  }

  /** `p` is the last '/'-segment of `repo` (all of `repo` when it has no '/'),
      with one trailing ".git" removed. */
  predicate TrimmedLastSegment(repo: string, p: string) {
    '/' !in p && var last := Split(repo, '/')[|Split(repo, '/')| - 1];
    (HasSuffix(last, ".git") ==> last == p + ".git") && (!HasSuffix(last, ".git") ==> p == last) &&
    (if '/' in repo then HasSuffix(repo, "/" + last) else last == repo)
  }

  /** Product fallback of Jenkins: the last segment with one ".git" removed. */
  function JenkinsProduct(current: string, repo: string): (p: string)
    ensures current != "" || repo == "" ==> p == current
    ensures current == "" && repo != "" ==> TrimmedLastSegment(repo, p)
  {
    if current == "" && repo != "" then
      var parts := Split(repo, '/');
      LastPartIsTail(repo);
      var last := parts[|parts| - 1];
      var p := TrimSuffix(last, ".git");
      assert p == last[..|p|];
      p
    else current
  }

  /** `normalizeGitURL`: drop one leading "https://", then "http://", then "git@",
      then one trailing ".git", and turn the first ':' into '/'. */
  function NormalizeGitURL(url: string): (r: string)
    ensures |r| <= |url|
  {
    var u := TrimPrefix(url, "https://");
    var u := TrimPrefix(u, "http://");
    var u := TrimPrefix(u, "git@");
    var u := TrimSuffix(u, ".git");
    ReplaceFirst(u, ':', '/')
  }

  lemma IndexOfFirst(a: string, c: char, b: string)
    requires c !in a
    ensures IndexOf(a + [c] + b, c) == |a|
  {
    var s := a + [c] + b;
    var k := IndexOf(s, c);
    assert s[|a|] == c;
    assert s[..|a|] == a;
    IndexOfIsFirst(s, c);
  }

  /** An scp-style remote `git@host:path.git` becomes `host/path`. */
  lemma ScpStyleURL(host: string, path: string)
    requires ':' !in host
    ensures NormalizeGitURL("git@" + host + ":" + path + ".git") == host + "/" + path
  {
    var url := "git@" + host + ":" + path + ".git";
    assert url[0] == 'g';
    assert TrimPrefix(url, "git@") == host + ":" + path + ".git";
    var u := host + ":" + path;
    assert HasSuffix(u + ".git", ".git");
    assert TrimSuffix(u + ".git", ".git") == u;
    IndexOfFirst(host, ':', path);
    assert u[|host| := '/'] == host + "/" + path;
  }

  /** An `https://` URL ending in ".git" loses both, when nothing else applies. */
  lemma HttpsURL(rest: string)
    requires ':' !in rest && !("http://" <= rest) && !("git@" <= rest)
    ensures NormalizeGitURL("https://" + rest + ".git") == rest
  {
    var url := "https://" + rest + ".git";
    assert TrimPrefix(url, "https://") == rest + ".git";
    assert !("http://" <= rest + ".git") by {
      if |rest| < 7 {
        assert (rest + ".git")[|rest|] == '.';
      }
    }
    assert !("git@" <= rest + ".git") by {
      if |rest| < 4 {
        assert (rest + ".git")[|rest|] == '.';
      } else {
        assert (rest + ".git")[..4] == rest[..4];
      }
    }
    assert TrimSuffix(rest + ".git", ".git") == rest;
  }

  /** A URL with no scheme, no "git@", no ".git" and no ':' is left alone. */
  lemma PlainURLUnchanged(url: string)
    requires !("https://" <= url) && !("http://" <= url) && !("git@" <= url)
    requires !HasSuffix(url, ".git") && ':' !in url
    ensures NormalizeGitURL(url) == url
  {
  }

  /** A plain `http://` URL loses its scheme, when nothing else applies. */
  lemma HttpURL(rest: string)
    requires ':' !in rest && !("git@" <= rest) && !HasSuffix(rest, ".git")
    ensures NormalizeGitURL("http://" + rest) == rest
  {
    var url := "http://" + rest;
    assert url[4] == ':';
    assert TrimPrefix(url, "http://") == rest;
  }

  lemma VectorFacts(rest: string)
    requires rest == "github.com/owner/repo"
    ensures ':' !in rest && !("https://" <= rest) && !("http://" <= rest) && !("git@" <= rest)
    ensures !HasSuffix(rest, ".git")
  {
    assert rest[0] == 'g' && rest[3] == 'h' && rest[|rest| - 1] == 'o';
  }

  lemma HttpsVectorShape(url: string, rest: string)
    requires rest == "github.com/owner/repo" && url == "https://github.com/owner/repo.git"
    ensures url == "https://" + rest + ".git"
  {
  }

  lemma HttpVectorShape(url: string, rest: string)
    requires rest == "github.com/owner/repo" && url == "http://github.com/owner/repo"
    ensures url == "http://" + rest
  {
  }

  lemma ScpVector(url: string, host: string, path: string)
    requires host == "github.com" && path == "owner/repo" && url == "git@github.com:owner/repo.git"
    ensures NormalizeGitURL(url) == "github.com/owner/repo"
  {
    assert url == "git@" + host + ":" + path + ".git";
    assert host + "/" + path == "github.com/owner/repo";
    ScpStyleURL(host, path);
  }

  /** The four vectors of the Go test table for `normalizeGitURL`. */
  lemma NormalizeGitURLVectors(url: string, expected: string)
    requires
      || (url == "https://github.com/owner/repo.git" && expected == "github.com/owner/repo")
      || (url == "http://github.com/owner/repo" && expected == "github.com/owner/repo")
      || (url == "git@github.com:owner/repo.git" && expected == "github.com/owner/repo")
      || (url == "github.com/owner/repo" && expected == "github.com/owner/repo")
    ensures NormalizeGitURL(url) == expected
  {
    VectorFacts(expected);
    if url == "https://github.com/owner/repo.git" {
      HttpsVectorShape(url, expected);
      HttpsURL(expected);
    } else if url == "http://github.com/owner/repo" {
      HttpVectorShape(url, expected);
      HttpURL(expected);
    } else if url == "git@github.com:owner/repo.git" {
      ScpVector(url, "github.com", "owner/repo");
    } else {
      PlainURLUnchanged(expected);
    }
  }

  // ---------------------------------------------------------------------------
  // Per-system extraction. Each function gives the new values a `detect*`
  // function leaves in its argument `v`, or `None` where it panics.

  function GitHubExtract(v: Values, env: Env): Option<Values> {
    var repo := Getenv(env, "GITHUB_REPOSITORY");
    var sha := Getenv(env, "GITHUB_SHA");
    var server := Getenv(env, "GITHUB_SERVER_URL");
    var runID := Getenv(env, "GITHUB_RUN_ID");
    match ShaVersion(v.version, sha)
    case None => None
    case Some(version) =>
      Some(v.(scmRepository := repo, scmSha := sha,
              scmBranch := Getenv(env, "GITHUB_REF_NAME"), invokeID := runID,
              buildNumber := Getenv(env, "GITHUB_RUN_NUMBER"), builtBy := Getenv(env, "GITHUB_ACTOR"),
              buildURL := if server != "" && repo != "" && runID != ""
                          then server + "/" + repo + "/actions/runs/" + runID else v.buildURL,
              product := PairProduct(v.product, repo), version := version))
  }

  function GitLabExtract(v: Values, env: Env): Option<Values> {
    var repo := Getenv(env, "CI_PROJECT_PATH");
    var sha := Getenv(env, "CI_COMMIT_SHA");
    match ShaVersion(v.version, sha)
    case None => None
    case Some(version) =>
      Some(v.(scmRepository := repo, scmSha := sha,
              scmBranch := Getenv(env, "CI_COMMIT_REF_NAME"), invokeID := Getenv(env, "CI_PIPELINE_ID"),
              buildNumber := Getenv(env, "CI_PIPELINE_IID"), buildURL := Getenv(env, "CI_PIPELINE_URL"),
              builtBy := Getenv(env, "GITLAB_USER_LOGIN"), builtByEmail := Getenv(env, "GITLAB_USER_EMAIL"),
              builtByName := Getenv(env, "GITLAB_USER_NAME"),
              product := LastProduct(v.product, repo), version := version))
  }

  function JenkinsExtract(v: Values, env: Env): Values {
    var repo := NormalizeGitURL(Getenv(env, "GIT_URL"));
    var buildNumber := Getenv(env, "BUILD_NUMBER");
    v.(scmRepository := repo, scmSha := Getenv(env, "GIT_COMMIT"),
       scmBranch := Getenv(env, "GIT_BRANCH"), buildNumber := buildNumber,
       invokeID := Getenv(env, "BUILD_ID"), buildURL := Getenv(env, "BUILD_URL"),
       builtBy := Getenv(env, "BUILD_USER"), builtByEmail := Getenv(env, "BUILD_USER_EMAIL"),
       product := JenkinsProduct(v.product, repo), version := Fallback(v.version, buildNumber))
  }

  function CircleCIExtract(v: Values, env: Env): Option<Values> {
    var username := Getenv(env, "CIRCLE_PROJECT_USERNAME");
    var reponame := Getenv(env, "CIRCLE_PROJECT_REPONAME");
    var sha := Getenv(env, "CIRCLE_SHA1");
    match ShaVersion(v.version, sha)
    case None => None
    case Some(version) =>
      Some(v.(scmRepository := if username != "" && reponame != "" then username + "/" + reponame else v.scmRepository,
              scmSha := sha,
              scmBranch := Fallback(Getenv(env, "CIRCLE_BRANCH"), Getenv(env, "CIRCLE_TAG")),
              buildNumber := Getenv(env, "CIRCLE_BUILD_NUM"), invokeID := Getenv(env, "CIRCLE_WORKFLOW_ID"),
              buildURL := Getenv(env, "CIRCLE_BUILD_URL"), builtBy := Getenv(env, "CIRCLE_USERNAME"),
              product := Fallback(v.product, reponame), version := version))
  }

  function BitbucketExtract(v: Values, env: Env): Option<Values> {
    var repo := Getenv(env, "BITBUCKET_REPO_FULL_NAME");
    var sha := Getenv(env, "BITBUCKET_COMMIT");
    var buildNum := Getenv(env, "BITBUCKET_BUILD_NUMBER");
    match ShaVersion(v.version, sha)
    case None => None
    case Some(version) =>
      Some(v.(scmRepository := repo, scmSha := sha,
              scmBranch := Fallback(Getenv(env, "BITBUCKET_BRANCH"), Getenv(env, "BITBUCKET_TAG")),
              buildNumber := buildNum, invokeID := Getenv(env, "BITBUCKET_PIPELINE_UUID"),
              buildURL := if repo != "" && buildNum != ""
                          then "https://bitbucket.org/" + repo + "/pipelines/results/" + buildNum else v.buildURL,
              product := Fallback(v.product, Getenv(env, "BITBUCKET_REPO_SLUG")), version := version))
  }

  function AzureExtract(v: Values, env: Env): Values {
    var repo := Getenv(env, "BUILD_REPOSITORY_NAME");
    var buildNumber := Getenv(env, "BUILD_BUILDNUMBER");
    v.(scmRepository := repo, scmSha := Getenv(env, "BUILD_SOURCEVERSION"),
       scmBranch := Getenv(env, "BUILD_SOURCEBRANCHNAME"), buildNumber := buildNumber,
       invokeID := Getenv(env, "BUILD_BUILDID"), buildURL := Getenv(env, "BUILD_BUILDURI"),
       builtBy := Getenv(env, "BUILD_REQUESTEDFOR"), builtByEmail := Getenv(env, "BUILD_REQUESTEDFOREMAIL"),
       product := LastProduct(v.product, repo), version := Fallback(v.version, buildNumber))
  }

  function TravisExtract(v: Values, env: Env): Option<Values> {
    var repo := Getenv(env, "TRAVIS_REPO_SLUG");
    var sha := Getenv(env, "TRAVIS_COMMIT");
    match ShaVersion(v.version, sha)
    case None => None
    case Some(version) =>
      Some(v.(scmRepository := repo, scmSha := sha,
              scmBranch := Fallback(Getenv(env, "TRAVIS_BRANCH"), Getenv(env, "TRAVIS_TAG")),
              buildNumber := Getenv(env, "TRAVIS_BUILD_NUMBER"), invokeID := Getenv(env, "TRAVIS_BUILD_ID"),
              buildURL := Getenv(env, "TRAVIS_BUILD_WEB_URL"),
              product := PairProduct(v.product, repo), version := version))
  }

  function RundeckExtract(v: Values, env: Env): Values {
    var execID := Getenv(env, "RD_JOB_EXECID");
    var server := Getenv(env, "RD_JOB_SERVERURL");
    var project := Getenv(env, "RD_JOB_PROJECT");
    v.(buildNumber := execID, invokeID := execID,
       builtBy := Fallback(Getenv(env, "RD_JOB_USERNAME"), Getenv(env, "RD_JOB_USER_NAME")),
       buildURL := if server != "" && project != "" && execID != ""
                   then server + "/project/" + project + "/execution/show/" + execID else v.buildURL,
       product := if v.product == "" then Getenv(env, "RD_JOB_NAME") else v.product,
       version := Fallback(v.version, execID))
  }

  /** What `Detect` returns: the detected system's extractor applied to a fresh
      value, or `None` where that extractor panics. */
  function DetectValues(env: Env): Option<Values> {
    var s := DetectSystem(env);
    var v := Empty(s);
    match s
    case GitHub => GitHubExtract(v, env)
    case GitLab => GitLabExtract(v, env)
    case Jenkins => Some(JenkinsExtract(v, env))
    case CircleCI => CircleCIExtract(v, env)
    case Bitbucket => BitbucketExtract(v, env)
    case Azure => Some(AzureExtract(v, env))
    case Travis => TravisExtract(v, env)
    case Rundeck => Some(RundeckExtract(v, env))
    case Unknown => Some(v)
  }

  /** The systems whose version falls back to a short SHA, and the SHA's variable. */
  function ShaVariable(s: System): Option<string> {
    match s
    case GitHub => Some("GITHUB_SHA")
    case GitLab => Some("CI_COMMIT_SHA")
    case CircleCI => Some("CIRCLE_SHA1")
    case Bitbucket => Some("BITBUCKET_COMMIT")
    case Travis => Some("TRAVIS_COMMIT")
    case _ => None
  }

  // ---------------------------------------------------------------------------
  // The `detect*` functions. Each takes the values filled in so far and
  // reassigns them field by field, in the order of the Go statements; `ok` is
  // false where `SCMSha[:8]` panics.

  method DetectGitHub(d: Values, env: Env) returns (r: Values, ok: bool)
    ensures ok == GitHubExtract(d, env).Some?
    ensures ok ==> r == GitHubExtract(d, env).value
  {
    r := d;
    r := r.(scmRepository := Getenv(env, "GITHUB_REPOSITORY"));
    r := r.(scmSha := Getenv(env, "GITHUB_SHA"));
    r := r.(scmBranch := Getenv(env, "GITHUB_REF_NAME"));
    r := r.(invokeID := Getenv(env, "GITHUB_RUN_ID"));
    r := r.(buildNumber := Getenv(env, "GITHUB_RUN_NUMBER"));
    r := r.(builtBy := Getenv(env, "GITHUB_ACTOR"));
    var serverURL := Getenv(env, "GITHUB_SERVER_URL");
    var repo := Getenv(env, "GITHUB_REPOSITORY");
    var runID := Getenv(env, "GITHUB_RUN_ID");
    if serverURL != "" && repo != "" && runID != "" {
      r := r.(buildURL := serverURL + "/" + repo + "/actions/runs/" + runID);
    }
    if r.product == "" && r.scmRepository != "" {
      var parts := Split(r.scmRepository, '/');
      if |parts| == 2 {
        r := r.(product := parts[1]);
      }
    }
    ok := true;
    if r.version == "" && r.scmSha != "" {
      if |r.scmSha| < 8 {
        return r, false;
      }
      r := r.(version := r.scmSha[..8]);
    }
  }

  method DetectGitLab(d: Values, env: Env) returns (r: Values, ok: bool)
    ensures ok == GitLabExtract(d, env).Some?
    ensures ok ==> r == GitLabExtract(d, env).value
  {
    r := d;
    r := r.(scmRepository := Getenv(env, "CI_PROJECT_PATH"));
    r := r.(scmSha := Getenv(env, "CI_COMMIT_SHA"));
    r := r.(scmBranch := Getenv(env, "CI_COMMIT_REF_NAME"));
    r := r.(invokeID := Getenv(env, "CI_PIPELINE_ID"));
    r := r.(buildNumber := Getenv(env, "CI_PIPELINE_IID"));
    r := r.(buildURL := Getenv(env, "CI_PIPELINE_URL"));
    r := r.(builtBy := Getenv(env, "GITLAB_USER_LOGIN"));
    r := r.(builtByEmail := Getenv(env, "GITLAB_USER_EMAIL"));
    r := r.(builtByName := Getenv(env, "GITLAB_USER_NAME"));
    if r.product == "" && r.scmRepository != "" {
      var parts := Split(r.scmRepository, '/');
      r := r.(product := parts[|parts| - 1]);
    }
    ok := true;
    if r.version == "" && r.scmSha != "" {
      if |r.scmSha| < 8 {
        return r, false;
      }
      r := r.(version := r.scmSha[..8]);
    }
  }

  method DetectJenkins(d: Values, env: Env) returns (r: Values)
    ensures r == JenkinsExtract(d, env)
  {
    r := d;
    r := r.(scmRepository := NormalizeGitURL(Getenv(env, "GIT_URL")));
    r := r.(scmSha := Getenv(env, "GIT_COMMIT"));
    r := r.(scmBranch := Getenv(env, "GIT_BRANCH"));
    r := r.(buildNumber := Getenv(env, "BUILD_NUMBER"));
    r := r.(invokeID := Getenv(env, "BUILD_ID"));
    r := r.(buildURL := Getenv(env, "BUILD_URL"));
    r := r.(builtBy := Getenv(env, "BUILD_USER"));
    r := r.(builtByEmail := Getenv(env, "BUILD_USER_EMAIL"));
    if r.product == "" && r.scmRepository != "" {
      r := r.(product := JenkinsProduct("", r.scmRepository));  // last segment, ".git" trimmed
    }
    if r.version == "" && r.buildNumber != "" {
      r := r.(version := r.buildNumber);
    }
  }

  method DetectCircleCI(d: Values, env: Env) returns (r: Values, ok: bool)
    ensures ok == CircleCIExtract(d, env).Some?
    ensures ok ==> r == CircleCIExtract(d, env).value
  {
    r := d;
    var username := Getenv(env, "CIRCLE_PROJECT_USERNAME");
    var reponame := Getenv(env, "CIRCLE_PROJECT_REPONAME");
    if username != "" && reponame != "" {
      r := r.(scmRepository := username + "/" + reponame);
    }
    r := r.(scmSha := Getenv(env, "CIRCLE_SHA1"));
    r := r.(scmBranch := Getenv(env, "CIRCLE_BRANCH"));
    if r.scmBranch == "" {
      r := r.(scmBranch := Getenv(env, "CIRCLE_TAG"));
    }
    r := r.(buildNumber := Getenv(env, "CIRCLE_BUILD_NUM"));
    r := r.(invokeID := Getenv(env, "CIRCLE_WORKFLOW_ID"));
    r := r.(buildURL := Getenv(env, "CIRCLE_BUILD_URL"));
    r := r.(builtBy := Getenv(env, "CIRCLE_USERNAME"));
    if r.product == "" && reponame != "" {
      r := r.(product := reponame);
    }
    ok := true;
    if r.version == "" && r.scmSha != "" {
      if |r.scmSha| < 8 {
        return r, false;
      }
      r := r.(version := r.scmSha[..8]);
    }
  }

  method DetectBitbucket(d: Values, env: Env) returns (r: Values, ok: bool)
    ensures ok == BitbucketExtract(d, env).Some?
    ensures ok ==> r == BitbucketExtract(d, env).value
  {
    r := d;
    r := r.(scmRepository := Getenv(env, "BITBUCKET_REPO_FULL_NAME"));
    r := r.(scmSha := Getenv(env, "BITBUCKET_COMMIT"));
    r := r.(scmBranch := Getenv(env, "BITBUCKET_BRANCH"));
    if r.scmBranch == "" {
      r := r.(scmBranch := Getenv(env, "BITBUCKET_TAG"));
    }
    r := r.(buildNumber := Getenv(env, "BITBUCKET_BUILD_NUMBER"));
    r := r.(invokeID := Getenv(env, "BITBUCKET_PIPELINE_UUID"));
    var repoFullName := Getenv(env, "BITBUCKET_REPO_FULL_NAME");
    var buildNum := Getenv(env, "BITBUCKET_BUILD_NUMBER");
    if repoFullName != "" && buildNum != "" {
      r := r.(buildURL := "https://bitbucket.org/" + repoFullName + "/pipelines/results/" + buildNum);
    }
    var repoSlug := Getenv(env, "BITBUCKET_REPO_SLUG");
    if r.product == "" && repoSlug != "" {
      r := r.(product := repoSlug);
    }
    ok := true;
    if r.version == "" && r.scmSha != "" {
      if |r.scmSha| < 8 {
        return r, false;
      }
      r := r.(version := r.scmSha[..8]);
    }
  }

  method DetectAzure(d: Values, env: Env) returns (r: Values)
    ensures r == AzureExtract(d, env)
  {
    r := d;
    r := r.(scmRepository := Getenv(env, "BUILD_REPOSITORY_NAME"));
    r := r.(scmSha := Getenv(env, "BUILD_SOURCEVERSION"));
    r := r.(scmBranch := Getenv(env, "BUILD_SOURCEBRANCHNAME"));
    r := r.(buildNumber := Getenv(env, "BUILD_BUILDNUMBER"));
    r := r.(invokeID := Getenv(env, "BUILD_BUILDID"));
    r := r.(buildURL := Getenv(env, "BUILD_BUILDURI"));
    r := r.(builtBy := Getenv(env, "BUILD_REQUESTEDFOR"));
    r := r.(builtByEmail := Getenv(env, "BUILD_REQUESTEDFOREMAIL"));
    if r.product == "" && r.scmRepository != "" {
      var parts := Split(r.scmRepository, '/');
      r := r.(product := parts[|parts| - 1]);
    }
    if r.version == "" && r.buildNumber != "" {
      r := r.(version := r.buildNumber);
    }
  }

  method DetectTravis(d: Values, env: Env) returns (r: Values, ok: bool)
    ensures ok == TravisExtract(d, env).Some?
    ensures ok ==> r == TravisExtract(d, env).value
  {
    r := d;
    r := r.(scmRepository := Getenv(env, "TRAVIS_REPO_SLUG"));
    r := r.(scmSha := Getenv(env, "TRAVIS_COMMIT"));
    r := r.(scmBranch := Getenv(env, "TRAVIS_BRANCH"));
    if r.scmBranch == "" {
      r := r.(scmBranch := Getenv(env, "TRAVIS_TAG"));
    }
    r := r.(buildNumber := Getenv(env, "TRAVIS_BUILD_NUMBER"));
    r := r.(invokeID := Getenv(env, "TRAVIS_BUILD_ID"));
    r := r.(buildURL := Getenv(env, "TRAVIS_BUILD_WEB_URL"));
    if r.product == "" && r.scmRepository != "" {
      var parts := Split(r.scmRepository, '/');
      if |parts| == 2 {
        r := r.(product := parts[1]);
      }
    }
    ok := true;
    if r.version == "" && r.scmSha != "" {
      if |r.scmSha| < 8 {
        return r, false;
      }
      r := r.(version := r.scmSha[..8]);
    }
  }

  method DetectRundeck(d: Values, env: Env) returns (r: Values)
    ensures r == RundeckExtract(d, env)
  {
    r := d;
    r := r.(buildNumber := Getenv(env, "RD_JOB_EXECID"));
    r := r.(invokeID := Getenv(env, "RD_JOB_EXECID"));
    r := r.(builtBy := Getenv(env, "RD_JOB_USERNAME"));
    if r.builtBy == "" {
      r := r.(builtBy := Getenv(env, "RD_JOB_USER_NAME"));
    }
    var serverURL := Getenv(env, "RD_JOB_SERVERURL");
    var project := Getenv(env, "RD_JOB_PROJECT");
    var execID := Getenv(env, "RD_JOB_EXECID");
    if serverURL != "" && project != "" && execID != "" {
      r := r.(buildURL := serverURL + "/project/" + project + "/execution/show/" + execID);
    }
    if r.product == "" {
      r := r.(product := Getenv(env, "RD_JOB_NAME"));
    }
    if r.version == "" && execID != "" {
      r := r.(version := execID);
    }
  }

  /** `Detect`: values for the detected system, filled in by that system's
      extractor; `ok` is false where the extractor panics. */
  method Detect(env: Env) returns (d: Values, ok: bool)
    ensures ok == DetectValues(env).Some?
    ensures ok ==> d == DetectValues(env).value
    ensures ok ==> d.system == DetectSystem(env)
  {
    d := Empty(DetectSystem(env));
    ok := true;
    match d.system
    case GitHub => d, ok := DetectGitHub(d, env);
    case GitLab => d, ok := DetectGitLab(d, env);
    case Jenkins => d := DetectJenkins(d, env);
    case CircleCI => d, ok := DetectCircleCI(d, env);
    case Bitbucket => d, ok := DetectBitbucket(d, env);
    case Azure => d := DetectAzure(d, env);
    case Travis => d, ok := DetectTravis(d, env);
    case Rundeck => d := DetectRundeck(d, env);
    case Unknown =>
  }

  // ---------------------------------------------------------------------------
  // The `vi_` metadata bag.

  /** `addIfPresent`: set `key` only for a non-empty value. */
  function AddIfPresent(m: map<string, string>, key: string, value: string): (r: map<string, string>)
    ensures value == "" ==> r == m
    ensures value != "" ==> key in r && r[key] == value
    ensures forall k :: k != key ==> (k in r <==> k in m)
    ensures forall k :: k != key && k in m ==> r[k] == m[k]
  {
    if value != "" then m[key := value] else m
  }

  /** The metadata key and the variable it reads, per system, in source order. */
  function MetadataVariables(s: System): seq<(string, string)> {
    match s
    case GitHub => [
      ("vi_gh_workflow", "GITHUB_WORKFLOW"), ("vi_gh_job", "GITHUB_JOB"),
      ("vi_gh_run_attempt", "GITHUB_RUN_ATTEMPT"), ("vi_gh_event_name", "GITHUB_EVENT_NAME"),
      ("vi_gh_ref", "GITHUB_REF"), ("vi_gh_head_ref", "GITHUB_HEAD_REF"),
      ("vi_gh_base_ref", "GITHUB_BASE_REF")]
    case GitLab => [
      ("vi_gl_pipeline_id", "CI_PIPELINE_ID"), ("vi_gl_pipeline_url", "CI_PIPELINE_URL"),
      ("vi_gl_job_id", "CI_JOB_ID"), ("vi_gl_job_name", "CI_JOB_NAME"),
      ("vi_gl_job_url", "CI_JOB_URL"), ("vi_gl_pipeline_source", "CI_PIPELINE_SOURCE")]
    case Jenkins => [
      ("vi_jenkins_job_name", "JOB_NAME"), ("vi_jenkins_build_url", "BUILD_URL"),
      ("vi_jenkins_node_name", "NODE_NAME"), ("vi_jenkins_executor_number", "EXECUTOR_NUMBER")]
    case CircleCI => [
      ("vi_circle_workflow_id", "CIRCLE_WORKFLOW_ID"), ("vi_circle_workflow_job_id", "CIRCLE_WORKFLOW_JOB_ID"),
      ("vi_circle_job_name", "CIRCLE_JOB"), ("vi_circle_node_index", "CIRCLE_NODE_INDEX")]
    case Bitbucket => [
      ("vi_bb_pipeline_uuid", "BITBUCKET_PIPELINE_UUID"), ("vi_bb_step_uuid", "BITBUCKET_STEP_UUID"),
      ("vi_bb_workspace", "BITBUCKET_WORKSPACE"), ("vi_bb_repo_slug", "BITBUCKET_REPO_SLUG")]
    case Azure => [
      ("vi_azure_build_id", "BUILD_BUILDID"), ("vi_azure_definition_name", "BUILD_DEFINITIONNAME"),
      ("vi_azure_agent_name", "AGENT_NAME"), ("vi_azure_team_project", "SYSTEM_TEAMPROJECT")]
    case Travis => [
      ("vi_travis_build_id", "TRAVIS_BUILD_ID"), ("vi_travis_job_id", "TRAVIS_JOB_ID"),
      ("vi_travis_job_number", "TRAVIS_JOB_NUMBER"), ("vi_travis_event_type", "TRAVIS_EVENT_TYPE")]
    case Rundeck => [
      ("vi_rd_job_id", "RD_JOB_ID"), ("vi_rd_job_execid", "RD_JOB_EXECID"),
      ("vi_rd_job_serverurl", "RD_JOB_SERVERURL"), ("vi_rd_job_project", "RD_JOB_PROJECT"),
      ("vi_rd_job_name", "RD_JOB_NAME"), ("vi_rd_job_group", "RD_JOB_GROUP"),
      ("vi_rd_job_url", "RD_JOB_URL")]
    case Unknown => []
  }

  function KeysOf(vars: seq<(string, string)>): set<string> {
    set i | 0 <= i < |vars| :: vars[i].0
  }

  predicate DistinctKeys(vars: seq<(string, string)>) {
    forall i, j :: 0 <= i < j < |vars| ==> vars[i].0 != vars[j].0
  }

  /** The `addIfPresent` calls of one system, made in order. */
  function AddAllPresent(m: map<string, string>, vars: seq<(string, string)>, env: Env): (r: map<string, string>)
    ensures forall k :: k in r && k !in m ==> k in KeysOf(vars)
    ensures forall k :: k in m && k !in KeysOf(vars) ==> k in r && r[k] == m[k]
    ensures DistinctKeys(vars) ==> forall i :: 0 <= i < |vars| ==>
      (vars[i].0 in r <==> vars[i].0 in m || Getenv(env, vars[i].1) != "")
    ensures DistinctKeys(vars) ==> forall i :: 0 <= i < |vars| && Getenv(env, vars[i].1) != "" ==>
      vars[i].0 in r && r[vars[i].0] == Getenv(env, vars[i].1)
    decreases |vars|
  {
    if vars == [] then m
    else
      var m' := AddIfPresent(m, vars[0].0, Getenv(env, vars[0].1));
      var r := AddAllPresent(m', vars[1..], env);
      assert forall i :: 1 <= i < |vars| ==> vars[i] == vars[1..][i - 1];
      assert KeysOf(vars) == {vars[0].0} + KeysOf(vars[1..]);
      r
  }

  /** No key repeats and every key carries the "vi_" prefix. */
  predicate WellFormedVariables(vars: seq<(string, string)>) {
    DistinctKeys(vars) && forall i :: 0 <= i < |vars| ==> "vi_" <= vars[i].0
  }

  lemma GitHubVariablesWellFormed()
    ensures WellFormedVariables(MetadataVariables(GitHub))
  {
  }

  lemma GitLabVariablesWellFormed()
    ensures WellFormedVariables(MetadataVariables(GitLab))
  {
  }

  lemma JenkinsVariablesWellFormed()
    ensures WellFormedVariables(MetadataVariables(Jenkins))
  {
  }

  lemma CircleCIVariablesWellFormed()
    ensures WellFormedVariables(MetadataVariables(CircleCI))
  {
  }

  lemma BitbucketVariablesWellFormed()
    ensures WellFormedVariables(MetadataVariables(Bitbucket))
  {
  }

  lemma AzureVariablesWellFormed()
    ensures WellFormedVariables(MetadataVariables(Azure))
  {
  }

  lemma TravisVariablesWellFormed()
    ensures WellFormedVariables(MetadataVariables(Travis))
  {
  }

  lemma RundeckVariablesWellFormed()
    ensures WellFormedVariables(MetadataVariables(Rundeck))
  {
  }

  lemma MetadataVariablesWellFormed(s: System)
    ensures WellFormedVariables(MetadataVariables(s))
  {
    match s
    case GitHub => GitHubVariablesWellFormed();
    case GitLab => GitLabVariablesWellFormed();
    case Jenkins => JenkinsVariablesWellFormed();
    case CircleCI => CircleCIVariablesWellFormed();
    case Bitbucket => BitbucketVariablesWellFormed();
    case Azure => AzureVariablesWellFormed();
    case Travis => TravisVariablesWellFormed();
    case Rundeck => RundeckVariablesWellFormed();
    case Unknown =>
  }

  /** `m` holds exactly the keys of `vars` whose variable is set, with its value. */
  predicate ReflectsEnv(m: map<string, string>, vars: seq<(string, string)>, env: Env) {
    forall i :: 0 <= i < |vars| ==>
      (vars[i].0 in m <==> Getenv(env, vars[i].1) != "") &&
      (vars[i].0 in m ==> m[vars[i].0] == Getenv(env, vars[i].1))
  }

  /** `ExtraMetadata`: reads the environment again and looks only at `d.system`;
      it holds only that system's keys, each present exactly when its variable
      is non-empty and then holding the variable's value. */
  function ExtraMetadata(d: Values, env: Env): (m: map<string, string>)
    ensures forall k :: k in m ==> k in KeysOf(MetadataVariables(d.system)) && "vi_" <= k
    ensures ReflectsEnv(m, MetadataVariables(d.system), env)
    ensures d.system == Unknown ==> m == map[]
  {
    MetadataVariablesWellFormed(d.system);
    AddAllPresent(map[], MetadataVariables(d.system), env)
  }

  // ---------------------------------------------------------------------------
  // What `Detect` yields, system by system.

  /** With no marker set nothing is extracted: every field but the system is "". */
  lemma DetectUnknownIsEmpty(env: Env)
    requires DetectSystem(env) == Unknown
    ensures DetectValues(env) == Some(Empty(Unknown))
    ensures Tag(DetectValues(env).value.system) == "unknown"
  {
  }

  /** `Detect` panics exactly when the detected system falls back to a short SHA
      and its SHA variable holds between 1 and 7 bytes. */
  lemma DetectPanicsOnShortSha(env: Env)
    ensures DetectValues(env).None? <==>
      ShaVariable(DetectSystem(env)).Some? && 0 < |Getenv(env, ShaVariable(DetectSystem(env)).value)| < 8
    ensures DetectValues(env).Some? ==> DetectValues(env).value.system == DetectSystem(env)
  {
  }

  lemma DetectedGitHub(env: Env)
    requires DetectSystem(env) == GitHub && DetectValues(env).Some?
    ensures var repo := Getenv(env, "GITHUB_REPOSITORY"); var sha := Getenv(env, "GITHUB_SHA");
      var server := Getenv(env, "GITHUB_SERVER_URL"); var runID := Getenv(env, "GITHUB_RUN_ID");
      var d := DetectValues(env).value;
      d.scmRepository == repo && d.invokeID == runID &&
      (d.buildURL != "" <==> server != "" && repo != "" && runID != "") &&
      (d.buildURL != "" ==> d.buildURL == server + "/" + repo + "/actions/runs/" + runID) &&
      (Count(repo, '/') == 1 ==> '/' !in d.product && HasSuffix(repo, "/" + d.product)) &&
      (Count(repo, '/') != 1 ==> d.product == "") &&
      d.version <= sha && |d.version| == (if sha == "" then 0 else 8)
  {
  }

  lemma DetectedGitLab(env: Env)
    requires DetectSystem(env) == GitLab && DetectValues(env).Some?
    ensures var repo := Getenv(env, "CI_PROJECT_PATH"); var sha := Getenv(env, "CI_COMMIT_SHA");
      var d := DetectValues(env).value;
      d.scmRepository == repo && d.buildURL == Getenv(env, "CI_PIPELINE_URL") &&
      (repo == "" ==> d.product == "") &&
      (repo != "" ==> '/' !in d.product && (if '/' in repo then HasSuffix(repo, "/" + d.product) else d.product == repo)) &&
      d.version <= sha && |d.version| == (if sha == "" then 0 else 8)
  {
  }

  lemma DetectedJenkins(env: Env)
    requires DetectSystem(env) == Jenkins
    ensures var repo := NormalizeGitURL(Getenv(env, "GIT_URL"));
      DetectValues(env).Some? && var d := DetectValues(env).value;
      d.scmRepository == repo &&
      (repo == "" ==> d.product == "") &&
      (repo != "" ==> TrimmedLastSegment(repo, d.product)) &&
      d.version == Getenv(env, "BUILD_NUMBER")
  {
  }

  lemma DetectedCircleCI(env: Env)
    requires DetectSystem(env) == CircleCI && DetectValues(env).Some?
    ensures var user := Getenv(env, "CIRCLE_PROJECT_USERNAME"); var name := Getenv(env, "CIRCLE_PROJECT_REPONAME");
      var branch := Getenv(env, "CIRCLE_BRANCH"); var sha := Getenv(env, "CIRCLE_SHA1");
      var d := DetectValues(env).value;
      (d.scmRepository != "" <==> user != "" && name != "") &&
      (d.scmRepository != "" ==> d.scmRepository == user + "/" + name) &&
      d.scmBranch == (if branch != "" then branch else Getenv(env, "CIRCLE_TAG")) &&
      d.product == name &&
      d.version <= sha && |d.version| == (if sha == "" then 0 else 8)
  {
  }

  lemma DetectedBitbucket(env: Env)
    requires DetectSystem(env) == Bitbucket && DetectValues(env).Some?
    ensures var repo := Getenv(env, "BITBUCKET_REPO_FULL_NAME"); var n := Getenv(env, "BITBUCKET_BUILD_NUMBER");
      var branch := Getenv(env, "BITBUCKET_BRANCH"); var sha := Getenv(env, "BITBUCKET_COMMIT");
      var d := DetectValues(env).value;
      d.buildNumber == n && n != "" &&
      (d.buildURL != "" <==> repo != "") &&
      (d.buildURL != "" ==> d.buildURL == "https://bitbucket.org/" + repo + "/pipelines/results/" + n) &&
      d.scmBranch == (if branch != "" then branch else Getenv(env, "BITBUCKET_TAG")) &&
      d.product == Getenv(env, "BITBUCKET_REPO_SLUG") &&
      d.version <= sha && |d.version| == (if sha == "" then 0 else 8)
  {
  }

  lemma DetectedAzure(env: Env)
    requires DetectSystem(env) == Azure
    ensures var repo := Getenv(env, "BUILD_REPOSITORY_NAME");
      DetectValues(env).Some? && var d := DetectValues(env).value;
      d.scmRepository == repo &&
      (repo == "" ==> d.product == "") &&
      (repo != "" ==> '/' !in d.product && (if '/' in repo then HasSuffix(repo, "/" + d.product) else d.product == repo)) &&
      d.version == Getenv(env, "BUILD_BUILDNUMBER")
  {
  }

  lemma DetectedTravis(env: Env)
    requires DetectSystem(env) == Travis && DetectValues(env).Some?
    ensures var repo := Getenv(env, "TRAVIS_REPO_SLUG"); var sha := Getenv(env, "TRAVIS_COMMIT");
      var branch := Getenv(env, "TRAVIS_BRANCH");
      var d := DetectValues(env).value;
      d.scmRepository == repo &&
      d.scmBranch == (if branch != "" then branch else Getenv(env, "TRAVIS_TAG")) &&
      (Count(repo, '/') == 1 ==> '/' !in d.product && HasSuffix(repo, "/" + d.product)) &&
      (Count(repo, '/') != 1 ==> d.product == "") &&
      d.version <= sha && |d.version| == (if sha == "" then 0 else 8)
  {
  }

  lemma DetectedRundeck(env: Env)
    requires DetectSystem(env) == Rundeck
    ensures var server := Getenv(env, "RD_JOB_SERVERURL"); var project := Getenv(env, "RD_JOB_PROJECT");
      var id := Getenv(env, "RD_JOB_EXECID"); var user := Getenv(env, "RD_JOB_USERNAME");
      DetectValues(env).Some? && var d := DetectValues(env).value;
      d.buildNumber == id && d.invokeID == id &&
      d.builtBy == (if user != "" then user else Getenv(env, "RD_JOB_USER_NAME")) &&
      (d.buildURL != "" <==> server != "" && project != "" && id != "") &&
      (d.buildURL != "" ==> d.buildURL == server + "/project/" + project + "/execution/show/" + id) &&
      d.product == Getenv(env, "RD_JOB_NAME") && d.version == id
  {
  }
}
