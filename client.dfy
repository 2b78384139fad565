/**
 * The Versioner API client (internal/api/client.go): a request goes out at
 * most four times, with fixed pauses of 1 s, 2 s and 4 s before the retries;
 * a 2xx or a client error other than 429 ends the loop at once. The response
 * is then turned into the decoded result or an `APIError`.
 *
 * The HTTP exchange itself (`performRequest`) is a parameter: for the built
 * request and the attempt number it yields either a transport error or a
 * response. The JSON decoder is a parameter too.
 */
module ApiClient {
  import opened Wrappers
  import opened Text
  import opened Json

  /** `Client`. No method changes it after `NewClient`, so it is a value. */
  datatype Client = Client(baseURL: string, apiKey: string, userAgent: string, debug: bool)

  /** `NewClient`; the user-agent text comes from the version package. */
  function NewClient(baseURL: string, apiKey: string, debug: bool, userAgent: string): Client {
    Client(baseURL, apiKey, userAgent, debug)
  }

  /** The request `performRequest` builds: method, URL, the three headers, body. */
  datatype Request<P> = Request(
    verb: string, url: string,
    contentType: string, authorization: string, userAgent: string,
    body: P)

  function BuildRequest<P>(c: Client, verb: string, path: string, body: P): Request<P> {
    Request(verb, c.baseURL + path, "application/json", "Bearer " + c.apiKey, c.userAgent, body)
  }

  /** A response body, or the error reading it failed with. */
  datatype Body = Content(bytes: string) | Unreadable(reason: string)

  datatype Response = Response(statusCode: nat, body: Body)

  /** One call of `performRequest`: a transport error (marshalling, request
      construction or the exchange itself, with its error text) or a response. */
  datatype Attempt = TransportError(reason: string) | Answered(response: Response)

  /** The exchange: the outcome of attempt `k` (0 to 3) for a request. */
  type Transport<!P> = (Request<P>, nat) -> Attempt

  predicate IsSuccess(code: nat) {
    200 <= code < 300
  }

  /** A client error the loop does not retry: 4xx except 429 Too Many Requests. */
  predicate IsTerminal(code: nat) {
    400 <= code < 500 && code != 429
  }

  /** An attempt that ends the loop with a response. */
  predicate Returned(a: Attempt) {
    a.Answered? && (IsSuccess(a.response.statusCode) || IsTerminal(a.response.statusCode))
  }

  /** The text of `lastErr` after an attempt that is retried. */
  function FailureText(a: Attempt): string {
    match a
    case TransportError(reason) => reason
    case Answered(resp) => "HTTP " + NatToString(resp.statusCode)
  }

  /** Pauses in seconds before attempts 1, 2 and 3. */
  const Backoff: seq<nat> := [1, 2, 4]

  /** The loop runs attempts 0 to `LastAttempt`. */
  const LastAttempt: nat := 3

  const RetriesExhausted: string := "request failed after 3 retries: "

  /** The response the loop hands back, or its error text, and how many
      requests it made. */
  datatype Settled = Settled(result: Result<Response, string>, attempts: nat)

  /** The loop from attempt `k` on. */
  function RetryFrom<P>(req: Request<P>, transport: Transport<P>, k: nat): (s: Settled)
    requires k <= LastAttempt
    decreases LastAttempt - k
    ensures k < s.attempts <= LastAttempt + 1
  {
    var a := transport(req, k);
    if Returned(a) then Settled(Success(a.response), k + 1)
    else if k == LastAttempt then Settled(Failure(RetriesExhausted + FailureText(a)), k + 1)
    else RetryFrom(req, transport, k + 1)
  }

  /** What `doRequest` does with a request. */
  function Retry<P>(req: Request<P>, transport: Transport<P>): Settled {
    RetryFrom(req, transport, 0)
  }

  /** The loop stops at the first attempt that returns a response, and every
      attempt before it was retried; if none returns, all of the remaining
      attempts are made and the last failure is reported. */
  lemma {:induction false} RetryFromSettles<P>(req: Request<P>, transport: Transport<P>, k: nat)
    requires k <= LastAttempt
    ensures var s := RetryFrom(req, transport, k);
      (forall j :: k <= j < s.attempts - 1 ==> !Returned(transport(req, j))) &&
      (s.result.Success? <==> Returned(transport(req, s.attempts - 1))) &&
      (s.result.Success? ==> s.result.value == transport(req, s.attempts - 1).response) &&
      (s.result.Failure? ==>
        s.attempts == LastAttempt + 1 &&
        s.result.error == RetriesExhausted + FailureText(transport(req, LastAttempt)))
    decreases LastAttempt - k
  {
    if !Returned(transport(req, k)) && k < LastAttempt {
      RetryFromSettles(req, transport, k + 1);
    }
  }

  /** `doRequest` makes one to four requests, retrying exactly the attempts that
      do not return; it returns the first response that is a 2xx or a 4xx other
      than 429, or else the error wrapping the fourth failure. */
  lemma RetryCharacterized<P>(req: Request<P>, transport: Transport<P>)
    ensures var s := Retry(req, transport);
      1 <= s.attempts <= 4 &&
      (forall j :: 0 <= j < s.attempts - 1 ==> !Returned(transport(req, j))) &&
      (s.result.Success? <==> Returned(transport(req, s.attempts - 1))) &&
      (s.result.Success? ==> s.result.value == transport(req, s.attempts - 1).response) &&
      (s.result.Failure? ==>
        s.attempts == 4 && s.result.error == RetriesExhausted + FailureText(transport(req, 3)))
  {
    RetryFromSettles(req, transport, 0);
  }

  /** A response handed back by the loop has a 2xx status or a 4xx other than 429. */
  lemma ReturnedStatusRange<P>(req: Request<P>, transport: Transport<P>)
    ensures var s := Retry(req, transport);
      s.result.Success? ==>
        var code := s.result.value.statusCode;
        (200 <= code < 300) || (400 <= code < 500 && code != 429)
  {
    RetryFromSettles(req, transport, 0);
  }

  function Sum(xs: seq<nat>): nat {
    if xs == [] then 0 else xs[0] + Sum(xs[1..])
  }

  /** There is one pause fewer than there are attempts, and the pauses add up to
      at most seven seconds. */
  lemma PausesBounded(attempts: nat)
    requires 1 <= attempts <= 4
    ensures |Backoff[..attempts - 1]| == attempts - 1
    ensures Sum(Backoff[..attempts - 1]) <= 7
  {
    assert Backoff[..0] == [];
    assert Backoff[..1][1..] == [];
    assert Backoff[..2][1..] == [2] && [2][1..] == [];
    assert Backoff[..3][1..] == [2, 4] && [2, 4][1..] == [4] && [4][1..] == [];
  }

  /** Two server errors and then a success: three requests, pauses of 1 s and 2 s. */
  lemma ServerErrorsThenSuccess<P>(req: Request<P>, transport: Transport<P>, b0: Body, b1: Body, b2: Body)
    requires transport(req, 0) == Answered(Response(500, b0))
    requires transport(req, 1) == Answered(Response(500, b1))
    requires transport(req, 2) == Answered(Response(200, b2))
    ensures Retry(req, transport) == Settled(Success(Response(200, b2)), 3)
    ensures Backoff[..Retry(req, transport).attempts - 1] == [1, 2]
  {
  }

  /** Four 429 answers: four requests, then the error naming the last status. */
  lemma RateLimitedThroughout<P>(req: Request<P>, transport: Transport<P>)
    requires forall k :: 0 <= k <= 3 ==>
      transport(req, k).Answered? && transport(req, k).response.statusCode == 429
    ensures Retry(req, transport).attempts == 4
    ensures Retry(req, transport).result == Failure(RetriesExhausted + "HTTP " + NatToString(429))
  {
    assert !Returned(transport(req, 0)) && !Returned(transport(req, 1));
    assert !Returned(transport(req, 2)) && !Returned(transport(req, 3));
    assert FailureText(transport(req, 3)) == "HTTP " + NatToString(429);
    assert RetriesExhausted + ("HTTP " + NatToString(429)) == RetriesExhausted + "HTTP " + NatToString(429);
  }

  /** `doRequest`: the loop, with the pauses it takes as a ghost log in seconds. */
  method DoRequest<P>(c: Client, verb: string, path: string, body: P, transport: Transport<P>)
    returns (resp: Result<Response, string>, attempts: nat, ghost pauses: seq<nat>)
    ensures Settled(resp, attempts) == Retry(BuildRequest(c, verb, path, body), transport)
    ensures 1 <= attempts <= 4 && pauses == Backoff[..attempts - 1]
  {
    var req := BuildRequest(c, verb, path, body);
    var lastErr := "";
    pauses := [];
    var attempt: nat := 0;
    while attempt <= LastAttempt
      invariant attempt <= LastAttempt + 1
      invariant pauses == Backoff[..if attempt == 0 then 0 else attempt - 1]
      invariant attempt <= LastAttempt ==> RetryFrom(req, transport, attempt) == Retry(req, transport)
      invariant attempt == LastAttempt + 1 ==>
        Retry(req, transport) == Settled(Failure(RetriesExhausted + lastErr), attempt)
    {
      if attempt > 0 {
        pauses := pauses + [Backoff[attempt - 1]];
      }
      var a := transport(req, attempt);
      if a.TransportError? {
        lastErr := a.reason;
        attempt := attempt + 1;
        continue;
      }
      var code := a.response.statusCode;
      if 200 <= code < 300 {
        return Success(a.response), attempt + 1, pauses;
      }
      if 400 <= code < 500 && code != 429 {
        return Success(a.response), attempt + 1, pauses;
      }
      lastErr := "HTTP " + NatToString(code);
      attempt := attempt + 1;
    }
    return Failure(RetriesExhausted + lastErr), attempt, pauses;
  }

  // ---------------------------------------------------------------------------
  // Responses and API errors.

  /** `APIError`: the status and the decoded `detail` of an error response. */
  datatype ApiError = ApiError(statusCode: nat, detail: Value)

  /** An error as the commands see it: an `*APIError` or any other error, by its text. */
  datatype Error = Api(api: ApiError) | Plain(message: string)

  /** The keys `encoding/json` matches to the `detail` field of a struct: the
      field name up to ASCII case. */
  function DetailKeys(fields: map<string, Value>): set<string> {
    set k | k in fields && ToLower(k) == "detail"
  }

  lemma SingletonMember(keys: set<string>, k: string, k': string)
    requires |keys| == 1 && k in keys && k' in keys
    ensures k == k'
  {
    var rest := keys - {k};
    assert keys == rest + {k} && rest * {k} == {};
    assert rest == {};
  }

  /** The value decoding into `struct{ Detail interface{} }` leaves in `Detail`:
      the exact key when present, else the one key that matches up to case, else
      nil. */
  function DetailField(fields: map<string, Value>): (v: Value)
    ensures "detail" in fields ==> v == fields["detail"]
    ensures DetailKeys(fields) == {} ==> v == Null
    ensures forall k :: DetailKeys(fields) == {k} ==> v == fields[k]
    ensures v == Null || exists k :: k in DetailKeys(fields) && v == fields[k]
  {
    var keys := DetailKeys(fields);
    if "detail" in fields then
      ToLowerNoop("detail");
      assert "detail" in keys;
      fields["detail"]
    else if |keys| == 1 then
      var k :| k in keys;
      assert forall k' :: k' in keys ==> k' == k by {
        forall k' | k' in keys ensures k' == k { SingletonMember(keys, k, k'); }
      }
      fields[k]
    else Null
  }

  /** The `detail` of an error body. Decoding into a struct accepts an object
      (a missing field leaves `detail` nil) or `null`; anything else fails, and
      the raw body becomes the detail. */
  function DetailOf(bytes: string, decode: string -> Decoded): (v: Value)
    ensures decode(bytes).Decoded? && decode(bytes).value.Object? ==> v == DetailField(decode(bytes).value.fields)
    ensures decode(bytes).Decoded? && decode(bytes).value.Object? && "detail" in decode(bytes).value.fields ==>
      v == decode(bytes).value.fields["detail"]
    ensures decode(bytes).Malformed? ==> v == Str(bytes)
    ensures v == Str(bytes) || (decode(bytes).Decoded? && (decode(bytes).value.Object? || v == Null))
  {
    match decode(bytes)
    case Decoded(Object(fields)) => DetailField(fields)
    case Decoded(Null) => Null
    case _ => Str(bytes)
  }

  /** `handleResponse`, with `parse` decoding a 2xx body into the result type. */
  function HandleResponse<R>(resp: Response, parse: string -> Result<R, string>, decode: string -> Decoded): (r: Result<R, Error>)
    ensures resp.body.Unreadable? ==> r == Failure(Plain("failed to read response body: " + resp.body.reason))
    ensures resp.body.Content? && IsSuccess(resp.statusCode) ==>
      (r.Success? <==> parse(resp.body.bytes).Success?) &&
      (r.Success? ==> r.value == parse(resp.body.bytes).value) &&
      (r.Failure? ==> r.error == Plain("failed to parse response: " + parse(resp.body.bytes).error))
    ensures resp.body.Content? && !IsSuccess(resp.statusCode) ==>
      r == Failure(Api(ApiError(resp.statusCode, DetailOf(resp.body.bytes, decode))))
    ensures r.Failure? && r.error.Api? ==> !IsSuccess(r.error.api.statusCode) && r.error.api.statusCode == resp.statusCode
  {
    match resp.body
    case Unreadable(reason) => Failure(Plain("failed to read response body: " + reason))
    case Content(bytes) =>
      if IsSuccess(resp.statusCode) then
        match parse(bytes)
        case Success(v) => Success(v)
        case Failure(e) => Failure(Plain("failed to parse response: " + e))
      else
        Failure(Api(ApiError(resp.statusCode, DetailOf(bytes, decode))))
  }

  /** `APIError.Error`, with Go's `%v` rendering of a value as the parameter `show`. */
  function ErrorText(e: ApiError, show: Value -> string): (msg: string)
    ensures e.detail.Str? ==> msg == e.detail.s
    ensures e.detail.Array? ==>
      (if e.detail.items == [] then msg == "validation error" else msg == "validation error: " + show(e.detail))
    ensures !e.detail.Str? && !e.detail.Array? ==> msg == "API error: " + show(e.detail)
  {
    match e.detail
    case Str(s) => s
    case Array(items) => if |items| > 0 then "validation error: " + show(e.detail) else "validation error"
    case _ => "API error: " + show(e.detail)
  }

  /** A 4xx response whose body is not JSON is reported by its raw body text. */
  lemma RawBodyIsTheMessage<R>(resp: Response, parse: string -> Result<R, string>, decode: string -> Decoded, show: Value -> string)
    requires resp.body.Content? && 400 <= resp.statusCode < 500
    requires decode(resp.body.bytes).Malformed?
    ensures HandleResponse(resp, parse, decode).Failure?
    ensures HandleResponse(resp, parse, decode).error.Api?
    ensures ErrorText(HandleResponse(resp, parse, decode).error.api, show) == resp.body.bytes
  {
  }

  /** A body whose only detail key is "Detail" is read like "detail": a 423 with
      `{"Detail": {"code": "X"}}` yields preflight details with that code. */
  lemma DetailMatchedUpToCase<R>(resp: Response, parse: string -> Result<R, string>, decode: string -> Decoded)
    requires resp.body.Content? && resp.statusCode == 423
    requires decode(resp.body.bytes) == Decoded(Object(map["Detail" := Object(map["code" := Str("X")])]))
    ensures var r := HandleResponse(resp, parse, decode);
      r.Failure? && r.error.Api? && IsPreflightError(r.error.api) &&
      GetPreflightDetails(r.error.api).Some? && GetPreflightDetails(r.error.api).value.code == "X"
  {
    var fields := map["Detail" := Object(map["code" := Str("X")])];
    assert ToLower("Detail") == "detail";
    assert DetailKeys(fields) == {"Detail"};
  }

  /** `IsPreflightError`: 409 Conflict, 423 Locked or 428 Precondition Required. */
  predicate IsPreflightError(e: ApiError) {
    e.statusCode == 409 || e.statusCode == 423 || e.statusCode == 428
  }

  /** Preflight statuses are client errors the loop does not retry. */
  lemma PreflightIsTerminal(e: ApiError)
    requires IsPreflightError(e)
    ensures IsTerminal(e.statusCode) && !IsSuccess(e.statusCode)
  {
  }

  /** The structured fields of a preflight rejection. `details` is absent
      unless the detail carries an object under that key. */
  datatype PreflightDetails = PreflightDetails(
    errorType: string, message: string, code: string, retryAfter: string,
    details: Option<map<string, Value>>)

  /** The string under `key`, or "" when it is missing or not a string. */
  function StringField(fields: map<string, Value>, key: string): string {
    if key in fields && fields[key].Str? then fields[key].s else ""
  }

  /** `got` is the string under `key` when there is one, and "" otherwise. */
  predicate TakenIfString(fields: map<string, Value>, key: string, got: string) {
    (key in fields && fields[key].Str? ==> got == fields[key].s) &&
    (!(key in fields && fields[key].Str?) ==> got == "")
  }

  /** `GetPreflightDetails`; `None` is its `ok == false`. */
  function GetPreflightDetails(e: ApiError): (r: Option<PreflightDetails>)
    ensures r.Some? <==> e.detail.Object?
    ensures r.Some? ==>
      TakenIfString(e.detail.fields, "error", r.value.errorType) &&
      TakenIfString(e.detail.fields, "message", r.value.message) &&
      TakenIfString(e.detail.fields, "code", r.value.code) &&
      TakenIfString(e.detail.fields, "retry_after", r.value.retryAfter)
    ensures r.Some? ==>
      (r.value.details.Some? <==> "details" in e.detail.fields && e.detail.fields["details"].Object?) &&
      (r.value.details.Some? ==> Object(r.value.details.value) == e.detail.fields["details"])
  {
    match e.detail
    case Object(fields) =>
      Some(PreflightDetails(
        StringField(fields, "error"), StringField(fields, "message"),
        StringField(fields, "code"), StringField(fields, "retry_after"),
        if "details" in fields && fields["details"].Object? then Some(fields["details"].fields) else None))
    case _ => None
  }

  // ---------------------------------------------------------------------------
  // A submission: `doRequest` followed by `handleResponse`.

  /** One POST of `body` to `path` and the handling of its response; a failed
      loop is returned as it is, without a response to handle. */
  function Submit<P, R>(c: Client, path: string, body: P, transport: Transport<P>,
                        parse: string -> Result<R, string>, decode: string -> Decoded): Result<R, Error>
  {
    match Retry(BuildRequest(c, "POST", path, body), transport).result
    case Failure(msg) => Failure(Plain(msg))
    case Success(resp) => HandleResponse(resp, parse, decode)
  }

  /** When the loop gives up, its error comes back unchanged and neither the
      body parser nor the decoder is consulted. */
  lemma LoopErrorPropagated<P, R>(c: Client, path: string, body: P, transport: Transport<P>,
                                  p1: string -> Result<R, string>, d1: string -> Decoded,
                                  p2: string -> Result<R, string>, d2: string -> Decoded)
    requires Retry(BuildRequest(c, "POST", path, body), transport).result.Failure?
    ensures Submit(c, path, body, transport, p1, d1) ==
      Failure(Plain(Retry(BuildRequest(c, "POST", path, body), transport).result.error))
    ensures Submit(c, path, body, transport, p1, d1) == Submit(c, path, body, transport, p2, d2)
  {
  }

  /** A first answer with a 4xx status other than 429 ends the submission after
      one request with an `APIError` of that status; for 409, 423 and 428 it is
      a preflight error. */
  lemma ClientErrorAfterOneRequest<P, R>(c: Client, path: string, body: P, transport: Transport<P>,
                                         parse: string -> Result<R, string>, decode: string -> Decoded)
    requires var a := transport(BuildRequest(c, "POST", path, body), 0);
      a.Answered? && a.response.body.Content? && IsTerminal(a.response.statusCode)
    ensures Retry(BuildRequest(c, "POST", path, body), transport).attempts == 1
    ensures var r := Submit(c, path, body, transport, parse, decode);
      var code := transport(BuildRequest(c, "POST", path, body), 0).response.statusCode;
      r.Failure? && r.error.Api? && r.error.api.statusCode == code &&
      (IsPreflightError(r.error.api) <==> code == 409 || code == 423 || code == 428)
  {
  }

  /** A 2xx whose body parses yields the parsed result. */
  lemma SuccessYieldsParsedBody<P, R>(c: Client, path: string, body: P, transport: Transport<P>,
                                      parse: string -> Result<R, string>, decode: string -> Decoded)
    requires var s := Retry(BuildRequest(c, "POST", path, body), transport);
      s.result.Success? && IsSuccess(s.result.value.statusCode) && s.result.value.body.Content? &&
      parse(s.result.value.body.bytes).Success?
    ensures var s := Retry(BuildRequest(c, "POST", path, body), transport);
      Submit(c, path, body, transport, parse, decode) == Success(parse(s.result.value.body.bytes).value)
  {
  }

  /** A returned error is an `APIError` only when a non-2xx response came back. */
  lemma ApiErrorOnlyFromResponses<P, R>(c: Client, path: string, body: P, transport: Transport<P>,
                                        parse: string -> Result<R, string>, decode: string -> Decoded)
    ensures var r := Submit(c, path, body, transport, parse, decode);
      var s := Retry(BuildRequest(c, "POST", path, body), transport);
      r.Failure? && r.error.Api? ==>
        s.result.Success? && !IsSuccess(s.result.value.statusCode) &&
        r.error.api.statusCode == s.result.value.statusCode
  {
  }
}
