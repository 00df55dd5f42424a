/** The current API client: how a finished HTTP exchange becomes a value or
    an `APIError`, the user-facing text of each error, and the endpoint
    strings the client builds. URLSession, JSON coding and the bearer header
    are not modelled; their outcomes arrive as data. */
module Api {
  import opened Wrappers
  import opened Models

  /** `APIError`. The wrapped Swift errors of `networkError` and
      `decodingError` are represented by their localized descriptions. */
  datatype ApiError =
    | InvalidUrl
    | NetworkError(cause: string)
    | DecodingError(cause: string)
    | ServerError(message: string)
    | Unauthorized

  /** Anything a call can throw: an `APIError`, a `DecodingError` from
      `JSONDecoder`, or any other error (URLSession, `JSONEncoder`). */
  datatype Thrown =
    | ApiFailure(error: ApiError)
    | DecodingFailure(detail: string)
    | OtherFailure(detail: string)

  const ServerErrorPrefix: string := "Server error: "
  const NetworkErrorPrefix: string := "Network error: "
  const DecodingErrorPrefix: string := "Decoding error: "
  const InvalidUrlText: string := "Invalid URL"
  const UnauthorizedText: string := "Unauthorized - please log in again"

  /** `APIError.errorDescription`. */
  function ErrorDescription(e: ApiError): (r: string)
    ensures |r| > 0
    ensures e.ServerError? ==> |ServerErrorPrefix| <= |r| && r[..|ServerErrorPrefix|] == ServerErrorPrefix
                               && r[|ServerErrorPrefix|..] == e.message
    ensures e.Unauthorized? ==> r == UnauthorizedText
  {
    match e
    case InvalidUrl => InvalidUrlText
    case NetworkError(c) => NetworkErrorPrefix + c
    case DecodingError(c) => DecodingErrorPrefix + c
    case ServerError(m) => ServerErrorPrefix + m
    case Unauthorized => UnauthorizedText
  }

  /** `localizedDescription` of anything thrown: an `APIError` reads as its
      `errorDescription`; any other error carries its own text. */
  function LocalizedDescription(t: Thrown): string {
    match t
    case ApiFailure(e) => ErrorDescription(e)
    case DecodingFailure(d) => d
    case OtherFailure(d) => d
  }

  lemma PrefixCancels(p: string, x: string, y: string)
    requires p + x == p + y
    ensures x == y
  {
    assert x == (p + x)[|p|..];
    assert y == (p + y)[|p|..];
  }

  /** Distinct errors never read the same: the description determines the
      error, so a server message is shown after "Server error: " intact. */
  lemma {:induction false} ErrorDescriptionInjective(a: ApiError, b: ApiError)
    requires ErrorDescription(a) == ErrorDescription(b)
    ensures a == b
  {
    var d := ErrorDescription(a);
    assert d[0] == ErrorDescription(b)[0];
    match a {
      case InvalidUrl => assert d[0] == 'I';
      case NetworkError(c) => assert d[0] == 'N';
      case DecodingError(c) => assert d[0] == 'D';
      case ServerError(m) => assert d[0] == 'S';
      case Unauthorized => assert d[0] == 'U';
    }
    match b {
      case InvalidUrl => assert ErrorDescription(b)[0] == 'I';
      case NetworkError(c) => assert ErrorDescription(b)[0] == 'N';
      case DecodingError(c) => assert ErrorDescription(b)[0] == 'D';
      case ServerError(m) => assert ErrorDescription(b)[0] == 'S';
      case Unauthorized => assert ErrorDescription(b)[0] == 'U';
    }
    if a.NetworkError? { PrefixCancels(NetworkErrorPrefix, a.cause, b.cause); }
    if a.DecodingError? { PrefixCancels(DecodingErrorPrefix, a.cause, b.cause); }
    if a.ServerError? { PrefixCancels(ServerErrorPrefix, a.message, b.message); }
  }

  // ---------------------------------------------------------------------
  // Decimal rendering of status codes, as Swift string interpolation does it.

  function DigitChar(d: int): char
    requires 0 <= d < 10
  {
    ('0' as int + d) as char
  }

  predicate IsDigits(s: string) {
    forall i :: 0 <= i < |s| ==> '0' <= s[i] <= '9'
  }

  /** The shortest decimal numeral of `n`. */
  function NatToDecimal(n: nat): (r: string)
    ensures |r| > 0 && IsDigits(r)
    decreases n
  {
    if n < 10 then [DigitChar(n)] else NatToDecimal(n / 10) + [DigitChar(n % 10)]
  }

  /** `"\(i)"` for an `Int`. */
  function IntToDecimal(i: int): string {
    if i < 0 then "-" + NatToDecimal(-i) else NatToDecimal(i)
  }

  /** The number a numeral denotes, reading most significant digit first. */
  function DecimalValue(s: string): nat
    requires IsDigits(s)
    decreases |s|
  {
    if |s| == 0 then 0
    else DecimalValue(s[..|s| - 1]) * 10 + (s[|s| - 1] as int - '0' as int)
  }

  /** Reads back a numeral produced by `IntToDecimal`. */
  function ParseInt(s: string): Option<int> {
    if |s| > 1 && s[0] == '-' && IsDigits(s[1..]) then
      var magnitude: int := DecimalValue(s[1..]);
      Some(-magnitude)
    else if |s| > 0 && IsDigits(s) then Some(DecimalValue(s))
    else None
  }

  lemma {:induction false} NatToDecimalRoundTrip(n: nat)
    ensures DecimalValue(NatToDecimal(n)) == n
  {
    if n >= 10 {
      var s := NatToDecimal(n);
      NatToDecimalRoundTrip(n / 10);
      assert s[..|s| - 1] == NatToDecimal(n / 10);
    }
  }

  /** Rendering a status code and reading it back gives the code. */
  lemma IntToDecimalRoundTrip(i: int)
    ensures ParseInt(IntToDecimal(i)) == Some(i)
  {
    var s := IntToDecimal(i);
    if i < 0 {
      var n := NatToDecimal(-i);
      assert s == "-" + n;
      assert s[1..] == n;
      assert |s| > 1 && s[0] == '-';
      NatToDecimalRoundTrip(-i);
    } else {
      assert s == NatToDecimal(i);
      assert '0' <= s[0] <= '9';
      NatToDecimalRoundTrip(i);
    }
  }

  const HttpPrefix: string := "HTTP "

  /** The fallback server message `"HTTP \(statusCode)"`. */
  function HttpStatusText(status: int): string {
    HttpPrefix + IntToDecimal(status)
  }

  /** The status code a fallback message names, if it is one. */
  function StatusOfText(s: string): Option<int> {
    if |HttpPrefix| <= |s| && s[..|HttpPrefix|] == HttpPrefix then ParseInt(s[|HttpPrefix|..]) else None
  }

  /** The fallback message names exactly the status that caused it. */
  lemma HttpStatusTextRoundTrip(status: int)
    ensures StatusOfText(HttpStatusText(status)) == Some(status)
  {
    var s := HttpStatusText(status);
    assert s[..|HttpPrefix|] == HttpPrefix;
    assert s[|HttpPrefix|..] == IntToDecimal(status);
    IntToDecimalRoundTrip(status);
  }

  // ---------------------------------------------------------------------
  // performRequest and delete

  /** `(200...299).contains(status)`. */
  predicate IsSuccess(status: int) {
    200 <= status <= 299
  }

  /** Stands for the description of the `NSError` thrown when the response
      is not an `HTTPURLResponse`; that error's domain is this text, and the
      wording of its localized description is Foundation's. */
  const InvalidResponseDetail: string := "Invalid response"

  /** What happened on the wire for one request: URLSession threw; or it
      returned something that is not an HTTP response; or an HTTP response
      arrived, with the body's reading as an `ErrorResponse` (`try?`) and
      the outcome of decoding the expected type from it. */
  datatype Exchange<T> =
    | TransportFailure(detail: string)
    | NonHttpResponse
    | HttpResponse(status: int, errorBody: Option<ErrorResponse>, decoded: Result<T, string>)

  /** The `catch` chain of `performRequest`: an `APIError` is re-thrown as is,
      a `DecodingError` becomes `decodingError`, anything else `networkError`. */
  function Rewrap(t: Thrown): (e: ApiError)
    ensures t.ApiFailure? ==> e == t.error
    ensures t.DecodingFailure? ==> e == DecodingError(t.detail)
    ensures t.OtherFailure? ==> e == NetworkError(t.detail)
  {
    match t
    case ApiFailure(a) => a
    case DecodingFailure(d) => DecodingError(d)
    case OtherFailure(d) => NetworkError(d)
  }

  /** What the body of the `do` block throws, before the `catch` chain. */
  function RequestBody<T>(x: Exchange<T>): Result<T, Thrown> {
    match x
    case TransportFailure(d) => Err(OtherFailure(d))
    case NonHttpResponse => Err(ApiFailure(NetworkError(InvalidResponseDetail)))
    case HttpResponse(status, body, decoded) =>
      if status == 401 then Err(ApiFailure(Unauthorized))
      else if !IsSuccess(status) then
        (match body
         case Some(b) => Err(ApiFailure(ServerError(b.error)))
         case None => Err(ApiFailure(ServerError(HttpStatusText(status)))))
      else
        (match decoded
         case Ok(v) => Ok(v)
         case Err(d) => Err(DecodingFailure(d)))
  }

  /** `performRequest`: every failure leaves it as an `APIError`. */
  function PerformRequest<T>(x: Exchange<T>): (r: Result<T, ApiError>)
    ensures x.HttpResponse? && x.status == 401 ==> r == Err(Unauthorized)
    ensures x.HttpResponse? && x.status != 401 && !IsSuccess(x.status) ==>
      r == Err(ServerError(if x.errorBody.Some? then x.errorBody.value.error else HttpStatusText(x.status)))
    ensures x.HttpResponse? && IsSuccess(x.status) ==>
      r == (if x.decoded.Ok? then Ok(x.decoded.value) else Err(DecodingError(x.decoded.error)))
    ensures x.TransportFailure? ==> r == Err(NetworkError(x.detail))
    ensures x.NonHttpResponse? ==> r == Err(NetworkError(InvalidResponseDetail))
  {
    match RequestBody(x)
    case Ok(v) => Ok(v)
    case Err(t) => Err(Rewrap(t))
  }

  /** Each kind of `APIError` from `performRequest` has exactly one cause:
      `unauthorized` only a 401, `serverError` only another non-2xx status,
      `decodingError` only an undecodable 2xx body, `networkError` only a
      transport failure or a non-HTTP response; `invalidURL` never. */
  lemma PerformRequestCauses<T>(x: Exchange<T>)
    ensures PerformRequest(x) == Err(Unauthorized) <==> x.HttpResponse? && x.status == 401
    ensures (PerformRequest(x).Err? && PerformRequest(x).error.ServerError?) <==>
      x.HttpResponse? && x.status != 401 && !IsSuccess(x.status)
    ensures (PerformRequest(x).Err? && PerformRequest(x).error.DecodingError?) <==>
      x.HttpResponse? && IsSuccess(x.status) && x.decoded.Err?
    ensures (PerformRequest(x).Err? && PerformRequest(x).error.NetworkError?) <==>
      !x.HttpResponse?
    ensures PerformRequest(x) != Err(InvalidUrl)
    ensures PerformRequest(x).Ok? <==> x.HttpResponse? && IsSuccess(x.status) && x.decoded.Ok?
  {
  }

  /** `get` and `post`: an unparseable URL throws `invalidURL`; a body that
      fails to encode throws the encoder's error unwrapped (it is raised
      outside `performRequest`); otherwise the exchange is performed.
      `encoding` is `Pass` for `get`, which has no body. */
  function Send<T>(urlParses: bool, encoding: Outcome<string>, x: Exchange<T>): (r: Result<T, Thrown>)
    ensures !urlParses ==> r == Err(ApiFailure(InvalidUrl))
    ensures urlParses && encoding.Fail? ==> r == Err(OtherFailure(encoding.error))
    ensures urlParses && encoding.Pass? ==>
      r == (match PerformRequest(x) case Ok(v) => Ok(v) case Err(e) => Err(ApiFailure(e)))
  {
    if !urlParses then Err(ApiFailure(InvalidUrl))
    else if encoding.Fail? then Err(OtherFailure(encoding.error))
    else match PerformRequest(x)
      case Ok(v) => Ok(v)
      case Err(e) => Err(ApiFailure(e))
  }

  /** A request that is not an `APIError` failure can only come from body
      encoding; for `get` every failure is an `APIError`. */
  lemma SendRawFailureOnlyFromEncoding<T>(urlParses: bool, encoding: Outcome<string>, x: Exchange<T>)
    ensures Send(urlParses, encoding, x).Err? && !Send(urlParses, encoding, x).error.ApiFailure? ==>
      urlParses && encoding.Fail?
    ensures Send(urlParses, Pass, x).Err? ==> Send(urlParses, Pass, x).error.ApiFailure?
  {
  }

  /** What happened on the wire for a DELETE; its body is never read. */
  datatype DeleteExchange =
    | DeleteTransportFailure(detail: string)
    | DeleteNonHttpResponse
    | DeleteResponse(status: int)

  /** `delete`. It has no `catch` chain, so a URLSession error escapes as is. */
  function Delete(urlParses: bool, x: DeleteExchange): (r: Outcome<Thrown>)
    ensures !urlParses ==> r == Fail(ApiFailure(InvalidUrl))
    ensures urlParses && x.DeleteResponse? && x.status == 401 ==> r == Fail(ApiFailure(Unauthorized))
    ensures urlParses && x.DeleteResponse? && x.status != 401 && !IsSuccess(x.status) ==>
      r == Fail(ApiFailure(ServerError(HttpStatusText(x.status))))
    ensures urlParses && x.DeleteTransportFailure? ==> r == Fail(OtherFailure(x.detail))
    ensures r.Pass? <==> urlParses && x.DeleteResponse? && IsSuccess(x.status)
  {
    if !urlParses then Fail(ApiFailure(InvalidUrl))
    else match x
      case DeleteTransportFailure(d) => Fail(OtherFailure(d))
      case DeleteNonHttpResponse => Fail(ApiFailure(NetworkError(InvalidResponseDetail)))
      case DeleteResponse(status) =>
        if status == 401 then Fail(ApiFailure(Unauthorized))
        else if !IsSuccess(status) then Fail(ApiFailure(ServerError(HttpStatusText(status))))
        else Pass
  }

  /** On a status code, `delete` fails exactly as `performRequest` would on a
      response whose body is not an `ErrorResponse`; on a transport failure
      it differs: `performRequest` wraps the error as `networkError`,
      `delete` passes it through. */
  lemma DeleteAgreesWithPerformRequest<T>(status: int, decoded: Result<T, string>, detail: string)
    ensures !IsSuccess(status) ==>
      Delete(true, DeleteResponse(status)) == Fail(ApiFailure(PerformRequest(HttpResponse(status, None, decoded)).error))
    ensures Delete(true, DeleteTransportFailure(detail)) == Fail(OtherFailure(detail))
    ensures PerformRequest<T>(TransportFailure(detail)) == Err(NetworkError(detail))
  {
  }

  // ---------------------------------------------------------------------
  // Endpoints

  const LoginPath: string := "/api/v1/auth/login"
  const SignupPath: string := "/api/v1/auth/signup"
  const GenerateRepliesPath: string := "/api/v1/replies/generate"
  const HistoryPath: string := "/api/v1/replies/history"
  const ScheduledPostsPath: string := "/api/v1/posts/scheduled"
  const SchedulePostPath: string := "/api/v1/posts/schedule"
  const GenerateHumanPostPath: string := "/api/v1/posts/generate-human"
  const TodayTasksPath: string := "/api/v1/calendar/tasks/today"
  const TasksPath: string := "/api/v1/calendar/tasks"
  const PushTasksPath: string := "/api/v1/calendar/push"
  const ImportTemplatesPath: string := "/api/v1/calendar/import-templates"
  const DocsPath: string := "/api/v1/docs"

  /** How Swift interpolates a `Bool`. */
  function BoolText(b: bool): string {
    if b then "true" else "false"
  }

  /** `getCalendarTasks`: each given bound is appended with its trailing
      `&`, and `include_completed` always closes the query. The values are
      not percent-encoded. */
  function CalendarTasksEndpoint(startDate: Option<string>, endDate: Option<string>, includeCompleted: bool): string {
    TasksPath + "?" + BoundText("start_date", startDate) + BoundText("end_date", endDate)
    + "include_completed=" + BoolText(includeCompleted)
  }

  /** The query parameters `getCalendarTasks` sends, in order. */
  function CalendarTasksQuery(startDate: Option<string>, endDate: Option<string>, includeCompleted: bool): seq<(string, string)> {
    BoundQuery("start_date", startDate) + BoundQuery("end_date", endDate)
    + [("include_completed", BoolText(includeCompleted))]
  }

  /** A query string: `key=value` pairs joined by `&`. */
  function EncodeQuery(pairs: seq<(string, string)>): string {
    if |pairs| == 0 then ""
    else if |pairs| == 1 then pairs[0].0 + "=" + pairs[0].1
    else pairs[0].0 + "=" + pairs[0].1 + "&" + EncodeQuery(pairs[1..])
  }

  lemma EncodeQueryCons(p: (string, string), rest: seq<(string, string)>)
    requires |rest| > 0
    ensures EncodeQuery([p] + rest) == p.0 + "=" + p.1 + "&" + EncodeQuery(rest)
  {
    assert ([p] + rest)[1..] == rest;
  }

  /** The text one optional bound contributes: `key=value&`, or nothing. */
  function BoundText(key: string, value: Option<string>): string {
    if value.Some? then key + "=" + value.value + "&" else ""
  }

  function BoundQuery(key: string, value: Option<string>): seq<(string, string)> {
    if value.Some? then [(key, value.value)] else []
  }

  lemma BoundPrepends(key: string, value: Option<string>, rest: seq<(string, string)>)
    requires |rest| > 0
    ensures BoundText(key, value) + EncodeQuery(rest) == EncodeQuery(BoundQuery(key, value) + rest)
  {
    if value.Some? {
      EncodeQueryCons((key, value.value), rest);
      assert BoundQuery(key, value) + rest == [(key, value.value)] + rest;
    } else {
      assert BoundQuery(key, value) + rest == rest;
    }
  }

  /** The concatenation in `getCalendarTasks` is an ordinary query string:
      the optional bounds in order, then `include_completed`, which is
      always the last parameter. */
  lemma CalendarTasksEndpointIsQuery(startDate: Option<string>, endDate: Option<string>, includeCompleted: bool)
    ensures CalendarTasksEndpoint(startDate, endDate, includeCompleted)
      == TasksPath + "?" + EncodeQuery(CalendarTasksQuery(startDate, endDate, includeCompleted))
    ensures |CalendarTasksQuery(startDate, endDate, includeCompleted)|
      == 1 + (if startDate.Some? then 1 else 0) + (if endDate.Some? then 1 else 0)
  {
    var last := [("include_completed", BoolText(includeCompleted))];
    var tail := "include_completed=" + BoolText(includeCompleted);
    assert EncodeQuery(last) == tail;
    var qb := BoundQuery("end_date", endDate);
    var qa := BoundQuery("start_date", startDate);
    var a := BoundText("start_date", startDate);
    var b := BoundText("end_date", endDate);
    BoundPrepends("end_date", endDate, last);
    assert b + tail == EncodeQuery(qb + last);
    BoundPrepends("start_date", startDate, qb + last);
    assert a + (b + tail) == EncodeQuery(qa + (qb + last));
    assert qa + qb + last == qa + (qb + last);
    var p := TasksPath + "?";
    assert CalendarTasksEndpoint(startDate, endDate, includeCompleted)
      == p + a + b + "include_completed=" + BoolText(includeCompleted);
    ConcatAssoc(p, a, b, "include_completed=", BoolText(includeCompleted));
  }

  lemma ConcatAssoc(p: string, a: string, b: string, c: string, d: string)
    ensures p + a + b + c + d == p + (a + (b + (c + d)))
  {
  }

  /** The calendar screen's request: no date window, completed tasks included. */
  lemma AllTasksEndpoint()
    ensures CalendarTasksEndpoint(None, None, true) == "/api/v1/calendar/tasks?include_completed=true"
  {
  }

  /** `getDocs`: the category filter is appended only when one is given. */
  function DocsEndpoint(category: Option<string>): string {
    if category.Some? then DocsPath + "?category=" + category.value else DocsPath
  }

  /** `getDoc`. */
  function DocEndpoint(docId: string): string {
    DocsPath + "/" + docId
  }

  /** The text between a known prefix and suffix, if `s` has both. */
  function Between(s: string, prefix: string, suffix: string): Option<string> {
    if |prefix| + |suffix| <= |s| && s[..|prefix|] == prefix && s[|s| - |suffix|..] == suffix
    then Some(s[|prefix|..|s| - |suffix|])
    else None
  }

  lemma BetweenConcat(prefix: string, x: string, suffix: string)
    ensures Between(prefix + x + suffix, prefix, suffix) == Some(x)
  {
    var s := prefix + x + suffix;
    assert s[..|prefix|] == prefix;
    assert s[|s| - |suffix|..] == suffix;
    assert s[|prefix|..|s| - |suffix|] == x;
  }

  /** `getDocs` asks for one category exactly when given one, carrying it
      verbatim; `getDoc` carries the document id after the docs path. */
  lemma DocsEndpointsCarryTheirArguments(category: string, docId: string)
    ensures DocsEndpoint(None) == DocsPath
    ensures Between(DocsEndpoint(Some(category)), DocsPath + "?category=", "") == Some(category)
    ensures Between(DocEndpoint(docId), DocsPath + "/", "") == Some(docId)
  {
    BetweenConcat(DocsPath + "?category=", category, "");
    assert DocsPath + "?category=" + category + "" == DocsEndpoint(Some(category));
    BetweenConcat(DocsPath + "/", docId, "");
    assert DocsPath + "/" + docId + "" == DocEndpoint(docId);
  }

  const TaskPathPrefix: string := "/api/v1/calendar/tasks/"
  const CompleteSuffix: string := "/complete"
  const GenerateSuffix: string := "/generate"
  const ScheduledPostPrefix: string := "/api/v1/posts/scheduled/"

  /** `completeTask`'s endpoint. */
  function CompleteTaskPath(taskId: string): string {
    TaskPathPrefix + taskId + CompleteSuffix
  }

  /** `generateTaskContent`'s endpoint. */
  function GenerateTaskPath(taskId: string): string {
    TaskPathPrefix + taskId + GenerateSuffix
  }

  /** `deleteScheduledPost`'s endpoint. */
  function DeleteScheduledPostPath(postId: string): string {
    ScheduledPostPrefix + postId
  }

  /** The task id sits verbatim between the tasks prefix and the action
      suffix, so the path names exactly one task and one action. */
  lemma TaskPathsCarryTheId(taskId: string, other: string)
    ensures Between(CompleteTaskPath(taskId), TaskPathPrefix, CompleteSuffix) == Some(taskId)
    ensures Between(GenerateTaskPath(taskId), TaskPathPrefix, GenerateSuffix) == Some(taskId)
    ensures CompleteTaskPath(taskId) == CompleteTaskPath(other) ==> taskId == other
    ensures CompleteTaskPath(taskId) != GenerateTaskPath(other)
  {
    BetweenConcat(TaskPathPrefix, taskId, CompleteSuffix);
    BetweenConcat(TaskPathPrefix, taskId, GenerateSuffix);
    BetweenConcat(TaskPathPrefix, other, CompleteSuffix);
  }

  /** The post id is everything after the scheduled-posts prefix. */
  lemma DeletePathCarriesTheId(postId: string)
    ensures Between(DeleteScheduledPostPath(postId), ScheduledPostPrefix, "") == Some(postId)
  {
    BetweenConcat(ScheduledPostPrefix, postId, "");
    assert ScheduledPostPrefix + postId + "" == DeleteScheduledPostPath(postId);
  }
}
