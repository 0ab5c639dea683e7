/** The two `GhaMsalNetworkModule` classes, MSAL's `INetworkModule` implemented over
    `@actions/http-client`: the one of the `ms-idp-workflow-run-auth` action and the one of the
    `ms-idp-client-assertion-auth` action. Both keep an HTTP client of their own and change no
    state, so each request is a function of what the HTTP client answers. */
module MsalNetwork {
  import opened Wrappers
  import opened HttpHeaders
  import opened Graph

  /** The headers MSAL passes in its request options and receives in its responses. */
  type FlatHeaders = seq<(string, string)>

  /** MSAL's `NetworkRequestOptions`: both members may be absent. */
  datatype RequestOptions = RequestOptions(headers: Option<FlatHeaders>, body: Option<string>)

  /** MSAL's `NetworkResponse<T>`. */
  datatype NetworkResponse<T> = NetworkResponse(status: int, body: T, headers: FlatHeaders)

  /** What `httpClient.post` resolves to: the message's status code (possibly absent) and header
      object, and the body text `readBody()` reads. */
  datatype RawResponse = RawResponse(statusCode: Option<int>, headers: Headers, body: string)

  /** One request handed to the HTTP client: the URL, the body (absent for `getJson`, and for a
      `postJson` of an absent body) and the request headers. */
  datatype Sent = Sent(url: string, body: Option<string>, headers: Option<FlatHeaders>)

  const WorkflowRunNullResult := "HTTP result object is null"
  const AssertionNullResult := "Deserialized JSON response response payload is null."

  /** The status a workflow-run POST reports when the message carries none. */
  const DefaultStatus := 200

  // ---- ms-idp-workflow-run-auth ----

  /** The GET request of `sendGetRequestAsync`. */
  function GetSent(url: string, options: Option<RequestOptions>): Sent
  {
    Sent(url, None, if options.Some? then options.value.headers else None)
  }

  /** The workflow-run conversion of a `getJson` answer: a rejection passes through; a null result
      throws an `HttpClientError` with the response status; otherwise status, body and flattened
      headers. */
  function WorkflowRunGetResponse<T>(answer: Result<TypedResponse<T>>): (r: Result<NetworkResponse<T>>)
  {
    match answer
    case Err(e) => Err(e)
    case Ok(resp) =>
      if resp.result.None? then Err(HttpClientError(WorkflowRunNullResult, Some(resp.statusCode)))
      else Ok(NetworkResponse(resp.statusCode, resp.result.value, SimplifyHeaders(resp.headers)))
  }

  /** `sendGetRequestAsync(url, options)` of the workflow-run module. */
  function WorkflowRunGet<T>(getJson: Sent -> Result<TypedResponse<T>>, url: string, options: Option<RequestOptions>)
    : Result<NetworkResponse<T>>
  {
    WorkflowRunGetResponse(getJson(GetSent(url, options)))
  }

  /** A GET reads the URL with the caller's headers and no body; it fails exactly when the client
      rejects or the result is null, the latter with the response status; otherwise the status and
      body are the response's own and the headers keep their names and order, flattened. */
  lemma WorkflowRunGetContract<T>(getJson: Sent -> Result<TypedResponse<T>>, url: string, options: Option<RequestOptions>)
    ensures var sent := GetSent(url, options);
            var answer := getJson(sent);
            var r := WorkflowRunGet(getJson, url, options);
            && sent.url == url && sent.body.None?
            && (options.Some? ==> sent.headers == options.value.headers) && (options.None? ==> sent.headers.None?)
            && (r.Ok? <==> answer.Ok? && answer.value.result.Some?)
            && (answer.Err? ==> r == Err(answer.error))
            && (answer.Ok? && answer.value.result.None? ==>
                  r == Err(HttpClientError("HTTP result object is null", Some(answer.value.statusCode))))
            && (r.Ok? ==>
                  && r.value.status == answer.value.statusCode
                  && r.value.body == answer.value.result.value
                  && Names(r.value.headers) == Names(answer.value.headers)
                  && forall i :: 0 <= i < |r.value.headers| ==> r.value.headers[i].1 == SimplifyValue(answer.value.headers[i].1))
  {
  }

  /** The POST request of the workflow-run `sendPostRequestAsync`: `options?.body || ''`. */
  function WorkflowRunPostSent(url: string, options: Option<RequestOptions>): (s: Sent)
  {
    Sent(url, Some(if options.Some? && options.value.body.Some? then options.value.body.value else ""),
      if options.Some? then options.value.headers else None)
  }

  /** The reported status: `msg.statusCode || 200`, so an absent or zero status reads as 200. */
  function ReportedStatus(statusCode: Option<int>): int
  {
    if statusCode.None? || statusCode.value == 0 then DefaultStatus else statusCode.value
  }

  /** `sendPostRequestAsync(url, options)` of the workflow-run module: the raw `post`, then
      `JSON.parse` (`parse`) of the body text. No null check is made. */
  function WorkflowRunPost<T>(post: Sent -> Result<RawResponse>, parse: string -> Result<T>, url: string,
                              options: Option<RequestOptions>): Result<NetworkResponse<T>>
  {
    match post(WorkflowRunPostSent(url, options))
    case Err(e) => Err(e)
    case Ok(resp) =>
      match parse(resp.body)
      case Err(e) => Err(e)
      case Ok(body) => Ok(NetworkResponse(ReportedStatus(resp.statusCode), body, SimplifyHeaders(resp.headers)))
  }

  /** A POST always sends a body, the caller's or "" when there is none; it fails exactly when the
      client rejects or the body text does not parse; otherwise the body is the parsed text, the
      status is the message's, or 200 when it is absent or zero, and the headers are flattened. */
  lemma WorkflowRunPostContract<T>(post: Sent -> Result<RawResponse>, parse: string -> Result<T>, url: string,
                                   options: Option<RequestOptions>)
    ensures var sent := WorkflowRunPostSent(url, options);
            var answer := post(sent);
            var r := WorkflowRunPost(post, parse, url, options);
            && sent.url == url && sent.body.Some?
            && (options.Some? && options.value.body.Some? ==> sent.body.value == options.value.body.value)
            && (options.None? || options.value.body.None? ==> sent.body.value == "")
            && (options.Some? ==> sent.headers == options.value.headers)
            && (r.Ok? <==> answer.Ok? && parse(answer.value.body).Ok?)
            && (answer.Err? ==> r == Err(answer.error))
            && (answer.Ok? && parse(answer.value.body).Err? ==> r == Err(parse(answer.value.body).error))
            && (r.Ok? ==>
                  && r.value.body == parse(answer.value.body).value
                  && (answer.value.statusCode.Some? && answer.value.statusCode.value != 0 ==>
                        r.value.status == answer.value.statusCode.value)
                  && (answer.value.statusCode.None? || answer.value.statusCode.value == 0 ==> r.value.status == 200)
                  && Names(r.value.headers) == Names(answer.value.headers))
  {
  }

  // ---- ms-idp-client-assertion-auth ----

  /** `toNetworkResponse(httpResp)`: a null result throws an `HttpClientError` with the response
      status; otherwise status, body and the header entries flattened string → itself,
      array → '\n'-joined, anything else → "". */
  function ToNetworkResponse<T>(resp: TypedResponse<T>): Result<NetworkResponse<T>>
  {
    if resp.result.None? then Err(HttpClientError(AssertionNullResult, Some(resp.statusCode)))
    else Ok(NetworkResponse(resp.statusCode, resp.result.value, SimplifyHeaders(resp.headers)))
  }

  /** `sendGetRequestAsync(url, options)` of the client-assertion module. */
  function AssertionGet<T>(getJson: Sent -> Result<TypedResponse<T>>, url: string, options: Option<RequestOptions>)
    : Result<NetworkResponse<T>>
  {
    match getJson(GetSent(url, options))
    case Err(e) => Err(e)
    case Ok(resp) => ToNetworkResponse(resp)
  }

  /** The POST request of the client-assertion module: `options?.body` and `options?.headers`. */
  function AssertionPostSent(url: string, options: Option<RequestOptions>): Sent
  {
    if options.Some? then Sent(url, options.value.body, options.value.headers) else Sent(url, None, None)
  }

  /** `sendPostRequestAsync(url, options)` of the client-assertion module: `postJson`. */
  function AssertionPost<T>(postJson: Sent -> Result<TypedResponse<T>>, url: string, options: Option<RequestOptions>)
    : Result<NetworkResponse<T>>
  {
    match postJson(AssertionPostSent(url, options))
    case Err(e) => Err(e)
    case Ok(resp) => ToNetworkResponse(resp)
  }

  /** `toNetworkResponse` fails exactly on a null result, with that response's status; otherwise
      status and body are the response's own and every header keeps its name and position. */
  lemma ToNetworkResponseContract<T>(resp: TypedResponse<T>)
    ensures var r := ToNetworkResponse(resp);
            && (r.Err? <==> resp.result.None?)
            && (r.Err? ==> r.error == HttpClientError("Deserialized JSON response response payload is null.", Some(resp.statusCode)))
            && (r.Ok? ==>
                  && r.value.status == resp.statusCode && r.value.body == resp.result.value
                  && Names(r.value.headers) == Names(resp.headers)
                  && forall i :: 0 <= i < |resp.headers| ==> r.value.headers[i].1 == SimplifyValue(resp.headers[i].1))
  {
  }

  /** Both requests of the client-assertion module hand the answer to `toNetworkResponse`: the
      POST forwards the caller's body and headers unchanged (an absent body stays absent), the GET
      sends the headers and no body, and the same answer gives the same response either way. */
  lemma AssertionRequestsContract<T>(getJson: Sent -> Result<TypedResponse<T>>, postJson: Sent -> Result<TypedResponse<T>>,
                                     url: string, options: Option<RequestOptions>)
    requires getJson(GetSent(url, options)) == postJson(AssertionPostSent(url, options))
    ensures var sent := AssertionPostSent(url, options);
            && sent.url == url
            && (options.Some? ==> sent.body == options.value.body && sent.headers == options.value.headers)
            && (options.None? ==> sent.body.None? && sent.headers.None?)
            && GetSent(url, options) == sent.(body := None)
            && AssertionGet(getJson, url, options) == AssertionPost(postJson, url, options)
            && (getJson(GetSent(url, options)).Ok? ==>
                  AssertionGet(getJson, url, options) == ToNetworkResponse(getJson(GetSent(url, options)).value))
  {
  }

  /** The two modules' GET conversions agree on every answer except a null result, which both
      reject with an `HttpClientError` carrying the response status, in words of their own. */
  lemma GetConversionsAgree<T>(getJson: Sent -> Result<TypedResponse<T>>, url: string, options: Option<RequestOptions>)
    ensures var answer := getJson(GetSent(url, options));
            var a := WorkflowRunGet(getJson, url, options);
            var b := AssertionGet(getJson, url, options);
            && (answer.Ok? && answer.value.result.None? ==>
                  && a == Err(HttpClientError(WorkflowRunNullResult, Some(answer.value.statusCode)))
                  && b == Err(HttpClientError(AssertionNullResult, Some(answer.value.statusCode))))
            && (!(answer.Ok? && answer.value.result.None?) ==> a == b)
  {
  }
}
