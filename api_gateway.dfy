/** The gateway that forwards completed form data to an external API. The
    network itself is a parameter: the transport outcome of a request is
    given, and the model decides what is sent and how the outcome is
    reported. Response headers are a dict with lower-case names, as the HTTP
    client presents them. */
module ApiGateway {
  import opened Wrappers
  import opened Dicts
  import opened JsonValues
  import opened Text
  import opened Schemas
  import opened Exceptions

  /** The headers every outgoing request starts from. */
  const DEFAULT_HEADERS: Dict<string> := [
    ("User-Agent", "Chat Bot App API Gateway/1.0.0"),
    ("Content-Type", "application/json")]

  /** `request_headers = default_headers.copy()` followed, when the caller
      gave a non-empty dict, by `request_headers.update(headers)`. */
  function MergedHeaders(defaults: Dict<string>, headers: Option<Dict<string>>): Dict<string>
  {
    if headers.Some? && headers.value != [] then Update(defaults, headers.value) else defaults
  }

  /** A caller's header wins over a default of the same name, a default the
      caller does not give survives, and no other header appears. */
  lemma MergedHeadersLookup(defaults: Dict<string>, headers: Option<Dict<string>>, k: string)
    requires headers.Some? ==> DistinctKeys(headers.value)
    ensures Keys(defaults) <= Keys(MergedHeaders(defaults, headers))
    ensures Lookup(MergedHeaders(defaults, headers), k)
         == if headers.Some? && k in Keys(headers.value) then Lookup(headers.value, k) else Lookup(defaults, k)
  {
    if headers.Some? && headers.value != [] {
      UpdateLookup(defaults, headers.value, k);
    }
  }

  /** What is handed to the HTTP client: the verb, the URL, the headers, the
      query parameters and the body, the body being the JSON serialisation
      of the value given here. */
  datatype OutgoingRequest = OutgoingRequest(
    verb: HttpMethod,
    url: string,
    headers: Dict<string>,
    params: Option<Dict<Json>>,
    content: Option<Json>)

  /** `_make_request`: a GET carries the data as query parameters, every other
      verb carries it as a JSON body; empty data is sent as neither. */
  function MakeRequest(verb: HttpMethod, url: string, data: Dict<Json>, headers: Dict<string>): OutgoingRequest
  {
    var jsonData := if data != [] then Some(JObj(data)) else None;
    match verb
    case GET => OutgoingRequest(GET, url, headers, if data != [] then Some(data) else None, None)
    case POST => OutgoingRequest(POST, url, headers, None, jsonData)
    case PUT => OutgoingRequest(PUT, url, headers, None, jsonData)
    case PATCH => OutgoingRequest(PATCH, url, headers, None, jsonData)
    case DELETE => OutgoingRequest(DELETE, url, headers, None, jsonData)
  }

  /** The verb, URL and headers are passed through; a request never has both
      query parameters and a body; empty data sends nothing; otherwise a GET
      sends exactly the data as parameters and the other verbs send exactly
      the data as body. */
  lemma MakeRequestDispatch(verb: HttpMethod, url: string, data: Dict<Json>, headers: Dict<string>)
    ensures var req := MakeRequest(verb, url, data, headers);
      && req.verb == verb && req.url == url && req.headers == headers
      && (req.params.None? || req.content.None?)
      && (data == [] ==> req.params.None? && req.content.None?)
      && (data != [] && verb == GET ==> req.params == Some(data) && req.content.None?)
      && (data != [] && verb != GET ==> req.params.None? && req.content == Some(JObj(data)))
  {
  }

  /** A response as the client hands it over: status, headers, and the body
      read three ways: as text, as decoded JSON (which may fail), and as the
      base64 text of its bytes. */
  datatype HttpResponse = HttpResponse(
    statusCode: int,
    headers: Dict<string>,
    text: string,
    json: Result<Json, string>,
    base64: string)

  /** `headers.get(name, "")` on the client's case-insensitive headers. */
  function Header(headers: Dict<string>, name: string): string
  {
    Lookup(headers, Lower(name)).GetOr("")
  }

  /** `_parse_response_data`: the lower-cased content type decides; JSON is
      checked first, then text, and anything else is sent back as base64. A
      body that fails to decode is returned as text. */
  function ParseResponseData(response: HttpResponse): Json
  {
    var contentType := Lower(Header(response.headers, "content-type"));
    if Contains(contentType, "application/json") then
      match response.json
      case Ok(j) => j
      case Err(_) => JStr(response.text)
    else if Contains(contentType, "text/") then JStr(response.text)
    else JStr(response.base64)
  }

  /** The lower-cased content type decides the reading, JSON first: the
      decoded JSON when the type names JSON and decoding works, the text when
      it names JSON but decoding fails, the text when it names only text, the
      base64 text otherwise (a response without content type included). The
      content type is read without regard to letter case. */
  lemma ParseResponseDataCases(response: HttpResponse, otherCase: Dict<string>)
    requires forall k :: Lookup(otherCase, k).Some? <==> Lookup(response.headers, k).Some?
    requires forall k :: Lookup(otherCase, k).Some? ==> Lower(Lookup(otherCase, k).value) == Lower(Lookup(response.headers, k).value)
    ensures var ct, data := Lower(Header(response.headers, "content-type")), ParseResponseData(response);
      && (Contains(ct, "application/json") && response.json.Ok? ==> data == response.json.value)
      && (Contains(ct, "application/json") && response.json.Err? ==> data == JStr(response.text))
      && (!Contains(ct, "application/json") && Contains(ct, "text/") ==> data == JStr(response.text))
      && (!Contains(ct, "application/json") && !Contains(ct, "text/") ==> data == JStr(response.base64))
    ensures Lookup(response.headers, "content-type").None? ==> ParseResponseData(response) == JStr(response.base64)
    ensures ParseResponseData(response.(headers := otherCase)) == ParseResponseData(response)
  {
    if Lookup(response.headers, "content-type").None? {
      assert Lower("content-type") == "content-type";
      assert Lower("") == "";
      assert IndexOf("", "application/json").None? && IndexOf("", "text/").None?;
    }
  }

  /** `APIResponse`, without the measured execution time. */
  datatype ApiResponse = ApiResponse(statusCode: int, data: Json, headers: Dict<string>)

  /** The first line of the validation error `APIResponse` raises for data
      that is not an object, a list, a string or `None`: one error for each
      of the three members of the union. */
  const RESPONSE_DATA_INVALID := "3 validation errors for APIResponse"

  /** `_process_response`: status and headers are copied; the data must be
      an object, a list, a string or `None` to be accepted by `APIResponse`. */
  function ProcessResponse(response: HttpResponse): (r: Result<ApiResponse, string>)
  {
    var data := ParseResponseData(response);
    if data.JInt? || data.JBool? then Err(RESPONSE_DATA_INVALID)
    else Ok(ApiResponse(response.statusCode, data, response.headers))
  }

  /** How the transport ended: with a response, a timeout, another transport
      error, or any other failure, each with its text. */
  datatype Transport =
    | Delivered(response: HttpResponse)
    | TimedOut(reason: string)
    | RequestFailed(reason: string)
    | Failed(reason: string)

  /** The `except` clauses of `forward_request`. */
  function ForwardOutcome(apiUrl: string, timeout: int, outcome: Transport): (r: Result<ApiResponse, APIGatewayError>)
  {
    match outcome
    case Delivered(response) =>
      (match ProcessResponse(response)
       case Ok(a) => Ok(a)
       case Err(e) => Err(NewAPIGatewayError("Unexpected error: " + e, apiUrl, None, Some([("error", JStr(e))]))))
    case TimedOut(e) =>
      Err(NewAPIGatewayError("Request timeout after " + IntToString(timeout) + " seconds", apiUrl, None,
        Some([("timeout", JInt(timeout)), ("error", JStr(e))])))
    case RequestFailed(e) =>
      Err(NewAPIGatewayError("Request failed: " + e, apiUrl, None, Some([("error", JStr(e))])))
    case Failed(e) =>
      Err(NewAPIGatewayError("Unexpected error: " + e, apiUrl, None, Some([("error", JStr(e))])))
  }

  /** A delivered response is returned, not raised, whatever its status, as
      long as its data is acceptable; its status and headers are kept. */
  lemma DeliveredIsReturned(apiUrl: string, timeout: int, response: HttpResponse)
    requires !ParseResponseData(response).JInt? && !ParseResponseData(response).JBool?
    ensures ForwardOutcome(apiUrl, timeout, Delivered(response))
         == Ok(ApiResponse(response.statusCode, ParseResponseData(response), response.headers))
  {
  }

  /** Every error the gateway raises carries the URL, never a status code,
      and so becomes an HTTP 502; a timeout says how long it waited and
      records the timeout in its details. */
  lemma ForwardErrorsAreBadGateway(apiUrl: string, timeout: int, outcome: Transport)
    requires ForwardOutcome(apiUrl, timeout, outcome).Err?
    ensures var e := ForwardOutcome(apiUrl, timeout, outcome).error;
      && e.apiUrl == apiUrl && e.statusCode.None?
      && APIGatewayHttpException(e).statusCode == 502
      && (outcome.TimedOut? ==>
            e.message == "Request timeout after " + IntToString(timeout) + " seconds"
            && Lookup(e.details, "timeout") == Some(JInt(timeout)))
      && (outcome.Delivered? ==> e.message == "Unexpected error: " + RESPONSE_DATA_INVALID)
      && (outcome.RequestFailed? ==> e.message == "Request failed: " + outcome.reason)
      && (outcome.Failed? ==> e.message == "Unexpected error: " + outcome.reason)
      && (!outcome.Delivered? ==> Lookup(e.details, "error") == Some(JStr(outcome.reason)))
      && (outcome.Delivered? ==> Lookup(e.details, "error") == Some(JStr(RESPONSE_DATA_INVALID)))
  {
    APIGatewayStatus(ForwardOutcome(apiUrl, timeout, outcome).error);
    var e := ForwardOutcome(apiUrl, timeout, outcome).error;
    if outcome.Delivered? {
      assert e.message == "Unexpected error: " + RESPONSE_DATA_INVALID;
    }
  }

  /** Reachability: a status below 500 means reachable, any failure means
      not reachable. */
  function Reachable(status: Result<int, string>): bool
  {
    match status
    case Ok(code) => code < 500
    case Err(_) => false
  }

  /** `Allow` split on ", ", or nothing when the header is absent or empty. */
  function AllowedMethods(headers: Dict<string>): (r: seq<string>)
  {
    var allow := Header(headers, "Allow");
    if allow != "" then SplitOn(allow, ", ") else []
  }

  /** The listed methods joined again with ", " give the header back, and no
      listed method contains the separator. */
  lemma AllowedMethodsRoundTrip(headers: Dict<string>)
    ensures Header(headers, "Allow") != "" ==> Join(AllowedMethods(headers), ", ") == Header(headers, "Allow")
    ensures Header(headers, "Allow") == "" <==> AllowedMethods(headers) == []
    ensures forall i :: 0 <= i < |AllowedMethods(headers)| ==> !Contains(AllowedMethods(headers)[i], ", ")
  {
    var allow := Header(headers, "Allow");
    if allow != "" {
      SplitJoin(allow, ", ");
      forall i | 0 <= i < |AllowedMethods(headers)|
        ensures !Contains(AllowedMethods(headers)[i], ", ")
      {
        SplitPiecesFree(allow, ", ", i);
      }
    }
  }

  /** `get_api_info`: what an OPTIONS request tells about an endpoint. */
  function ApiInfo(apiUrl: string, outcome: Result<HttpResponse, string>): (r: Dict<Json>)
  {
    match outcome
    case Ok(response) =>
      [("url", JStr(apiUrl)),
       ("status_code", JInt(response.statusCode)),
       ("headers", JObj(StringsToJson(response.headers))),
       ("allowed_methods", JArr(FromStrings(AllowedMethods(response.headers)))),
       ("reachable", JBool(Reachable(Ok(response.statusCode))))]
    case Err(e) =>
      [("url", JStr(apiUrl)),
       ("status_code", JNull),
       ("headers", JObj([])),
       ("allowed_methods", JArr([])),
       ("reachable", JBool(false)),
       ("error", JStr(e))]
  }

  /** The endpoint information agrees with the reachability check made on the
      same outcome, and a failure reports no methods and no status. */
  lemma ApiInfoAgrees(apiUrl: string, outcome: Result<HttpResponse, string>)
    ensures var status := match outcome case Ok(r) => Ok(r.statusCode) case Err(e) => Err(e);
      Lookup(ApiInfo(apiUrl, outcome), "reachable") == Some(JBool(Reachable(status)))
    ensures outcome.Err? ==>
      && Lookup(ApiInfo(apiUrl, outcome), "allowed_methods") == Some(JArr([]))
      && Lookup(ApiInfo(apiUrl, outcome), "status_code") == Some(JNull)
    ensures outcome.Ok? ==>
      Lookup(ApiInfo(apiUrl, outcome), "allowed_methods") == Some(JArr(FromStrings(AllowedMethods(outcome.value.headers))))
  {
    var info := ApiInfo(apiUrl, outcome);
    LookupFirst(info, 1);
    LookupFirst(info, 3);
    LookupFirst(info, 4);
  }

  /** The gateway service: it holds the default headers. */
  class GatewayService {
    var defaultHeaders: Dict<string>

    constructor()
      ensures defaultHeaders == DEFAULT_HEADERS
    {
      defaultHeaders := DEFAULT_HEADERS;
    }

    /** The header preparation of `forward_request`: a copy of the defaults,
        updated in place with the caller's headers. The defaults themselves
        are left alone. */
    method PrepareHeaders(headers: Option<Dict<string>>) returns (requestHeaders: Dict<string>)
      ensures requestHeaders == MergedHeaders(defaultHeaders, headers)
    {
      requestHeaders := defaultHeaders;
      if headers.Some? && headers.value != [] {
        var extra := headers.value;
        var i := 0;
        while i < |extra|
          invariant i <= |extra|
          invariant requestHeaders == Update(defaultHeaders, extra[..i])
        {
          assert extra[..i + 1][..i] == extra[..i];
          requestHeaders := Set(requestHeaders, extra[i].0, extra[i].1);
          i := i + 1;
        }
        assert extra[..|extra|] == extra;
      }
    }

    /** `forward_request`: prepare the headers, build the request for the
        verb, hand it to the network, and report the outcome. */
    method ForwardRequest(
      apiUrl: string,
      verb: HttpMethod,
      data: Dict<Json>,
      headers: Option<Dict<string>>,
      timeout: int,
      network: OutgoingRequest -> Transport)
      returns (r: Result<ApiResponse, APIGatewayError>)
      ensures r == ForwardOutcome(apiUrl, timeout, network(MakeRequest(verb, apiUrl, data, MergedHeaders(defaultHeaders, headers))))
    {
      var requestHeaders := PrepareHeaders(headers);
      var request := MakeRequest(verb, apiUrl, data, requestHeaders);
      var outcome := network(request);
      r := ForwardOutcome(apiUrl, timeout, outcome);
    }
  }
}
