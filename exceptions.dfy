/** The application's exceptions and their conversion into HTTP errors. Each
    exception carries a message and a details dict; a converter answers with
    a fixed status (the gateway error may bring its own) and a detail body
    `{"error": true, "message": ..., "details": ...}` whose details are the
    converter's own keys overlaid by the exception's details. */
module Exceptions {
  import opened Wrappers
  import opened Dicts
  import opened JsonValues

  const HTTP_400_BAD_REQUEST := 400
  const HTTP_422_UNPROCESSABLE_ENTITY := 422
  const HTTP_502_BAD_GATEWAY := 502
  const HTTP_503_SERVICE_UNAVAILABLE := 503

  /** `details or {}`: `None` and the empty dict both become `{}`. */
  function DetailsOrEmpty(details: Option<Dict<Json>>): (r: Dict<Json>)
    ensures details.None? ==> r == []
    ensures details.Some? ==> r == details.value
  {
    if details.None? || details.value == [] then [] else details.value
  }

  datatype SchemaParsingError = SchemaParsingError(message: string, schemaName: string, details: Dict<Json>)

  datatype OpenAIServiceError = OpenAIServiceError(message: string, apiError: Option<string>, details: Dict<Json>)

  datatype APIGatewayError = APIGatewayError(message: string, apiUrl: string, statusCode: Option<int>, details: Dict<Json>)

  datatype ValidationError = ValidationError(message: string, fieldErrors: Dict<string>, details: Dict<Json>)

  function NewSchemaParsingError(message: string, schemaName: string, details: Option<Dict<Json>> := None): (e: SchemaParsingError)
    ensures e.message == message && e.schemaName == schemaName && e.details == DetailsOrEmpty(details)
  {
    SchemaParsingError(message, schemaName, DetailsOrEmpty(details))
  }

  function NewOpenAIServiceError(message: string, apiError: Option<string> := None, details: Option<Dict<Json>> := None): (e: OpenAIServiceError)
    ensures e.message == message && e.apiError == apiError && e.details == DetailsOrEmpty(details)
  {
    OpenAIServiceError(message, apiError, DetailsOrEmpty(details))
  }

  function NewAPIGatewayError(message: string, apiUrl: string, statusCode: Option<int> := None, details: Option<Dict<Json>> := None): (e: APIGatewayError)
    ensures e.message == message && e.apiUrl == apiUrl && e.statusCode == statusCode && e.details == DetailsOrEmpty(details)
  {
    APIGatewayError(message, apiUrl, statusCode, DetailsOrEmpty(details))
  }

  /** The field errors, like the details, default to `{}`. */
  function NewValidationError(message: string, fieldErrors: Option<Dict<string>> := None, details: Option<Dict<Json>> := None): (e: ValidationError)
    ensures e.message == message && e.details == DetailsOrEmpty(details)
    ensures fieldErrors.None? ==> e.fieldErrors == []
    ensures fieldErrors.Some? ==> e.fieldErrors == fieldErrors.value
  {
    var fe := if fieldErrors.None? || fieldErrors.value == [] then [] else fieldErrors.value;
    ValidationError(message, fe, DetailsOrEmpty(details))
  }

  datatype HttpException = HttpException(statusCode: int, detail: Dict<Json>)

  /** `create_http_exception`. */
  function CreateHttpException(statusCode: int, message: string, details: Option<Dict<Json>> := None): (r: HttpException)
    ensures r.statusCode == statusCode
    ensures Keys(r.detail) == ["error", "message", "details"]
    ensures Lookup(r.detail, "error") == Some(JBool(true))
    ensures Lookup(r.detail, "message") == Some(JStr(message))
    ensures Lookup(r.detail, "details") == Some(JObj(DetailsOrEmpty(details)))
  {
    var detail := [("error", JBool(true)), ("message", JStr(message)), ("details", JObj(DetailsOrEmpty(details)))];
    assert Keys(detail) == ["error", "message", "details"];
    HttpException(statusCode, detail)
  }

  /** The details dict sent with an HTTP error. */
  function SentDetails(h: HttpException): Dict<Json>
  {
    var d := Lookup(h.detail, "details");
    if d.Some? && d.value.JObj? then d.value.members else []
  }

  /** The message sent with an HTTP error. */
  function SentMessage(h: HttpException): string
  {
    var m := Lookup(h.detail, "message");
    if m.Some? && m.value.JStr? then m.value.s else ""
  }

  function SchemaParsingHttpException(e: SchemaParsingError): HttpException
  {
    CreateHttpException(HTTP_422_UNPROCESSABLE_ENTITY,
      "Schema parsing failed for " + e.schemaName + ": " + e.message,
      Some(Update([("schema_name", JStr(e.schemaName))], e.details)))
  }

  function OpenAIServiceHttpException(e: OpenAIServiceError): HttpException
  {
    var apiError := match e.apiError case None => JNull case Some(a) => JStr(a);
    CreateHttpException(HTTP_503_SERVICE_UNAVAILABLE,
      "OpenAI service error: " + e.message,
      Some(Update([("api_error", apiError)], e.details)))
  }

  /** `error.status_code or 502`: a missing or zero status falls back to 502. */
  function GatewayStatus(statusCode: Option<int>): int
  {
    if statusCode.None? || statusCode.value == 0 then HTTP_502_BAD_GATEWAY else statusCode.value
  }

  function APIGatewayHttpException(e: APIGatewayError): HttpException
  {
    var status := match e.statusCode case None => JNull case Some(c) => JInt(c);
    CreateHttpException(GatewayStatus(e.statusCode),
      "External API error: " + e.message,
      Some(Update([("api_url", JStr(e.apiUrl)), ("status_code", status)], e.details)))
  }

  function StringsToJson(d: Dict<string>): (r: Dict<Json>)
    ensures Keys(r) == Keys(d)
    ensures forall k :: Lookup(r, k) == match Lookup(d, k) case None => None case Some(s) => Some(JStr(s))
  {
    if d == [] then []
    else
      var rest := StringsToJson(d[1..]);
      assert Keys(d) == [d[0].0] + Keys(d[1..]);
      assert Keys([(d[0].0, JStr(d[0].1))] + rest) == [d[0].0] + Keys(rest);
      [(d[0].0, JStr(d[0].1))] + rest
  }

  function ValidationHttpException(e: ValidationError): HttpException
  {
    CreateHttpException(HTTP_400_BAD_REQUEST,
      "Validation error: " + e.message,
      Some(Update([("field_errors", JObj(StringsToJson(e.fieldErrors)))], e.details)))
  }

  /** A schema parsing error becomes a 422 naming the schema; its details are
      `schema_name` overlaid by the error's own details. */
  lemma SchemaParsingMapping(e: SchemaParsingError, k: string)
    requires DistinctKeys(e.details)
    ensures SchemaParsingHttpException(e).statusCode == 422
    ensures SentMessage(SchemaParsingHttpException(e)) == "Schema parsing failed for " + e.schemaName + ": " + e.message
    ensures Lookup(SentDetails(SchemaParsingHttpException(e)), k)
         == if k in Keys(e.details) then Lookup(e.details, k)
            else if k == "schema_name" then Some(JStr(e.schemaName))
            else None
  {
    UpdateLookup([("schema_name", JStr(e.schemaName))], e.details, k);
  }

  /** An OpenAI service error becomes a 503; its details are `api_error`
      overlaid by the error's own details. */
  lemma OpenAIServiceMapping(e: OpenAIServiceError, k: string)
    requires DistinctKeys(e.details)
    ensures OpenAIServiceHttpException(e).statusCode == 503
    ensures SentMessage(OpenAIServiceHttpException(e)) == "OpenAI service error: " + e.message
    ensures Lookup(SentDetails(OpenAIServiceHttpException(e)), k)
         == if k in Keys(e.details) then Lookup(e.details, k)
            else if k == "api_error" then Some(if e.apiError.None? then JNull else JStr(e.apiError.value))
            else None
  {
    var apiError := match e.apiError case None => JNull case Some(a) => JStr(a);
    UpdateLookup([("api_error", apiError)], e.details, k);
  }

  /** A gateway error keeps its own status when it has a non-zero one and
      becomes a 502 otherwise. */
  lemma APIGatewayStatus(e: APIGatewayError)
    ensures e.statusCode.Some? && e.statusCode.value != 0 ==> APIGatewayHttpException(e).statusCode == e.statusCode.value
    ensures e.statusCode.None? || e.statusCode.value == 0 ==> APIGatewayHttpException(e).statusCode == 502
    ensures SentMessage(APIGatewayHttpException(e)) == "External API error: " + e.message
  {
  }

  /** The details of a gateway error are `api_url` and `status_code` overlaid
      by the error's own details. */
  lemma APIGatewayDetails(e: APIGatewayError, k: string)
    requires DistinctKeys(e.details)
    ensures Lookup(SentDetails(APIGatewayHttpException(e)), k)
         == if k in Keys(e.details) then Lookup(e.details, k)
            else if k == "api_url" then Some(JStr(e.apiUrl))
            else if k == "status_code" then Some(if e.statusCode.None? then JNull else JInt(e.statusCode.value))
            else None
  {
    var status := match e.statusCode case None => JNull case Some(c) => JInt(c);
    var base := [("api_url", JStr(e.apiUrl)), ("status_code", status)];
    var details := Update(base, e.details);
    assert SentDetails(APIGatewayHttpException(e)) == details;
    UpdateLookup(base, e.details, k);
    if k !in Keys(e.details) {
      assert base == [base[0]] + [base[1]];
      LookupConcat([base[0]], [base[1]], k);
    }
  }

  /** A validation error becomes a 400; its details are the field errors
      overlaid by the error's own details. */
  lemma ValidationMapping(e: ValidationError, k: string)
    requires DistinctKeys(e.details)
    ensures ValidationHttpException(e).statusCode == 400
    ensures SentMessage(ValidationHttpException(e)) == "Validation error: " + e.message
    ensures Lookup(SentDetails(ValidationHttpException(e)), k)
         == if k in Keys(e.details) then Lookup(e.details, k)
            else if k == "field_errors" then Some(JObj(StringsToJson(e.fieldErrors)))
            else None
  {
    UpdateLookup([("field_errors", JObj(StringsToJson(e.fieldErrors)))], e.details, k);
  }

  /** A validation error built without field errors reports `{}` for them. */
  lemma ValidationDefaults(message: string)
    ensures Lookup(SentDetails(ValidationHttpException(NewValidationError(message))), "field_errors") == Some(JObj([]))
  {
    ValidationMapping(NewValidationError(message), "field_errors");
  }
}
