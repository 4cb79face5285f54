/** The request and response models of the API and their validators. A model
    constructor either returns the model or fails with the list of the fields
    that did not validate, in declaration order, each with its message. */
module Schemas {
  import opened Wrappers
  import opened Dicts
  import opened JsonValues
  import opened Text

  /** A failed field of a model: its name and the validator's message. */
  type FieldErrors = seq<(string, string)>

  datatype HttpMethod = GET | POST | PUT | PATCH | DELETE

  /** The string value of each member of the `HTTPMethod` enumeration. */
  function MethodValue(m: HttpMethod): string
  {
    match m
    case GET => "GET"
    case POST => "POST"
    case PUT => "PUT"
    case PATCH => "PATCH"
    case DELETE => "DELETE"
  }

  /** `HTTPMethod(value)`: the member with that value, if there is one. */
  function ParseHttpMethod(value: string): (r: Option<HttpMethod>)
    ensures r.Some? ==> MethodValue(r.value) == value
  {
    if value == "GET" then Some(GET)
    else if value == "POST" then Some(POST)
    else if value == "PUT" then Some(PUT)
    else if value == "PATCH" then Some(PATCH)
    else if value == "DELETE" then Some(DELETE)
    else None
  }

  /** Every member is found again by its value, and the five values are the
      only strings that name a member. */
  lemma HttpMethodRoundTrip(m: HttpMethod, value: string)
    ensures ParseHttpMethod(MethodValue(m)) == Some(m)
    ensures ParseHttpMethod(value).Some? <==> value in ["GET", "POST", "PUT", "PATCH", "DELETE"]
  {
  }

  /** `validate_model_definition`: rejects a definition that is empty after
      stripping, and otherwise returns it as given. */
  function ValidateModelDefinition(v: string): (r: Result<string, string>)
    ensures r.Ok? <==> exists i :: 0 <= i < |v| && !IsSpace(v[i])
    ensures r.Ok? ==> r.value == v
    ensures r.Err? ==> r.error == "model_definition cannot be empty"
  {
    StripBlank(v);
    if Strip(v) == [] then Err("model_definition cannot be empty") else Ok(v)
  }

  /** `validate_model_name`: blank names are rejected first, then names that
      are not identifiers; the check is on the unstripped value. */
  function ValidateModelName(v: string): (r: Result<string, string>)
  {
    if Strip(v) == [] then Err("model_name cannot be empty")
    else if !IsIdentifier(v) then Err("model_name must be a valid Python identifier")
    else Ok(v)
  }

  /** A model name is accepted exactly when it is an identifier; so a name with
      surrounding whitespace is refused, and the accepted name is unchanged. */
  lemma ModelNameAccepted(v: string)
    ensures ValidateModelName(v).Ok? <==> IsIdentifier(v)
    ensures ValidateModelName(v).Ok? ==> ValidateModelName(v).value == v
    ensures ValidateModelName(v).Err? && !AllSpace(v) ==>
      ValidateModelName(v).error == "model_name must be a valid Python identifier"
    ensures v != [] && (IsSpace(v[0]) || IsSpace(v[|v| - 1])) ==> ValidateModelName(v).Err?
  {
    StripBlank(v);
    if IsIdentifier(v) {
      assert !IsSpace(v[0]);
    }
  }

  /** `validate_role`: only "user" and "assistant" are roles. */
  function ValidateRole(v: string): (r: Result<string, string>)
    ensures r.Ok? <==> v == "user" || v == "assistant"
    ensures r.Ok? ==> r.value == v
  {
    if v in ["user", "assistant"] then Ok(v) else Err("role must be either \"user\" or \"assistant\"")
  }

  /** `validate_message`: a chat message must not be blank. */
  function ValidateMessage(v: string): (r: Result<string, string>)
    ensures r.Err? <==> AllSpace(v)
    ensures r.Ok? ==> r.value == v
  {
    StripBlank(v);
    if Strip(v) == [] then Err("message cannot be empty") else Ok(v)
  }

  /** `validate_api_url`: only the scheme prefix is checked. */
  function ValidateApiUrl(v: string): (r: Result<string, string>)
  {
    if StartsWith(v, "http://") || StartsWith(v, "https://") then Ok(v)
    else Err("api_url must start with http:// or https://")
  }

  /** Any URL that begins with one of the two schemes passes unchanged, even
      the bare scheme; anything else is refused. */
  lemma ApiUrlAccepted(v: string, rest: string)
    ensures ValidateApiUrl("http://" + rest) == Ok("http://" + rest)
    ensures ValidateApiUrl("https://" + rest) == Ok("https://" + rest)
    ensures ValidateApiUrl("http://") == Ok("http://")
    ensures ValidateApiUrl(v).Ok? ==> exists r :: v == "http://" + r || v == "https://" + r
  {
    assert ("http://" + rest)[..7] == "http://";
    assert ("https://" + rest)[..8] == "https://";
    if ValidateApiUrl(v).Ok? {
      if StartsWith(v, "http://") {
        assert v == "http://" + v[7..];
      } else {
        assert v == "https://" + v[8..];
      }
    }
  }

  /** The `ge=1, le=300` constraint on `timeout`. */
  function ValidateTimeout(t: int): (r: Result<int, string>)
    ensures r.Ok? <==> 1 <= t <= 300
    ensures r.Ok? ==> r.value == t
  {
    if t < 1 then Err("Input should be greater than or equal to 1")
    else if t > 300 then Err("Input should be less than or equal to 300")
    else Ok(t)
  }

  /** The error entry of one field check: none when it passed. */
  function FieldError<T>(field: string, check: Result<T, string>): (r: FieldErrors)
    ensures r == [] <==> check.Ok?
  {
    match check
    case Ok(_) => []
    case Err(m) => [(field, m)]
  }

  /** Pydantic reports a `ValueError` raised by a field validator with this
      prefix before the validator's own message. */
  const VALUE_ERROR := "Value error, "

  /** The check of a field validator as pydantic reports it: the accepted
      value is kept and the rejection message gains the `ValueError` prefix. */
  function ValidatorCheck<T>(check: Result<T, string>): (r: Result<T, string>)
    ensures r.Ok? <==> check.Ok?
    ensures r.Ok? ==> r.value == check.value
    ensures r.Err? ==> r.error == VALUE_ERROR + check.error
  {
    match check
    case Ok(v) => Ok(v)
    case Err(m) => Err(VALUE_ERROR + m)
  }

  datatype SchemaParseRequest = SchemaParseRequest(modelDefinition: string, modelName: string)

  /** `SchemaParseRequest(model_definition=..., model_name=...)`. */
  function NewSchemaParseRequest(modelDefinition: string, modelName: string): (r: Result<SchemaParseRequest, FieldErrors>)
    ensures r.Ok? <==> ValidateModelDefinition(modelDefinition).Ok? && ValidateModelName(modelName).Ok?
    ensures r.Ok? ==> r.value == SchemaParseRequest(modelDefinition, modelName)
    ensures ValidateModelDefinition(modelDefinition).Err? ==>
      r.Err? && r.error != [] && r.error[0] == ("model_definition", VALUE_ERROR + "model_definition cannot be empty")
    ensures ValidateModelName(modelName).Err? ==>
      r.Err? && r.error != [] && r.error[|r.error| - 1] == ("model_name", VALUE_ERROR + ValidateModelName(modelName).error)
  {
    var errors := FieldError("model_definition", ValidatorCheck(ValidateModelDefinition(modelDefinition)))
                + FieldError("model_name", ValidatorCheck(ValidateModelName(modelName)));
    if errors == [] then Ok(SchemaParseRequest(modelDefinition, modelName)) else Err(errors)
  }

  /** A point in time; the clock itself is not part of the model. */
  type Timestamp = int

  datatype ConversationMessage = ConversationMessage(role: string, content: string, timestamp: Timestamp)

  /** `ConversationMessage(role=..., content=...)`, stamped with `now`. */
  function NewConversationMessage(role: string, content: string, now: Timestamp): (r: Result<ConversationMessage, FieldErrors>)
    ensures r.Ok? <==> role == "user" || role == "assistant"
    ensures r.Ok? ==> r.value == ConversationMessage(role, content, now)
    ensures r.Err? ==> r.error == [("role", VALUE_ERROR + "role must be either \"user\" or \"assistant\"")]
  {
    match ValidatorCheck(ValidateRole(role))
    case Ok(_) => Ok(ConversationMessage(role, content, now))
    case Err(m) => Err([("role", m)])
  }

  datatype ChatRequest = ChatRequest(
    message: string,
    targetModel: string,
    targetSchema: Dict<Json>,
    conversationHistory: seq<ConversationMessage>,
    currentData: Option<Dict<Json>>)

  /** `ChatRequest(...)`: the history defaults to empty and the current data
      to `None`. */
  function NewChatRequest(
    message: string,
    targetModel: string,
    targetSchema: Dict<Json>,
    conversationHistory: seq<ConversationMessage> := [],
    currentData: Option<Dict<Json>> := None): (r: Result<ChatRequest, FieldErrors>)
    ensures r.Ok? <==> !AllSpace(message)
    ensures r.Ok? ==> r.value == ChatRequest(message, targetModel, targetSchema, conversationHistory, currentData)
    ensures r.Err? ==> r.error == [("message", VALUE_ERROR + "message cannot be empty")]
  {
    match ValidatorCheck(ValidateMessage(message))
    case Ok(_) => Ok(ChatRequest(message, targetModel, targetSchema, conversationHistory, currentData))
    case Err(m) => Err([("message", m)])
  }

  datatype ApiForwardRequest = ApiForwardRequest(
    apiUrl: string,
    httpMethod: HttpMethod,
    data: Dict<Json>,
    headers: Option<Dict<string>>,
    timeout: int)

  function MethodCheck(httpMethod: string): Result<string, string>
  {
    if ParseHttpMethod(httpMethod).Some? then Ok(httpMethod)
    else Err("Input should be 'GET', 'POST', 'PUT', 'PATCH' or 'DELETE'")
  }

  /** `APIForwardRequest(...)`: the method defaults to POST, the headers to
      `None` and the timeout to 30 seconds. */
  function NewApiForwardRequest(
    apiUrl: string,
    data: Dict<Json>,
    httpMethod: string := "POST",
    headers: Option<Dict<string>> := None,
    timeout: int := 30): (r: Result<ApiForwardRequest, FieldErrors>)
    ensures r.Ok? <==> ValidateApiUrl(apiUrl).Ok? && ParseHttpMethod(httpMethod).Some? && 1 <= timeout <= 300
    ensures r.Ok? ==> r.value == ApiForwardRequest(apiUrl, ParseHttpMethod(httpMethod).value, data, headers, timeout)
    ensures r.Err? ==> forall e :: e in r.error ==> e.0 in ["api_url", "method", "timeout"]
    ensures ValidateApiUrl(apiUrl).Err? ==>
      r.Err? && r.error != [] && r.error[0] == ("api_url", VALUE_ERROR + "api_url must start with http:// or https://")
  {
    var errors := FieldError("api_url", ValidatorCheck(ValidateApiUrl(apiUrl)))
                + FieldError("method", MethodCheck(httpMethod))
                + FieldError("timeout", ValidateTimeout(timeout));
    if errors == [] then
      Ok(ApiForwardRequest(apiUrl, ParseHttpMethod(httpMethod).value, data, headers, timeout))
    else Err(errors)
  }

  /** With nothing but the URL and the data given, the request is a POST with
      no extra headers and a 30-second timeout. */
  lemma ForwardRequestDefaults(apiUrl: string, data: Dict<Json>)
    requires ValidateApiUrl(apiUrl).Ok?
    ensures NewApiForwardRequest(apiUrl, data) == Ok(ApiForwardRequest(apiUrl, POST, data, None, 30))
  {
  }

  /** One field of a form, as the schema normaliser describes it. */
  datatype FieldDefinition = FieldDefinition(
    name: string,
    fieldType: string,
    required: bool,
    default: Json,
    description: Option<string>,
    options: Option<seq<string>>,
    nestedSchema: Option<UiSchema>)

  /** The form description the schema normaliser returns: the model's name, a
      title and description taken from the schema, and the fields in order. */
  datatype UiSchema = UiSchema(modelName: string, title: Json, description: Json, fields: seq<FieldDefinition>)

  /** Validation of an `Optional[str]` field: a string or `None`. */
  function OptionalString(j: Json): Result<Option<string>, string>
  {
    match j
    case JNull => Ok(None)
    case JStr(s) => Ok(Some(s))
    case _ => Err("Input should be a valid string")
  }

  /** Validation of an `Optional[List[str]]` field: a list of strings or
      `None`. */
  function OptionalStrings(j: Json): Result<Option<seq<string>>, string>
  {
    match j
    case JNull => Ok(None)
    case JArr(items) =>
      if AllStrings(items) then Ok(Some(Strings(items))) else Err("Input should be a valid string")
    case _ => Err("Input should be a valid list")
  }

  function StringCheck(j: Json): Result<string, string>
  {
    if j.JStr? then Ok(j.s) else Err("Input should be a valid string")
  }

  /** `FieldDefinition(...)` from the values the normaliser passes: `type`
      must be a string, `description` a string or `None`, `options` a list of
      strings or `None`. `required` defaults to true and the other fields to
      `None`. */
  function NewFieldDefinition(
    name: string,
    fieldType: Json,
    required: bool := true,
    default: Json := JNull,
    description: Json := JNull,
    options: Json := JNull,
    nestedSchema: Option<UiSchema> := None): (r: Result<FieldDefinition, FieldErrors>)
    ensures r.Ok? <==> fieldType.JStr? && OptionalString(description).Ok? && OptionalStrings(options).Ok?
    ensures r.Ok? ==> (
      && r.value.name == name && r.value.fieldType == fieldType.s && r.value.required == required
      && r.value.default == default && r.value.nestedSchema == nestedSchema
      && r.value.description == OptionalString(description).value
      && r.value.options == OptionalStrings(options).value)
  {
    var errors := FieldError("type", StringCheck(fieldType))
                + FieldError("description", OptionalString(description))
                + FieldError("options", OptionalStrings(options));
    if errors == [] then
      Ok(FieldDefinition(name, fieldType.s, required, default,
        OptionalString(description).value, OptionalStrings(options).value, nestedSchema))
    else Err(errors)
  }

  /** A field given only a name and a type is required and has no default,
      description, options or nested schema. */
  lemma FieldDefinitionDefaults(name: string, fieldType: string)
    ensures NewFieldDefinition(name, JStr(fieldType)) == Ok(FieldDefinition(name, fieldType, true, JNull, None, None, None))
  {
  }

  function OptionToJson(o: Option<string>): Json
  {
    match o
    case None => JNull
    case Some(s) => JStr(s)
  }

  /** `field.dict()`. */
  function FieldToJson(f: FieldDefinition): (j: Json)
    ensures j.JObj? && Keys(j.members) == ["name", "type", "required", "default", "description", "options", "nested_schema"]
    decreases f, 1
  {
    var options := match f.options case None => JNull case Some(os) => JArr(FromStrings(os));
    var nested := match f.nestedSchema case None => JNull case Some(s) => UiSchemaToJson(s);
    var ms := [("name", JStr(f.name)), ("type", JStr(f.fieldType)), ("required", JBool(f.required)),
               ("default", f.default), ("description", OptionToJson(f.description)),
               ("options", options), ("nested_schema", nested)];
    assert Keys(ms) == ["name", "type", "required", "default", "description", "options", "nested_schema"];
    JObj(ms)
  }

  /** The dict `_convert_to_ui_format` returns, with each field as its
      `dict()`. */
  function UiSchemaToJson(s: UiSchema): (j: Json)
    ensures j.JObj? && Keys(j.members) == ["model_name", "title", "description", "fields"]
    decreases s, 0
  {
    var fs := s.fields;
    var ms := [("model_name", JStr(s.modelName)), ("title", s.title), ("description", s.description),
               ("fields", JArr(seq(|fs|, i requires 0 <= i < |fs| => FieldToJson(fs[i]))))];
    assert Keys(ms) == ["model_name", "title", "description", "fields"];
    JObj(ms)
  }

  /** In a dict with the keys of a field's dict, each key finds its own
      entry. */
  lemma {:induction false} FieldKeysLookup(ms: Dict<Json>)
    requires Keys(ms) == ["name", "type", "required", "default", "description", "options", "nested_schema"]
    ensures Lookup(ms, "name") == Some(ms[0].1) && Lookup(ms, "type") == Some(ms[1].1)
    ensures Lookup(ms, "required") == Some(ms[2].1) && Lookup(ms, "default") == Some(ms[3].1)
    ensures Lookup(ms, "description") == Some(ms[4].1) && Lookup(ms, "options") == Some(ms[5].1)
    ensures Lookup(ms, "nested_schema") == Some(ms[6].1)
  {
    var ks := Keys(ms);
    assert ks[0] == ms[0].0 && ks[1] == ms[1].0 && ks[2] == ms[2].0 && ks[3] == ms[3].0;
    assert ks[4] == ms[4].0 && ks[5] == ms[5].0 && ks[6] == ms[6].0;
    LookupFirst(ms, 0);
    LookupFirst(ms, 1);
    LookupFirst(ms, 2);
    LookupFirst(ms, 3);
    LookupFirst(ms, 4);
    LookupFirst(ms, 5);
    LookupFirst(ms, 6);
  }

  /** `field.dict()` holds each attribute of the field under its own key;
      absent options, description and nested schema read as `None`. */
  lemma FieldToJsonEntries(f: FieldDefinition)
    ensures var ms := FieldToJson(f).members;
      && Lookup(ms, "name") == Some(JStr(f.name))
      && Lookup(ms, "type") == Some(JStr(f.fieldType))
      && Lookup(ms, "required") == Some(JBool(f.required))
      && Lookup(ms, "default") == Some(f.default)
      && Lookup(ms, "description") == Some(OptionToJson(f.description))
      && Lookup(ms, "options") == Some(match f.options case None => JNull case Some(os) => JArr(FromStrings(os)))
      && Lookup(ms, "nested_schema") == Some(match f.nestedSchema case None => JNull case Some(s) => UiSchemaToJson(s))
  {
    FieldKeysLookup(FieldToJson(f).members);
  }

  /** The form description dict holds the model name, title, description and
      the dicts of the fields, in order, under their keys. */
  lemma {:induction false} UiSchemaToJsonEntries(s: UiSchema)
    ensures var ms := UiSchemaToJson(s).members;
      && Lookup(ms, "model_name") == Some(JStr(s.modelName))
      && Lookup(ms, "title") == Some(s.title)
      && Lookup(ms, "description") == Some(s.description)
      && Lookup(ms, "fields") == Some(JArr(seq(|s.fields|, i requires 0 <= i < |s.fields| => FieldToJson(s.fields[i]))))
  {
    var ms := UiSchemaToJson(s).members;
    var ks := Keys(ms);
    assert ks[0] == ms[0].0 && ks[1] == ms[1].0 && ks[2] == ms[2].0 && ks[3] == ms[3].0;
    LookupFirst(ms, 0);
    LookupFirst(ms, 1);
    LookupFirst(ms, 2);
    LookupFirst(ms, 3);
    var items := seq(|s.fields|, i requires 0 <= i < |s.fields| => FieldToJson(s.fields[i]));
    assert ms[3].1.items == items;
  }
}
