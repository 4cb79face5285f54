# Chat Bot App backend: a verified model

This Dafny project models the logic of the chat bot backend. The backend
takes a data model, turns it into a form description, and holds a
conversation with a language model to fill that form in. It then forwards
the data to an external API. The parts modelled are:

- **Schema normaliser** (`SchemaParser`). It walks the JSON schema of a model
  and returns the form description: one field descriptor per property, in
  property order. Enum, array and object properties are recognised; other
  types go through the type table; object properties with `properties`
  recurse. It also covers the example-schema lookup.
- **Request models and validators** (`Schemas`). The blank, identifier,
  role, URL-prefix and timeout checks; the `HTTPMethod` enumeration; the
  defaults of `APIForwardRequest` and `FieldDefinition`. A model constructor
  returns either the model or the list of failed fields.
- **CORS origins** (`Config`). `allowed_origins_list` splits the setting on
  commas and strips each piece.
- **Exceptions and their HTTP form** (`Exceptions`). The four exception kinds
  and the four converters: fixed status codes, the `status_code or 502`
  fallback, and detail dicts whose base keys are overlaid by the error's own
  details.
- **API gateway** (`ApiGateway`). The header merge, done in place on a copy
  of the defaults. The choice between query parameters and a body per verb.
  The classification of a response body by content type. The mapping of
  transport failures to gateway errors. The reachability test and the
  `Allow` header split.
- **Chat service** (`OpenAI`):
  - the in-memory conversation store (a class with a `map` field);
  - the rendering of the target schema into the system prompt;
  - the message list sent to the model;
  - the validation of the model's answer into a `ChatResult`;
  - the wrapping of every failure into a service error.

Supporting modules:

- `Wrappers` holds `Option`, `Result` and a fallible map over a sequence.
- `Dicts` holds insertion-ordered dicts, with Python's `d[k] = v`,
  `update` and `{**a, **b}`.
- `JsonValues` holds decoded JSON values with Python's `str`, `repr` and
  truthiness.
- `Text` holds Python's `strip`, `split`, `join`, `find`, `in` and
  `str(int)`.

Each loop of the source is a method proved equal to a function of its
inputs. These are the property walk, the header update, the field-line
loop and the message list. The properties the source promises are proved
about those functions.

The outside world is passed in as parameters:

- The network is a function from the outgoing request to its transport
  outcome.
- The language model is a function from the model name, messages and answer
  schema to a decoded answer or an error text.
- `json.dumps` is a function parameter.
- The clock is a `now` timestamp.
- The conversation id, which the source draws from `uuid4`, is a parameter.

### Where the code departs from the application's documented intent

The model follows the code in each of these:

- The application is documented as having a fixed set of field kinds, with
  options non-empty exactly for enumerated fields. The code instead:
  - passes unknown type names through unchanged;
  - gives an enum field whatever list its `enum` key holds, even an empty
    one;
  - types a field with no type as `string`.
- The chat service is documented as merging extracted values and deciding
  completeness itself. The code passes the model's `extracted_data` and
  `is_complete` through unchanged. `ChatPassesAnswerThrough` states this.
- `list_available_schemas` (`backend/services/schema_parser.py:227-233`)
  advertises five example schemas. Only two of them can be fetched:
  `AdvertisedButMissing` proves the other three fail.

## Model

| member | source | states |
|---|---|---|
| Wrappers.MapAll | backend/services/schema_parser.py:142-148 | A walk over a list that stops at the first failure: it succeeds exactly when every element succeeds. It then gives one result per element, in order. A failure is the failure of some element. |
| Wrappers.MapAllFirstError | backend/services/schema_parser.py:142-148 | When every element before `i` succeeds and element `i` fails, the walk fails with element `i`'s error. |
| Wrappers.MapAllAppend | backend/services/schema_parser.py:142-148 | Appending a succeeding element to a succeeding walk appends its result. |
| Dicts.Lookup | backend/services/api_gateway.py:212 | `d.get(k)` finds a value exactly when `k` is a key, and the value found is stored under `k`. |
| Dicts.Set | backend/services/api_gateway.py:86 | `d[k] = v`: `k` then maps to `v` and every other key keeps its value. An existing key keeps its place; a new key goes last. |
| Dicts.Update | backend/services/api_gateway.py:86 | `d.update(e)` keeps every key of `d`, and its keys are exactly those of `d` and `e`. |
| Dicts.UpdateLookup | backend/core/exceptions.py:128 | The merge law of `{**d, **e}`: a key of `e` takes `e`'s value, and any other key keeps `d`'s. |
| Dicts.UpdateDistinct | backend/services/api_gateway.py:84-86 | Updating a dict without repeated keys leaves none repeated. |
| JsonValues.PyStr | backend/services/openai_service.py:213 | `str(v)` of a string is the string itself. |
| Text.TrimStart | backend/core/config.py:69 | `lstrip` removes a prefix made only of whitespace, and what remains does not start with whitespace. |
| Text.TrimEnd | backend/core/config.py:69 | `rstrip` removes a suffix made only of whitespace, and what remains does not end with whitespace. |
| Text.Strip | backend/core/config.py:69 | `strip` leaves no whitespace at either end. |
| Text.StripBlank | backend/models/schemas.py:37 | `strip` gives the empty string exactly when the text is all whitespace. |
| Text.StripParts | backend/core/config.py:69 | `strip` returns a middle slice of the text, and only whitespace lies before and after it. |
| Text.StripTrimmed | backend/core/config.py:69 | A text without surrounding whitespace strips to itself. |
| Text.StripPadded | backend/core/config.py:69 | Whitespace padded around a trimmed, non-empty text strips away exactly. |
| Text.IndexOf | backend/services/api_gateway.py:215 | `find` returns the first position where the pattern occurs, or none when it occurs nowhere. |
| Text.SplitOn | backend/core/config.py:69 | `split` always returns at least one piece. |
| Text.SplitJoin | backend/core/config.py:69 | Joining the pieces of a split with the same separator gives back the text. |
| Text.SplitPiecesFree | backend/services/api_gateway.py:263 | No piece of a split contains the separator. |
| Text.SplitCount | backend/core/config.py:69 | Splitting on a character gives one piece more than that character's occurrences. |
| Text.JoinSplit | backend/core/config.py:69 | Splitting a join of pieces free of the separator character gives back exactly those pieces. |
| Text.NatToStringRoundTrip | backend/services/api_gateway.py:114 | `str(n)` writes only digits, without a leading zero, and reads back as `n`. |
| Schemas.ParseHttpMethod | backend/models/schemas.py:14-20 | A value that names a member names the member whose value it is. |
| Schemas.HttpMethodRoundTrip | backend/models/schemas.py:14-20 | Every member is found again from its value. The five strings GET, POST, PUT, PATCH and DELETE are the only values. |
| Schemas.ValidateModelDefinition | backend/models/schemas.py:34-39 | A definition is accepted exactly when it holds a non-whitespace character; it is then returned unchanged. Otherwise the error is "model_definition cannot be empty". |
| Schemas.ModelNameAccepted | backend/models/schemas.py:41-48 | A name is accepted exactly when it is an identifier, checked on the unstripped value, and is then returned unchanged. A non-blank reject says it is not an identifier. Surrounding whitespace always rejects. |
| Schemas.ValidateRole | backend/models/schemas.py:80-85 | A role is accepted exactly when it is "user" or "assistant", and is returned unchanged. |
| Schemas.ValidateMessage | backend/models/schemas.py:111-116 | A message is rejected exactly when it is all whitespace; an accepted one is unchanged. |
| Schemas.ApiUrlAccepted | backend/models/schemas.py:163-168 | Any text starting with `http://` or `https://` passes unchanged, the bare `http://` included. Nothing else passes. |
| Schemas.ValidateTimeout | backend/models/schemas.py:161 | A timeout is accepted exactly when it lies in 1..300. |
| Schemas.NewSchemaParseRequest | backend/models/schemas.py:23-48 | The request is built exactly when both validators accept, and it holds the given values. A rejected definition is the first error and a rejected name the last, each with pydantic's "Value error, " prefix before the validator's message. |
| Schemas.NewConversationMessage | backend/models/schemas.py:67-85 | A message is built exactly when the role is valid, stamped with the given time. Otherwise the single error is on `role`: "Value error, role must be either "user" or "assistant"". |
| Schemas.NewChatRequest | backend/models/schemas.py:88-116 | A chat request is built exactly when the message is not blank, and it holds the given values. Otherwise the single error is on `message`: "Value error, message cannot be empty". |
| Schemas.NewApiForwardRequest | backend/models/schemas.py:143-168 | A forward request is built exactly when the URL, the method and the timeout are valid. Every error names one of those three fields. A rejected URL is the first error: "Value error, api_url must start with http:// or https://". |
| Schemas.ForwardRequestDefaults | backend/models/schemas.py:154-161 | Given only a URL and data, the request is a POST with no extra headers and a 30-second timeout. |
| Schemas.NewFieldDefinition | backend/models/schemas.py:197-216 | A descriptor is built exactly when the type is a string, the description a string or `None`, and the options a list of strings or `None`. It then holds the given values. |
| Schemas.FieldDefinitionDefaults | backend/models/schemas.py:210-216 | Given a name and a type only, a field is required and has no default, description, options or nested schema. |
| Schemas.FieldToJson | backend/models/schemas.py:210-216 | `field.dict()` has exactly the seven field keys, in declaration order. |
| Schemas.FieldToJsonEntries | backend/models/schemas.py:210-216 | Each key of `field.dict()` holds that field's value: name, type and `required` as given, `default` unchanged, `None` for an absent description, options or nested schema, the options as a list of strings and the nested schema as its own dict. |
| Schemas.UiSchemaToJson | backend/services/schema_parser.py:150-155 | The form description dict has exactly the keys `model_name`, `title`, `description` and `fields`, in that order. |
| Schemas.UiSchemaToJsonEntries | backend/services/schema_parser.py:150-155 | `model_name` holds the name as a string, `title` and `description` their values unchanged, and `fields` the list of each field's dict, in order. |
| SchemaParser.UiTypeTable | backend/services/schema_parser.py:32-42 | The table turns `str`, `int`, `float`, `bool`, `list` and `dict` into JSON-schema type names. Every other name passes through, and only `enum` becomes `enum`. |
| SchemaParser.ConvertToUiFormat | backend/services/schema_parser.py:127-155 | The loop that appends one descriptor per property computes the form description of the schema. It fails with the first property's failure. |
| SchemaParser.FieldsErrorPersists | backend/services/schema_parser.py:142-148 | Once a property fails, the whole walk fails with that error. |
| SchemaParser.ParseFieldsIsMapAll | backend/services/schema_parser.py:142-148 | The walk over the properties applies the per-property step to each in order, stopping at the first error. |
| SchemaParser.ParseFieldsShape | backend/services/schema_parser.py:142-148 | The walk succeeds exactly when every property parses. It then yields one descriptor per property, in order. |
| SchemaParser.FieldDefinitionCopies | backend/services/schema_parser.py:172-216 | Every branch keeps the property's name, the given required flag, its `default` and its `description`. Only enum fields get options; only object fields get a nested schema. |
| SchemaParser.EnumField | backend/services/schema_parser.py:171-180 | A property with an `enum` list is an enum field whose options are that list, whatever its `type` says. |
| SchemaParser.FieldType | backend/services/schema_parser.py:169-216 | Without `enum`, the type is `array`, `object`, or the table's translation of the given type. A missing type gives `string`. |
| SchemaParser.TableExamples | backend/services/schema_parser.py:208-216 | `integer` stays `integer`, while `str` becomes `string`. |
| SchemaParser.ObjectField | backend/services/schema_parser.py:193-205 | An object field gets a nested schema exactly when it has `properties`. That schema is the property normalised under `<field>_nested`. |
| SchemaParser.NestedRequiredFlags | backend/services/schema_parser.py:193-205 | A nested schema is named `<field>_nested`. Its required flags come from its own `required` entry alone, whatever the outer field's flag is. |
| SchemaParser.UiFormatShape | backend/services/schema_parser.py:138-155 | The result has one descriptor per property, in order, each named after its key. Each required flag is the membership test on `required`. The title defaults to the model name and the description to `""`. |
| SchemaParser.RequiredFlags | backend/services/schema_parser.py:139-146 | With a `required` list, a field is required exactly when its name is in the list; without one, no field is required. |
| SchemaParser.UiFormatSucceeds | backend/services/schema_parser.py:138-148 | Normalisation fails exactly when `properties` is not a dict, or some property's required test or descriptor fails. |
| SchemaParser.BadRequiredEntry | backend/services/schema_parser.py:139-146 | A `required` entry that is no container fails any schema with properties. It goes unnoticed when there are none. |
| SchemaParser.GetExampleSchema | backend/services/schema_parser.py:297-303 | Only `UserProfile` and `ProductOrder` are found. Any other name raises a parsing error "Schema '<name>' not found" for that name. |
| SchemaParser.AdvertisedButMissing | backend/services/schema_parser.py:227-233 | Of the five advertised schemas, exactly the first two can be fetched. |
| Config.OriginsCount | backend/core/config.py:69 | There is one origin more than there are commas in the setting. |
| Config.OriginsAreStrippedSegments | backend/core/config.py:69 | Origin `i` is the `i`-th comma-separated segment, stripped, in order. |
| Config.OriginsTrimmed | backend/core/config.py:69 | No origin begins or ends with whitespace. |
| Config.OriginsSingle | backend/core/config.py:69 | A setting without commas gives the one stripped origin. |
| Config.OriginsOfEmpty | backend/core/config.py:69 | The empty setting gives the single origin `""`. |
| Config.OriginsOfTwo | backend/core/config.py:69 | Two comma-free parts joined by a comma come back as two stripped origins. |
| Config.OriginsOfThree | backend/core/config.py:69 | Three comma-free parts joined by commas come back as three stripped origins. |
| Config.OriginsOfTwoTrimmed | backend/core/config.py:69 | Two trimmed, comma-free origins are kept verbatim. |
| Config.OriginsOfThreeTrimmed | backend/core/config.py:69 | Three trimmed, comma-free origins are kept verbatim. |
| Config.OriginsOfTwoPadded | backend/core/config.py:69 | Whitespace padding around each of two origins is removed. |
| Config.OriginsWithTrailingComma | backend/core/config.py:69 | A trailing comma gives an empty last origin. |
| Config.OriginsWithDoubledComma | backend/core/config.py:69 | A doubled comma gives an empty origin between its neighbours. |
| Config.OriginsWithSpaces | backend/core/config.py:69 | Spaces around the commas are dropped. |
| Config.DefaultOrigins | backend/core/config.py:36-39 | The default setting allows exactly `http://localhost:3000` and `http://localhost:19006`. |
| Config.OriginsRoundTrip | backend/core/config.py:69 | When no segment has surrounding whitespace, joining the origins with commas gives back the setting. |
| Exceptions.DetailsOrEmpty | backend/core/exceptions.py:23 | `details or {}`: `None` becomes `{}`, and a given dict is kept. |
| Exceptions.NewSchemaParsingError | backend/core/exceptions.py:37-39 | The error stores its message, its schema name, and its details or `{}`. |
| Exceptions.NewOpenAIServiceError | backend/core/exceptions.py:52-54 | The error stores its message, its API error, and its details or `{}`. |
| Exceptions.NewAPIGatewayError | backend/core/exceptions.py:68-71 | The error stores its message, URL and status code, and its details or `{}`. |
| Exceptions.NewValidationError | backend/core/exceptions.py:84-86 | The error stores its message; the field errors and the details default to `{}`. |
| Exceptions.CreateHttpException | backend/core/exceptions.py:105-112 | The detail has exactly the keys `error`, `message` and `details`. `error` is true, and `details` is the details or `{}`. |
| Exceptions.SchemaParsingMapping | backend/core/exceptions.py:125-129 | The error becomes a 422 with message "Schema parsing failed for <schema>: <message>". Its details are `schema_name` overlaid by the error's own. |
| Exceptions.OpenAIServiceMapping | backend/core/exceptions.py:142-146 | The error becomes a 503 with message "OpenAI service error: <message>". Its details are `api_error` overlaid by the error's own. |
| Exceptions.APIGatewayStatus | backend/core/exceptions.py:159-162 | A gateway error keeps a non-zero status of its own. It becomes a 502 when it has none or 0. The message is "External API error: <message>". |
| Exceptions.APIGatewayDetails | backend/core/exceptions.py:163 | Its details are `api_url` and `status_code` overlaid by the error's own. |
| Exceptions.ValidationMapping | backend/core/exceptions.py:177-181 | The error becomes a 400 with message "Validation error: <message>". Its details are `field_errors` overlaid by the error's own. |
| Exceptions.ValidationDefaults | backend/core/exceptions.py:84-86 | A validation error built without field errors reports `{}` for them. |
| ApiGateway.GatewayService.constructor | backend/services/api_gateway.py:50-53 | The service starts with the two default headers. |
| ApiGateway.GatewayService.PrepareHeaders | backend/services/api_gateway.py:84-86 | The loop that updates a copy of the defaults computes the defaults overlaid by the caller's headers. |
| ApiGateway.MergedHeadersLookup | backend/services/api_gateway.py:84-86 | A caller header wins on a collision. Every default stays a key, and a default the caller does not give keeps its value. |
| ApiGateway.MakeRequestDispatch | backend/services/api_gateway.py:154-167 | Verb, URL and headers pass through, and a request never has both parameters and a body. Empty data sends neither. A GET sends the data as parameters; other verbs send it as the body. |
| ApiGateway.ParseResponseDataCases | backend/services/api_gateway.py:212-225 | A content type holding `application/json` gives the decoded JSON, or the text when decoding fails. Otherwise one holding `text/` gives the text, and any other, or none, gives the base64 text. Letter case in the header value does not matter. |
| ApiGateway.DeliveredIsReturned | backend/services/api_gateway.py:100-106 | A response with acceptable data is returned whatever its status, with its status and headers kept. |
| ApiGateway.ForwardErrorsAreBadGateway | backend/services/api_gateway.py:111-131 | Every gateway error carries the URL and no status, so it becomes a 502. A timeout says how long it waited and records it in the details. Other transport errors say "Request failed: " or "Unexpected error: " before their text and record that text as `error`. Response data that fails validation gives "Unexpected error: 3 validation errors for APIResponse". |
| ApiGateway.GatewayService.ForwardRequest | backend/services/api_gateway.py:79-131 | The result is the outcome of sending, through the given network, the request built from the merged headers. |
| ApiGateway.AllowedMethodsRoundTrip | backend/services/api_gateway.py:263 | Rejoining the allowed methods with ", " gives the `Allow` header back, and no method contains ", ". An absent or empty header gives none. |
| ApiGateway.ApiInfoAgrees | backend/services/api_gateway.py:259-273 | `reachable` agrees with the below-500 reachability test of the same outcome. A failure reports no methods and no status. |
| OpenAI.ConfigurationError | backend/services/openai_service.py:53-57 | The service refuses a missing or empty key, with "OpenAI API key not configured" and the environment-variable detail. |
| OpenAI.OpenAIService.Create | backend/services/openai_service.py:51-63 | Starting fails exactly on a missing or empty key. Otherwise the service has the model and an empty store. |
| OpenAI.OpenAIService.constructor | backend/services/openai_service.py:59-63 | A new service has the given model and an empty store. |
| OpenAI.OpenAIService.GetConversationHistory | backend/services/openai_service.py:343 | The stored list for a known id, `[]` for an unknown one; the store is not changed. |
| OpenAI.OpenAIService.SaveConversationMessage | backend/services/openai_service.py:359-368 | The new store is the old one with the message saved. It fails exactly on an invalid role, with the role error. |
| OpenAI.OpenAIService.ClearConversation | backend/services/openai_service.py:377-378 | The new store is the old one with the id cleared. |
| OpenAI.SaveAppendsOne | backend/services/openai_service.py:359-368 | A valid save appends exactly that message to the end of the id's list, creating it if needed. No other id changes. |
| OpenAI.SaveInvalidRole | backend/services/openai_service.py:359-366 | An invalid role leaves a new id with an empty list and changes no list. |
| OpenAI.ClearRemovesOne | backend/services/openai_service.py:377-378 | Clearing removes the id and nothing else. |
| OpenAI.ClearIdempotent | backend/services/openai_service.py:377-378 | Clearing twice is clearing once. |
| OpenAI.ClearUndoesSave | backend/services/openai_service.py:359-378 | Clearing after a save gives the store cleared without the save. |
| OpenAI.SchemaFields | backend/services/openai_service.py:212 | Iterating `fields` fails exactly on a scalar, and a list gives its items. |
| OpenAI.OptionsText | backend/services/openai_service.py:219 | A list of strings gives them joined by ", ". A list with a non-string fails on the join. Only a list or a scalar can fail. |
| OpenAI.OpenAIService.DescribeField | backend/services/openai_service.py:213-219 | The line built piece by piece is the field's line. |
| OpenAI.OpenAIService.CollectFieldLines | backend/services/openai_service.py:211-220 | The loop gives the lines of all fields in order, or the first field's failure. |
| OpenAI.OpenAIService.FormatSchemaForPrompt | backend/services/openai_service.py:211-228 | The result is the schema description: model, description and field lines. |
| OpenAI.EmptySchemaDescription | backend/services/openai_service.py:222-228 | An empty schema renders "Unknown", "No description available" and no field lines. |
| OpenAI.FieldLineOfDefinition | backend/services/openai_service.py:212-220 | A normalised field renders as "- name (type)", then " *required*", ": description" and " Options: a, b", each only when present, in that order. |
| OpenAI.NormalisedSchemaRenders | backend/services/openai_service.py:211-228 | A form description from the normaliser always renders, one line per field in order. |
| OpenAI.OpenAIService.CreateSystemPrompt | backend/services/openai_service.py:178-199 | The result is the system prompt for the schema and the current data. |
| OpenAI.PromptTextParts | backend/services/openai_service.py:181-199 | The prompt opens with the fixed preamble, then the schema description, then the data text. It ends with the fixed instructions. |
| OpenAI.SystemPromptParts | backend/services/openai_service.py:178-179 | The prompt exists exactly when the schema renders. It shows the JSON of the current data only when that data is non-empty, and "No data filled yet" otherwise. |
| OpenAI.Turns | backend/services/openai_service.py:149-153 | One message per earlier turn, in order, with its role and content. |
| OpenAI.MessagesShape | backend/services/openai_service.py:144-161 | The list has two more entries than the history: the system prompt first, the turns in order, the user's message last. No other list has that shape. |
| OpenAI.OpenAIService.CollectMessages | backend/services/openai_service.py:146-161 | The loop builds exactly the message list around the system prompt. |
| OpenAI.OpenAIService.PrepareMessages | backend/services/openai_service.py:144-161 | The result is the message list for the turn, or the schema's rendering failure. |
| OpenAI.ResponseSchemaRequiresAll | backend/services/openai_service.py:240-262 | The answer schema is an object whose properties are exactly the four answer keys, in order, all of them required. |
| OpenAI.LaxBool | backend/services/openai_service.py:38 | Booleans pass. Only the integers 0 and 1 pass, as false and true. `None`, lists and dicts fail. |
| OpenAI.OptionalDict | backend/services/openai_service.py:37 | Only `None` and a dict pass, and a dict is kept. |
| OpenAI.ItemErrors | backend/services/openai_service.py:39 | There is one error per non-string item: none exactly when all items are strings. |
| OpenAI.StringList | backend/services/openai_service.py:39 | Accepted exactly when the value is a list of strings, which are returned. |
| OpenAI.ResponseDefaults | backend/services/openai_service.py:325-331 | An empty answer gives the default reply, no data, not complete and no questions. |
| OpenAI.ConformingResponseAccepted | backend/services/openai_service.py:325-331 | An answer of the requested shape is passed through unchanged. |
| OpenAI.OnlyResponseKeysMatter | backend/services/openai_service.py:325-331 | The result depends only on the four answer keys. |
| OpenAI.ResponseRejected | backend/services/openai_service.py:325-331 | The answer is rejected exactly when a value fails validation, and then the error list is not empty. |
| OpenAI.ChatFailureIsUnavailable | backend/services/openai_service.py:118-123 | A chat failure reaches the client as a 503 saying the chat failed, with the underlying text as `api_error`. |
| OpenAI.ChatErrorsAreFailures | backend/services/openai_service.py:118-123 | Every error of a chat turn is a chat failure wrapping its own text. |
| OpenAI.ChatFailuresAreUnavailable | backend/services/openai_service.py:118-123 | Every failed chat turn reaches the client as a 503 carrying the underlying text. |
| OpenAI.ChatPassesAnswerThrough | backend/services/openai_service.py:87-116 | With a renderable schema and a conforming answer, the turn returns the answer's reply, data, completeness and questions unchanged. |
| OpenAI.ChatRejectsNonObjectAnswer | backend/services/openai_service.py:108-123 | An answer that decodes to something other than an object fails the turn with "'<type>' object has no attribute 'get'", the text of `response.get` on it (lines 326-332). |
| OpenAI.OpenAIService.ProcessChat | backend/services/openai_service.py:87-123 | The method's result is the outcome of the turn: prompt, model call, validation, with every failure wrapped. |

## Left out

- Building a model class by executing its Python source, and pydantic's `model_json_schema`. The normaliser starts from the JSON schema; the `parse_schema` wrapper around both is not modelled.
- The text of the two example schemas: `GetExampleSchema` returns a tag for each.
- All HTTP I/O (the client, the requests, timeouts), the measured `execution_time`, and base64 encoding. The base64 text is a given reading of the response body.
- `test_api_connection`, which only repackages `forward_request`'s outcome.
- The `Unsupported HTTP method` branch of `_make_request`: `HttpMethod` has exactly five members, so it cannot be reached.
- ApiGateway.MakeRequestDispatch: the body is the JSON value to be serialised, not the serialised text.
- ApiGateway.ProcessResponse: the error keeps only the first line of pydantic's text ("3 validation errors for APIResponse"), not the per-member lines.
- ApiGateway.ProcessResponse: rejects only integers and booleans as response data. Floats are not modelled, because `Json` has no floating-point numbers.
- ApiGateway.Header: header lookup is case-insensitive only in that names are stored lower-case, as the HTTP client hands them over.
- The OpenAI client and its JSON decoding, `temperature` and `max_tokens`: the model is a `LanguageModel` parameter.
- OpenAI.OpenAIService.ProcessChat: takes the conversation id as a parameter instead of drawing a `uuid4`.
- OpenAI.OpenAIService.SaveConversationMessage: stamps messages with a given `now` instead of `datetime.now()`. It returns the validation errors instead of raising them.
- OpenAI.CurrentDataText: `json.dumps(..., indent=2)` is a function parameter.
- OpenAI.ValidationText: gives only the first line of pydantic's error text. OpenAI.PromptErrorText gives Python's exception texts for the supported cases only.
- Pydantic's per-item error details beyond the field name and message, and its coercions of floats.
- JsonValues.Repr: always quotes strings with `'` and copies their characters unchanged. Python's `repr` switches to `"` when a string holds `'` but no `"`, and escapes backslashes, the quote it uses, newlines, tabs and non-printable characters.
- Text.IsIdentifier and Text.Lower: cover ASCII only. Text.IsSpace follows Python's full whitespace set.
- The response models `SchemaParseResponse`, `ChatResponse`, `APIForwardResponse` and `ParsedSchema`: they hold data without validation.
- Settings other than `ALLOWED_ORIGINS`, `.env` loading, logging, FastAPI routing and the CORS middleware.
