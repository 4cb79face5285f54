/** The chat service: an in-memory store of conversations, the assembly of
    the prompt sent to the language model (system prompt describing the
    target form, the earlier turns, the user's message), and the validation
    of the model's structured answer into a chat result. The model itself
    is reached through a function parameter. */
module OpenAI {
  import opened Wrappers
  import opened Dicts
  import opened JsonValues
  import opened Text
  import opened Schemas
  import opened Exceptions

  // ---------------------------------------------------------------------
  // Configuration
  // ---------------------------------------------------------------------

  /** The error the service refuses to start with when the API key is
      missing or empty. */
  function ConfigurationError(apiKey: Option<string>): (r: Option<OpenAIServiceError>)
    ensures r.None? <==> apiKey.Some? && apiKey.value != ""
    ensures r.Some? ==> r.value.message == "OpenAI API key not configured" && r.value.apiError.None?
    ensures r.Some? ==> Lookup(r.value.details, "error") == Some(JStr("OPENAI_API_KEY environment variable not set"))
  {
    if apiKey.None? || apiKey.value == "" then
      Some(NewOpenAIServiceError("OpenAI API key not configured",
        details := Some([("error", JStr("OPENAI_API_KEY environment variable not set"))])))
    else None
  }

  // ---------------------------------------------------------------------
  // Conversation store
  // ---------------------------------------------------------------------

  /** Conversation id to the messages of that conversation, oldest first. */
  type Store = map<string, seq<ConversationMessage>>

  /** `conversations.get(id, [])`. */
  function HistoryOf(store: Store, id: string): seq<ConversationMessage>
  {
    if id in store then store[id] else []
  }

  /** The store after saving a message: the id gets an empty list first if it
      has none, then the message is built (which fails on an invalid role)
      and appended. */
  function Saved(store: Store, id: string, role: string, content: string, now: Timestamp): Store
  {
    var created := if id in store then store else store[id := []];
    match NewConversationMessage(role, content, now)
    case Ok(m) => created[id := created[id] + [m]]
    case Err(_) => created
  }

  /** The store after clearing a conversation: the id is removed if present. */
  function Cleared(store: Store, id: string): Store
  {
    if id in store then store - {id} else store
  }

  /** Saving with a valid role appends exactly that one message to the end of
      the conversation, creating it if needed; no other conversation
      changes. */
  lemma SaveAppendsOne(store: Store, id: string, role: string, content: string, now: Timestamp)
    requires role == "user" || role == "assistant"
    ensures HistoryOf(Saved(store, id, role, content, now), id) == HistoryOf(store, id) + [ConversationMessage(role, content, now)]
    ensures Saved(store, id, role, content, now).Keys == store.Keys + {id}
    ensures forall other :: other != id ==> HistoryOf(Saved(store, id, role, content, now), other) == HistoryOf(store, other)
  {
  }

  /** Saving with an invalid role fails after the conversation has been
      created: an unknown id is left with an empty conversation, a known one
      is unchanged. */
  lemma SaveInvalidRole(store: Store, id: string, role: string, content: string, now: Timestamp)
    requires role != "user" && role != "assistant"
    ensures Saved(store, id, role, content, now).Keys == store.Keys + {id}
    ensures forall k :: HistoryOf(Saved(store, id, role, content, now), k) == HistoryOf(store, k)
  {
  }

  /** Clearing removes the conversation and nothing else. */
  lemma ClearRemovesOne(store: Store, id: string)
    ensures id !in Cleared(store, id)
    ensures HistoryOf(Cleared(store, id), id) == []
    ensures Cleared(store, id).Keys == store.Keys - {id}
    ensures forall other :: other != id ==> HistoryOf(Cleared(store, id), other) == HistoryOf(store, other)
  {
  }

  /** Clearing twice is clearing once. */
  lemma ClearIdempotent(store: Store, id: string)
    ensures Cleared(Cleared(store, id), id) == Cleared(store, id)
  {
  }

  /** Whatever was saved to a conversation, clearing it afterwards gives the
      store cleared without the save. */
  lemma ClearUndoesSave(store: Store, id: string, role: string, content: string, now: Timestamp)
    ensures Cleared(Saved(store, id, role, content, now), id) == Cleared(store, id)
  {
    var s := Saved(store, id, role, content, now);
    assert (s - {id}).Keys == Cleared(store, id).Keys;
  }

  // ---------------------------------------------------------------------
  // Rendering the target schema for the prompt
  // ---------------------------------------------------------------------

  /** The Python type name of a decoded JSON value. */
  function TypeName(j: Json): string
  {
    match j
    case JNull => "NoneType"
    case JBool(_) => "bool"
    case JInt(_) => "int"
    case JStr(_) => "str"
    case JArr(_) => "list"
    case JObj(_) => "dict"
  }

  /** The ways rendering a schema can raise. */
  datatype PromptError =
    | NotSubscriptable(field: Json)            // `field['name']` on a field that is not a dict
    | MissingKey(key: string)                  // `field['name']` or `field['type']` absent
    | NotIterable(fields: Json)                // `for field in ...` over a scalar
    | JoinNonString(index: nat, item: Json)    // `', '.join(options)` meets a non-string
    | JoinNonIterable(options: Json)           // `', '.join(options)` over a scalar

  /** The text `str(e)` gives for each error. */
  function PromptErrorText(e: PromptError): string
  {
    match e
    case NotSubscriptable(f) =>
      if f.JStr? then "string indices must be integers, not 'str'"
      else if f.JArr? then "list indices must be integers or slices, not str"
      else "'" + TypeName(f) + "' object is not subscriptable"
    case MissingKey(k) => "'" + k + "'"
    case NotIterable(f) => "'" + TypeName(f) + "' object is not iterable"
    case JoinNonString(i, item) => "sequence item " + NatToString(i) + ": expected str instance, " + TypeName(item) + " found"
    case JoinNonIterable(_) => "can only join an iterable"
  }

  /** Iterating a decoded JSON value: a list gives its items, a dict its keys,
      a string its characters. */
  function SchemaFields(fields: Json): (r: Result<seq<Json>, PromptError>)
    ensures r.Err? <==> !(fields.JArr? || fields.JObj? || fields.JStr?)
    ensures fields.JArr? ==> r == Ok(fields.items)
  {
    match fields
    case JArr(items) => Ok(items)
    case JObj(ms) => Ok(FromStrings(Keys(ms)))
    case JStr(s) => Ok(seq(|s|, i requires 0 <= i < |s| => JStr([s[i]])))
    case _ => Err(NotIterable(fields))
  }

  /** The index of the first item that is not a string. */
  function FirstNonString(items: seq<Json>): (i: nat)
    requires !AllStrings(items)
    ensures i < |items| && !items[i].JStr?
    ensures forall j :: 0 <= j < i ==> items[j].JStr?
  {
    if !items[0].JStr? then 0 else 1 + FirstNonString(items[1..])
  }

  /** `', '.join(options)`. */
  function OptionsText(options: Json): (r: Result<string, PromptError>)
    ensures options.JArr? && AllStrings(options.items) ==> r == Ok(Join(Strings(options.items), ", "))
    ensures options.JArr? && !AllStrings(options.items) ==> r.Err? && r.error.JoinNonString?
    ensures r.Err? ==> options.JArr? || options.JNull? || options.JBool? || options.JInt?
  {
    match options
    case JArr(items) =>
      if AllStrings(items) then Ok(Join(Strings(items), ", "))
      else
        var i := FirstNonString(items);
        Err(JoinNonString(i, items[i]))
    case JStr(s) => Ok(Join(seq(|s|, i requires 0 <= i < |s| => [s[i]]), ", "))
    case JObj(ms) => Ok(Join(Keys(ms), ", "))
    case _ => Err(JoinNonIterable(options))
  }

  /** The line describing one field from its name, type, required flag,
      description and options: the name and type, then a required marker, the
      description and the options, each only when truthy. */
  function RenderField(name: Json, fieldType: Json, required: Json, description: Json, options: Json): Result<string, PromptError>
  {
    var head := "- " + PyStr(name) + " (" + PyStr(fieldType) + ")";
    var marked := if Truthy(required) then head + " *required*" else head;
    var described := if Truthy(description) then marked + (": " + PyStr(description)) else marked;
    if Truthy(options) then
      match OptionsText(options)
      case Err(e) => Err(e)
      case Ok(t) => Ok(described + (" Options: " + t))
    else Ok(described)
  }

  /** The line describing one field of the schema; the field must be a dict
      with a name and a type. */
  function FieldLine(field: Json): Result<string, PromptError>
  {
    if !field.JObj? then Err(NotSubscriptable(field))
    else
      var ms := field.members;
      if Lookup(ms, "name").None? then Err(MissingKey("name"))
      else if Lookup(ms, "type").None? then Err(MissingKey("type"))
      else RenderField(Get(ms, "name"), Get(ms, "type"), Get(ms, "required"), Get(ms, "description"), Get(ms, "options"))
  }

  /** The lines of all fields, in order; the first field that cannot be
      rendered decides the error. */
  function FieldLines(fields: seq<Json>): Result<seq<string>, PromptError>
  {
    MapAll(FieldLine, fields)
  }

  /** The schema description around the field lines. */
  function Describe(targetSchema: Dict<Json>, lines: seq<string>): string
  {
    "\nModel: " + PyStr(GetOr(targetSchema, "model_name", JStr("Unknown")))
    + "\nDescription: " + PyStr(GetOr(targetSchema, "description", JStr("No description available")))
    + "\n\nFields:\n" + Join(lines, "\n") + "\n"
  }

  /** The schema description put into the system prompt. */
  function SchemaDescription(targetSchema: Dict<Json>): Result<string, PromptError>
  {
    match SchemaFields(GetOr(targetSchema, "fields", JArr([])))
    case Err(e) => Err(e)
    case Ok(fields) =>
      match FieldLines(fields)
      case Err(e) => Err(e)
      case Ok(lines) => Ok(Describe(targetSchema, lines))
  }

  /** A schema without fields renders its name and description over an empty
      field list; missing ones read "Unknown" and "No description
      available". */
  lemma EmptySchemaDescription()
    ensures SchemaDescription([]) == Ok("\nModel: " + "Unknown" + "\nDescription: " + "No description available" + "\n\nFields:\n" + "\n")
  {
    assert FieldLines([]) == Ok([]);
    assert GetOr([], "fields", JArr([])) == JArr([]);
    assert SchemaFields(JArr([])) == Ok([]);
    assert GetOr([], "model_name", JStr("Unknown")) == JStr("Unknown");
    assert PyStr(JStr("Unknown")) == "Unknown";
    assert Join([], "\n") == "";
    var prefix := "\nModel: " + "Unknown" + "\nDescription: " + "No description available" + "\n\nFields:\n";
    assert prefix + Join([], "\n") == prefix;
    assert SchemaDescription([]) == Ok(Describe([], []));
  }

  /** The line the prompt shows for a field definition the schema normaliser
      produced. */
  function DefinitionLine(f: FieldDefinition): string
  {
    var head := "- " + f.name + " (" + f.fieldType + ")";
    var marked := if f.required then head + " *required*" else head;
    var described := if f.description.Some? && f.description.value != "" then marked + (": " + f.description.value) else marked;
    if f.options.Some? && f.options.value != [] then described + (" Options: " + Join(f.options.value, ", ")) else described
  }

  function DefinitionLines(fs: seq<FieldDefinition>): seq<string>
  {
    seq(|fs|, i requires 0 <= i < |fs| => DefinitionLine(fs[i]))
  }

  lemma StringsOfStrings(ss: seq<string>)
    ensures AllStrings(FromStrings(ss)) && Strings(FromStrings(ss)) == ss
  {
  }

  /** A field definition renders from its own name, type, required flag,
      description and options. */
  lemma FieldLineOfEntries(f: FieldDefinition)
    ensures FieldLine(FieldToJson(f))
         == RenderField(JStr(f.name), JStr(f.fieldType), JBool(f.required), OptionToJson(f.description),
                        match f.options case None => JNull case Some(os) => JArr(FromStrings(os)))
  {
    FieldKeysLookup(FieldToJson(f).members);
  }

  /** The values of a field definition render as its line. */
  lemma RenderDefinition(f: FieldDefinition)
    ensures RenderField(JStr(f.name), JStr(f.fieldType), JBool(f.required), OptionToJson(f.description),
                        match f.options case None => JNull case Some(os) => JArr(FromStrings(os)))
         == Ok(DefinitionLine(f))
  {
    assert PyStr(JStr(f.name)) == f.name && PyStr(JStr(f.fieldType)) == f.fieldType;
    if f.options.Some? {
      StringsOfStrings(f.options.value);
    }
  }

  /** Every field definition the normaliser produces renders: its name and
      type, the required marker when required, its description and options
      when non-empty. */
  lemma FieldLineOfDefinition(f: FieldDefinition)
    ensures FieldLine(FieldToJson(f)) == Ok(DefinitionLine(f))
  {
    FieldLineOfEntries(f);
    RenderDefinition(f);
  }

  /** A form description the normaliser produces always renders, one line per
      field in order; its model name is shown as is and its description as
      Python prints it (`None` when the schema had none). */
  lemma {:induction false} NormalisedSchemaRenders(s: UiSchema)
    ensures SchemaDescription(UiSchemaToJson(s).members)
         == Ok("\nModel: " + s.modelName + "\nDescription: " + PyStr(s.description) + "\n\nFields:\n"
               + Join(DefinitionLines(s.fields), "\n") + "\n")
  {
    var ms := UiSchemaToJson(s).members;
    var fs := s.fields;
    var items := seq(|fs|, i requires 0 <= i < |fs| => FieldToJson(fs[i]));
    var expected := DefinitionLines(fs);
    UiSchemaToJsonEntries(s);
    assert GetOr(ms, "fields", JArr([])) == JArr(items);
    assert PyStr(GetOr(ms, "model_name", JStr("Unknown"))) == s.modelName;
    forall i | 0 <= i < |items|
      ensures FieldLine(items[i]) == Ok(expected[i])
    {
      FieldLineOfDefinition(fs[i]);
    }
    var r := FieldLines(items);
    assert r.Ok?;
    assert r.value == expected;
    assert SchemaFields(JArr(items)) == Ok(items);
    assert SchemaDescription(ms) == Ok(Describe(ms, expected));
    assert GetOr(ms, "description", JStr("No description available")) == s.description;
  }

  // ---------------------------------------------------------------------
  // System prompt and message list
  // ---------------------------------------------------------------------

  const PROMPT_HEAD := "You are a helpful assistant that extracts structured data from user conversations.\n\nYour task is to help the user fill out a form with the following structure:\n"
  const PROMPT_DATA := "\n\nCurrent form data:\n"
  const PROMPT_INSTRUCTIONS := "\n\nInstructions:\n"
    + "1. Extract any relevant information from the user's message\n"
    + "2. Ask follow-up questions for missing required fields\n"
    + "3. Be conversational and helpful\n"
    + "4. Only ask for one or two pieces of information at a time\n"
    + "5. Validate data types (e.g., emails should be valid email addresses)\n"
    + "6. For enum fields, present the available options clearly\n"
    + "7. Return the updated structured data in your response\n"
    + "\nIf the user provides information that doesn't match the expected format, politely explain what format is needed.\n"
  const NO_DATA := "No data filled yet"

  /** The current form data as the prompt shows it: its JSON text when there
      is some, a fixed sentence otherwise. */
  function CurrentDataText(currentData: Option<Dict<Json>>, dumps: Dict<Json> -> string): string
  {
    if currentData.Some? && currentData.value != [] then dumps(currentData.value) else NO_DATA
  }

  /** The system prompt around a schema description and a data text. */
  function PromptText(description: string, dataText: string): string
  {
    PROMPT_HEAD + description + PROMPT_DATA + dataText + PROMPT_INSTRUCTIONS
  }

  function SystemPrompt(targetSchema: Dict<Json>, currentData: Option<Dict<Json>>, dumps: Dict<Json> -> string): Result<string, PromptError>
  {
    match SchemaDescription(targetSchema)
    case Err(e) => Err(e)
    case Ok(d) => Ok(PromptText(d, CurrentDataText(currentData, dumps)))
  }

  /** Each of five concatenated pieces is found again at its offset. */
  lemma FiveParts<T>(a: seq<T>, b: seq<T>, c: seq<T>, d: seq<T>, e: seq<T>)
    ensures var p := a + b + c + d + e;
      && p[..|a|] == a
      && p[|a|..|a| + |b|] == b
      && p[|a| + |b| + |c|..|a| + |b| + |c| + |d|] == d
      && p[|p| - |e|..] == e
  {
    var p := a + b + c + d + e;
    assert p == a + (b + (c + (d + e)));
    var q := a + b + c;
    assert p == q + d + e;
    assert p[|q|..|q| + |d|] == d;
  }

  /** The prompt holds the schema description after the fixed opening, then
      the data text, and ends with the fixed instructions. */
  lemma PromptTextParts(description: string, dataText: string)
    ensures var p, start := PromptText(description, dataText), |PROMPT_HEAD| + |description| + |PROMPT_DATA|;
      && p[..|PROMPT_HEAD|] == PROMPT_HEAD
      && p[|PROMPT_HEAD|..|PROMPT_HEAD| + |description|] == description
      && p[start..start + |dataText|] == dataText
      && p[|p| - |PROMPT_INSTRUCTIONS|..] == PROMPT_INSTRUCTIONS
  {
    FiveParts(PROMPT_HEAD, description, PROMPT_DATA, dataText, PROMPT_INSTRUCTIONS);
  }

  /** The system prompt exists exactly when the schema renders; it holds the
      schema description after the fixed opening, then the current data,
      which is the JSON text of the data only when there is some. */
  lemma SystemPromptParts(targetSchema: Dict<Json>, currentData: Option<Dict<Json>>, dumps: Dict<Json> -> string)
    ensures SystemPrompt(targetSchema, currentData, dumps).Ok? <==> SchemaDescription(targetSchema).Ok?
    ensures SystemPrompt(targetSchema, currentData, dumps).Ok? ==>
      var d := SchemaDescription(targetSchema).value;
      && (currentData.None? || currentData.value == [] ==>
            SystemPrompt(targetSchema, currentData, dumps).value == PromptText(d, NO_DATA))
      && (currentData.Some? && currentData.value != [] ==>
            SystemPrompt(targetSchema, currentData, dumps).value == PromptText(d, dumps(currentData.value)))
  {
  }

  /** One entry of the message list sent to the model. */
  datatype PromptMessage = PromptMessage(role: string, content: string)

  /** The earlier turns as messages, with their role and content. */
  function Turns(history: seq<ConversationMessage>): (ms: seq<PromptMessage>)
    ensures |ms| == |history|
    ensures forall i :: 0 <= i < |history| ==> ms[i] == PromptMessage(history[i].role, history[i].content)
  {
    if history == [] then []
    else
      var n := |history| - 1;
      Turns(history[..n]) + [PromptMessage(history[n].role, history[n].content)]
  }

  /** The message list around a system prompt: the system prompt, the
      earlier turns, the user's message. */
  function Messages(systemPrompt: string, history: seq<ConversationMessage>, userMessage: string): seq<PromptMessage>
  {
    [PromptMessage("system", systemPrompt)] + Turns(history) + [PromptMessage("user", userMessage)]
  }

  /** There are two messages more than earlier turns: the system prompt first,
      the turns in order with their role and content, the user's message
      last; and nothing else is a list of that shape. */
  lemma MessagesShape(systemPrompt: string, history: seq<ConversationMessage>, userMessage: string, ms: seq<PromptMessage>)
    ensures ms == Messages(systemPrompt, history, userMessage) <==>
      && |ms| == |history| + 2
      && ms[0] == PromptMessage("system", systemPrompt)
      && (forall i :: 0 <= i < |history| ==> ms[i + 1] == PromptMessage(history[i].role, history[i].content))
      && ms[|ms| - 1] == PromptMessage("user", userMessage)
  {
    var expected := Messages(systemPrompt, history, userMessage);
    MessagesIndices(systemPrompt, history, userMessage);
    if |ms| == |history| + 2 && ms[0] == PromptMessage("system", systemPrompt)
       && (forall i :: 0 <= i < |history| ==> ms[i + 1] == PromptMessage(history[i].role, history[i].content))
       && ms[|ms| - 1] == PromptMessage("user", userMessage) {
      forall k | 0 <= k < |ms|
        ensures ms[k] == expected[k]
      {
        if 0 < k < |ms| - 1 {
          assert ms[(k - 1) + 1] == expected[(k - 1) + 1];
        }
      }
    }
  }

  lemma MessagesIndices(systemPrompt: string, history: seq<ConversationMessage>, userMessage: string)
    ensures var ms := Messages(systemPrompt, history, userMessage);
      && |ms| == |history| + 2
      && ms[0] == PromptMessage("system", systemPrompt)
      && (forall i :: 0 <= i < |history| ==> ms[i + 1] == PromptMessage(history[i].role, history[i].content))
      && ms[|ms| - 1] == PromptMessage("user", userMessage)
  {
    var turns := Turns(history);
    var ms := Messages(systemPrompt, history, userMessage);
    forall i | 0 <= i < |history|
      ensures ms[i + 1] == turns[i]
    {
    }
  }

  /** The message list sent for a chat turn. */
  function PreparedMessages(
    userMessage: string,
    targetSchema: Dict<Json>,
    history: seq<ConversationMessage>,
    currentData: Option<Dict<Json>>,
    dumps: Dict<Json> -> string): Result<seq<PromptMessage>, PromptError>
  {
    match SystemPrompt(targetSchema, currentData, dumps)
    case Err(e) => Err(e)
    case Ok(p) => Ok(Messages(p, history, userMessage))
  }

  // ---------------------------------------------------------------------
  // The model's answer
  // ---------------------------------------------------------------------

  /** The keys of the structured answer the model is asked for. */
  const RESPONSE_KEYS := ["message", "extracted_data", "is_complete", "follow_up_questions"]

  /** The JSON schema of the structured answer. */
  const RESPONSE_SCHEMA: Dict<Json> := [
    ("type", JStr("object")),
    ("properties", JObj([
      ("message", JObj([("type", JStr("string")), ("description", JStr("Conversational response to the user"))])),
      ("extracted_data", JObj([("type", JStr("object")), ("description", JStr("Extracted structured data from the conversation"))])),
      ("is_complete", JObj([("type", JStr("boolean")), ("description", JStr("Whether all required fields have been filled"))])),
      ("follow_up_questions", JObj([("type", JStr("array")), ("items", JObj([("type", JStr("string"))])),
                                    ("description", JStr("Questions to ask for missing information"))]))])),
    ("required", JArr([JStr("message"), JStr("extracted_data"), JStr("is_complete"), JStr("follow_up_questions")]))]

  /** The answer schema does not depend on the target schema. */
  function CreateResponseSchema(targetSchema: Dict<Json>): Dict<Json>
  {
    RESPONSE_SCHEMA
  }

  /** The answer schema describes an object whose properties are exactly the
      response keys, in order, and requires every one of them. */
  lemma ResponseSchemaRequiresAll()
    ensures Get(RESPONSE_SCHEMA, "type") == JStr("object")
    ensures Get(RESPONSE_SCHEMA, "properties").JObj?
    ensures Keys(Get(RESPONSE_SCHEMA, "properties").members) == RESPONSE_KEYS
    ensures Get(RESPONSE_SCHEMA, "required") == JArr(FromStrings(RESPONSE_KEYS))
  {
    var s := RESPONSE_SCHEMA;
    assert s[0].0 == "type" && s[1].0 == "properties" && s[2].0 == "required";
    LookupFirst(s, 0);
    LookupFirst(s, 1);
    LookupFirst(s, 2);
    assert Keys(s[1].1.members) == RESPONSE_KEYS;
    assert FromStrings(RESPONSE_KEYS) == [JStr("message"), JStr("extracted_data"), JStr("is_complete"), JStr("follow_up_questions")];
  }

  datatype ChatResult = ChatResult(
    message: string,
    structuredData: Option<Dict<Json>>,
    isComplete: bool,
    followUpQuestions: seq<string>,
    conversationId: string)

  const DEFAULT_REPLY := "I'm here to help you fill out the form."

  /** Validation of a `bool` field in lax mode: booleans, the integers 0 and 1
      and the usual yes/no words in any case. */
  function LaxBool(j: Json): (r: Result<bool, string>)
    ensures j.JBool? ==> r == Ok(j.b)
    ensures j.JInt? ==> (r.Ok? <==> j.i == 0 || j.i == 1) && (r.Ok? ==> r.value == (j.i == 1))
    ensures j.JNull? || j.JArr? || j.JObj? ==> r.Err?
  {
    match j
    case JBool(b) => Ok(b)
    case JInt(i) =>
      if i == 0 then Ok(false) else if i == 1 then Ok(true)
      else Err("Input should be a valid boolean, unable to interpret input")
    case JStr(s) =>
      if Lower(s) in ["0", "off", "f", "false", "n", "no"] then Ok(false)
      else if Lower(s) in ["1", "on", "t", "true", "y", "yes"] then Ok(true)
      else Err("Input should be a valid boolean, unable to interpret input")
    case _ => Err("Input should be a valid boolean")
  }

  /** Validation of an `Optional[Dict[str, Any]]` field. */
  function OptionalDict(j: Json): (r: Result<Option<Dict<Json>>, string>)
    ensures r.Ok? <==> j.JNull? || j.JObj?
    ensures j.JObj? ==> r == Ok(Some(j.members))
  {
    match j
    case JNull => Ok(None)
    case JObj(ms) => Ok(Some(ms))
    case _ => Err("Input should be a valid dictionary")
  }

  /** One error per list item that is not a string, located by its index. */
  function ItemErrors(field: string, items: seq<Json>): (r: FieldErrors)
    ensures r == [] <==> AllStrings(items)
    ensures |r| <= |items|
  {
    if items == [] then []
    else
      var n := |items| - 1;
      ItemErrors(field, items[..n])
      + (if items[n].JStr? then [] else [(field + "." + NatToString(n), "Input should be a valid string")])
  }

  /** Validation of a `List[str]` field. */
  function StringList(field: string, j: Json): (r: Result<seq<string>, FieldErrors>)
    ensures r.Ok? <==> j.JArr? && AllStrings(j.items)
    ensures r.Ok? ==> r.value == Strings(j.items)
  {
    if !j.JArr? then Err([(field, "Input should be a valid list")])
    else if AllStrings(j.items) then Ok(Strings(j.items))
    else Err(ItemErrors(field, j.items))
  }

  function ListErrors<T>(r: Result<T, FieldErrors>): (errors: FieldErrors)
    ensures errors == [] <== r.Ok?
  {
    if r.Ok? then [] else r.error
  }

  /** `ChatResult(...)` built from the model's answer: each key falls back to
      its default when absent, and each value must validate. */
  function ProcessOpenAIResponse(response: Dict<Json>, conversationId: string): (r: Result<ChatResult, FieldErrors>)
  {
    var message := StringCheck(GetOr(response, "message", JStr(DEFAULT_REPLY)));
    var data := OptionalDict(Get(response, "extracted_data"));
    var complete := LaxBool(GetOr(response, "is_complete", JBool(false)));
    var questions := StringList("follow_up_questions", GetOr(response, "follow_up_questions", JArr([])));
    var errors := FieldError("message", message) + FieldError("structured_data", data)
                + FieldError("is_complete", complete) + ListErrors(questions);
    if message.Ok? && data.Ok? && complete.Ok? && questions.Ok? then
      Ok(ChatResult(message.value, data.value, complete.value, questions.value, conversationId))
    else
      Err(errors)
  }

  /** An empty answer gives the default reply, no data, not complete, no
      questions. */
  lemma ResponseDefaults(conversationId: string)
    ensures ProcessOpenAIResponse([], conversationId) == Ok(ChatResult(DEFAULT_REPLY, None, false, [], conversationId))
  {
    assert Strings([]) == [];
  }

  /** An answer of the shape the answer schema asks for is passed through as
      it is: nothing is merged with earlier data or checked for
      completeness. */
  predicate Conforming(response: Dict<Json>)
  {
    && Lookup(response, "message").Some? && Lookup(response, "message").value.JStr?
    && Lookup(response, "extracted_data").Some? && Lookup(response, "extracted_data").value.JObj?
    && Lookup(response, "is_complete").Some? && Lookup(response, "is_complete").value.JBool?
    && Lookup(response, "follow_up_questions").Some? && Lookup(response, "follow_up_questions").value.JArr?
    && AllStrings(Lookup(response, "follow_up_questions").value.items)
  }

  lemma ConformingResponseAccepted(response: Dict<Json>, conversationId: string)
    requires Conforming(response)
    ensures ProcessOpenAIResponse(response, conversationId)
         == Ok(ChatResult(Lookup(response, "message").value.s,
                          Some(Lookup(response, "extracted_data").value.members),
                          Lookup(response, "is_complete").value.b,
                          Strings(Lookup(response, "follow_up_questions").value.items),
                          conversationId))
  {
  }

  /** The result depends on the answer's four schema keys only: two answers
      that agree on them give the same result. */
  lemma OnlyResponseKeysMatter(a: Dict<Json>, b: Dict<Json>, conversationId: string)
    requires forall k :: k in RESPONSE_KEYS ==> Lookup(a, k) == Lookup(b, k)
    ensures ProcessOpenAIResponse(a, conversationId) == ProcessOpenAIResponse(b, conversationId)
  {
    assert Lookup(a, "message") == Lookup(b, "message");
    assert Lookup(a, "extracted_data") == Lookup(b, "extracted_data");
    assert Lookup(a, "is_complete") == Lookup(b, "is_complete");
    assert Lookup(a, "follow_up_questions") == Lookup(b, "follow_up_questions");
  }

  /** An answer is rejected exactly when one of its present values fails
      validation, and then every error names a field of the result. */
  lemma ResponseRejected(response: Dict<Json>, conversationId: string)
    ensures ProcessOpenAIResponse(response, conversationId).Err? <==>
      || !GetOr(response, "message", JStr(DEFAULT_REPLY)).JStr?
      || OptionalDict(Get(response, "extracted_data")).Err?
      || LaxBool(GetOr(response, "is_complete", JBool(false))).Err?
      || StringList("follow_up_questions", GetOr(response, "follow_up_questions", JArr([]))).Err?
    ensures ProcessOpenAIResponse(response, conversationId).Err? ==>
      ProcessOpenAIResponse(response, conversationId).error != []
  {
  }

  // ---------------------------------------------------------------------
  // Processing a chat turn
  // ---------------------------------------------------------------------

  /** Every failure of a chat turn is reported as a service error wrapping the
      underlying text. */
  function ChatFailure(text: string): (e: OpenAIServiceError)
  {
    NewOpenAIServiceError("Failed to process chat: " + text, Some(text))
  }

  /** The first line of a validation error's text. */
  function ValidationText(errors: FieldErrors): string
  {
    NatToString(|errors|) + " validation error" + (if |errors| == 1 then "" else "s") + " for ChatResult"
  }

  /** The language model: given the model name, the messages and the answer
      schema, it answers with a decoded JSON value or fails with a text. */
  type LanguageModel = (string, seq<PromptMessage>, Dict<Json>) -> Result<Json, string>

  /** The text of the error `response.get(...)` raises on a decoded answer
      that is not an object. */
  function NoGetText(response: Json): string
  {
    "'" + TypeName(response) + "' object has no attribute 'get'"
  }

  /** The outcome of one chat turn. */
  function ChatOutcome(
    model: string,
    userMessage: string,
    targetSchema: Dict<Json>,
    conversationHistory: Option<seq<ConversationMessage>>,
    currentData: Option<Dict<Json>>,
    conversationId: string,
    dumps: Dict<Json> -> string,
    callModel: LanguageModel): Result<ChatResult, OpenAIServiceError>
  {
    match PreparedMessages(userMessage, targetSchema, conversationHistory.GetOr([]), currentData, dumps)
    case Err(e) => Err(ChatFailure(PromptErrorText(e)))
    case Ok(messages) =>
      match callModel(model, messages, CreateResponseSchema(targetSchema))
      case Err(t) => Err(ChatFailure("OpenAI API call failed: " + t))
      case Ok(response) =>
        if !response.JObj? then Err(ChatFailure(NoGetText(response)))
        else
          match ProcessOpenAIResponse(response.members, conversationId)
          case Err(errors) => Err(ChatFailure(ValidationText(errors)))
          case Ok(result) => Ok(result)
  }

  /** A chat failure reaches the client as a 503 whose message says the chat
      failed and whose details carry the underlying text. */
  lemma ChatFailureIsUnavailable(text: string)
    ensures OpenAIServiceHttpException(ChatFailure(text)).statusCode == 503
    ensures SentMessage(OpenAIServiceHttpException(ChatFailure(text)))
         == "OpenAI service error: " + ("Failed to process chat: " + text)
    ensures Lookup(SentDetails(OpenAIServiceHttpException(ChatFailure(text))), "api_error") == Some(JStr(text))
  {
    var e := ChatFailure(text);
    assert e.details == [] && e.apiError == Some(text);
    OpenAIServiceMapping(e, "api_error");
  }

  /** Every error of a chat turn is a chat failure wrapping its own text. */
  lemma ChatErrorsAreFailures(
    model: string,
    userMessage: string,
    targetSchema: Dict<Json>,
    conversationHistory: Option<seq<ConversationMessage>>,
    currentData: Option<Dict<Json>>,
    conversationId: string,
    dumps: Dict<Json> -> string,
    callModel: LanguageModel)
    requires ChatOutcome(model, userMessage, targetSchema, conversationHistory, currentData, conversationId, dumps, callModel).Err?
    ensures var e := ChatOutcome(model, userMessage, targetSchema, conversationHistory, currentData, conversationId, dumps, callModel).error;
      e.apiError.Some? && e == ChatFailure(e.apiError.value)
  {
  }

  /** Every failed chat turn reaches the client as a 503 whose message says
      the chat failed and whose details carry the underlying text. */
  lemma ChatFailuresAreUnavailable(
    model: string,
    userMessage: string,
    targetSchema: Dict<Json>,
    conversationHistory: Option<seq<ConversationMessage>>,
    currentData: Option<Dict<Json>>,
    conversationId: string,
    dumps: Dict<Json> -> string,
    callModel: LanguageModel)
    requires ChatOutcome(model, userMessage, targetSchema, conversationHistory, currentData, conversationId, dumps, callModel).Err?
    ensures var e := ChatOutcome(model, userMessage, targetSchema, conversationHistory, currentData, conversationId, dumps, callModel).error;
      && OpenAIServiceHttpException(e).statusCode == 503
      && e.apiError.Some?
      && SentMessage(OpenAIServiceHttpException(e)) == "OpenAI service error: " + ("Failed to process chat: " + e.apiError.value)
      && Lookup(SentDetails(OpenAIServiceHttpException(e)), "api_error") == Some(JStr(e.apiError.value))
  {
    ChatErrorsAreFailures(model, userMessage, targetSchema, conversationHistory, currentData, conversationId, dumps, callModel);
    var e := ChatOutcome(model, userMessage, targetSchema, conversationHistory, currentData, conversationId, dumps, callModel).error;
    ChatFailureIsUnavailable(e.apiError.value);
  }

  /** A turn whose prompt renders and whose answer conforms returns the
      model's reply, data, completeness and questions unchanged. */
  lemma ChatPassesAnswerThrough(
    model: string,
    userMessage: string,
    targetSchema: Dict<Json>,
    conversationHistory: Option<seq<ConversationMessage>>,
    currentData: Option<Dict<Json>>,
    conversationId: string,
    dumps: Dict<Json> -> string,
    callModel: LanguageModel)
    requires SchemaDescription(targetSchema).Ok?
    requires var messages := PreparedMessages(userMessage, targetSchema, conversationHistory.GetOr([]), currentData, dumps).value;
      callModel(model, messages, RESPONSE_SCHEMA).Ok? && callModel(model, messages, RESPONSE_SCHEMA).value.JObj?
      && Conforming(callModel(model, messages, RESPONSE_SCHEMA).value.members)
    ensures var messages := PreparedMessages(userMessage, targetSchema, conversationHistory.GetOr([]), currentData, dumps).value;
      var response := callModel(model, messages, RESPONSE_SCHEMA).value.members;
      ChatOutcome(model, userMessage, targetSchema, conversationHistory, currentData, conversationId, dumps, callModel)
      == Ok(ChatResult(Lookup(response, "message").value.s,
                       Some(Lookup(response, "extracted_data").value.members),
                       Lookup(response, "is_complete").value.b,
                       Strings(Lookup(response, "follow_up_questions").value.items),
                       conversationId))
  {
    var messages := PreparedMessages(userMessage, targetSchema, conversationHistory.GetOr([]), currentData, dumps).value;
    ConformingResponseAccepted(callModel(model, messages, RESPONSE_SCHEMA).value.members, conversationId);
  }

  /** A turn whose answer decodes to something other than an object fails
      with the text of the `AttributeError` that `response.get` raises. */
  lemma ChatRejectsNonObjectAnswer(
    model: string,
    userMessage: string,
    targetSchema: Dict<Json>,
    conversationHistory: Option<seq<ConversationMessage>>,
    currentData: Option<Dict<Json>>,
    conversationId: string,
    dumps: Dict<Json> -> string,
    callModel: LanguageModel)
    requires SchemaDescription(targetSchema).Ok?
    requires var messages := PreparedMessages(userMessage, targetSchema, conversationHistory.GetOr([]), currentData, dumps).value;
      callModel(model, messages, RESPONSE_SCHEMA).Ok? && !callModel(model, messages, RESPONSE_SCHEMA).value.JObj?
    ensures var messages := PreparedMessages(userMessage, targetSchema, conversationHistory.GetOr([]), currentData, dumps).value;
      var answer := callModel(model, messages, RESPONSE_SCHEMA).value;
      ChatOutcome(model, userMessage, targetSchema, conversationHistory, currentData, conversationId, dumps, callModel)
      == Err(ChatFailure(NoGetText(answer)))
  {
  }

  // ---------------------------------------------------------------------
  // The service
  // ---------------------------------------------------------------------

  class OpenAIService {
    const model: string
    var conversations: Store

    /** A service with an empty store; it needs a non-empty API key. */
    constructor (apiKey: Option<string>, model: string)
      requires ConfigurationError(apiKey).None?
      ensures this.model == model && conversations == map[]
    {
      this.model := model;
      conversations := map[];
    }

    /** Starting the service: refused with the configuration error when the
        key is missing or empty. */
    static method Create(apiKey: Option<string>, model: string) returns (r: Result<OpenAIService, OpenAIServiceError>)
      ensures r.Err? <==> ConfigurationError(apiKey).Some?
      ensures r.Err? ==> r.error == ConfigurationError(apiKey).value
      ensures r.Ok? ==> fresh(r.value) && r.value.model == model && r.value.conversations == map[]
    {
      var failure := ConfigurationError(apiKey);
      if failure.Some? {
        return Err(failure.value);
      }
      var service := new OpenAIService(apiKey, model);
      r := Ok(service);
    }

    method GetConversationHistory(conversationId: string) returns (history: seq<ConversationMessage>)
      ensures conversationId in conversations ==> history == conversations[conversationId]
      ensures conversationId !in conversations ==> history == []
    {
      if conversationId in conversations {
        history := conversations[conversationId];
      } else {
        history := [];
      }
    }

    /** Appends a message stamped with `now` to a conversation; on an invalid
        role the validation errors are returned and the conversation has
        still been created. */
    method SaveConversationMessage(conversationId: string, role: string, content: string, now: Timestamp)
      returns (failure: Option<FieldErrors>)
      modifies this
      ensures conversations == Saved(old(conversations), conversationId, role, content, now)
      ensures failure.None? <==> role == "user" || role == "assistant"
      ensures failure.Some? ==> Err(failure.value) == NewConversationMessage(role, content, now)
    {
      if conversationId !in conversations {
        conversations := conversations[conversationId := []];
      }
      var message := NewConversationMessage(role, content, now);
      if message.Err? {
        return Some(message.error);
      }
      conversations := conversations[conversationId := conversations[conversationId] + [message.value]];
      failure := None;
    }

    method ClearConversation(conversationId: string)
      modifies this
      ensures conversations == Cleared(old(conversations), conversationId)
    {
      if conversationId in conversations {
        conversations := conversations - {conversationId};
      }
    }

    /** The body of the loop of `_format_schema_for_prompt`: one field's line,
        extended piece by piece. */
    method DescribeField(field: Json) returns (r: Result<string, PromptError>)
      ensures r == FieldLine(field)
    {
      if !field.JObj? {
        return Err(NotSubscriptable(field));
      }
      var ms := field.members;
      if Lookup(ms, "name").None? {
        return Err(MissingKey("name"));
      }
      if Lookup(ms, "type").None? {
        return Err(MissingKey("type"));
      }
      var fieldDesc := "- " + PyStr(Get(ms, "name")) + " (" + PyStr(Get(ms, "type")) + ")";
      if Truthy(Get(ms, "required")) {
        fieldDesc := fieldDesc + " *required*";
      }
      if Truthy(Get(ms, "description")) {
        fieldDesc := fieldDesc + (": " + PyStr(Get(ms, "description")));
      }
      if Truthy(Get(ms, "options")) {
        var options := OptionsText(Get(ms, "options"));
        if options.Err? {
          return Err(options.error);
        }
        fieldDesc := fieldDesc + (" Options: " + options.value);
      }
      r := Ok(fieldDesc);
    }

    /** The loop of `_format_schema_for_prompt`: the field lines are collected
        one by one; the first field that cannot be rendered ends the loop. */
    method CollectFieldLines(items: seq<Json>) returns (r: Result<seq<string>, PromptError>)
      ensures r == FieldLines(items)
    {
      var fieldsInfo: seq<string> := [];
      var i := 0;
      assert items[..0] == [];
      while i < |items|
        invariant 0 <= i <= |items|
        invariant FieldLines(items[..i]) == Ok(fieldsInfo)
      {
        var fieldDesc := DescribeField(items[i]);
        if fieldDesc.Err? {
          MapAllStops(FieldLine, items, i);
          return Err(fieldDesc.error);
        }
        MapAllExtends(FieldLine, items, i);
        fieldsInfo := fieldsInfo + [fieldDesc.value];
        i := i + 1;
      }
      assert items[..|items|] == items;
      r := Ok(fieldsInfo);
    }

    /** `_format_schema_for_prompt`: the model name, the description and the
        field lines. */
    method FormatSchemaForPrompt(targetSchema: Dict<Json>) returns (r: Result<string, PromptError>)
      ensures r == SchemaDescription(targetSchema)
    {
      var fields := SchemaFields(GetOr(targetSchema, "fields", JArr([])));
      if fields.Err? {
        return Err(fields.error);
      }
      var fieldsInfo := CollectFieldLines(fields.value);
      if fieldsInfo.Err? {
        return Err(fieldsInfo.error);
      }
      r := Ok(Describe(targetSchema, fieldsInfo.value));
    }

    method CreateSystemPrompt(targetSchema: Dict<Json>, currentData: Option<Dict<Json>>, dumps: Dict<Json> -> string)
      returns (r: Result<string, PromptError>)
      ensures r == SystemPrompt(targetSchema, currentData, dumps)
    {
      var schemaDescription := FormatSchemaForPrompt(targetSchema);
      if schemaDescription.Err? {
        return Err(schemaDescription.error);
      }
      var currentDataText := if currentData.Some? && currentData.value != [] then dumps(currentData.value) else NO_DATA;
      r := Ok(PromptText(schemaDescription.value, currentDataText));
    }

    /** The loop of `_prepare_messages`: the system prompt, then each earlier
        turn appended in order, then the user's message. */
    method CollectMessages(systemPrompt: string, history: seq<ConversationMessage>, userMessage: string)
      returns (messages: seq<PromptMessage>)
      ensures messages == Messages(systemPrompt, history, userMessage)
    {
      messages := [PromptMessage("system", systemPrompt)];
      var i := 0;
      while i < |history|
        invariant 0 <= i <= |history|
        invariant messages == [PromptMessage("system", systemPrompt)] + Turns(history[..i])
      {
        assert history[..i + 1][..i] == history[..i];
        messages := messages + [PromptMessage(history[i].role, history[i].content)];
        i := i + 1;
      }
      assert history[..|history|] == history;
      messages := messages + [PromptMessage("user", userMessage)];
    }

    /** `_prepare_messages`: the system prompt first; a schema that cannot be
        rendered stops here. */
    method PrepareMessages(
      userMessage: string,
      targetSchema: Dict<Json>,
      history: seq<ConversationMessage>,
      currentData: Option<Dict<Json>>,
      dumps: Dict<Json> -> string)
      returns (r: Result<seq<PromptMessage>, PromptError>)
      ensures r == PreparedMessages(userMessage, targetSchema, history, currentData, dumps)
    {
      var systemPrompt := CreateSystemPrompt(targetSchema, currentData, dumps);
      if systemPrompt.Err? {
        return Err(systemPrompt.error);
      }
      var messages := CollectMessages(systemPrompt.value, history, userMessage);
      r := Ok(messages);
    }

    /** One chat turn: the prompt, the model call with the answer schema, the
        validation of the answer; any failure on the way becomes a service
        error. */
    method ProcessChat(
      userMessage: string,
      targetSchema: Dict<Json>,
      conversationHistory: Option<seq<ConversationMessage>>,
      currentData: Option<Dict<Json>>,
      conversationId: string,
      dumps: Dict<Json> -> string,
      callModel: LanguageModel)
      returns (r: Result<ChatResult, OpenAIServiceError>)
      ensures r == ChatOutcome(model, userMessage, targetSchema, conversationHistory, currentData, conversationId, dumps, callModel)
    {
      var messages := PrepareMessages(userMessage, targetSchema, conversationHistory.GetOr([]), currentData, dumps);
      if messages.Err? {
        return Err(ChatFailure(PromptErrorText(messages.error)));
      }
      var responseSchema := CreateResponseSchema(targetSchema);
      var response := callModel(model, messages.value, responseSchema);
      if response.Err? {
        return Err(ChatFailure("OpenAI API call failed: " + response.error));
      }
      if !response.value.JObj? {
        return Err(ChatFailure(NoGetText(response.value)));
      }
      var result := ProcessOpenAIResponse(response.value.members, conversationId);
      if result.Err? {
        return Err(ChatFailure(ValidationText(result.error)));
      }
      r := Ok(result.value);
    }
  }
}
