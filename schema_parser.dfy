/** The schema normaliser: it turns the JSON schema of a model into the form
    description the front end renders, one field descriptor per property, in
    the order of the properties. Generating the JSON schema from a model
    definition is not part of this module; it starts from the schema. */
module SchemaParser {
  import opened Wrappers
  import opened Dicts
  import opened JsonValues
  import opened Text
  import opened Schemas
  import opened Exceptions

  /** `supported_types.get(t, t)`: the service's table from Python type
      names to form types; a name it does not list passes through. */
  function UiType(t: string): string
  {
    if t == "str" then "string"
    else if t == "int" then "integer"
    else if t == "float" then "number"
    else if t == "bool" then "boolean"
    else if t == "list" then "array"
    else if t == "dict" then "object"
    else t
  }

  /** The names the table translates to something else. */
  const TRANSLATED: seq<string> := ["str", "int", "float", "bool", "list", "dict"]

  /** The translated names become JSON-schema type names, every other name
      (`datetime`, `date` and `time` among them, which the table maps to
      themselves) passes through, and nothing is translated into `enum`. */
  lemma UiTypeTable(t: string)
    ensures t !in TRANSLATED ==> UiType(t) == t
    ensures t in TRANSLATED ==> UiType(t) in ["string", "integer", "number", "boolean", "array", "object"]
    ensures UiType(t) == "enum" <==> t == "enum"
  {
  }

  /** Why the normaliser raised. */
  datatype ParseError =
    | NotAnObject                  // `.get` or `.items()` on a value that is not a dict
    | NotAContainer                // `in` on a value that is not a list, dict or string
    | UnhashableType               // a list or dict used as a key of the type table
    | InvalidField(name: string, errors: FieldErrors)   // the field descriptor did not validate

  /** `field_name in required_fields`, for each kind of value the schema's
      `required` entry can hold. */
  function IsRequired(required: Json, name: string): (r: Result<bool, ParseError>)
  {
    match required
    case JArr(items) => Ok(JStr(name) in items)
    case JObj(ms) => Ok(name in Keys(ms))
    case JStr(s) => Ok(Contains(s, name))
    case _ => Err(NotAContainer)
  }

  function Validated(name: string, r: Result<FieldDefinition, FieldErrors>): Result<FieldDefinition, ParseError>
  {
    match r
    case Ok(f) => Ok(f)
    case Err(es) => Err(InvalidField(name, es))
  }

  /** `_parse_field_definition`: an `enum` key wins over everything, then the
      types `array` and `object` are recognised, and any other type goes
      through the type table; a missing type means `string`. */
  function ParseFieldDefinition(name: string, info: Json, required: bool): (r: Result<FieldDefinition, ParseError>)
    decreases Size(info), 2, 0
  {
    if !info.JObj? then Err(NotAnObject)
    else
      var ms := info.members;
      var fieldType := GetOr(ms, "type", JStr("string"));
      var default, description := Get(ms, "default"), Get(ms, "description");
      if "enum" in Keys(ms) then
        Validated(name, NewFieldDefinition(name, JStr("enum"), required, default, description, Lookup(ms, "enum").value))
      else if fieldType == JStr("array") then
        Validated(name, NewFieldDefinition(name, JStr("array"), required, default, description))
      else if fieldType == JStr("object") then
        if "properties" in Keys(ms) then
          match UiFormat(ms, name + "_nested")
          case Err(e) => Err(e)
          case Ok(nested) =>
            Validated(name, NewFieldDefinition(name, JStr("object"), required, default, description, JNull, Some(nested)))
        else
          Validated(name, NewFieldDefinition(name, JStr("object"), required, default, description))
      else if fieldType.JArr? || fieldType.JObj? then Err(UnhashableType)
      else
        var uiType := if fieldType.JStr? then JStr(UiType(fieldType.s)) else fieldType;
        Validated(name, NewFieldDefinition(name, uiType, required, default, description))
  }

  /** One iteration of the walk: the required test on the property's name,
      then the property's descriptor. */
  function ParseProperty(required: Json, property: (string, Json)): (r: Result<FieldDefinition, ParseError>)
    decreases Size(property.1), 3, 0
  {
    match IsRequired(required, property.0)
    case Err(e) => Err(e)
    case Ok(isRequired) => ParseFieldDefinition(property.0, property.1, isRequired)
  }

  /** The descriptors of the first `n` properties, stopping at the first
      error. */
  function ParseFields(props: Dict<Json>, required: Json, n: nat): (r: Result<seq<FieldDefinition>, ParseError>)
    requires n <= |props|
    decreases Size(JObj(props)), 0, n
  {
    if n == 0 then Ok([])
    else
      match ParseFields(props, required, n - 1)
      case Err(e) => Err(e)
      case Ok(fields) =>
        EntrySmaller(props, n - 1);
        match ParseProperty(required, props[n - 1])
        case Err(e) => Err(e)
        case Ok(f) => Ok(fields + [f])
  }

  /** The `properties` of a schema; absent means `{}`. */
  function Properties(schema: Dict<Json>): Json
  {
    GetOr(schema, "properties", JObj([]))
  }

  /** The `required` entry of a schema; absent means `[]`. */
  function RequiredEntry(schema: Dict<Json>): Json
  {
    GetOr(schema, "required", JArr([]))
  }

  /** The title and description of the result: the schema's own, or the
      model name and the empty string. */
  function Described(schema: Dict<Json>, modelName: string, fields: seq<FieldDefinition>): UiSchema
  {
    UiSchema(modelName, GetOr(schema, "title", JStr(modelName)), GetOr(schema, "description", JStr("")), fields)
  }

  /** `_convert_to_ui_format`, as a function of the schema. */
  function UiFormat(schema: Dict<Json>, modelName: string): (r: Result<UiSchema, ParseError>)
    decreases Size(JObj(schema)), 1, 0
  {
    if "properties" !in Keys(schema) then Ok(Described(schema, modelName, []))
    else
      var properties := Properties(schema);
      if !properties.JObj? then Err(NotAnObject)
      else
        LookupSmaller(schema, "properties");
        match ParseFields(properties.members, RequiredEntry(schema), |properties.members|)
        case Err(e) => Err(e)
        case Ok(fields) => Ok(Described(schema, modelName, fields))
  }

  /** `_convert_to_ui_format`: the loop over the properties that appends one
      descriptor per property. */
  method ConvertToUiFormat(schema: Dict<Json>, modelName: string) returns (r: Result<UiSchema, ParseError>)
    ensures r == UiFormat(schema, modelName)
  {
    var properties := Properties(schema);
    var required := RequiredEntry(schema);
    if !properties.JObj? {
      return Err(NotAnObject);
    }
    var props := properties.members;
    var fields: seq<FieldDefinition> := [];
    var i := 0;
    while i < |props|
      invariant i <= |props|
      invariant ParseFields(props, required, i) == Ok(fields)
    {
      var (name, info) := props[i];
      var isRequired := IsRequired(required, name);
      if isRequired.Err? {
        FieldsErrorPersists(props, required, i + 1, |props|);
        return Err(isRequired.error);
      }
      var field := ParseFieldDefinition(name, info, isRequired.value);
      assert ParseProperty(required, props[i]) == field;
      if field.Err? {
        FieldsErrorPersists(props, required, i + 1, |props|);
        return Err(field.error);
      }
      fields := fields + [field.value];
      i := i + 1;
    }
    r := Ok(Described(schema, modelName, fields));
  }

  /** Once a property fails, the whole walk fails with that error. */
  lemma {:induction false} FieldsErrorPersists(props: Dict<Json>, required: Json, n: nat, m: nat)
    requires n <= m <= |props|
    requires ParseFields(props, required, n).Err?
    ensures ParseFields(props, required, m) == ParseFields(props, required, n)
    decreases m - n
  {
    if n < m {
      FieldsErrorPersists(props, required, n, m - 1);
    }
  }

  /** The walk over the first `n` properties is the property step applied to
      each of them in order, stopping at the first error. */
  lemma {:induction false} ParseFieldsIsMapAll(props: Dict<Json>, required: Json, n: nat)
    requires n <= |props|
    ensures ParseFields(props, required, n) == MapAll(p => ParseProperty(required, p), props[..n])
  {
    if n > 0 {
      ParseFieldsIsMapAll(props, required, n - 1);
      assert props[..n][..n - 1] == props[..n - 1];
    }
  }

  /** The walk over the first `n` properties succeeds exactly when every one
      of them parses; then it yields one descriptor per property, in order. */
  lemma ParseFieldsShape(props: Dict<Json>, required: Json, n: nat)
    requires n <= |props|
    ensures ParseFields(props, required, n).Ok? <==> forall i :: 0 <= i < n ==> ParseProperty(required, props[i]).Ok?
    ensures ParseFields(props, required, n).Ok? ==>
      && |ParseFields(props, required, n).value| == n
      && forall i :: 0 <= i < n ==> ParseFields(props, required, n).value[i] == ParseProperty(required, props[i]).value
  {
    ParseFieldsIsMapAll(props, required, n);
    assert forall i :: 0 <= i < n ==> props[..n][i] == props[i];
  }

  /** Whatever branch it takes, a descriptor keeps the property's name, the
      required flag it was given, and the property's `default` and
      `description`. Only enum fields get options, only object fields a
      nested schema. */
  lemma FieldDefinitionCopies(name: string, info: Json, required: bool)
    requires ParseFieldDefinition(name, info, required).Ok?
    ensures info.JObj?
    ensures var f := ParseFieldDefinition(name, info, required).value;
      && f.name == name && f.required == required
      && f.default == Get(info.members, "default")
      && (f.description.None? <==> Get(info.members, "description") == JNull)
      && (f.description.Some? ==> Get(info.members, "description") == JStr(f.description.value))
      && (f.options.Some? ==> f.fieldType == "enum")
      && (f.nestedSchema.Some? ==> f.fieldType == "object")
  {
  }

  /** A property with an `enum` key is an enum field whose options are that
      list, whatever its `type` says. */
  lemma EnumField(name: string, info: Dict<Json>, required: bool, options: seq<string>)
    requires Lookup(info, "enum") == Some(JArr(FromStrings(options)))
    requires OptionalString(Get(info, "description")).Ok?
    ensures ParseFieldDefinition(name, JObj(info), required).Ok?
    ensures ParseFieldDefinition(name, JObj(info), required).value.fieldType == "enum"
    ensures ParseFieldDefinition(name, JObj(info), required).value.options == Some(options)
  {
    var items := FromStrings(options);
    assert AllStrings(items);
    assert Strings(items) == options;
  }

  /** Without `enum`, a property's type is `array`, `object`, or the type
      table's translation of its type, `string` when it has none. */
  lemma FieldType(name: string, info: Dict<Json>, required: bool)
    requires "enum" !in Keys(info)
    requires ParseFieldDefinition(name, JObj(info), required).Ok?
    ensures "type" !in Keys(info) ==> ParseFieldDefinition(name, JObj(info), required).value.fieldType == "string"
    ensures Lookup(info, "type").Some? ==> Lookup(info, "type").value.JStr?
    ensures Lookup(info, "type").Some? && Lookup(info, "type").value.JStr? ==>
      var t := Lookup(info, "type").value.s;
      ParseFieldDefinition(name, JObj(info), required).value.fieldType
        == if t == "array" || t == "object" then t else UiType(t)
  {
    UiTypeTable("string");
  }

  /** A property typed `integer` keeps that name, since the table only knows
      Python type names, while `str` becomes `string`. */
  lemma TableExamples(name: string)
    ensures ParseFieldDefinition(name, JObj([("type", JStr("integer"))]), true).Ok?
    ensures ParseFieldDefinition(name, JObj([("type", JStr("integer"))]), true).value.fieldType == "integer"
    ensures ParseFieldDefinition(name, JObj([("type", JStr("str"))]), true).value.fieldType == "string"
  {
    assert Keys([("type", JStr("integer"))]) == ["type"];
    assert Keys([("type", JStr("str"))]) == ["type"];
    UiTypeTable("integer");
  }

  /** An object property gets a nested schema exactly when it has
      `properties`; the nested schema is the normalisation of the property
      itself under the name `<field>_nested`. */
  lemma ObjectField(name: string, info: Dict<Json>, required: bool)
    requires "enum" !in Keys(info) && Lookup(info, "type") == Some(JStr("object"))
    requires ParseFieldDefinition(name, JObj(info), required).Ok?
    ensures ParseFieldDefinition(name, JObj(info), required).value.fieldType == "object"
    ensures ParseFieldDefinition(name, JObj(info), required).value.nestedSchema.Some? <==> "properties" in Keys(info)
    ensures "properties" in Keys(info) ==>
      && UiFormat(info, name + "_nested").Ok?
      && ParseFieldDefinition(name, JObj(info), required).value.nestedSchema == Some(UiFormat(info, name + "_nested").value)
  {
  }

  /** The result has one descriptor per property, in the order of the
      properties and named after them; a field is required exactly when its
      name passes the `required` test; the title defaults to the model name
      and the description to the empty string. */
  lemma UiFormatShape(schema: Dict<Json>, modelName: string)
    requires UiFormat(schema, modelName).Ok?
    ensures var s := UiFormat(schema, modelName).value;
      && s.modelName == modelName
      && s.title == GetOr(schema, "title", JStr(modelName))
      && s.description == GetOr(schema, "description", JStr(""))
      && (Properties(schema).JObj? || "properties" !in Keys(schema))
      && |s.fields| == |Properties(schema).members|
      && forall i :: 0 <= i < |s.fields| ==>
           && s.fields[i].name == Properties(schema).members[i].0
           && IsRequired(RequiredEntry(schema), s.fields[i].name).Ok?
           && s.fields[i].required == IsRequired(RequiredEntry(schema), s.fields[i].name).value
           && ParseProperty(RequiredEntry(schema), Properties(schema).members[i]) == Ok(s.fields[i])
  {
    if "properties" in Keys(schema) {
      var props := Properties(schema).members;
      ParseFieldsShape(props, RequiredEntry(schema), |props|);
      forall i | 0 <= i < |props|
        ensures ParseFieldDefinition(props[i].0, props[i].1, IsRequired(RequiredEntry(schema), props[i].0).value).value.name == props[i].0
        ensures ParseFieldDefinition(props[i].0, props[i].1, IsRequired(RequiredEntry(schema), props[i].0).value).value.required
             == IsRequired(RequiredEntry(schema), props[i].0).value
      {
        FieldDefinitionCopies(props[i].0, props[i].1, IsRequired(RequiredEntry(schema), props[i].0).value);
      }
    }
  }

  /** A nested schema is named `<field>_nested`, and its fields' required
      flags come from the nested `required` entry alone, whatever the flag of
      the enclosing field. */
  lemma NestedRequiredFlags(name: string, info: Dict<Json>, required: bool)
    requires "enum" !in Keys(info) && Lookup(info, "type") == Some(JStr("object")) && "properties" in Keys(info)
    requires ParseFieldDefinition(name, JObj(info), required).Ok?
    ensures ParseFieldDefinition(name, JObj(info), required).value.nestedSchema.Some?
    ensures var nested := ParseFieldDefinition(name, JObj(info), required).value.nestedSchema.value;
      && nested.modelName == name + "_nested"
      && forall j :: 0 <= j < |nested.fields| ==>
           IsRequired(RequiredEntry(info), nested.fields[j].name) == Ok(nested.fields[j].required)
  {
    ObjectField(name, info, required);
    UiFormatShape(info, name + "_nested");
  }

  /** When the schema lists its required fields, a field is required exactly
      when its name is in that list; without a `required` entry no field is
      required. */
  lemma RequiredFlags(schema: Dict<Json>, modelName: string, i: nat)
    requires UiFormat(schema, modelName).Ok?
    requires i < |UiFormat(schema, modelName).value.fields|
    ensures var f := UiFormat(schema, modelName).value.fields[i];
      && (Lookup(schema, "required").None? ==> !f.required)
      && (Lookup(schema, "required").Some? && Lookup(schema, "required").value.JArr? ==>
            (f.required <==> JStr(f.name) in Lookup(schema, "required").value.items))
  {
    UiFormatShape(schema, modelName);
  }

  /** The walk fails exactly when `properties` is present but not a dict, or
      some property has an invalid required test or does not parse. */
  lemma UiFormatSucceeds(schema: Dict<Json>, modelName: string)
    ensures UiFormat(schema, modelName).Ok? <==>
      || "properties" !in Keys(schema)
      || (&& Properties(schema).JObj?
          && forall i :: 0 <= i < |Properties(schema).members| ==>
               var (name, info) := Properties(schema).members[i];
               IsRequired(RequiredEntry(schema), name).Ok?
               && ParseFieldDefinition(name, info, IsRequired(RequiredEntry(schema), name).value).Ok?)
  {
    if "properties" in Keys(schema) && Properties(schema).JObj? {
      var props := Properties(schema).members;
      ParseFieldsShape(props, RequiredEntry(schema), |props|);
    }
  }

  /** A `required` entry that is no container makes any schema with
      properties fail, but goes unnoticed when there are none. */
  lemma BadRequiredEntry(schema: Dict<Json>, modelName: string)
    requires RequiredEntry(schema).JInt? || RequiredEntry(schema).JNull? || RequiredEntry(schema).JBool?
    ensures Properties(schema).JObj? && Properties(schema).members != [] ==> UiFormat(schema, modelName) == Err(NotAContainer)
    ensures Properties(schema) == JObj([]) ==> UiFormat(schema, modelName).Ok?
  {
    if Properties(schema).JObj? && Properties(schema).members != [] && "properties" in Keys(schema) {
      var props := Properties(schema).members;
      assert ParseFields(props, RequiredEntry(schema), 1) == Err(NotAContainer);
      FieldsErrorPersists(props, RequiredEntry(schema), 1, |props|);
    }
  }

  /** The schema templates that can actually be fetched. */
  datatype ExampleSchema = UserProfileExample | ProductOrderExample

  /** `list_available_schemas`. */
  const AVAILABLE_SCHEMAS: seq<string> := ["UserProfile", "ProductOrder", "ContactForm", "SurveyResponse", "EmployeeRecord"]

  /** `get_example_schema`: only two of the templates exist. */
  function GetExampleSchema(schemaName: string): (r: Result<ExampleSchema, SchemaParsingError>)
    ensures r.Ok? <==> schemaName == "UserProfile" || schemaName == "ProductOrder"
    ensures r.Err? ==> r.error == NewSchemaParsingError("Schema '" + schemaName + "' not found", schemaName)
  {
    if schemaName == "UserProfile" then Ok(UserProfileExample)
    else if schemaName == "ProductOrder" then Ok(ProductOrderExample)
    else Err(NewSchemaParsingError("Schema '" + schemaName + "' not found", schemaName))
  }

  /** Three of the five advertised templates cannot be fetched. */
  lemma AdvertisedButMissing()
    ensures forall i :: 0 <= i < |AVAILABLE_SCHEMAS| ==> (GetExampleSchema(AVAILABLE_SCHEMAS[i]).Ok? <==> i < 2)
    ensures GetExampleSchema("ContactForm").Err? && GetExampleSchema("SurveyResponse").Err? && GetExampleSchema("EmployeeRecord").Err?
  {
  }
}
