/** The tool contract of `tools/base.py`: parameter declarations, tool results,
    the defaults a tool picks up at construction, shallow parameter validation
    and the projection of a tool into its function-calling schema. */
module ToolBase {
  import opened Wrappers
  import opened Text

  /** A JSON-like value: tool arguments, defaults and result data. */
  datatype Value =
    | Null
    | Bool(b: bool)
    | Int(i: int)
    | Str(s: string)
    | Array(items: seq<Value>)
    | Object(fields: map<string, Value>)

  /** The keyword arguments a tool is called with. */
  type Args = map<string, Value>

  /** `ToolParameter`: one declared parameter. */
  datatype ToolParameter = ToolParameter(
    name: string,
    typeName: string,
    description: string,
    required: bool,
    default: Option<Value>,
    enumValues: Option<seq<string>>)

  /** A parameter declared with only its name, type and description, the way
      most tool declarations write it: the field defaults apply. */
  function Parameter(name: string, typeName: string, description: string): ToolParameter {
    ToolParameter(name, typeName, description, true, None, None)
  }

  /** A parameter declared `required=False` with a default. */
  function OptionalParameter(name: string, typeName: string, description: string, default: Value): ToolParameter {
    ToolParameter(name, typeName, description, false, Some(default), None)
  }

  /** `ToolResult`. */
  datatype ToolResult = ToolResult(
    success: bool,
    data: Value,
    error: Option<string>,
    metadata: Option<map<string, Value>>)

  /** `ToolResult(success=False, error=message)`. */
  function Failure(message: string): ToolResult {
    ToolResult(false, Null, Some(message), None)
  }

  /** What calling a tool's `execute` does: return a result or raise. */
  datatype Execution = Returned(result: ToolResult) | Raised(message: string)

  /** A constructed tool: its metadata and its (abstract) `execute`. */
  datatype Tool = Tool(
    name: string,
    description: string,
    parameters: seq<ToolParameter>,
    execute: Args -> Execution)

  /** One executed tool call as the agent records it: `{id, name, arguments, result}`. */
  datatype ToolCallRecord = ToolCallRecord(id: string, name: string, arguments: Args, result: ToolResult)

  const DefaultDescription := "No description provided"

  /** `BaseTool.__init__`: each of name, description and parameters is the class's
      own declaration when it has one, and otherwise the lower-cased class name,
      the placeholder description and no parameters. */
  function InitTool(
    className: string,
    declaredName: Option<string>,
    declaredDescription: Option<string>,
    declaredParameters: Option<seq<ToolParameter>>,
    execute: Args -> Execution): (t: Tool)
    ensures declaredName.Some? ==> t.name == declaredName.value
    ensures declaredName.None? ==> t.name == Lower(className)
    ensures declaredName.None? ==> |t.name| == |className| && HasNoUpper(t.name)
    ensures declaredName.None? ==> forall i :: 0 <= i < |className| && !IsUpper(className[i]) ==> t.name[i] == className[i]
    ensures t.description == declaredDescription.GetOr(DefaultDescription)
    ensures t.parameters == declaredParameters.GetOr([])
    ensures t.execute == execute
  {
    Tool(
      declaredName.GetOr(Lower(className)),
      declaredDescription.GetOr(DefaultDescription),
      declaredParameters.GetOr([]),
      execute)
  }

  // ---------------------------------------------------------------- validation

  /** `validate_parameters`: scan the declared parameters and stop at the first
      required one whose name is not a key of `args`. Shallow: types and
      enumerations are not checked. */
  function ValidateParameters(parameters: seq<ToolParameter>, args: Args): (ok: bool)
    ensures ok <==> forall i :: 0 <= i < |parameters| && parameters[i].required ==> parameters[i].name in args
  {
    if parameters == [] then true
    else if parameters[0].required && parameters[0].name !in args then false
    else ValidateParameters(parameters[1..], args)
  }

  /** Adding keys to the arguments (unknown extras or optional parameters) never
      turns a valid call into an invalid one. */
  lemma ExtraKeysKeepValid(parameters: seq<ToolParameter>, args: Args, more: Args)
    requires ValidateParameters(parameters, args)
    requires args.Keys <= more.Keys
    ensures ValidateParameters(parameters, more)
  {
  }

  /** Leaving out a key that no required parameter is named after never makes a
      valid call invalid: missing optional parameters are fine. */
  lemma MissingOptionalKeepsValid(parameters: seq<ToolParameter>, args: Args, key: string)
    requires ValidateParameters(parameters, args)
    requires forall i :: 0 <= i < |parameters| && parameters[i].name == key ==> !parameters[i].required
    ensures ValidateParameters(parameters, args - {key})
  {
  }

  /** A parameter written with only name, type and description is mandatory:
      a call without that key is invalid whatever else it carries. */
  lemma DeclaredParameterIsMandatory(parameters: seq<ToolParameter>, name: string, typeName: string, description: string, args: Args)
    requires Parameter(name, typeName, description) in parameters
    requires name !in args
    ensures !ValidateParameters(parameters, args)
  {
    var i :| 0 <= i < |parameters| && parameters[i] == Parameter(name, typeName, description);
    assert parameters[i].required && parameters[i].name !in args;
  }

  // ---------------------------------------------------------------- schema

  /** One entry of the schema's `properties`. */
  datatype PropertySchema = PropertySchema(typeName: string, description: string, enum: Option<seq<string>>)

  /** The schema's `parameters` object. */
  datatype ParametersSchema = ParametersSchema(schemaType: string, properties: map<string, PropertySchema>, required: seq<string>)

  /** `get_schema()`. */
  datatype Schema = Schema(name: string, description: string, parameters: ParametersSchema)

  /** The property for one parameter: its type and description, plus `enum` only
      when `enum_values` is present and non-empty. */
  function PropertyOf(p: ToolParameter): (s: PropertySchema)
    ensures s.typeName == p.typeName && s.description == p.description
    ensures s.enum.Some? <==> p.enumValues.Some? && p.enumValues.value != []
    ensures s.enum.Some? ==> s.enum.value == p.enumValues.value
  {
    PropertySchema(
      p.typeName,
      p.description,
      if p.enumValues.Some? && p.enumValues.value != [] then p.enumValues else None)
  }

  /** The `properties` dict comprehension: entries are added in declaration order,
      so for a repeated name the last declaration wins. */
  function Properties(parameters: seq<ToolParameter>): (props: map<string, PropertySchema>)
    ensures props.Keys == set p | p in parameters :: p.name
  {
    if parameters == [] then map[]
    else
      var last := parameters[|parameters| - 1];
      var init := parameters[..|parameters| - 1];
      assert forall p :: p in parameters <==> p in init || p == last;
      Properties(init)[last.name := PropertyOf(last)]
  }

  /** The `required` list comprehension. */
  function RequiredNames(parameters: seq<ToolParameter>): (names: seq<string>)
    ensures |names| <= |parameters|
    ensures forall n :: n in names <==> exists p :: p in parameters && p.required && p.name == n
  {
    if parameters == [] then []
    else
      var rest := RequiredNames(parameters[1..]);
      assert forall p :: p in parameters <==> p == parameters[0] || p in parameters[1..];
      if parameters[0].required then [parameters[0].name] + rest else rest
  }

  /** `required` keeps declaration order: declaring one more parameter appends its
      name exactly when it is required. */
  lemma {:induction false} RequiredNamesAppend(parameters: seq<ToolParameter>, p: ToolParameter)
    ensures RequiredNames(parameters + [p]) == RequiredNames(parameters) + (if p.required then [p.name] else [])
  {
    if parameters != [] {
      assert (parameters + [p])[1..] == parameters[1..] + [p];
      RequiredNamesAppend(parameters[1..], p);
    }
  }

  /** Each parameter that is the last one declared under its name contributes
      exactly its own property. */
  lemma {:induction false} PropertyOfLastDeclaration(parameters: seq<ToolParameter>, i: nat)
    requires i < |parameters|
    requires forall j :: i < j < |parameters| ==> parameters[j].name != parameters[i].name
    ensures parameters[i].name in Properties(parameters)
    ensures Properties(parameters)[parameters[i].name] == PropertyOf(parameters[i])
  {
    if i < |parameters| - 1 {
      PropertyOfLastDeclaration(parameters[..|parameters| - 1], i);
    }
  }

  /** `get_schema`: name and description verbatim; an object schema whose
      `properties` has one key per declared name and whose `required` names only
      declared, required parameters. */
  function GetSchema(t: Tool): (s: Schema)
    ensures s.name == t.name && s.description == t.description
    ensures s.parameters.schemaType == "object"
    ensures s.parameters.properties.Keys == set p | p in t.parameters :: p.name
    ensures forall n :: n in s.parameters.required ==> n in s.parameters.properties
    ensures forall n :: n in s.parameters.required <==> exists p :: p in t.parameters && p.required && p.name == n
  {
    Schema(t.name, t.description, ParametersSchema("object", Properties(t.parameters), RequiredNames(t.parameters)))
  }

  /** With unique parameter names (the declared invariant of a tool), every
      parameter's property is built from that parameter alone. */
  lemma SchemaOfUniqueParameters(t: Tool, i: nat)
    requires i < |t.parameters|
    requires forall j, k :: 0 <= j < k < |t.parameters| ==> t.parameters[j].name != t.parameters[k].name
    ensures GetSchema(t).parameters.properties[t.parameters[i].name] == PropertyOf(t.parameters[i])
  {
    PropertyOfLastDeclaration(t.parameters, i);
  }
}
