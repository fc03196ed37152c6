/**
 * The echo server's two request handlers: listing its single tool, and
 * calling a tool by name with JSON arguments.
 */
module Echo {
  import opened Wrappers
  import opened Json
  import opened Schema
  import opened Ascii
  import opened Protocol

  const ToolName: string := "echo"
  const ToolDescription: string := "Echo back input text"
  const InvalidArgumentsPrefix: string := "Invalid arguments for echo: "
  const UnknownToolPrefix: string := "Unknown tool: "

  /** The echo tool's parameters: a required non-empty `text` and an optional boolean `uppercase`. */
  const EchoParamsSchema: ObjectSchema := ObjectSchema(
    [ Field("text", StringField(1), false, "Text to echo back"),
      Field("uppercase", BooleanField, true, "If true, return the text in uppercase") ],
    "Parameters for echo tool")

  /** The validated arguments; `uppercase` is None when the member was missing. */
  datatype EchoParams = EchoParams(text: string, uppercase: Option<bool>)

  /** The echo schema declares each member once. */
  lemma EchoSchemaDistinct()
    ensures DistinctNames(EchoParamsSchema.fields)
  {
  }

  /** A failed echo validation names each member at most once. */
  lemma EchoIssuesOnePerMember(j: Json)
    ensures Parse(EchoParamsSchema, j).Failure? ==>
              forall a, b :: 0 <= a < b < |Parse(EchoParamsSchema, j).error| ==>
                Parse(EchoParamsSchema, j).error[a].path != Parse(EchoParamsSchema, j).error[b].path
  {
    if j.JObject? {
      EchoSchemaDistinct();
      CheckFieldsOnePerMember(EchoParamsSchema.fields, j.members);
    }
  }

  /** The echo rules written out directly, independently of the schema value. */
  predicate EchoArgsValid(j: Json) {
    && j.JObject?
    && "text" in j.members && j.members["text"].JString? && |j.members["text"].str| >= 1
    && ("uppercase" in j.members ==> j.members["uppercase"].JBool?)
  }

  /** The schema value states exactly the echo rules. */
  lemma EchoSchemaRules(j: Json)
    ensures Accepts(EchoParamsSchema, j) <==> EchoArgsValid(j)
  {
    var fs := EchoParamsSchema.fields;
    if j.JObject? {
      assert AllAccepted(fs, j.members) <==>
             FieldAccepts(fs[0], Lookup(j.members, "text")) && FieldAccepts(fs[1], Lookup(j.members, "uppercase"));
    }
  }

  function TextOf(data: map<string, Json>): string {
    if "text" in data && data["text"].JString? then data["text"].str else ""
  }

  function UppercaseOf(data: map<string, Json>): Option<bool> {
    if "uppercase" in data && data["uppercase"].JBool? then Some(data["uppercase"].b) else None
  }

  /** Validates the arguments of an echo call and reads out its parameters. */
  function ParseEchoParams(j: Json): (r: Result<EchoParams, seq<Issue>>)
    ensures r.Success? <==> EchoArgsValid(j)
    ensures r.Success? ==> r.value.text == j.members["text"].str && |r.value.text| >= 1
    ensures r.Success? ==> r.value.uppercase == if "uppercase" in j.members then Some(j.members["uppercase"].b) else None
    ensures r.Failure? ==> |r.error| > 0
  {
    EchoSchemaRules(j);
    assert "text" in FieldNames(EchoParamsSchema.fields) by { assert EchoParamsSchema.fields[0].name == "text"; }
    assert "uppercase" in FieldNames(EchoParamsSchema.fields) by { assert EchoParamsSchema.fields[1].name == "uppercase"; }
    match Parse(EchoParamsSchema, j)
    case Failure(issues) => Failure(issues)
    case Success(data) => Success(EchoParams(TextOf(data), UppercaseOf(data)))
  }

  /** The tool's output text: upper-cased only when `uppercase` is true. */
  function EchoText(p: EchoParams): (r: string)
    ensures |r| == |p.text|
    ensures p.uppercase != Some(true) ==> r == p.text
    ensures p.uppercase == Some(true) ==> forall i :: 0 <= i < |r| ==> r[i] == UpperChar(p.text[i])
  {
    if p.uppercase == Some(true) then ToUpperAscii(p.text) else p.text
  }

  /** Missing or null arguments stand for the empty object; anything else is passed on. */
  function NormalizeArguments(arguments: Option<Json>): (j: Json)
    ensures arguments == None || arguments == Some(JNull) ==> j == JObject(map[])
    ensures arguments != None && arguments != Some(JNull) ==> j == arguments.value
  {
    match arguments
    case None => JObject(map[])
    case Some(JNull) => JObject(map[])
    case Some(a) => a
  }

  /** The list-tools handler: the fixed registry. */
  function ListTools(): (r: ListToolsResult)
    ensures |r.tools| == 1
    ensures r.tools[0].name == "echo" && r.tools[0].description == "Echo back input text"
    ensures r.tools[0].inputSchema == EchoParamsSchema
  {
    ListToolsResult([ToolDescriptor(ToolName, ToolDescription, EchoParamsSchema)])
  }

  /** The call-tool handler. */
  function CallTool(name: string, arguments: Option<Json>): (r: Result<ToolResult, ProtocolError>)
    ensures name != "echo" ==> r == Failure(ProtocolError(MethodNotFound, "Unknown tool: " + name))
    ensures name == "echo" ==> (r.Success? <==> EchoArgsValid(NormalizeArguments(arguments)))
    ensures name == "echo" && r.Failure? ==>
              r.error.code == InvalidParams && "Invalid arguments for echo: " <= r.error.message
    ensures r.Failure? ==> (r.error.code == MethodNotFound <==> name != "echo")
    ensures r.Success? ==> |r.value.content| == 1 && r.value.content[0].kind == "text"
    ensures r.Success? ==>
              var args := NormalizeArguments(arguments).members;
              r.value.content[0].text ==
                if "uppercase" in args && args["uppercase"] == JBool(true)
                then ToUpperAscii(args["text"].str) else args["text"].str
  {
    if name == ToolName then
      match ParseEchoParams(NormalizeArguments(arguments))
      case Failure(issues) =>
        Failure(ProtocolError(InvalidParams, InvalidArgumentsPrefix + RenderIssues(issues)))
      case Success(p) =>
        Success(ToolResult([ContentItem("text", EchoText(p))]))
    else
      Failure(ProtocolError(MethodNotFound, UnknownToolPrefix + name))
  }

  /** Missing arguments, null arguments and the empty object are all rejected alike, for the missing `text`. */
  lemma MissingArgumentsRejected()
    ensures CallTool("echo", None) == CallTool("echo", Some(JNull)) == CallTool("echo", Some(JObject(map[])))
    ensures CallTool("echo", None).Failure? && CallTool("echo", None).error.code == InvalidParams
    ensures Parse(EchoParamsSchema, JObject(map[])) == Failure([Issue(["text"], InvalidType(String, Undefined))])
  {
    var fs := EchoParamsSchema.fields;
    var empty: map<string, Json> := map[];
    assert CheckFields(fs, empty) == [Issue(["text"], InvalidType(String, Undefined))];
    assert Parse(EchoParamsSchema, JObject(empty)) == Failure(CheckFields(fs, empty));
  }

  /** `uppercase: false` gives exactly the outcome of leaving `uppercase` out, on success and on failure. */
  lemma UppercaseFalseLikeMissing(m: map<string, Json>)
    ensures CallTool("echo", Some(JObject(m["uppercase" := JBool(false)])))
         == CallTool("echo", Some(JObject(m - {"uppercase"})))
  {
  }

  /** Members other than `text` and `uppercase` have no influence on a call. */
  lemma UndeclaredMembersIgnored(m: map<string, Json>, k: string, v: Json)
    requires k != "text" && k != "uppercase"
    ensures CallTool("echo", Some(JObject(m[k := v]))) == CallTool("echo", Some(JObject(m)))
  {
    ParseIgnoresUndeclared(EchoParamsSchema, m, k, v);
  }

  /** The schema a client reads from the tool list is the one the call handler enforces. */
  lemma ListedSchemaGovernsCall(arguments: Option<Json>)
    ensures var d := ListTools().tools[0];
            CallTool(d.name, arguments).Success? <==> Accepts(d.inputSchema, NormalizeArguments(arguments))
  {
  }

  /** Echoing an output again, with the same `uppercase`, returns that output unchanged. */
  lemma EchoOutputIsStable(t: string, up: bool)
    requires |t| >= 1
    ensures var first := CallTool("echo", Some(JObject(map["text" := JString(t), "uppercase" := JBool(up)])));
            && first.Success?
            && CallTool("echo", Some(JObject(map["text" := JString(first.value.content[0].text), "uppercase" := JBool(up)])))
               == first
  {
    ToUpperIdempotent(t);
  }
}
