// The conversion of MCP tool descriptions (name, description, input schema)
// into the function-tool format of OpenAI-compatible chat APIs.
module OpenAiCompat {
  import opened Wrappers

  /** The schema used when a tool gives none: an object with no properties. */
  const EmptySchema: Json := JObj(map["type" := JStr("object"), "properties" := JObj(map[])])

  /** `t.get("input_schema")`, with None (absent or null) replaced by the empty
      object schema. */
  function Parameters(t: map<string, Json>): (r: Json)
    ensures "input_schema" in t && t["input_schema"] != JNull ==> r == t["input_schema"]
    ensures "input_schema" !in t || t["input_schema"] == JNull ==> r == EmptySchema
    ensures r != JNull
  {
    var p := Get(t, "input_schema");
    if p == JNull then EmptySchema else p
  }

  /** `t.get("name", "unknown")`: the default applies only when the key is absent. */
  function NameOf(t: map<string, Json>): (r: Json)
    ensures "name" in t ==> r == t["name"]
    ensures "name" !in t ==> r == JStr("unknown")
  {
    if "name" in t then t["name"] else JStr("unknown")
  }

  /** `t.get("description") or ""`: any falsy value becomes the empty string. */
  function DescriptionOf(t: map<string, Json>): (r: Json)
    ensures "description" in t && Truthy(t["description"]) ==> r == t["description"]
    ensures "description" !in t || !Truthy(t["description"]) ==> r == JStr("")
    ensures r == JStr("") || Truthy(r)
  {
    var d := Get(t, "description");
    if Truthy(d) then d else JStr("")
  }

  /** The OpenAI form of one tool. */
  function ConvertTool(t: map<string, Json>): (r: Json)
    ensures r.JObj? && r.fields.Keys == {"type", "function"}
    ensures r.fields["type"] == JStr("function")
    ensures r.fields["function"].JObj? && r.fields["function"].fields.Keys == {"name", "description", "parameters"}
    ensures r.fields["function"].fields["name"] == NameOf(t)
    ensures r.fields["function"].fields["description"] == DescriptionOf(t)
    ensures r.fields["function"].fields["parameters"] == Parameters(t)
  {
    JObj(map["type" := JStr("function"),
             "function" := JObj(map["name" := NameOf(t),
                                    "description" := DescriptionOf(t),
                                    "parameters" := Parameters(t)])])
  }

  /** `_mcp_tools_to_openai`: one converted entry per tool, in input order. */
  method ToOpenAiTools(tools: seq<map<string, Json>>) returns (result: seq<Json>)
    ensures |result| == |tools|
    ensures forall i :: 0 <= i < |tools| ==> result[i] == ConvertTool(tools[i])
    ensures forall i :: 0 <= i < |result| ==> result[i].JObj? && Get(result[i].fields, "type") == JStr("function")
  {
    result := [];
    for k := 0 to |tools|
      invariant |result| == k
      invariant forall i :: 0 <= i < k ==> result[i] == ConvertTool(tools[i])
    {
      result := result + [ConvertTool(tools[k])];
    }
    forall i | 0 <= i < |result|
      ensures result[i].JObj? && Get(result[i].fields, "type") == JStr("function")
    {
      var _ := ConvertTool(tools[i]);
    }
  }

  /** A converted tool's name is the default exactly when the tool has no name
      key or is itself named "unknown". */
  lemma NameDefaultOnlyWhenAbsent(t: map<string, Json>)
    ensures ConvertTool(t).fields["function"].fields["name"] == JStr("unknown") <==>
      "name" !in t || t["name"] == JStr("unknown")
  {
  }
}
