/** The two dashboard tools offered to the language model and their
    executor (backend/tools.py). Executing a tool performs no work: the
    arguments are handed back for the front end to render. */
module Tools {
  import opened Wrappers
  import opened Json

  datatype FunctionSpec = FunctionSpec(name: string, description: string, parameters: Json)

  /** One entry of the tool list in chat-completions format: a `type` tag and
      the nested `function` object. */
  datatype ToolDefinition = ToolDefinition(kind: string, spec: FunctionSpec)

  const ChartTypes: seq<string> := ["line", "bar", "pie", "area"]

  function Prop(kind: string, description: string): Json {
    JObj(map["type" := JStr(kind), "description" := JStr(description)])
  }

  const ChartParameters: Json := JObj(map[
    "type" := JStr("object"),
    "properties" := JObj(map[
      "chart_type" := JObj(map[
        "type" := JStr("string"),
        "enum" := JArr([JStr("line"), JStr("bar"), JStr("pie"), JStr("area")]),
        "description" := JStr("The type of chart to display")]),
      "title" := Prop("string", "Chart title"),
      "data" := JObj(map[
        "type" := JStr("array"),
        "items" := JObj(map[
          "type" := JStr("object"),
          "properties" := JObj(map[
            "label" := JObj(map["type" := JStr("string")]),
            "value" := JObj(map["type" := JStr("number")])]),
          "required" := JArr([JStr("label"), JStr("value")])]),
        "description" := JStr("Data points for the chart")])]),
    "required" := JArr([JStr("chart_type"), JStr("title"), JStr("data")])])

  const MetricsParameters: Json := JObj(map[
    "type" := JStr("object"),
    "properties" := JObj(map[
      "metrics" := JObj(map[
        "type" := JStr("array"),
        "items" := JObj(map[
          "type" := JStr("object"),
          "properties" := JObj(map[
            "label" := Prop("string", "The metric name/label"),
            "value" := Prop("number", "The metric value"),
            "unit" := Prop("string", "The unit of measurement (e.g., '$', '%', 'users')")]),
          "required" := JArr([JStr("label"), JStr("value"), JStr("unit")])]),
        "description" := JStr("Array of metrics to display")])]),
    "required" := JArr([JStr("metrics")])])

  const ShowChart: ToolDefinition := ToolDefinition("function", FunctionSpec(
    "show_chart",
    "Display a chart or visualization in the dashboard. Use this when the user asks to see data visually, wants a graph, or requests data comparison.",
    ChartParameters))

  const ShowMetrics: ToolDefinition := ToolDefinition("function", FunctionSpec(
    "show_metrics",
    "Update the metrics panel with key performance indicators. Use this when the user asks about specific numbers, KPIs, or wants to see summary statistics.",
    MetricsParameters))

  /** TOOL_DEFINITIONS */
  const ToolDefinitions: seq<ToolDefinition> := [ShowChart, ShowMetrics]

  /** The tool list: exactly two function tools, `show_chart` then
      `show_metrics`, and the chart schema's enum of chart kinds. */
  lemma ToolDefinitionsShape()
    ensures |ToolDefinitions| == 2
    ensures forall t :: t in ToolDefinitions ==> t.kind == "function"
    ensures ToolDefinitions[0].spec.name == "show_chart"
    ensures ToolDefinitions[1].spec.name == "show_metrics"
    ensures ToolDefinitions[0].spec.parameters.fields["properties"].fields["chart_type"].fields["enum"]
      == JArr(seq(|ChartTypes|, i requires 0 <= i < |ChartTypes| => JStr(ChartTypes[i])))
  {
  }

  const KnownTools: set<string> := {"show_chart", "show_metrics"}

  /** execute_tool: total pass-through dispatch on the tool name. */
  function ExecuteTool(name: string, arguments: Object): (r: Object)
    ensures name == "show_chart" ==> r.Keys == {"chart_type", "title", "data"}
    ensures name == "show_metrics" ==> r.Keys == {"metrics"}
    ensures name !in KnownTools ==> r == map["error" := JStr("Unknown tool: " + name)]
    ensures "error" in r <==> name !in KnownTools
  {
    if name == "show_chart" then
      map[
        "chart_type" := GetOr(arguments, "chart_type", JNull),
        "title" := GetOr(arguments, "title", JNull),
        "data" := GetOr(arguments, "data", JArr([]))]
    else if name == "show_metrics" then
      map["metrics" := GetOr(arguments, "metrics", JArr([]))]
    else
      map["error" := JStr("Unknown tool: " + name)]
  }

  /** Pass-through: every argument a chart carries reaches the result
      unchanged, with no check against the schema's enum, and a missing
      `data` becomes the empty list. */
  lemma ChartPassThrough(arguments: Object, k: string)
    requires k in {"chart_type", "title", "data"}
    ensures k in arguments ==> ExecuteTool("show_chart", arguments)[k] == arguments[k]
    ensures k !in arguments ==> ExecuteTool("show_chart", arguments)[k] == (if k == "data" then JArr([]) else JNull)
  {
  }

  /** A chart kind outside the schema's enum is passed through as is. */
  lemma UnlistedChartTypePassesThrough(arguments: Object)
    requires "chart_type" in arguments
    requires arguments["chart_type"] == JStr("donut")
    ensures JStr("donut") !in ToolDefinitions[0].spec.parameters.fields["properties"].fields["chart_type"].fields["enum"].items
    ensures ExecuteTool("show_chart", arguments)["chart_type"] == JStr("donut")
  {
  }

  /** A chart call whose arguments hold exactly the three schema keys comes
      back as the arguments themselves. */
  lemma ChartIdentityOnSchemaKeys(arguments: Object)
    requires arguments.Keys == {"chart_type", "title", "data"}
    ensures ExecuteTool("show_chart", arguments) == arguments
  {
  }

  /** Metrics pass through; a missing list becomes the empty one. */
  lemma MetricsPassThrough(arguments: Object)
    ensures ExecuteTool("show_metrics", arguments)
      == map["metrics" := if "metrics" in arguments then arguments["metrics"] else JArr([])]
  {
  }

  /** The caller's side of `execute_tool(name, json.loads(s))`: the parsed
      value is only touched (with `.get`) by the two known tools, so a value
      that is not an object makes exactly those raise (None here). */
  function ApplyTool(name: string, parsed: Json): (r: Option<Object>)
    ensures parsed.JObj? ==> r == Some(ExecuteTool(name, parsed.fields))
    ensures r.None? <==> (!parsed.JObj? && name in KnownTools)
    ensures !parsed.JObj? && name !in KnownTools ==> r == Some(map["error" := JStr("Unknown tool: " + name)])
  {
    if parsed.JObj? then Some(ExecuteTool(name, parsed.fields))
    else if name in KnownTools then None
    else Some(ExecuteTool(name, map[]))
  }
}
