/** Post-processing of a language model's mode configuration
    (backend/mode_generator.py): removing a markdown code fence around the
    reply, filling in defaults, validating the fields the `Mode` record
    requires and composing the assistant's system prompt. The model call is a
    parameter `llm` from the user prompt to the reply text (None when the call
    raises or returns no choice). */
module ModeGenerator {
  import opened Wrappers
  import opened Strings
  import opened Json
  import opened Modes
  import Color

  const Fence := "```"

  /** The code-fence removal applied to the model's reply before parsing. */
  function Unfence(content: string): (r: string)
    ensures !StartsWith(Strip(content), Fence) ==> r == Strip(content)
  {
    var s := Strip(content);
    if !StartsWith(s, Fence) then s
    else
      // the first line is the opening fence line, so it always goes
      var lines := Split(s, '\n')[1..];
      var kept := if |lines| > 0 && Strip(lines[|lines| - 1]) == Fence then lines[..|lines| - 1] else lines;
      Join(kept, "\n")
  }

  /** The opening fence line is the first piece of the split. */
  lemma OpeningLine(tag: string, rest: string)
    requires '\n' !in tag
    ensures StartsWith(Fence + tag + "\n" + rest, Fence)
    ensures Split(Fence + tag + "\n" + rest, '\n')[1..] == Split(rest, '\n')
  {
    var head := Fence + tag;
    var s := Fence + tag + "\n" + rest;
    assert s == head + ['\n'] + rest;
    assert s[..3] == Fence;
    SplitAppend(head, rest, '\n');
    assert '\n' !in head by {
      forall i | 0 <= i < |head| ensures head[i] != '\n' {
        if i >= 3 { assert head[i] == tag[i - 3]; }
      }
    }
    SplitNoSep(head, '\n');
  }

  /** A fenced block with an info string on the opening line comes back as
      the block's body, whatever lines the body holds. */
  lemma UnfenceFenced(tag: string, body: string)
    requires '\n' !in tag
    ensures Unfence(Fence + tag + "\n" + body + "\n" + Fence) == body
  {
    var rest := body + "\n" + Fence;
    var s := Fence + tag + "\n" + rest;
    assert s == Fence + tag + "\n" + body + "\n" + Fence;
    assert s[0] == '`' && s[|s| - 1] == '`';
    StripNoop(s);
    OpeningLine(tag, rest);
    assert rest == body + ['\n'] + Fence;
    SplitAppend(body, Fence, '\n');
    SplitNoSep(Fence, '\n');
    var lines := Split(s, '\n')[1..];
    assert lines == Split(body, '\n') + [Fence];
    StripNoop(Fence);
    assert lines[..|lines| - 1] == Split(body, '\n');
    JoinSplit(body, '\n');
  }

  /** The standard fence a model writes around JSON. */
  lemma UnfenceJsonExample()
    ensures Unfence("```json\n{\"a\": 1}\n```") == "{\"a\": 1}"
  {
    assert "```json\n{\"a\": 1}\n```" == Fence + "json" + "\n" + "{\"a\": 1}" + "\n" + Fence;
    UnfenceFenced("json", "{\"a\": 1}");
  }

  /** An opening fence without a closing one only loses its first line. */
  lemma UnfenceUnclosed(tag: string, body: string)
    requires '\n' !in tag && '\n' !in body
    requires |body| > 0 && !IsSpace(body[|body| - 1]) && Strip(body) != Fence
    ensures Unfence(Fence + tag + "\n" + body) == body
  {
    var s := Fence + tag + "\n" + body;
    assert s[0] == '`' && s[|s| - 1] == body[|body| - 1];
    StripNoop(s);
    OpeningLine(tag, body);
    SplitNoSep(body, '\n');
    assert Split(s, '\n')[1..] == [body];
  }

  /** The user message: the full request when there is one, otherwise a
      fixed request naming the industry. */
  function UserPrompt(industry: string, fullRequest: string): (r: string)
    ensures fullRequest != "" ==> r == fullRequest
    ensures fullRequest == "" ==> EndsWith(r, industry) && StartsWith(r, "Generate a dashboard configuration for: ")
  {
    if fullRequest != "" then fullRequest else "Generate a dashboard configuration for: " + industry
  }

  const ToolsContext: string :=
    "\nYou have access to visualization tools to display data in the dashboard:\n"
    + "- show_chart: Display charts (line, bar, pie, area) with data points\n"
    + "- show_metrics: Display key metrics/KPIs in the metrics panel\n"
    + "\n"
    + "IMPORTANT: When you use a visualization tool, you MUST ALWAYS also provide a brief text response describing what you're showing.\n"
    + "\n"
    + "For historical data (trends over time, usage patterns, etc.), generate plausible data going back 12 months with monthly data points, showing realistic patterns. This is a demo app - create compelling visualizations!\n"
    + "\n"
    + "CHART PREFERENCE: For time-series data (anything \"over time\"), always use LINE charts with 12 monthly data points. Use BAR charts only for comparing discrete categories. Use PIE charts for showing composition/breakdown."

  /** The personality traits as strings, or None when `", ".join` would
      raise: a value that is not iterable, or a list holding a non-string.
      A string is joined character by character. Python joins the keys of
      an object; their order is lost in the map that models it, so only an
      empty object is accepted here. */
  function Traits(config: Object): (r: Option<seq<string>>)
    ensures "personality_traits" !in config ==> r == Some([])
    ensures var v := GetOr(config, "personality_traits", JArr([]));
      (v.JArr? ==> (r.Some? <==> forall i :: 0 <= i < |v.items| ==> v.items[i].JStr?))
      && (v.JArr? && r.Some? ==>
            |r.value| == |v.items| && forall i :: 0 <= i < |v.items| ==> v.items[i] == JStr(r.value[i]))
      && (v.JStr? ==> r.Some? && |r.value| == |v.s| && forall i :: 0 <= i < |v.s| ==> r.value[i] == [v.s[i]])
      && (v.JObj? ==> (r.Some? <==> v.fields == map[]))
      && (v.JNull? || v.JBool? || v.JNum? ==> r.None?)
  {
    var items :- Iterated(GetOr(config, "personality_traits", JArr([])));
    AllStrings(items)
  }

  /** The prompt: a head naming the industry, the fragment and traits, and
      a tail closing with the tools context `context` (the source's is
      `ToolsContext`). */
  function PromptText(name: string, fragment: string, traits: seq<string>, context: string): string {
    PromptHead(name) + PromptBody(name, fragment, traits) + PromptTail(context)
  }

  function PromptHead(name: string): string {
    "You are a helpful assistant for a " + Lower(name) + " dashboard. "
  }

  function PromptBody(name: string, fragment: string, traits: seq<string>): string {
    fragment + "\n\nYour personality: " + Join(traits, ", ")
    + "\n\nKeep responses clear, professional, and concise. Speak naturally like a friendly "
    + Lower(name)
  }

  function PromptTail(context: string): string {
    " expert.\n" + context
  }

  lemma PromptTextShape(name: string, fragment: string, traits: seq<string>, context: string)
    ensures StartsWith(PromptText(name, fragment, traits, context), PromptHead(name))
    ensures EndsWith(PromptText(name, fragment, traits, context), PromptTail(context))
  {
    var h, b, t := PromptHead(name), PromptBody(name, fragment, traits), PromptTail(context);
    assert (h + b + t)[..|h|] == h;
    assert (h + b + t)[|h + b|..] == t;
  }

  /** _build_full_system_prompt; None for the exceptions it can raise. The
      prompt opens by naming the lower-cased industry (default "general")
      and closes with the tools context. */
  function BuildFullSystemPrompt(config: Object, context: string): (r: Option<string>)
    ensures r.Some? <==> StringOr(config, "industry_name", "general").Some? && Traits(config).Some?
    ensures r.Some? ==>
      var name := StringOr(config, "industry_name", "general").value;
      StartsWith(r.value, PromptHead(name)) && EndsWith(r.value, PromptTail(context))
  {
    var name :- StringOr(config, "industry_name", "general");
    var traits :- Traits(config);
    var fragment := Show(GetOr(config, "system_prompt_fragment", JStr("")));
    PromptTextShape(name, fragment, traits, context);
    Some(PromptText(name, fragment, traits, context))
  }

  /** With nothing configured the prompt names a "general" dashboard, has an
      empty fragment and lists no traits. */
  lemma EmptyConfigPrompt(context: string)
    ensures BuildFullSystemPrompt(map[], context) == Some(PromptText("general", "", [], context))
  {
    assert StringOr(map[], "industry_name", "general") == Some("general");
    assert Traits(map[]) == Some([]);
    assert Show(GetOr(map[], "system_prompt_fragment", JStr(""))) == "";
  }

  lemma GeneralHead()
    ensures PromptHead("general") == "You are a helpful assistant for a general dashboard. "
  {
    assert Lower("general") == "general";
  }

  /** The traits are listed in order, separated by ", ". */
  lemma TraitsListed(config: Object, a: string, b: string, context: string)
    requires config == map["personality_traits" := JArr([JStr(a), JStr(b)])]
    ensures BuildFullSystemPrompt(config, context).Some?
    ensures Traits(config) == Some([a, b])
    ensures Join(Traits(config).value, ", ") == a + ", " + b
  {
    var items := [JStr(a), JStr(b)];
    assert Iterated(config["personality_traits"]) == Some(items);
    var rest := items[1..];
    assert rest == [JStr(b)];
    assert rest[1..] == [];
    assert AllStrings(rest[1..]) == Some([]);
    assert [rest[0].s] + [] == [b];
    assert AllStrings(rest) == Some([b]);
    assert [items[0].s] + [b] == [a, b];
  }

  /** The default icon exactly as the source spells it: the UTF-8 bytes of
      the clipboard emoji read back as Windows-1252 text. */
  const DefaultIcon: string := "\U{F0}\U{178}\U{201C}\U{2039}"

  const DefaultPrimary := "#4CAF50"

  /** A required string field (a missing key is `None`, which fails
      validation). */
  function Required(d: Object, key: string): (r: Option<string>)
    ensures r.Some? <==> key in d && d[key].JStr?
    ensures r.Some? ==> d[key] == JStr(r.value)
  {
    match Get(d, key)
    case Some(JStr(s)) => Some(s)
    case _ => None
  }

  /** `ModeTab(id=t.get("id"), label=t.get("label"), icon=t.get("icon", ...))` */
  function ToTab(t: Json): (r: Option<ModeTab>)
    ensures r.Some? ==> (t.JObj? && Get(t.fields, "id") == Some(JStr(r.value.id))
                         && Get(t.fields, "label") == Some(JStr(r.value.caption)))
    ensures r.Some? && "icon" !in t.fields ==> r.value.icon == DefaultIcon
    ensures r.Some? && "icon" in t.fields ==> t.fields["icon"] == JStr(r.value.icon)
  {
    if !t.JObj? then None
    else
      var id :- Required(t.fields, "id");
      var caption :- Required(t.fields, "label");
      var icon :- StringOr(t.fields, "icon", DefaultIcon);
      Some(ModeTab(id, caption, icon))
  }

  /** A metric value is `str | int | float`; floats are not modelled. */
  function ToMetricValue(j: Json): (r: Option<MetricValue>)
    ensures r.Some? <==> j.JStr? || j.JNum?
  {
    match j
    case JStr(s) => Some(TextValue(s))
    case JNum(n) => Some(NumberValue(n))
    case _ => None
  }

  /** `ModeMetric(label=m.get("label"), value=m.get("value"), unit=m.get("unit"))` */
  function ToMetric(m: Json): (r: Option<ModeMetric>)
    ensures r.Some? ==> m.JObj? && Get(m.fields, "label") == Some(JStr(r.value.caption))
    ensures r.Some? ==> "value" in m.fields && ToMetricValue(m.fields["value"]) == Some(r.value.value)
    ensures r.Some? ==> (r.value.unit.None? <==> GetOr(m.fields, "unit", JNull) == JNull)
  {
    if !m.JObj? then None
    else
      var caption :- Required(m.fields, "label");
      var value :- ToMetricValue(GetOr(m.fields, "value", JNull));
      var unit :- match GetOr(m.fields, "unit", JNull)
        case JNull => Some(None)
        case JStr(u) => Some(Some(u))
        case _ => None;
      Some(ModeMetric(caption, value, unit))
  }

  /** The tabs of a configuration, in order, one per listed entry. */
  function Tabs(config: Object): (r: Option<seq<ModeTab>>)
    ensures r.Some? ==> Iterated(GetOr(config, "tabs", JArr([]))).Some?
    ensures r.Some? ==>
      var items := Iterated(GetOr(config, "tabs", JArr([]))).value;
      |r.value| == |items| && forall i :: 0 <= i < |items| ==> ToTab(items[i]) == Some(r.value[i])
    ensures "tabs" !in config ==> r == Some([])
  {
    var items :- Iterated(GetOr(config, "tabs", JArr([])));
    MapAll(items, ToTab)
  }

  /** The default metrics of a configuration, in order, one per entry. */
  function Metrics(config: Object): (r: Option<seq<ModeMetric>>)
    ensures r.Some? ==> Iterated(GetOr(config, "default_metrics", JArr([]))).Some?
    ensures r.Some? ==>
      var items := Iterated(GetOr(config, "default_metrics", JArr([]))).value;
      |r.value| == |items| && forall i :: 0 <= i < |items| ==> ToMetric(items[i]) == Some(r.value[i])
    ensures "default_metrics" !in config ==> r == Some([])
  {
    var items :- Iterated(GetOr(config, "default_metrics", JArr([])));
    MapAll(items, ToMetric)
  }

  /** The theme derived from the configured primary colour. */
  function Theme(config: Object, complement: Color.Rgb -> Color.Rgb): (r: Option<ModeTheme>)
    ensures r.Some? ==> StringOr(config, "primary_color", DefaultPrimary).Some?
    ensures r.Some? ==>
      Color.DeriveThemePalette(StringOr(config, "primary_color", DefaultPrimary).value, complement) == r
  {
    var primary :- StringOr(config, "primary_color", DefaultPrimary);
    Color.DeriveThemePalette(primary, complement)
  }

  /** The `Mode(...)` construction of generate_mode from a decoded
      configuration object; None for any exception or validation error,
      and a mode only when every field validates (see BuildModeSucceeds). */
  function BuildMode(industry: string, config: Object, complement: Color.Rgb -> Color.Rgb, context: string)
    : (r: Option<Mode>)
    ensures r.Some? && "industry_id" !in config ==> r.value.id == ReplaceChar(Lower(industry), ' ', '_')
    ensures r.Some? && "industry_id" in config ==> config["industry_id"] == JStr(r.value.id)
    ensures r.Some? && "industry_name" !in config ==> r.value.name == Title(industry)
    ensures r.Some? && "industry_name" in config ==> config["industry_name"] == JStr(r.value.name)
    ensures r.Some? ==> Theme(config, complement) == Some(r.value.theme)
    ensures r.Some? ==> Tabs(config) == Some(r.value.tabs)
    ensures r.Some? ==> BuildFullSystemPrompt(config, context) == Some(r.value.systemPrompt)
    ensures r.Some? ==> Metrics(config) == Some(r.value.defaultMetrics)
  {
    // the fields are read in this order and the first failure raises; the
    // reads have no effects, so only whether all succeed matters
    var id := StringOr(config, "industry_id", ReplaceChar(Lower(industry), ' ', '_'));
    var name := StringOr(config, "industry_name", Title(industry));
    var theme := Theme(config, complement);
    var tabs := Tabs(config);
    var prompt := BuildFullSystemPrompt(config, context);
    var metrics := Metrics(config);
    if id.Some? && name.Some? && theme.Some? && tabs.Some? && prompt.Some? && metrics.Some? then
      Some(Mode(id.value, name.value, theme.value, tabs.value, prompt.value, metrics.value))
    else None
  }

  /** A mode is built exactly when every field it reads validates. */
  lemma BuildModeSucceeds(industry: string, config: Object, complement: Color.Rgb -> Color.Rgb, context: string)
    ensures BuildMode(industry, config, complement, context).Some? <==>
      StringOrAbsent(config, "industry_id") && StringOrAbsent(config, "industry_name")
      && Theme(config, complement).Some? && Tabs(config).Some?
      && BuildFullSystemPrompt(config, context).Some? && Metrics(config).Some?
  {
    var id := StringOr(config, "industry_id", ReplaceChar(Lower(industry), ' ', '_'));
    var name := StringOr(config, "industry_name", Title(industry));
    assert id.Some? <==> StringOrAbsent(config, "industry_id");
    assert name.Some? <==> StringOrAbsent(config, "industry_name");
  }

  /** generate_mode: None exactly when the model call fails, the reply is
      empty, the unfenced reply does not decode to an object, or building
      the mode fails; it never raises. */
  function GenerateMode(
    industry: string, fullRequest: string,
    llm: string -> Option<string>, parse: string -> Option<Json>,
    complement: Color.Rgb -> Color.Rgb, context: string): (r: Option<Mode>)
    ensures r.Some? ==>
      var reply := llm(UserPrompt(industry, fullRequest));
      reply.Some? && reply.value != ""
      && parse(Unfence(reply.value)).Some? && parse(Unfence(reply.value)).value.JObj?
      && BuildMode(industry, parse(Unfence(reply.value)).value.fields, complement, context) == r
    ensures var reply := llm(UserPrompt(industry, fullRequest));
      reply.Some? && reply.value != ""
      && parse(Unfence(reply.value)).Some? && parse(Unfence(reply.value)).value.JObj? ==>
      r == BuildMode(industry, parse(Unfence(reply.value)).value.fields, complement, context)
    ensures llm(UserPrompt(industry, fullRequest)) == Some("") ==> r.None?
    ensures llm(UserPrompt(industry, fullRequest)).None? ==> r.None?
  {
    var content :- llm(UserPrompt(industry, fullRequest));
    if content == "" then None
    else
      var config :- parse(Unfence(content));
      if !config.JObj? then None
      else BuildMode(industry, config.fields, complement, context)
  }

  /** An empty configuration object yields every default: the industry's
      snake-cased id and title-cased name, the default green primary (a dark
      primary, so the dark scheme), no tabs, no metrics. */
  lemma EmptyConfigDefaults(industry: string, complement: Color.Rgb -> Color.Rgb, context: string)
    ensures BuildMode(industry, map[], complement, context).Some?
    ensures var m := BuildMode(industry, map[], complement, context).value;
      m.id == ReplaceChar(Lower(industry), ' ', '_') && m.name == Title(industry)
      && m.theme.primary == "#4caf50"
      && m.theme.background == Color.DarkBackground
      && m.tabs == [] && m.defaultMetrics == []
  {
    var none: Object := map[];
    DefaultTheme(complement);
    EmptyConfigPrompt(context);
    assert Tabs(none) == Some([]) && Metrics(none) == Some([]);
    BuildModeSucceeds(industry, none, complement, context);
    var m := BuildMode(industry, none, complement, context).value;
    assert Theme(none, complement) == Some(m.theme);
  }

  lemma DefaultTheme(complement: Color.Rgb -> Color.Rgb)
    ensures Theme(map[], complement).Some?
    ensures Theme(map[], complement).value.primary == "#4caf50"
    ensures Theme(map[], complement).value.background == Color.DarkBackground
  {
    var p := DefaultPrimary;
    assert StringOr(map[], "primary_color", p) == Some(p);
    DefaultPrimaryRgb(p);
    DefaultPrimaryLower();
    var c := Color.Rgb(76, 175, 80);
    assert Color.Max(c) == 175 && Color.Min(c) == 76;
    assert !Color.HlsDividesByZero(c) && !Color.IsLight(c);
    assert Theme(map[], complement) == Color.DeriveThemePalette(p, complement);
  }

  /** "#4CAF50" is (76, 175, 80). */
  lemma DefaultPrimaryRgb(s: string)
    requires s == DefaultPrimary
    ensures Color.HexToRgb(s) == Some(Color.Rgb(76, 175, 80))
  {
    var d := s[1..];
    assert s == Color.Hashes(1) + d;
    assert d[0] == '4' && d[1] == 'C' && d[2] == 'A' && d[3] == 'F' && d[4] == '5' && d[5] == '0';
    Color.HexToRgbDigits(1, d);
  }

  lemma DefaultPrimaryLower()
    ensures Color.NormalizePrimary(DefaultPrimary) == "#4caf50"
  {
    assert StartsWith(DefaultPrimary, "#");
    assert Lower(DefaultPrimary) == "#4caf50";
  }
}
