/** The mode records of backend/modes.py: a mode is an industry
    configuration (theme, navigation tabs, default metrics, assistant
    instructions). There is no behaviour here, only the shapes the other
    modules build and read. */
module Modes {
  import opened Wrappers

  /** The six theme colours, each a hex colour string. */
  datatype ModeTheme = ModeTheme(
    primary: string,
    secondary: string,
    background: string,
    surface: string,
    text: string,
    textMuted: string)

  /** `caption` is the source's `label` (a reserved word in Dafny). */
  datatype ModeTab = ModeTab(id: string, caption: string, icon: string)

  /** A metric's value is a string or a number (`str | int | float`). */
  datatype MetricValue = TextValue(s: string) | NumberValue(n: int)

  datatype ModeMetric = ModeMetric(caption: string, value: MetricValue, unit: Option<string>)

  datatype Mode = Mode(
    id: string,
    name: string,
    theme: ModeTheme,
    tabs: seq<ModeTab>,
    systemPrompt: string,
    defaultMetrics: seq<ModeMetric>)
}
