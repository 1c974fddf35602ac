/**
 * The renderer table of the gallery and the theme palette the renderers draw with.
 * The Chart.js configuration each renderer builds is not modelled; a renderer is
 * described by the chart type it asks for and by whether it installs the
 * leader-line label plugin (module PieLabels).
 */
module ChartRenderers {
  import opened ChartData

  /** One `render*Chart` function: the Chart.js chart type it creates and whether
      its configuration lists the `pieLabelsLine` plugin. */
  datatype Renderer = Renderer(name: string, chartType: string, labelPlugin: bool)

  /** `chartRenderers`: card id to renderer. */
  const ChartRenderersTable: map<string, Renderer> := map[
    "piechartwithplugin" := Renderer("renderPieWithPlugin", "pie", true),
    "barChart" := Renderer("renderBarChart", "bar", false),
    "scatterChart" := Renderer("renderScatterChart", "scatter", false),
    "radarChart" := Renderer("renderRadarChart", "radar", false),
    "polarChart" := Renderer("renderPolarChart", "polarArea", false),
    "lineChart" := Renderer("renderLineChart", "line", false),
    "bubbleChart" := Renderer("renderBubbleChart", "bubble", false),
    "areaChart" := Renderer("renderAreaChart", "line", false),
    "normalepiechart" := Renderer("renderBenefitsPie", "pie", false)
  ]

  /** The keys of the renderer table, in the order the table lists them. */
  lemma RendererKeys()
    ensures ChartRenderersTable.Keys == {"piechartwithplugin", "barChart", "scatterChart", "radarChart",
                                         "polarChart", "lineChart", "bubbleChart", "areaChart", "normalepiechart"}
  {
  }

  /** The card ids and the renderer table's keys are the same set, so every card
      can be drawn and no renderer is unreachable. */
  lemma CardsMatchRenderers()
    ensures forall id :: id in ChartRenderersTable <==> id in Ids(ChartCards)
  {
    ChartCardsIds();
    RendererKeys();
  }

  /** Only the first card's chart draws leader-line labels. */
  lemma OnlyOneRendererUsesLabelPlugin()
    ensures forall id :: id in ChartRenderersTable && ChartRenderersTable[id].labelPlugin <==> id == "piechartwithplugin"
  {
  }

  datatype TooltipColors = TooltipColors(background: string, text: string, border: string)

  /** The colours `getThemeColors` returns. */
  datatype ThemeColors = ThemeColors(
    text: string,
    grid: string,
    tooltip: TooltipColors,
    primary: seq<string>,
    border: seq<string>)

  /** `getThemeColors`, with the light-theme test of the document body as a parameter. */
  function GetThemeColors(isLight: bool): (r: ThemeColors)
    ensures |r.primary| == 8 && |r.border| == 8
    ensures r.tooltip.text == r.text
  {
    ThemeColors(
      text := if isLight then "#1a1a2e" else "#e6ecff",
      grid := if isLight then "rgba(0, 0, 0, 0.1)" else "rgba(255, 255, 255, 0.1)",
      tooltip := TooltipColors(
        background := if isLight then "rgba(255, 255, 255, 0.95)" else "rgba(12, 22, 48, 0.95)",
        text := if isLight then "#1a1a2e" else "#e6ecff",
        border := if isLight then "rgba(102, 240, 255, 0.3)" else "rgba(102, 240, 255, 0.5)"),
      primary := if isLight then [
        "rgba(0, 123, 255, 0.8)",
        "rgba(102, 16, 242, 0.8)",
        "rgba(220, 53, 69, 0.8)",
        "rgba(255, 193, 7, 0.8)",
        "rgba(40, 167, 69, 0.8)",
        "rgba(23, 162, 184, 0.8)",
        "rgba(108, 117, 125, 0.8)",
        "rgba(232, 62, 140, 0.8)"
      ] else [
        "rgba(102, 240, 255, 0.8)",
        "rgba(255, 124, 214, 0.8)",
        "rgba(138, 255, 160, 0.8)",
        "rgba(255, 218, 128, 0.8)",
        "rgba(180, 144, 255, 0.8)",
        "rgba(255, 160, 122, 0.8)",
        "rgba(127, 255, 212, 0.8)",
        "rgba(255, 182, 193, 0.8)"
      ],
      border := if isLight then [
        "rgba(0, 123, 255, 1)",
        "rgba(102, 16, 242, 1)",
        "rgba(220, 53, 69, 1)",
        "rgba(255, 193, 7, 1)",
        "rgba(40, 167, 69, 1)",
        "rgba(23, 162, 184, 1)",
        "rgba(108, 117, 125, 1)",
        "rgba(232, 62, 140, 1)"
      ] else [
        "rgba(102, 240, 255, 1)",
        "rgba(255, 124, 214, 1)",
        "rgba(138, 255, 160, 1)",
        "rgba(255, 218, 128, 1)",
        "rgba(180, 144, 255, 1)",
        "rgba(255, 160, 122, 1)",
        "rgba(127, 255, 212, 1)",
        "rgba(255, 182, 193, 1)"
      ])
  }
}
