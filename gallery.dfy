/**
 * `AllChartsExampleComponent`, the gallery page: the search term, the theme flag,
 * the set of open code panels, the "copied" badges, and the map from card id to
 * the Chart.js instance drawn on that card's canvas.
 *
 * The browser is reached through parameters: whether the page runs in a browser
 * is fixed at construction, which canvases exist and what each renderer returns
 * are handed to the render methods, and the clipboard and the export service are
 * represented by what would be sent to them.
 */
module Gallery {
  import opened Wrappers
  import opened ChartData
  import opened ChartRenderers
  import opened CardSearch

  /** A Chart.js instance; only its identity matters here. */
  datatype ChartHandle = ChartHandle(serial: nat)

  /** The five export actions offered per card. */
  datatype ExportKind = PngImage | JpegImage | DataJson | DataCsv | PrintOut

  /** One call into the export service: which action, on which chart, with which file
      name (or print title). */
  datatype ExportRequest = ExportRequest(kind: ExportKind, chart: ChartHandle, name: string)

  /** `set.has(id) ? set.delete(id) : set.add(id)` */
  function Toggle(s: set<string>, id: string): (r: set<string>)
    ensures id in r <==> id !in s
    ensures forall x :: x != id ==> (x in r <==> x in s)
  {
    if id in s then s - {id} else s + {id}
  }

  /** Toggling the same panel twice restores the set. */
  lemma ToggleTwice(s: set<string>, id: string)
    ensures Toggle(Toggle(s, id), id) == s
  {
  }

  /** Toggling two panels commutes. */
  lemma ToggleCommutes(s: set<string>, a: string, b: string)
    ensures Toggle(Toggle(s, a), b) == Toggle(Toggle(s, b), a)
  {
  }

  /** `renderChart(card)` on the map and on the set of destroyed charts, given whether
      the canvas exists and what the renderer returned (`None` for a falsy result or a
      thrown error). An instance already under the id is destroyed but stays in the
      map unless a new one replaces it. */
  function RenderOne(id: string, canvasPresent: bool, rendered: Option<ChartHandle>,
                     instances: map<string, ChartHandle>, destroyed: set<ChartHandle>)
    : (r: (map<string, ChartHandle>, set<ChartHandle>))
  {
    if !canvasPresent then (instances, destroyed)
    else
      var d := if id in instances then destroyed + {instances[id]} else destroyed;
      var m := if id in ChartRenderersTable && rendered.Some? then instances[id := rendered.value] else instances;
      (m, d)
  }

  /** What one render does to the map: only `id` can change, and it is set exactly
      when the canvas exists, the id has a renderer and the renderer gave a chart. */
  lemma RenderOneEffect(id: string, canvasPresent: bool, rendered: Option<ChartHandle>,
                        instances: map<string, ChartHandle>, destroyed: set<ChartHandle>)
    ensures var (m, d) := RenderOne(id, canvasPresent, rendered, instances, destroyed);
            && (forall x :: x != id ==> (x in m <==> x in instances) && (x in m ==> m[x] == instances[x]))
            && (canvasPresent && id in ChartRenderersTable && rendered.Some? ==> id in m && m[id] == rendered.value)
            && (!(canvasPresent && id in ChartRenderersTable && rendered.Some?) ==> m == instances)
            && destroyed <= d
            && (d == destroyed || (canvasPresent && id in instances && d == destroyed + {instances[id]}))
  {
  }

  /** The id's result in the browser: `None` when its canvas is missing. */
  function Output(outputs: map<string, ChartHandle>, id: string): Option<ChartHandle> {
    if id in outputs then Some(outputs[id]) else None
  }

  /** `cards.forEach(card => this.renderChart(card))`, written over the cards rendered
      so far. */
  function RenderPass(cards: seq<ChartCard>, canvases: set<string>, outputs: map<string, ChartHandle>,
                      instances: map<string, ChartHandle>, destroyed: set<ChartHandle>)
    : (r: (map<string, ChartHandle>, set<ChartHandle>))
    decreases |cards|
  {
    if |cards| == 0 then (instances, destroyed)
    else
      var n := |cards| - 1;
      var prev := RenderPass(cards[..n], canvases, outputs, instances, destroyed);
      RenderOne(cards[n].id, cards[n].id in canvases, Output(outputs, cards[n].id), prev.0, prev.1)
  }

  /** From an empty map, and with distinct ids, a render pass destroys nothing and
      registers exactly the cards that have a canvas, a renderer and a chart. */
  lemma {:induction false} RenderPassFromEmpty(cards: seq<ChartCard>, canvases: set<string>,
                                               outputs: map<string, ChartHandle>, destroyed: set<ChartHandle>)
    requires DistinctIds(cards)
    ensures var (m, d) := RenderPass(cards, canvases, outputs, map[], destroyed);
            && d == destroyed
            && (forall id :: id in m <==>
                  id in Ids(cards) && id in canvases && id in ChartRenderersTable && id in outputs)
            && (forall id :: id in m ==> m[id] == outputs[id])
    decreases |cards|
  {
    if |cards| > 0 {
      var n := |cards| - 1;
      var front := cards[..n];
      assert DistinctIds(front) by {
        forall i, j | 0 <= i < j < |front| ensures front[i].id != front[j].id {
          assert front[i] == cards[i] && front[j] == cards[j];
        }
      }
      RenderPassFromEmpty(front, canvases, outputs, destroyed);
      var prev := RenderPass(front, canvases, outputs, map[], destroyed);
      var id := cards[n].id;
      assert id !in Ids(front) by {
        forall k | 0 <= k < |front| ensures Ids(front)[k] != id {
          assert front[k] == cards[k];
        }
      }
      RenderOneEffect(id, id in canvases, Output(outputs, id), prev.0, prev.1);
      forall x ensures x in Ids(cards) <==> x in Ids(front) || x == id {
        if x in Ids(cards) {
          var k :| 0 <= k < |cards| && Ids(cards)[k] == x;
          if k < n { assert Ids(front)[k] == x; }
        }
        if x in Ids(front) {
          var k :| 0 <= k < |front| && Ids(front)[k] == x;
          assert Ids(cards)[k] == x;
        }
        if x == id { assert Ids(cards)[n] == x; }
      }
    }
  }

  class GalleryComponent {
    const chartCards: seq<ChartCard>
    /** `isPlatformBrowser(this.platformId)` */
    const isBrowser: bool
    var isLightMode: bool
    var searchTerm: string
    var visibleCodePanels: set<string>
    var copiedStates: map<string, bool>
    var chartInstances: map<string, ChartHandle>
    /** The charts `destroy()` has been called on. */
    var destroyed: set<ChartHandle>

    /** The cards have distinct ids, each with a renderer, and only ids with a renderer
        hold a chart. */
    ghost predicate Valid()
      reads this
    {
      && DistinctIds(chartCards)
      && (forall k :: 0 <= k < |chartCards| ==> chartCards[k].id in ChartRenderersTable)
      && (forall id :: id in chartInstances ==> id in ChartRenderersTable)
    }

    constructor(isBrowser: bool)
      ensures Valid()
      ensures chartCards == ChartCards
      ensures this.isBrowser == isBrowser && !isLightMode && searchTerm == ""
      ensures visibleCodePanels == {} && copiedStates == map[] && chartInstances == map[] && destroyed == {}
    {
      chartCards := ChartCards;
      this.isBrowser := isBrowser;
      isLightMode := false;
      searchTerm := "";
      visibleCodePanels := {};
      copiedStates := map[];
      chartInstances := map[];
      destroyed := {};
      new;
      ChartCardsDistinctIds();
      forall k | 0 <= k < |ChartCards| ensures ChartCards[k].id in ChartRenderersTable {
        assert Ids(ChartCards)[k] == ChartCards[k].id;
        CardsMatchRenderers();
      }
    }

    /** The `searchTerm` setter; the debounced re-render it schedules is `RenderAllCharts`. */
    method SetSearchTerm(value: string)
      modifies this`searchTerm
      ensures searchTerm == value
    {
      searchTerm := value;
    }

    /** `toggleTheme`: flips the flag in a browser, does nothing elsewhere. */
    method ToggleTheme()
      modifies this`isLightMode
      ensures isLightMode == if isBrowser then !old(isLightMode) else old(isLightMode)
    {
      if !isBrowser {
        return;
      }
      isLightMode := !isLightMode;
    }

    /** `filteredCards`: the cards that match the query; every card when it is empty. */
    function FilteredCards(): (r: seq<ChartCard>)
      reads this`searchTerm
      ensures Query(searchTerm) == "" ==> r == chartCards
      ensures |r| <= |chartCards|
    {
      GalleryFilter(chartCards, searchTerm)
    }

    /** The filtered cards are exactly the cards that match the query, in table order. */
    lemma FilteredCardsMatch()
      ensures forall c :: c in FilteredCards() <==> c in chartCards && Matches(c, Query(searchTerm))
      ensures FilteredCards() == Filter(chartCards, Query(searchTerm))
    {
      GalleryIsFilter(chartCards, searchTerm);
    }

    /** A panel is open exactly when toggling it would close it. */
    predicate IsCodePanelVisible(chartId: string)
      reads this
      ensures IsCodePanelVisible(chartId) <==> chartId !in Toggle(visibleCodePanels, chartId)
    {
      chartId in visibleCodePanels
    }

    /** `toggleCodePanel`: flips this panel and no other. */
    method ToggleCodePanel(chartId: string)
      modifies this`visibleCodePanels
      ensures visibleCodePanels == Toggle(old(visibleCodePanels), chartId)
      ensures IsCodePanelVisible(chartId) == !old(IsCodePanelVisible(chartId))
    {
      if chartId in visibleCodePanels {
        visibleCodePanels := visibleCodePanels - {chartId};
      } else {
        visibleCodePanels := visibleCodePanels + {chartId};
      }
    }

    /** `copiedStates.get(chartId) || false` */
    function IsCopied(chartId: string): (r: bool)
      reads this
      ensures chartId !in copiedStates ==> !r
      ensures r <==> chartId in copiedStates && copiedStates[chartId]
    {
      if chartId in copiedStates then copiedStates[chartId] else false
    }

    /** `getChartTitle`: the title of the first card with the id, or the id itself when
        there is no such card or its title is empty. */
    function GetChartTitle(chartId: string): (r: string)
      ensures FindById(chartCards, chartId).None? ==> r == chartId
      ensures FindById(chartCards, chartId).Some? && FindById(chartCards, chartId).value.title != ""
              ==> r == FindById(chartCards, chartId).value.title
      ensures FindById(chartCards, chartId).Some? && FindById(chartCards, chartId).value.title == "" ==> r == chartId
      ensures r == "" ==> chartId == ""
    {
      var card := FindById(chartCards, chartId);
      if card.Some? && card.value.title != "" then card.value.title else chartId
    }

    /** The file name (for a print, the title) each export passes to the service. */
    function ExportName(kind: ExportKind, chartId: string): string {
      match kind
      case PngImage => chartId + "-chart"
      case JpegImage => chartId + "-chart"
      case DataJson => chartId + "-data"
      case DataCsv => chartId + "-data"
      case PrintOut => GetChartTitle(chartId) + " Chart"
    }

    /** `exportChartAsPNG`, `exportChartAsJPEG`, `exportChartData`, `exportChartCSV` and
        `printChart`: the service is called only when a chart is registered under the id. */
    method RequestExport(kind: ExportKind, chartId: string) returns (request: Option<ExportRequest>)
      ensures request.Some? <==> chartId in chartInstances
      ensures request.Some? ==> request.value == ExportRequest(kind, chartInstances[chartId], ExportName(kind, chartId))
    {
      if chartId in chartInstances {
        var chart := chartInstances[chartId];
        request := Some(ExportRequest(kind, chart, ExportName(kind, chartId)));
      } else {
        request := None;
      }
    }

    /** `copyChartCode`: the text written to the clipboard, if any. The badge is set
        when the write completes (`OnCopied`). */
    method CopyChartCode(chartId: string) returns (clipboardText: Option<string>)
      ensures clipboardText.Some? <==> isBrowser && exists k :: 0 <= k < |chartCards| && chartCards[k].id == chartId
      ensures clipboardText.Some? ==> clipboardText.value == FindById(chartCards, chartId).value.snippet
    {
      var chart := FindById(chartCards, chartId);
      if chart.Some? && isBrowser {
        clipboardText := Some(chart.value.snippet);
      } else {
        clipboardText := None;
      }
    }

    /** The clipboard promise resolved: the card shows as copied. */
    method OnCopied(chartId: string)
      modifies this`copiedStates
      ensures copiedStates == old(copiedStates)[chartId := true]
      ensures IsCopied(chartId)
    {
      copiedStates := copiedStates[chartId := true];
    }

    /** The two-second timer fired: the badge is removed again. */
    method OnCopyExpired(chartId: string)
      modifies this`copiedStates
      ensures copiedStates == old(copiedStates) - {chartId}
      ensures !IsCopied(chartId)
    {
      copiedStates := copiedStates - {chartId};
    }

    /** Destroys every registered chart and empties the map: `ngOnDestroy`, and the
        first phase of `renderAllCharts`. */
    method ClearCharts()
      modifies this`chartInstances, this`destroyed
      ensures chartInstances == map[]
      ensures destroyed == old(destroyed) + old(chartInstances).Values
    {
      destroyed := destroyed + chartInstances.Values;
      chartInstances := map[];
    }

    method NgOnDestroy()
      modifies this`chartInstances, this`destroyed
      ensures chartInstances == map[]
      ensures destroyed == old(destroyed) + old(chartInstances).Values
    {
      ClearCharts();
    }

    /** `renderChart(card)`: `canvasPresent` is `document.getElementById(card.id)` being
        found, `rendered` what the renderer returned. */
    method RenderChart(card: ChartCard, canvasPresent: bool, rendered: Option<ChartHandle>)
      requires Valid()
      modifies this`chartInstances, this`destroyed
      ensures Valid()
      ensures (chartInstances, destroyed) == RenderOne(card.id, canvasPresent, rendered, old(chartInstances), old(destroyed))
    {
      if !canvasPresent {
        // console.warn: no canvas for this card
        return;
      }
      if card.id in chartInstances {
        destroyed := destroyed + {chartInstances[card.id]};
      }
      if card.id in ChartRenderersTable {
        if rendered.Some? {
          chartInstances := chartInstances[card.id := rendered.value];
        }
      }
    }

    /** `cards.forEach(card => this.renderChart(card))`. */
    method RenderCards(cards: seq<ChartCard>, canvases: set<string>, outputs: map<string, ChartHandle>)
      requires Valid()
      modifies this`chartInstances, this`destroyed
      ensures Valid()
      ensures (chartInstances, destroyed) == RenderPass(cards, canvases, outputs, old(chartInstances), old(destroyed))
    {
      var i := 0;
      while i < |cards|
        invariant 0 <= i <= |cards|
        invariant Valid()
        invariant (chartInstances, destroyed) == RenderPass(cards[..i], canvases, outputs, old(chartInstances), old(destroyed))
      {
        var card := cards[i];
        RenderChart(card, card.id in canvases, Output(outputs, card.id));
        assert cards[..i + 1][..i] == cards[..i];
        i := i + 1;
      }
      assert cards[..i] == cards;
    }

    /** `renderAllCharts`, both phases: afterwards the map holds exactly the filtered
        cards whose canvas exists and whose renderer gave a chart, and every chart
        registered before has been destroyed. */
    method RenderAllCharts(canvases: set<string>, outputs: map<string, ChartHandle>)
      requires Valid()
      modifies this`chartInstances, this`destroyed
      ensures Valid()
      ensures forall id :: id in chartInstances <==> id in Ids(FilteredCards()) && id in canvases && id in outputs
      ensures forall id :: id in chartInstances ==> chartInstances[id] == outputs[id]
      ensures destroyed == old(destroyed) + old(chartInstances).Values
    {
      ClearCharts();
      var cards := FilteredCards();
      RenderCards(cards, canvases, outputs);
      FilteredCardsTable();
      RenderPassFromEmpty(FilteredCards(), canvases, outputs, old(destroyed) + old(chartInstances).Values);
    }

    /** The filtered cards have distinct ids, all of them renderer keys. */
    lemma FilteredCardsTable()
      requires Valid()
      ensures DistinctIds(FilteredCards())
      ensures forall id :: id in Ids(FilteredCards()) ==> id in ChartRenderersTable
    {
      var q := Query(searchTerm);
      assert FilteredCards() == Filter(chartCards, q) by {
        GalleryIsFilter(chartCards, searchTerm);
      }
      FilterDistinct(chartCards, q);
      FilterIdsWithin(chartCards, q, ChartRenderersTable.Keys);
    }
  }

  /** With distinct ids and non-empty titles, which the card table has (ChartCardsDistinctIds,
      ChartCardsComplete), every card is titled by its own title. */
  lemma CardTitles(g: GalleryComponent)
    requires g.Valid()
    requires forall k :: 0 <= k < |g.chartCards| ==> g.chartCards[k].title != ""
    ensures forall k :: 0 <= k < |g.chartCards| ==> g.GetChartTitle(g.chartCards[k].id) == g.chartCards[k].title
  {
    forall k | 0 <= k < |g.chartCards| ensures g.GetChartTitle(g.chartCards[k].id) == g.chartCards[k].title {
      FindByIdDistinct(g.chartCards, k);
    }
  }

  /** The print title of a titled card: its own title followed by " Chart". */
  lemma PrintTitle(g: GalleryComponent, k: nat)
    requires g.Valid() && k < |g.chartCards| && g.chartCards[k].title != ""
    ensures g.ExportName(PrintOut, g.chartCards[k].id) == g.chartCards[k].title + " Chart"
  {
    FindByIdDistinct(g.chartCards, k);
  }
}
