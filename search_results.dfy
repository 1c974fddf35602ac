/**
 * `SearchResultsComponent`, the search page: the query taken from the `q` route
 * parameter and the cards it finds.
 */
module SearchResults {
  import opened Wrappers
  import opened ChartData
  import opened CardSearch

  class SearchResultsComponent {
    /** The card table the page searches, `CHART_CARDS`. */
    const cards: seq<ChartCard>
    var searchQuery: string
    var results: seq<ChartCard>

    constructor()
      ensures cards == ChartCards
      ensures searchQuery == "" && results == []
    {
      cards := ChartCards;
      searchQuery := "";
      results := [];
    }

    /** `performSearch`: no result for a blank query, otherwise the cards of the table
        whose text contains the trimmed, lowered query, in table order. */
    method PerformSearch()
      modifies this`results
      ensures results == SearchFilter(cards, searchQuery)
      ensures Query(searchQuery) == "" ==> results == []
      ensures forall c :: c in results <==> Query(searchQuery) != "" && c in cards && Matches(c, Query(searchQuery))
    {
      var query := Query(searchQuery);
      if query == "" {
        results := [];
        return;
      }
      results := Filter(cards, query);
    }

    /** The `queryParams` subscription: `params['q'] || ''`, then a search. */
    method OnQueryParams(q: Option<string>)
      modifies this`searchQuery, this`results
      ensures searchQuery == q.GetOr("")
      ensures results == SearchFilter(cards, searchQuery)
      ensures q.None? ==> results == []
    {
      searchQuery := q.GetOr("");
      PerformSearch();
    }
  }
}
