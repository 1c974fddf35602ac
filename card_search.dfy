/**
 * The card search shared by the gallery (`filteredCards`) and the search page
 * (`performSearch`): the query is trimmed and lowered, and a card matches when its
 * lowered `"title about tag why"` text contains the query. The two callers differ
 * only in what an empty query gives: every card in the gallery, none on the
 * search page.
 */
module CardSearch {
  import opened Text
  import opened ChartData

  /** `${card.title} ${card.about} ${card.tag} ${card.why}` */
  function Haystack(card: ChartCard): string {
    card.title + " " + card.about + " " + card.tag + " " + card.why
  }

  /** `term.trim().toLowerCase()` */
  function Query(term: string): (r: string)
    ensures |r| <= |term|
    ensures forall i :: 0 <= i < |r| ==> !IsUpper(r[i])
  {
    Lower(Trim(term))
  }

  /** The filter callback: the lowered haystack includes the query. */
  predicate Matches(card: ChartCard, query: string)
    ensures query == "" ==> Matches(card, query)
  {
    Contains(Lower(Haystack(card)), query)
  }

  /** `cards.filter(card => Matches(card, query))`: keeps exactly the matching cards;
      FilterAppend and FilterSingle give their order. */
  function Filter(cards: seq<ChartCard>, query: string): (r: seq<ChartCard>)
    ensures |r| <= |cards|
    ensures forall c :: c in r ==> c in cards && Matches(c, query)
    ensures forall k :: 0 <= k < |cards| && Matches(cards[k], query) ==> cards[k] in r
    decreases |cards|
  {
    if |cards| == 0 then []
    else (if Matches(cards[0], query) then [cards[0]] else []) + Filter(cards[1..], query)
  }

  /** Filtering a concatenation filters each part, in order: together with the
      one-card case this pins the result down completely. */
  lemma {:induction false} FilterAppend(a: seq<ChartCard>, b: seq<ChartCard>, query: string)
    ensures Filter(a + b, query) == Filter(a, query) + Filter(b, query)
    decreases |a|
  {
    if |a| == 0 {
      assert a + b == b;
    } else {
      assert (a + b)[1..] == a[1..] + b;
      FilterAppend(a[1..], b, query);
    }
  }

  lemma FilterSingle(c: ChartCard, query: string)
    ensures Filter([c], query) == if Matches(c, query) then [c] else []
  {
    assert [c][1..] == [];
  }

  /** Filtering keeps the ids distinct, so a filtered list also has at most one card per id. */
  lemma {:induction false} FilterDistinct(cards: seq<ChartCard>, query: string)
    requires DistinctIds(cards)
    ensures DistinctIds(Filter(cards, query))
    decreases |cards|
  {
    if |cards| > 0 {
      var rest := cards[1..];
      assert DistinctIds(rest) by {
        forall i, j | 0 <= i < j < |rest| ensures rest[i].id != rest[j].id {
          assert rest[i] == cards[i + 1] && rest[j] == cards[j + 1];
        }
      }
      FilterDistinct(rest, query);
      var fr := Filter(rest, query);
      forall c | c in fr ensures c.id != cards[0].id {
        var k :| 0 <= k < |rest| && rest[k] == c;
        assert cards[k + 1] == c;
      }
      var head := if Matches(cards[0], query) then [cards[0]] else [];
      var r := head + fr;
      forall i, j | 0 <= i < j < |r| ensures r[i].id != r[j].id {
        if i < |head| {
          assert r[j] == fr[j - |head|] && r[j] in fr;
        } else {
          assert r[i] == fr[i - |head|] && r[j] == fr[j - |head|];
        }
      }
    }
  }

  /** Filtering keeps only ids the input had: an id every card's id belongs to, the
      filtered ids belong to as well. */
  lemma FilterIdsWithin(cards: seq<ChartCard>, query: string, keys: set<string>)
    requires forall k :: 0 <= k < |cards| ==> cards[k].id in keys
    ensures forall id :: id in Ids(Filter(cards, query)) ==> id in keys
  {
    var r := Filter(cards, query);
    forall id | id in Ids(r) ensures id in keys {
      var k :| 0 <= k < |r| && Ids(r)[k] == id;
      assert r[k] in cards;
      var j :| 0 <= j < |cards| && cards[j] == r[k];
    }
  }

  /** Every card matches the empty query (every text includes ""), so filtering by it
      keeps every card. */
  lemma {:induction false} FilterEmptyQuery(cards: seq<ChartCard>)
    ensures Filter(cards, "") == cards
    decreases |cards|
  {
    if |cards| > 0 {
      assert Matches(cards[0], "");
      FilterEmptyQuery(cards[1..]);
      assert [cards[0]] + cards[1..] == cards;
    }
  }

  /** `filteredCards`: every card for an empty query, the matching cards otherwise. */
  function GalleryFilter(cards: seq<ChartCard>, term: string): (r: seq<ChartCard>)
    ensures Query(term) == "" ==> r == cards
    ensures Query(term) != "" ==> r == Filter(cards, Query(term))
  {
    var query := Query(term);
    if query == "" then cards else Filter(cards, query)
  }

  /** `performSearch`: no card for an empty query, the matching cards otherwise. */
  function SearchFilter(cards: seq<ChartCard>, term: string): (r: seq<ChartCard>)
    ensures Query(term) == "" ==> r == []
    ensures Query(term) != "" ==> r == Filter(cards, Query(term))
  {
    var query := Query(term);
    if query == "" then [] else Filter(cards, query)
  }

  /** The gallery's early return changes nothing: it always equals the plain filter. */
  lemma GalleryIsFilter(cards: seq<ChartCard>, term: string)
    ensures GalleryFilter(cards, term) == Filter(cards, Query(term))
  {
    if Query(term) == "" {
      FilterEmptyQuery(cards);
    }
  }

  /** The two searches agree on every non-empty query and differ on an empty one
      exactly when there are cards. */
  lemma GalleryVersusSearch(cards: seq<ChartCard>, term: string)
    ensures Query(term) != "" ==> GalleryFilter(cards, term) == SearchFilter(cards, term)
    ensures Query(term) == "" ==> (GalleryFilter(cards, term) == SearchFilter(cards, term) <==> cards == [])
  {
  }

  /** Letter case in the query does not matter: trimming and lowering commute. */
  lemma QueryIgnoresCase(t1: string, t2: string)
    requires Lower(t1) == Lower(t2)
    ensures Query(t1) == Query(t2)
  {
    TrimLowerCommute(t1);
    TrimLowerCommute(t2);
  }

  /** Whitespace around the query does not matter. */
  lemma QueryIgnoresPadding(w1: string, t: string, w2: string)
    requires AllSpace(w1) && AllSpace(w2)
    ensures Query(w1 + t + w2) == Query(t)
  {
    TrimIgnoresPadding(w1, t, w2);
  }

  /** Upper-case letters and whitespace around the query change neither search. */
  lemma SearchesIgnoreCaseAndPadding(cards: seq<ChartCard>, w1: string, t1: string, w2: string, t2: string)
    requires AllSpace(w1) && AllSpace(w2) && Lower(t1) == Lower(t2)
    ensures GalleryFilter(cards, w1 + t1 + w2) == GalleryFilter(cards, t2)
    ensures SearchFilter(cards, w1 + t1 + w2) == SearchFilter(cards, t2)
  {
    QueryIgnoresPadding(w1, t1, w2);
    QueryIgnoresCase(t1, t2);
  }

  /** An all-whitespace term is an empty query. */
  lemma BlankTermIsEmptyQuery(term: string)
    requires AllSpace(term)
    ensures Query(term) == ""
  {
    assert TrimStart(term) == [] by {
      TrimStartAppendSpace(term, []);
      assert term + [] == term;
    }
    assert Trim(term) == [];
  }
}
