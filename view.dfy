/** The view renderer: what the flag grid and the status line display for the
    current list and language, as data rather than markup. */
module View {
  import opened Wrappers
  import opened JsText
  import opened I18n
  import opened Countries
  import opened Search

  /** What one flag card shows. The image's alternative text is the primary name. */
  datatype Card = Card(flag: Option<string>, primaryName: string, secondaryName: string, capitalText: string)

  /** The content of the flag grid: the page's initial loading text, the load
      error message, the empty-results message, or the cards. */
  datatype Grid = Loading | LoadFailed(message: string) | NoResults(message: string) | Cards(cards: seq<Card>)

  /** The per-card computation of `renderFlags`. */
  function CardFor(c: Country, lang: Lang): Card {
    Card(
      c.flag,
      NameIn(c.names, lang),
      if lang == En then c.names.ko else c.names.en,
      if c.capital != "" then c.capital else NoCapitalText(lang))
  }

  /** A card shows the country's flag and its name in the active language, the
      capital when there is one, and otherwise a non-empty placeholder. */
  lemma CardContents(c: Country, lang: Lang)
    ensures CardFor(c, lang).flag == c.flag
    ensures CardFor(c, lang).primaryName == NameIn(c.names, lang)
    ensures CardFor(c, lang).capitalText != ""
    ensures c.capital != "" ==> CardFor(c, lang).capitalText == c.capital
    ensures c.capital == "" ==> CardFor(c, lang).capitalText == NoCapitalText(lang)
  {
  }

  /** In English or Korean a card shows both the English and the Korean name,
      one as primary and the other as secondary name; in every other language
      the secondary name is the English one. */
  lemma CardPairsEnglishAndKorean(c: Country, lang: Lang)
    ensures lang == En || lang == Ko ==>
      multiset{CardFor(c, lang).primaryName, CardFor(c, lang).secondaryName}
        == multiset{c.names.en, c.names.ko}
    ensures lang != En ==> CardFor(c, lang).secondaryName == c.names.en
  {
  }

  /** `renderFlags`: the empty-results message of the language for an empty
      list, otherwise one card per country in list order. */
  function Render(filtered: seq<Country>, lang: Lang): (g: Grid)
    ensures g.NoResults? || g.Cards?
    ensures g.NoResults? <==> filtered == []
    ensures g.NoResults? ==> g.message == NoResultsText(lang)
    ensures g.Cards? ==> |g.cards| == |filtered|
  {
    if |filtered| == 0 then NoResults(NoResultsText(lang))
    else Cards(CardsFor(filtered, lang))
  }

  /** The `map` over the list that builds the cards. */
  function CardsFor(cs: seq<Country>, lang: Lang): (r: seq<Card>)
    ensures |r| == |cs|
  {
    if cs == [] then [] else [CardFor(cs[0], lang)] + CardsFor(cs[1..], lang)
  }

  /** The k-th card is computed from the k-th country of the list alone. */
  lemma {:induction false} CardsForAt(cs: seq<Country>, lang: Lang, k: nat)
    requires k < |cs|
    ensures CardsFor(cs, lang)[k] == CardFor(cs[k], lang)
  {
    if k > 0 {
      CardsForAt(cs[1..], lang, k - 1);
    }
  }

  /** The grid for a non-empty list holds one card per country, the k-th
      computed from the k-th country alone. */
  lemma RenderCardAt(filtered: seq<Country>, lang: Lang, k: nat)
    requires k < |filtered|
    ensures Render(filtered, lang).Cards?
    ensures Render(filtered, lang).cards[k] == CardFor(filtered[k], lang)
  {
    CardsForAt(filtered, lang, k);
  }

  /** A non-blank query shows the empty-results message exactly when no country
      of the full list matches it, and never the load error message. */
  lemma NoResultsIffNothingMatches(all: seq<Country>, query: string, lang: Lang)
    requires SearchTerm(query) != ""
    ensures Render(SearchResult(all, query, lang), lang).NoResults?
        <==> forall c :: c in all ==> !Matches(c, lang, SearchTerm(query))
    ensures !Render(SearchResult(all, query, lang), lang).LoadFailed?
  {
    var r := SearchResult(all, query, lang);
    if r != [] {
      SearchResultMembers(all, query, lang, r[0]);
    } else {
      forall c | c in all
        ensures !Matches(c, lang, SearchTerm(query))
      {
        SearchResultMembers(all, query, lang, c);
      }
    }
  }

  /** `updateCount`: the total when the search box is blank after trimming,
      otherwise the number found out of the total. */
  function StatusLine(lang: Lang, inputValue: string, total: nat, current: nat): string {
    if Trim(inputValue) == "" then TotalCount(lang, total) else SearchCount(lang, current, total)
  }

  /** The status line for a search states the number of countries shown: as
      the total when the box is blank (the whole list is shown) and as the
      number found otherwise, always alongside the size of the full list. */
  lemma StatusLineCountsShown(all: seq<Country>, query: string, lang: Lang)
    ensures var shown := SearchResult(all, query, lang);
      var line := StatusLine(lang, query, |all|, |shown|);
      if Trim(query) == "" then
        ReadTotal(TotalCountFormat(lang), line) == Some(|shown|)
      else
        ReadSearch(SearchCountFormat(lang), line) == Some((|shown|, |all|))
  {
    var shown := SearchResult(all, query, lang);
    SearchIsSubsequence(all, query, lang);
    CountsReadBack(lang, |shown|, |all|);
  }
}
