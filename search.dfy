/** The search and filter engine: which countries of the full list a query
    selects, in the list's own order. */
module Search {
  import opened JsText
  import opened I18n
  import opened Countries

  /** `query.toLowerCase().trim()`. It is empty exactly when the query is
      empty once trimmed, so the search and the count line agree on what a
      blank query is. */
  function SearchTerm(query: string): (r: string)
    ensures r == "" <==> Trim(query) == ""
  {
    BlankUnderLower(query);
    Trim(ToLower(query))
  }

  /** A query selects everything exactly when it is blank: empty or white
      space only. */
  lemma SearchTermEmptyIffBlank(query: string)
    ensures SearchTerm(query) == "" <==> AllSpace(query)
  {
    TrimSpec(query);
  }

  /** The filter callback: the term occurs, ignoring case, in the country's name
      in the active language, in its English name or in its capital. As with
      `includes`, the empty term occurs in every string. */
  predicate Matches(c: Country, lang: Lang, term: string)
    ensures term == "" ==> Matches(c, lang, term)
  {
    || Includes(ToLower(NameIn(c.names, lang)), term)
    || Includes(ToLower(c.names.en), term)
    || Includes(ToLower(c.capital), term)
  }

  /** `countries.filter(...)` with that callback. */
  function Filter(cs: seq<Country>, lang: Lang, term: string): (r: seq<Country>)
    ensures |r| <= |cs|
  {
    if cs == [] then []
    else
      var rest := Filter(cs[1..], lang, term);
      if Matches(cs[0], lang, term) then [cs[0]] + rest else rest
  }

  /** Only matching countries of the list are kept, and every matching
      country of the list is kept. */
  lemma {:induction false} FilterMembers(cs: seq<Country>, lang: Lang, term: string, c: Country)
    ensures c in Filter(cs, lang, term) <==> c in cs && Matches(c, lang, term)
  {
    if cs != [] {
      assert c in cs <==> c == cs[0] || c in cs[1..];
      FilterMembers(cs[1..], lang, term, c);
    }
  }

  /** `r` is what is left of `xs` after deleting some of its elements: the
      first element of `r` is either `xs`'s first or found further on. */
  predicate IsSubsequence(r: seq<Country>, xs: seq<Country>) {
    if r == [] then true
    else if xs == [] then false
    else (r[0] == xs[0] && IsSubsequence(r[1..], xs[1..])) || IsSubsequence(r, xs[1..])
  }

  /** The filter keeps the countries in the order of the list. */
  lemma {:induction false} FilterIsSubsequence(cs: seq<Country>, lang: Lang, term: string)
    ensures IsSubsequence(Filter(cs, lang, term), cs)
  {
    if cs != [] {
      FilterIsSubsequence(cs[1..], lang, term);
      var rest := Filter(cs[1..], lang, term);
      if !Matches(cs[0], lang, term) && rest != [] {
        assert IsSubsequence(rest, cs[1..]);
      }
    }
  }

  /** No order-preserving selection of matching countries is longer than the
      filter's. */
  lemma {:induction false} FilterIsLongest(r: seq<Country>, cs: seq<Country>, lang: Lang, term: string)
    requires IsSubsequence(r, cs)
    requires forall k :: 0 <= k < |r| ==> Matches(r[k], lang, term)
    ensures |r| <= |Filter(cs, lang, term)|
  {
    if r != [] && cs != [] {
      if r[0] == cs[0] && IsSubsequence(r[1..], cs[1..]) {
        FilterIsLongest(r[1..], cs[1..], lang, term);
      } else {
        FilterIsLongest(r, cs[1..], lang, term);
      }
    }
  }

  /** The filter's result is the only order-preserving selection of matching
      countries that leaves none of them out: it holds exactly the matching
      countries, in list order. */
  lemma {:induction false} FilterIsUnique(r: seq<Country>, cs: seq<Country>, lang: Lang, term: string)
    requires IsSubsequence(r, cs)
    requires forall k :: 0 <= k < |r| ==> Matches(r[k], lang, term)
    requires |r| >= |Filter(cs, lang, term)|
    ensures r == Filter(cs, lang, term)
  {
    if cs == [] {
    } else if r == [] {
    } else if r[0] == cs[0] && IsSubsequence(r[1..], cs[1..]) {
      FilterIsUnique(r[1..], cs[1..], lang, term);
    } else {
      FilterIsLongest(r, cs[1..], lang, term);
      FilterIsUnique(r, cs[1..], lang, term);
    }
  }

  /** Filtering a filtered list again with the same term changes nothing. */
  lemma {:induction false} FilterIdempotent(cs: seq<Country>, lang: Lang, term: string)
    ensures Filter(Filter(cs, lang, term), lang, term) == Filter(cs, lang, term)
  {
    if cs != [] {
      FilterIdempotent(cs[1..], lang, term);
    }
  }

  /** The list `searchCountries(query)` shows: the whole list for a blank
      query, otherwise the countries the trimmed, lower-cased query matches. */
  function SearchResult(all: seq<Country>, query: string, lang: Lang): (r: seq<Country>)
    ensures SearchTerm(query) == "" ==> r == all
  {
    var term := SearchTerm(query);
    if term == "" then all else Filter(all, lang, term)
  }

  /** Nothing is shown before the list is loaded, whatever the query. */
  lemma SearchOfNothing(query: string, lang: Lang)
    ensures SearchResult([], query, lang) == []
  {
  }

  /** For a non-blank query, a country of the full list is shown exactly when
      the query matches it, and nothing else is shown. */
  lemma SearchResultMembers(all: seq<Country>, query: string, lang: Lang, c: Country)
    requires SearchTerm(query) != ""
    ensures c in SearchResult(all, query, lang) <==> c in all && Matches(c, lang, SearchTerm(query))
  {
    FilterMembers(all, lang, SearchTerm(query), c);
  }

  /** The search result is an order-preserving selection from the full list
      and never longer than it. */
  lemma SearchIsSubsequence(all: seq<Country>, query: string, lang: Lang)
    ensures IsSubsequence(SearchResult(all, query, lang), all)
    ensures |SearchResult(all, query, lang)| <= |all|
  {
    if SearchTerm(query) == "" {
      SubsequenceReflexive(all);
    } else {
      FilterIsSubsequence(all, lang, SearchTerm(query));
    }
  }

  lemma {:induction false} SubsequenceReflexive(xs: seq<Country>)
    ensures IsSubsequence(xs, xs)
  {
    if xs != [] {
      SubsequenceReflexive(xs[1..]);
    }
  }

  /** Searching the result of a search again, with the same query and
      language, gives the same list. */
  lemma SearchIdempotent(all: seq<Country>, query: string, lang: Lang)
    ensures SearchResult(SearchResult(all, query, lang), query, lang) == SearchResult(all, query, lang)
  {
    if SearchTerm(query) != "" {
      FilterIdempotent(all, lang, SearchTerm(query));
    }
  }

  /** A query of white space only shows the whole list, in its order. */
  lemma BlankQueryShowsAll(all: seq<Country>, query: string, lang: Lang)
    requires AllSpace(query)
    ensures SearchResult(all, query, lang) == all
  {
    SearchTermEmptyIffBlank(query);
  }
}
