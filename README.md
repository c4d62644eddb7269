# Flags.World search and display pipeline in Dafny

Flags.World is a single-page browser app (`app.js`). It loads every country
record from a countries service and shows them as a grid of flag cards. A
search box narrows the grid, and six language buttons (Korean, English,
Japanese, Chinese, Spanish, French) switch the interface language.

This project models the part of `app.js` that decides what the page shows:

- `text.dfy` (`JsText`): the JavaScript string primitives the pipeline uses,
  which are `trim`, `toLowerCase`, `indexOf`/`includes`, `replace` with a string
  pattern and a replacement without `$`, and the decimal numerals embedded in the count sentences.
- `i18n.dfy` (`I18n`): the `i18n` table, one function per entry key.
  - The count sentences are templates with parse-back inverses.
  - The list of supported codes and `detectLanguage` are here too.
- `countries.dfy` (`Countries`): the raw record, the normalised `Country`, the
  record normalisation of `loadCountries`, and the sort by display name.
  - The sort is a stable insertion sort.
  - It is proved sorted, a permutation and stable.
- `search.dfy` (`Search`): the search term and the filter of `searchCountries`.
  - The filter is proved to be the unique longest order-preserving selection of
    matching countries.
  - It is also proved idempotent.
- `view.dfy` (`View`): what `renderFlags` puts in the grid and what `updateCount`
  puts in the status line, as data rather than markup.
- `session.dfy` (`App`): the page session as a class.
  - It holds the script's globals (`allCountries`, `filteredCountries`,
    `currentLang`), the parts of the page the script writes, and the search box.
  - Its methods are `setLanguage`, `loadCountries` (once the fetch has settled),
    `searchCountries`, `renderFlags`, `updateCount` and the search box's input
    listener.
  - The loop over the language buttons is a `while` loop proved against the
    function `Marked`.
- `wrappers.dfy`: the `Option` and `Result` datatypes.

Two things the code leaves to the host are parameters of the model:

- The collation used by `localeCompare` is the session's `collate`. The only
  assumption about it is that its sign is a total preorder.
- The host locale (`navigator.language`) is an argument of the constructor.

Behaviour the model keeps as the code has it:

- `localeCompare` is called without a locale argument. So the list is collated
  by the host's default locale, whatever the selected language. Only the sort
  key changes with the language: it is the name in that language.
- `searchCountries` always renders. A search before the list has loaded, or
  after the load failed, replaces the loading or error message with the
  empty-results message.
- A successful load shows the whole list even when the search box already holds
  text. Only the count line reflects the box's text.
- `setLanguage` re-sorts and searches again only when the full list is
  non-empty. Otherwise the grid and the count line keep what they showed.
- The error message shown by a failed load is in the language detected at
  startup, when the one load began. The load takes that language's table
  entry before it awaits the records, so a language switch during the fetch
  does not change it. The sort after a successful load uses the language
  active when the records arrive.

## Model

| member | source | states |
|---|---|---|
| JsText.Trim | app.js:188 | `trim` only ever removes characters; `TrimSpec` states which |
| JsText.TrimStartSpec | app.js:188 | trimming the start keeps a suffix that does not start with white space, and drops only white space |
| JsText.TrimEndSpec | app.js:188 | trimming the end keeps a prefix that does not end with white space, and drops only white space |
| JsText.TrimSpec | app.js:188 | `trim` leaves no white space at either end, and it is empty exactly when the input is all white space |
| JsText.TrimIsInfix | app.js:210 | what `trim` keeps is one contiguous piece of the input with only white space around it |
| JsText.LowerChar | app.js:188 | lower-casing one character maps an ASCII capital to its small letter and leaves every other character alone |
| JsText.ToLower | app.js:188 | `toLowerCase` keeps the length; `ToLowerAt` states it lower-cases character by character |
| JsText.ToLowerAt | app.js:194-196 | the k-th character of the lower-cased string is the k-th character lower-cased |
| JsText.ToLowerIdempotent | app.js:188 | lower-casing twice is the same as lower-casing once |
| JsText.BlankUnderLower | app.js:188 | a query is blank after lower-casing and trimming exactly when it is blank after trimming alone |
| JsText.IndexOf | app.js:194-196 | `indexOf` returns an index where the term occurs with no earlier occurrence, or -1 when the term occurs nowhere |
| JsText.Includes | app.js:194-196 | `includes` holds exactly when the term occurs at some index |
| JsText.ReplaceFirst | app.js:105 | `replace` with a string pattern and a replacement without `$` leaves a string without the pattern alone; otherwise it swaps the first occurrence, the one `indexOf` finds, wherever it is, and keeps the text before and after it |
| JsText.ReplaceLeading | app.js:105 | replacing a pattern that the string starts with, by a replacement without `$`, swaps exactly that leading occurrence |
| JsText.Show | app.js:10-11 | the numeral a template literal embeds is non-empty, all digits, and starts with 0 only for zero |
| JsText.ShowRoundTrip | app.js:10-71 | reading the numeral back gives the number |
| JsText.LeadingDigitsOfNumeral | app.js:23 | a numeral followed by a non-digit is read exactly up to that non-digit |
| I18n.Code | app.js:77 | the two-letter code of each language, as written to the page's `lang` at app.js:103 and compared with `data-lang` at app.js:112; `FromCode` and `CodeRoundTrip` state that it is one of the supported codes and names its language |
| I18n.FromCode | app.js:77 | a string names a language exactly when it is one of the six supported codes, and then it is that language's code |
| I18n.CodeRoundTrip | app.js:77 | every language's code is supported and maps back to that language |
| I18n.TranslationKeys | app.js:13-73 | only English has no translation key, and the other five keys are distinct |
| I18n.Title | app.js:2-75 | every language's heading starts with the globe and a space and has text after them |
| I18n.TitleText | app.js:2-75 | the text of each language's title after the globe and space; `DocumentTitle` states that it is the document title |
| I18n.Placeholder | app.js:2-75 | every language's search-box placeholder ends with an ellipsis of three dots |
| I18n.ErrorText | app.js:2-75 | every language's load-failure message differs from its empty-results message, so the two grid messages can be told apart |
| I18n.NoResultsText | app.js:2-75 | every language's empty-results message is non-empty |
| I18n.NoCapitalText | app.js:2-75 | every language's missing-capital text is non-empty, so a card always shows some capital text |
| I18n.TranslationKey | app.js:2-75 | English is exactly the language without a translation key; every other key is a three-letter code |
| I18n.TotalCountFormat | app.js:10-70 | the texts around the total in each language's `totalCount` template; `FormatTotalRoundTrip` states that any such template reads back |
| I18n.SearchCountFormat | app.js:11-71 | the texts around the two numbers in each language's `searchCount` template; `FormatSearchRoundTrip` states when such a template reads back |
| I18n.TotalCount | app.js:2-75 | each language's `totalCount` template around the total's numeral; `FormatTotalRoundTrip` and `CountsReadBack` state that it reads back |
| I18n.SearchCount | app.js:2-75 | each language's `searchCount` template around the two numerals; `FormatSearchRoundTrip` and `CountsReadBack` state that it reads back |
| I18n.Between | app.js:10-11 | the text found between a known prefix and suffix rebuilds the whole string |
| I18n.BetweenOf | app.js:10-11 | cutting a prefix and a suffix off a concatenation recovers the middle |
| I18n.ReadNumbersOf | app.js:11 | two numerals around a separator that starts with a non-digit read back as their two numbers |
| I18n.FormatTotalRoundTrip | app.js:10 | a `totalCount` sentence reads back as its total |
| I18n.FormatSearchRoundTrip | app.js:11 | a `searchCount` sentence reads back as its two numbers when its middle text starts with a non-digit |
| I18n.CountsReadBack | app.js:10-71 | in every language both count sentences read back as the numbers they were given |
| I18n.DocumentTitle | app.js:105-106 | the document title is the language's title text, and the heading is exactly that text behind the globe and a space |
| I18n.LocalePrefix | app.js:81 | `slice(0, 2)` of the locale is a prefix of it of at most two characters, exactly two when the locale is that long, the whole locale when it is not longer, and missing only when the locale is |
| I18n.DetectLanguage | app.js:80-83 | the detected language is supported; it is the locale's prefix exactly when that prefix is a supported code, and English otherwise |
| Countries.NameIn | app.js:117 | `names[lang]`: the name a country carries for a language, used as the sort key (app.js:117, 143), the card's primary name (app.js:165) and a search field (app.js:194) |
| Countries.Translated | app.js:131-136 | `country.translations?.[key]?.common`: missing when the record has no translations or none under the key; `TranslatedOrCommon` states how it is used |
| Countries.TranslatedOrCommon | app.js:131 | the translated name when it is present and non-empty, otherwise the common name |
| Countries.Normalise | app.js:129-140 | the English name is the common name, each language's name is what its translation key selects, the capital is the first listed one or empty, the vector flag is preferred when truthy, and the code is kept |
| Countries.NameByTable | app.js:130-137 | the English name is the common name; any other language's name is the common name or the non-empty translation its key selects; a non-empty common name gives a non-empty name |
| Countries.NormalisedNamesNonEmpty | app.js:130-137 | a record with a non-empty common name yields a non-empty name in every language |
| Countries.NormaliseAll | app.js:129-141 | the records are normalised one by one, in the order fetched |
| Countries.InsertByName | app.js:143 | inserting one country adds exactly one element |
| Countries.InsertByNamePermutes | app.js:143 | inserting adds the country and loses nothing |
| Countries.SortByName | app.js:143 | sorting keeps the length of the list |
| Countries.SortByNamePermutes | app.js:117 | the sort is a permutation of the list |
| Countries.SortedTail | app.js:143 | the tail of a sorted list is sorted |
| Countries.SortedCons | app.js:143 | a country that may stand before every member of a sorted list keeps it sorted when put in front |
| Countries.InsertByNameSorted | app.js:143 | inserting into a sorted list keeps it sorted |
| Countries.SortByNameSorted | app.js:117 | the sort orders the list ascending by the language's names under the collation |
| Countries.TiesWithAppend | app.js:143 | the ties of a list with one more country are the old ties followed by that country's |
| Countries.TiesWithCons | app.js:143 | the ties of a list with a new head are that head's ties followed by the tail's |
| Countries.InsertByNameTies | app.js:143 | an inserted country lands behind every country it ties with |
| Countries.NoneTiesBelow | app.js:143 | nothing in a sorted list that starts strictly after a country ties with a key not after that country |
| Countries.NoTies | app.js:143 | a list where no country ties with the key has no ties |
| Countries.SortByNameStable | app.js:143 | the sort is stable: countries that tie on their name keep their input order |
| Search.SearchTerm | app.js:188 | lower-casing does not change whether the trimmed query is empty: the term is empty exactly when the trimmed query is |
| Search.SearchTermEmptyIffBlank | app.js:188-190 | the search term is empty exactly when the query is all white space |
| Search.Matches | app.js:194-196 | the empty term matches every country, as `includes('')` always holds |
| Search.Filter | app.js:193-197 | the filter never makes the list longer |
| Search.FilterMembers | app.js:193-197 | a country is kept exactly when it is in the list and the term occurs in its lower-cased active-language name, English name or capital |
| Search.FilterIsSubsequence | app.js:193-197 | the filter keeps the countries in list order |
| Search.FilterIsLongest | app.js:193-197 | no order-preserving selection of matching countries is longer than the filter's result |
| Search.FilterIsUnique | app.js:193-197 | the filter's result is the only order-preserving selection of matching countries that leaves none out |
| Search.FilterIdempotent | app.js:193-197 | filtering the result again with the same term changes nothing |
| Search.SearchResult | app.js:190-191 | a blank query shows the full list unchanged |
| Search.SearchOfNothing | app.js:187-198 | nothing is shown while the full list is empty, whatever the query |
| Search.SearchResultMembers | app.js:192-197 | for a non-blank query a country is shown exactly when it is in the full list and matches |
| Search.SearchIsSubsequence | app.js:187-198 | the search result is an order-preserving selection of the full list and never longer |
| Search.SubsequenceReflexive | app.js:191 | a list is a selection of itself |
| Search.SearchIdempotent | app.js:187-198 | searching a search result again with the same query and language gives the same list |
| Search.BlankQueryShowsAll | app.js:188-191 | a white-space-only query shows the whole list in its order |
| View.CardFor | app.js:164-168 | the card built from one country in one language; `CardContents` and `CardPairsEnglishAndKorean` state its fields |
| View.CardContents | app.js:165-179 | a card's flag is the country's flag, its primary name is the name in the active language; its capital text is the capital when there is one, else the language's non-empty missing-capital text |
| View.CardPairsEnglishAndKorean | app.js:165-166 | in English or Korean a card shows both the English and the Korean name; in any language but English the secondary name is the English one |
| View.Render | app.js:156-184 | an empty list shows the language's empty-results message and nothing else does; otherwise one card per country |
| View.CardsFor | app.js:164-183 | one card per country |
| View.CardsForAt | app.js:164-168 | the k-th card is computed from the k-th country alone |
| View.RenderCardAt | app.js:164-168 | a non-empty list renders as cards, the k-th from the k-th country |
| View.NoResultsIffNothingMatches | app.js:159-161 | for a non-blank query the empty-results message is shown exactly when no country of the full list matches, and the error message never is |
| View.StatusLine | app.js:210-214 | the count line for the box's value and the two lengths; `StatusLineCountsShown` states what it says |
| View.StatusLineCountsShown | app.js:205-215 | the status line states the number of countries shown and the total, as the total alone when the box is blank |
| App.Mark | app.js:112 | toggling one button keeps its code and leaves it active exactly when its code is the chosen one |
| App.Marked | app.js:111-113 | marking keeps the number of buttons |
| App.MarkedButtons | app.js:111-113 | marking keeps every button's code and leaves a button active exactly when its code is the chosen one |
| App.MarkButtons | app.js:111-113 | the loop over the buttons produces the marked buttons |
| App.OneButtonActive | app.js:111-113 | with distinct button codes, one of them the chosen one, exactly one button ends up active |
| App.Session.constructor | app.js:85-88 | the session starts with empty lists, the detected language, an empty box and the loading grid, and the one load takes the detected language |
| App.Session.RenderFlags | app.js:156-184 | the grid becomes the rendering of the filtered list in the current language |
| App.Session.UpdateCount | app.js:205-215 | the count line becomes the status line for the box's value and the two list lengths |
| App.Session.SearchCountries | app.js:187-202 | the filtered list becomes the search of the full list, the full list stays sorted, and grid and count line are redrawn |
| App.Session.Edit | app.js:231 | typing changes the box's value at once and nothing else |
| App.Session.OnInput | app.js:231-233 | after the debounce the search runs on the box's current value, and the grid and count line are redrawn |
| App.EditThenSwitch | app.js:98-120 | text typed into a loaded page's box, then a switch to Korean before the debounce fires: the switch searches with the typed text and the count line is Korean's `searchCount` |
| App.Session.SetLanguage | app.js:98-120 | switches the labels and the language and marks exactly the matching buttons; a non-empty list is re-sorted by the new names and searched again with the box's value; with no list the grid and the count line are left alone |
| App.Session.ShowLanguage | app.js:103-113 | the page language, document title, heading and placeholder become those of the language, and the buttons are marked |
| App.Session.Relist | app.js:116-119 | the language switches; a non-empty list is re-sorted and searched again, an empty one leaves the view alone |
| App.Session.LoadCountries | app.js:123-153 | on success the records are normalised, sorted by the active language and shown in full with the count; on failure only the grid changes, to the error message in the language the load started in |
| App.SwitchDuringFailedLoad | app.js:123-153 | a switch to Korean while the fetch is pending, then a failed fetch, leaves the page in Korean with the English error message taken at the load's start |
| App.FilteredIsSelection | app.js:193-197 | the filtered list of a session is an order-preserving selection of its full list, never longer, and searching it again changes nothing |

## Left out

- The fetch of the records, `response.json()` and `async`/`await` are not
  modelled. `LoadCountries` receives the outcome as a `Result`.
- `console.error` in the failure path is not modelled; it has no effect on the
  page.
- The HTML markup is not modelled. Cards, the grid and the buttons are data;
  `innerHTML`, `textContent` and `classList` writes are field updates.
- `debounce`, `setTimeout` and `clearTimeout` are not modelled. Typing is
  `Edit`, which changes the box's value at once; `OnInput` is the listener's
  call once the delay has passed with no further input, and it searches with
  the box's value then.
- JsText.ReplaceFirst: requires a replacement without `$`. The `$$`, `$&`,
  `` $` `` and `$'` substitution patterns of `replace` are not modelled; the one
  call, at app.js:105, passes the empty string.
- Event wiring and the startup calls are not modelled: the click listener that
  calls `setLanguage`, and the initial `setLanguage` and `loadCountries`.
- JsText.LowerChar: lower-cases ASCII letters only, where `toLowerCase` maps
  every Unicode letter with a lower-case form.
- Countries.IsTotalPreorder: `localeCompare` is a parameter of the session
  (`collate`), since its ICU collation is host code. Only its sign is used.
- I18n.DetectLanguage: the host locale is a parameter.
- App.Session.SetLanguage: takes a `Lang`, not a string. `setLanguage` is only
  called with a button's `data-lang` or a detected code; an unsupported code
  would make `i18n[lang]` undefined and throw.
- App.Session.ShowLanguage: writes the labels and the buttons before `Relist`
  assigns `currentLang`. In the source `currentLang` comes first; nothing reads
  it in between, so the end state is the same.
- `loading` and `loadingCount` are modelled as table entries
  (`I18n.LoadingText`, `I18n.LoadingCountText`); the script never reads them.
- The script never reads `translationKey` either: the load writes the keys
  `kor`, `jpn`, `zho`, `spa` and `fra` out itself. `Countries.Normalise` is proved
  to select the names `Countries.NameByTable` selects through the table's keys,
  so the two agree.
- A record without `name` or `flags` makes the source throw inside the map and
  fail the whole load. In the model these fields are always present.
- Countries.Normalise: `country.flags.svg || country.flags.png` yields the
  `png` value whatever it is, including a missing one; the model keeps that
  as an `Option`.
