/** The page session: the full and the filtered country lists, the active
    language, the search box's value, the language buttons and what the page
    displays, with the operations that update them. */
module App {
  import opened Wrappers
  import opened JsText
  import opened I18n
  import opened Countries
  import opened Search
  import opened View

  /** A language selector button: its `data-lang` and whether it is marked active. */
  datatype Button = Button(lang: string, active: bool)

  /** Why the fetch of the country records can fail. */
  datatype LoadError = NetworkError | ParseError

  /** `btn.classList.toggle('active', btn.dataset.lang === code)` on one button. */
  function Mark(b: Button, code: string): (r: Button)
    ensures r.lang == b.lang
    ensures r.active <==> b.lang == code
  {
    b.(active := b.lang == code)
  }

  /** The buttons after the active marker has been moved to `code`. */
  function Marked(bs: seq<Button>, code: string): (r: seq<Button>)
    ensures |r| == |bs|
  {
    if bs == [] then [] else Marked(bs[..|bs| - 1], code) + [Mark(bs[|bs| - 1], code)]
  }

  /** Marking keeps every button and its `data-lang`, and leaves a button
      active exactly when its `data-lang` is `code`. */
  lemma {:induction false} MarkedButtons(bs: seq<Button>, code: string, k: nat)
    requires k < |bs|
    ensures Marked(bs, code)[k].lang == bs[k].lang
    ensures Marked(bs, code)[k].active <==> bs[k].lang == code
  {
    if k < |bs| - 1 {
      MarkedButtons(bs[..|bs| - 1], code, k);
    }
  }

  /** The loop of `setLanguage` over the language buttons: each button is
      marked active exactly when its `data-lang` is `code`. */
  method MarkButtons(buttons: seq<Button>, code: string) returns (bs: seq<Button>)
    ensures bs == Marked(buttons, code)
  {
    bs := buttons;
    var i := 0;
    while i < |bs|
      invariant 0 <= i <= |bs| && |bs| == |buttons|
      invariant bs[..i] == Marked(buttons[..i], code)
      invariant bs[i..] == buttons[i..]
    {
      assert buttons[..i + 1][..i] == buttons[..i];
      bs := bs[i := Mark(bs[i], code)];
      i := i + 1;
    }
    assert buttons[..i] == buttons;
  }

  class Session {
    /** The host's collation, as used by `localeCompare`. */
    const collate: Collation
    /** The language active when the one load of the page began: the script
        starts `loadCountries` once, at startup, and it takes that language's
        table entry before it awaits the records. */
    const loadLang: Lang

    var allCountries: seq<Country>
    var filteredCountries: seq<Country>
    var currentLang: Lang
    /** The current value of the search box. */
    var searchValue: string
    var buttons: seq<Button>
    var grid: Grid
    var countText: string
    var htmlLang: string
    var documentTitle: string
    var pageTitle: string
    var placeholder: string
    /** The query the filtered list was last computed with. */
    ghost var appliedQuery: string

    /** The full list is kept ordered by the active language's names, and the
        filtered list is always a search of the full list. */
    ghost predicate Valid()
      reads this`allCountries, this`filteredCountries, this`currentLang, this`appliedQuery
    {
      && IsTotalPreorder(collate)
      && SortedByName(allCountries, currentLang, collate)
      && filteredCountries == SearchResult(allCountries, appliedQuery, currentLang)
    }

    /** The state when the script starts: nothing loaded, the language taken
        from the host locale. */
    constructor (locale: Option<string>, buttons: seq<Button>, collate: Collation)
      requires IsTotalPreorder(collate)
      ensures Valid()
      ensures this.collate == collate && this.buttons == buttons
      ensures allCountries == [] && filteredCountries == []
      ensures currentLang == DetectLanguage(locale) && loadLang == currentLang
      ensures searchValue == "" && grid == Loading
    {
      this.collate := collate;
      allCountries := [];
      filteredCountries := [];
      currentLang := DetectLanguage(locale);
      loadLang := DetectLanguage(locale);
      searchValue := "";
      this.buttons := buttons;
      grid := Loading;
      countText := "";
      htmlLang := "";
      documentTitle := "";
      pageTitle := "";
      placeholder := "";
      appliedQuery := "";
    }

    /** `renderFlags`. */
    method RenderFlags()
      modifies this`grid
      ensures grid == Render(filteredCountries, currentLang)
    {
      grid := Render(filteredCountries, currentLang);
    }

    /** `updateCount`: reads the search box, not the query last searched for. */
    method UpdateCount()
      modifies this`countText
      ensures countText == StatusLine(currentLang, searchValue, |allCountries|, |filteredCountries|)
    {
      countText := StatusLine(currentLang, searchValue, |allCountries|, |filteredCountries|);
    }

    /** `searchCountries(query)`: recomputes the filtered list from the full
        list, which it leaves alone, then renders and updates the count. */
    method SearchCountries(query: string)
      requires IsTotalPreorder(collate) && SortedByName(allCountries, currentLang, collate)
      modifies this`filteredCountries, this`grid, this`countText, this`appliedQuery
      ensures Valid()
      ensures filteredCountries == SearchResult(allCountries, query, currentLang)
      ensures grid == Render(filteredCountries, currentLang)
      ensures countText == StatusLine(currentLang, searchValue, |allCountries|, |filteredCountries|)
    {
      var term := SearchTerm(query);
      if term == "" {
        filteredCountries := allCountries;
      } else {
        filteredCountries := Filter(allCountries, currentLang, term);
      }
      appliedQuery := query;
      RenderFlags();
      UpdateCount();
    }

    /** The user edits the search box: its value changes at once, while the
        search waits for the debounce. Nothing else on the page changes, and
        `setLanguage` and `updateCount` read the new value from now on. */
    method Edit(value: string)
      modifies this`searchValue
      ensures searchValue == value
    {
      searchValue := value;
    }

    /** The search box's input listener, once the debounce delay has passed
        with no further input: the search runs on the box's current value,
        which the box itself keeps. */
    method OnInput()
      requires Valid()
      modifies this`filteredCountries, this`grid, this`countText, this`appliedQuery
      ensures Valid()
      ensures filteredCountries == SearchResult(allCountries, searchValue, currentLang)
      ensures grid == Render(filteredCountries, currentLang)
      ensures countText == StatusLine(currentLang, searchValue, |allCountries|, |filteredCountries|)
    {
      SearchCountries(searchValue);
    }

    /** The page shows the labels of `lang`: its code as the page's language,
        its title without the globe as the document title, its title as the
        heading and its placeholder in the search box. */
    ghost predicate ShowsLabels(lang: Lang)
      reads this`htmlLang, this`documentTitle, this`pageTitle, this`placeholder
    {
      && htmlLang == Code(lang) && documentTitle == TitleText(lang)
      && pageTitle == Title(lang) && placeholder == Placeholder(lang)
    }

    /** The full list is `before` sorted by the names in `lang`, the filtered
        list is its search with the box's value, and the grid and the count
        line show them in `lang`. */
    ghost predicate Relisted(before: seq<Country>, lang: Lang)
      reads this`allCountries, this`filteredCountries, this`grid, this`countText, this`searchValue
    {
      && allCountries == SortByName(before, lang, collate)
      && filteredCountries == SearchResult(allCountries, searchValue, lang)
      && grid == Render(filteredCountries, lang)
      && countText == StatusLine(lang, searchValue, |allCountries|, |filteredCountries|)
    }

    /** `setLanguage(lang)`: switches the labels, marks exactly the buttons for
        `lang` active, switches the language and, once countries are loaded,
        re-sorts the full list by the new language's names and searches it
        again with the box's current value. */
    method SetLanguage(lang: Lang)
      requires Valid()
      modifies this`currentLang, this`htmlLang, this`documentTitle, this`pageTitle, this`placeholder,
        this`buttons, this`allCountries, this`filteredCountries, this`grid, this`countText, this`appliedQuery
      ensures Valid() && currentLang == lang
      ensures ShowsLabels(lang)
      ensures buttons == Marked(old(buttons), Code(lang))
      ensures old(allCountries) == [] ==>
        unchanged(this`allCountries, this`filteredCountries, this`grid, this`countText)
      ensures old(allCountries) != [] ==> Relisted(old(allCountries), lang)
    {
      ShowLanguage(lang);
      Relist(lang);
    }

    /** The part of `setLanguage` that rewrites the labels and the buttons. */
    method ShowLanguage(lang: Lang)
      modifies this`htmlLang, this`documentTitle, this`pageTitle, this`placeholder, this`buttons
      ensures ShowsLabels(lang)
      ensures buttons == Marked(old(buttons), Code(lang))
    {
      htmlLang := Code(lang);
      documentTitle := DocumentTitle(lang);
      pageTitle := Title(lang);
      placeholder := Placeholder(lang);
      buttons := MarkButtons(buttons, Code(lang));
    }

    /** The part of `setLanguage` that switches the language and, when the
        countries are loaded, re-sorts and searches again. */
    method Relist(lang: Lang)
      requires Valid()
      modifies this`currentLang, this`allCountries, this`filteredCountries, this`grid, this`countText, this`appliedQuery
      ensures Valid() && currentLang == lang
      ensures old(allCountries) == [] ==>
        unchanged(this`allCountries, this`filteredCountries, this`grid, this`countText)
      ensures old(allCountries) != [] ==> Relisted(old(allCountries), lang)
    {
      currentLang := lang;
      if |allCountries| == 0 {
        SearchOfNothing(appliedQuery, old(currentLang));
        SearchOfNothing(appliedQuery, lang);
      } else {
        SortByNameSorted(allCountries, lang, collate);
        allCountries := SortByName(allCountries, lang, collate);
        SearchCountries(searchValue);
      }
    }

    /** `loadCountries` once the fetch has settled: on success the records are
        normalised, sorted by the names of the language active now and shown
        in full; on failure the error message of the language the load began
        in replaces the grid, even when the language was switched meanwhile. */
    method LoadCountries(response: Result<seq<RawCountry>, LoadError>)
      requires Valid()
      modifies this`allCountries, this`filteredCountries, this`grid, this`countText, this`appliedQuery
      ensures Valid()
      ensures response.Failure? ==>
        && grid == LoadFailed(ErrorText(loadLang))
        && unchanged(this`allCountries, this`filteredCountries, this`countText)
      ensures response.Success? ==>
        && allCountries == SortByName(NormaliseAll(response.value), currentLang, collate)
        && filteredCountries == allCountries
        && grid == Render(filteredCountries, currentLang)
        && countText == StatusLine(currentLang, searchValue, |allCountries|, |allCountries|)
    {
      var error := ErrorText(loadLang);
      match response
      case Failure(_) =>
        grid := LoadFailed(error);
      case Success(raws) =>
        var normalised := NormaliseAll(raws);
        SortByNameSorted(normalised, currentLang, collate);
        allCountries := SortByName(normalised, currentLang, collate);
        filteredCountries := allCountries;
        appliedQuery := "";
        RenderFlags();
        UpdateCount();
    }
  }

  /** The page's startup with an English host locale, a switch to Korean while
      the records are being fetched, and a failed fetch: the page is in Korean
      but the error message is the English one the load took at its start. */
  method SwitchDuringFailedLoad(buttons: seq<Button>, collate: Collation) returns (s: Session)
    requires IsTotalPreorder(collate)
    ensures s.currentLang == Ko && s.pageTitle == Title(Ko)
    ensures s.grid == LoadFailed(ErrorText(En))
  {
    var locale := "en-US";
    assert locale[..2] == "en";
    s := new Session(Some(locale), buttons, collate);
    s.SetLanguage(Ko);
    s.LoadCountries(Failure(NetworkError));
  }

  /** Text typed into the box of a loaded page, followed by a switch to Korean
      before the debounce delay has passed: the switch already searches with
      the typed text, and the count line is Korean's `searchCount`. */
  method EditThenSwitch(s: Session, value: string)
    requires s.Valid() && s.allCountries != [] && Trim(value) != ""
    modifies s
    ensures s.currentLang == Ko && s.searchValue == value
    ensures s.filteredCountries == SearchResult(s.allCountries, value, Ko)
    ensures s.countText == SearchCount(Ko, |s.filteredCountries|, |s.allCountries|)
  {
    s.Edit(value);
    s.SetLanguage(Ko);
  }

  /** The filtered list of a session is an order-preserving selection from
      its full list, never longer than it, and searching it again with the
      query it came from changes nothing. */
  lemma FilteredIsSelection(s: Session)
    requires s.Valid()
    ensures IsSubsequence(s.filteredCountries, s.allCountries)
    ensures |s.filteredCountries| <= |s.allCountries|
    ensures SearchResult(s.filteredCountries, s.appliedQuery, s.currentLang) == s.filteredCountries
  {
    SearchIsSubsequence(s.allCountries, s.appliedQuery, s.currentLang);
    SearchIdempotent(s.allCountries, s.appliedQuery, s.currentLang);
  }

  /** When the buttons carry distinct codes and one of them is `code`, marking
      the buttons for `code` leaves exactly one button active. */
  lemma OneButtonActive(bs: seq<Button>, code: string, k: nat)
    requires forall i, j :: 0 <= i < j < |bs| ==> bs[i].lang != bs[j].lang
    requires k < |bs| && bs[k].lang == code
    ensures (set i | 0 <= i < |bs| && Marked(bs, code)[i].active) == {k}
  {
    forall i | 0 <= i < |bs|
      ensures Marked(bs, code)[i].active <==> i == k
    {
      MarkedButtons(bs, code, i);
    }
  }
}
