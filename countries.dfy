/** The country repository's data: the records as the countries service returns
    them, the internal country shape they are normalised into, and the ordering
    of the country list by display name. */
module Countries {
  import opened Wrappers
  import opened I18n

  /** One entry of a record's `translations`: its `common` name may be missing. */
  datatype Translation = Translation(common: Option<string>)

  datatype RawName = RawName(common: string)

  datatype RawFlags = RawFlags(svg: Option<string>, png: Option<string>)

  /** A country record as fetched. Only `name` and `flags` are always present;
      the capital list, the code and the translations may each be missing. */
  datatype RawCountry = RawCountry(
    name: RawName,
    capital: Option<seq<string>>,
    flags: RawFlags,
    cca2: Option<string>,
    translations: Option<map<string, Translation>>)

  /** A display name for each supported language. */
  datatype Names = Names(ko: string, en: string, ja: string, zh: string, es: string, fr: string)

  /** `names[lang]`. */
  function NameIn(names: Names, lang: Lang): string {
    match lang
    case Ko => names.ko
    case En => names.en
    case Ja => names.ja
    case Zh => names.zh
    case Es => names.es
    case Fr => names.fr
  }

  /** A country as the rest of the application sees it. `flag` is missing only
      when the record had neither a usable vector nor any raster image. */
  datatype Country = Country(names: Names, capital: string, flag: Option<string>, cca2: Option<string>)

  /** JavaScript truthiness of an optional string: present and not empty. */
  predicate Truthy(s: Option<string>) {
    s.Some? && s.value != ""
  }

  /** `country.translations?.[key]?.common`. */
  function Translated(raw: RawCountry, key: string): Option<string> {
    match raw.translations
    case None => None
    case Some(t) => if key in t then t[key].common else None
  }

  /** `country.translations?.[key]?.common || country.name.common`. */
  function TranslatedOrCommon(raw: RawCountry, key: string): (r: string)
    ensures Truthy(Translated(raw, key)) ==> Some(r) == Translated(raw, key)
    ensures !Truthy(Translated(raw, key)) ==> r == raw.name.common
  {
    var t := Translated(raw, key);
    if t.Some? && t.value != "" then t.value else raw.name.common
  }

  /** The name a language's table entry selects from a record: the common name
      when the entry has no translation key, else the translation under that
      key when it is a non-empty string, else the common name. The script never
      reads the table's `translationKey`: the load writes the keys `kor`, `jpn`,
      `zho`, `spa` and `fra` out itself. `Normalise` is proved to agree with
      this function, so the hard-coded keys match the table's. */
  function NameByTable(raw: RawCountry, lang: Lang): (r: string)
    ensures lang == En ==> r == raw.name.common
    ensures r == raw.name.common
         || (TranslationKey(lang).Some? && Translated(raw, TranslationKey(lang).value) == Some(r) && r != "")
    ensures raw.name.common != "" ==> r != ""
  {
    match TranslationKey(lang)
    case None => raw.name.common
    case Some(key) => TranslatedOrCommon(raw, key)
  }

  /** The record-normalising step of the load, with its own hard-coded
      translation keys. Every language gets a name, and it is the one the
      translation table's key for that language selects;
      English always gets the common name. The capital is the first listed one
      or the empty string, and the vector flag is preferred to the raster one. */
  function Normalise(raw: RawCountry): (c: Country)
    ensures c.names.en == raw.name.common
    ensures forall lang :: NameIn(c.names, lang) == NameByTable(raw, lang)
    ensures c.capital != "" ==> raw.capital.Some? && |raw.capital.value| > 0 && c.capital == raw.capital.value[0]
    ensures raw.capital.Some? && |raw.capital.value| > 0 ==> c.capital == raw.capital.value[0]
    ensures Truthy(raw.flags.svg) ==> c.flag == raw.flags.svg
    ensures !Truthy(raw.flags.svg) ==> c.flag == raw.flags.png
    ensures c.cca2 == raw.cca2
  {
    Country(
      Names(
        TranslatedOrCommon(raw, "kor"),
        raw.name.common,
        TranslatedOrCommon(raw, "jpn"),
        TranslatedOrCommon(raw, "zho"),
        TranslatedOrCommon(raw, "spa"),
        TranslatedOrCommon(raw, "fra")),
      if raw.capital.Some? && |raw.capital.value| > 0 then raw.capital.value[0] else "",
      if Truthy(raw.flags.svg) then raw.flags.svg else raw.flags.png,
      raw.cca2)
  }

  /** A record with a non-empty common name yields a country with a non-empty
      name in every language. */
  lemma NormalisedNamesNonEmpty(raw: RawCountry, lang: Lang)
    requires raw.name.common != ""
    ensures NameIn(Normalise(raw).names, lang) != ""
  {
    assert NameIn(Normalise(raw).names, lang) == NameByTable(raw, lang);
  }

  /** `data.map(...)`: every record normalised, in the order fetched. */
  function NormaliseAll(raws: seq<RawCountry>): (cs: seq<Country>)
    ensures |cs| == |raws|
    ensures forall i :: 0 <= i < |raws| ==> cs[i] == Normalise(raws[i])
  {
    seq(|raws|, i requires 0 <= i < |raws| => Normalise(raws[i]))
  }

  /** `localeCompare`: negative, zero or positive as `a` collates before, with
      or after `b` under the host's collation. */
  type Collation = (string, string) -> int

  /** `a` may stand before `b`. */
  predicate NotAfter(collate: Collation, a: string, b: string) {
    collate(a, b) <= 0
  }

  /** What a comparator must be for sorting with it to be meaningful: any two
      strings are ordered one way or the other, and the order is transitive. */
  ghost predicate IsTotalPreorder(collate: Collation) {
    && (forall a, b :: Comparable(collate, a, b))
    && (forall a, b, c :: InOrder(collate, a, b, c) ==> NotAfter(collate, a, c))
  }

  /** `a` and `b` are ordered one way or the other. */
  predicate Comparable(collate: Collation, a: string, b: string) {
    NotAfter(collate, a, b) || NotAfter(collate, b, a)
  }

  /** `a` may stand before `b`, and `b` before `c`. */
  predicate InOrder(collate: Collation, a: string, b: string, c: string) {
    NotAfter(collate, a, b) && NotAfter(collate, b, c)
  }

  /** The sort key of a country for the given language: its name there. */
  function Key(c: Country, lang: Lang): string {
    NameIn(c.names, lang)
  }

  /** Ascending by the language's names under the collation. */
  ghost predicate SortedByName(cs: seq<Country>, lang: Lang, collate: Collation) {
    forall i, j :: 0 <= i < j < |cs| ==> PairInOrder(cs, i, j, lang, collate)
  }

  /** The country at `i` may stand before the one at `j`. */
  predicate PairInOrder(cs: seq<Country>, i: int, j: int, lang: Lang, collate: Collation)
    requires 0 <= i < |cs| && 0 <= j < |cs|
  {
    NotAfter(collate, Key(cs[i], lang), Key(cs[j], lang))
  }

  /** Puts `x` into `cs` just before the first country that collates strictly
      after it, so that it lands behind every country it ties with. */
  function InsertByName(cs: seq<Country>, x: Country, lang: Lang, collate: Collation): (r: seq<Country>)
    ensures |r| == |cs| + 1
  {
    if cs == [] then [x]
    else if NotAfter(collate, Key(cs[0], lang), Key(x, lang)) then
      [cs[0]] + InsertByName(cs[1..], x, lang, collate)
    else [x] + cs
  }

  /** Inserting adds `x` and loses nothing. */
  lemma {:induction false} InsertByNamePermutes(cs: seq<Country>, x: Country, lang: Lang, collate: Collation)
    ensures multiset(InsertByName(cs, x, lang, collate)) == multiset(cs) + multiset{x}
  {
    if cs != [] && NotAfter(collate, Key(cs[0], lang), Key(x, lang)) {
      InsertByNamePermutes(cs[1..], x, lang, collate);
      assert cs == [cs[0]] + cs[1..];
    }
  }

  /** `allCountries.sort((a, b) => a.names[lang].localeCompare(b.names[lang]))`:
      a stable sort, here insertion of each country in turn. */
  function SortByName(cs: seq<Country>, lang: Lang, collate: Collation): (r: seq<Country>)
    ensures |r| == |cs|
  {
    if cs == [] then []
    else InsertByName(SortByName(cs[..|cs| - 1], lang, collate), cs[|cs| - 1], lang, collate)
  }

  /** The sort is a permutation: it keeps every country as often as it occurs. */
  lemma {:induction false} SortByNamePermutes(cs: seq<Country>, lang: Lang, collate: Collation)
    ensures multiset(SortByName(cs, lang, collate)) == multiset(cs)
  {
    if cs != [] {
      SortByNamePermutes(cs[..|cs| - 1], lang, collate);
      InsertByNamePermutes(SortByName(cs[..|cs| - 1], lang, collate), cs[|cs| - 1], lang, collate);
      assert cs == cs[..|cs| - 1] + [cs[|cs| - 1]];
    }
  }

  /** Dropping the head of a sorted list leaves a sorted list. */
  lemma SortedTail(cs: seq<Country>, lang: Lang, collate: Collation)
    requires cs != [] && SortedByName(cs, lang, collate)
    ensures SortedByName(cs[1..], lang, collate)
  {
    forall i, j | 0 <= i < j < |cs| - 1
      ensures PairInOrder(cs[1..], i, j, lang, collate)
    {
      assert PairInOrder(cs, i + 1, j + 1, lang, collate);
    }
  }

  /** A country that may stand before every member of a sorted list keeps it
      sorted when put in front of it. */
  lemma SortedCons(h: Country, t: seq<Country>, lang: Lang, collate: Collation)
    requires SortedByName(t, lang, collate)
    requires forall k :: 0 <= k < |t| ==> NotAfter(collate, Key(h, lang), Key(t[k], lang))
    ensures SortedByName([h] + t, lang, collate)
  {
    var r := [h] + t;
    forall i, j | 0 <= i < j < |r|
      ensures PairInOrder(r, i, j, lang, collate)
    {
      if i > 0 {
        assert PairInOrder(t, i - 1, j - 1, lang, collate);
      } else {
        assert r[j] == t[j - 1];
      }
    }
  }

  lemma {:induction false} InsertByNameSorted(cs: seq<Country>, x: Country, lang: Lang, collate: Collation)
    requires IsTotalPreorder(collate)
    requires SortedByName(cs, lang, collate)
    ensures SortedByName(InsertByName(cs, x, lang, collate), lang, collate)
  {
    if cs == [] {
    } else if NotAfter(collate, Key(cs[0], lang), Key(x, lang)) {
      var tail := InsertByName(cs[1..], x, lang, collate);
      SortedTail(cs, lang, collate);
      InsertByNameSorted(cs[1..], x, lang, collate);
      forall k | 0 <= k < |tail|
        ensures NotAfter(collate, Key(cs[0], lang), Key(tail[k], lang))
      {
        var e := tail[k];
        InsertByNamePermutes(cs[1..], x, lang, collate);
        assert e in multiset(tail);
        if e != x {
          assert e in cs[1..];
          var m :| 0 <= m < |cs| - 1 && cs[1..][m] == e;
          assert PairInOrder(cs, 0, m + 1, lang, collate);
        }
      }
      SortedCons(cs[0], tail, lang, collate);
    } else {
      assert Comparable(collate, Key(cs[0], lang), Key(x, lang));
      forall k | 0 <= k < |cs|
        ensures NotAfter(collate, Key(x, lang), Key(cs[k], lang))
      {
        if k > 0 {
          assert PairInOrder(cs, 0, k, lang, collate);
          assert InOrder(collate, Key(x, lang), Key(cs[0], lang), Key(cs[k], lang));
        }
      }
      SortedCons(x, cs, lang, collate);
    }
  }

  /** The sort orders the list ascending by the language's names. */
  lemma {:induction false} SortByNameSorted(cs: seq<Country>, lang: Lang, collate: Collation)
    requires IsTotalPreorder(collate)
    ensures SortedByName(SortByName(cs, lang, collate), lang, collate)
  {
    if cs != [] {
      SortByNameSorted(cs[..|cs| - 1], lang, collate);
      InsertByNameSorted(SortByName(cs[..|cs| - 1], lang, collate), cs[|cs| - 1], lang, collate);
    }
  }

  /** `c` ties with `key` under the collation. */
  predicate Ties(c: Country, key: string, lang: Lang, collate: Collation) {
    NotAfter(collate, Key(c, lang), key) && NotAfter(collate, key, Key(c, lang))
  }

  /** The countries whose name in `lang` ties with `key` under the collation,
      in list order. */
  function TiesWith(cs: seq<Country>, key: string, lang: Lang, collate: Collation): seq<Country> {
    if cs == [] then []
    else
      var rest := TiesWith(cs[1..], key, lang, collate);
      if Ties(cs[0], key, lang, collate) then [cs[0]] + rest else rest
  }

  lemma {:induction false} TiesWithAppend(cs: seq<Country>, x: Country, key: string, lang: Lang, collate: Collation)
    ensures TiesWith(cs + [x], key, lang, collate)
         == TiesWith(cs, key, lang, collate) + TiesWith([x], key, lang, collate)
  {
    if cs != [] {
      assert (cs + [x])[1..] == cs[1..] + [x];
      TiesWithAppend(cs[1..], x, key, lang, collate);
    }
  }

  lemma TiesWithCons(c: Country, t: seq<Country>, key: string, lang: Lang, collate: Collation)
    ensures TiesWith([c] + t, key, lang, collate)
         == (if Ties(c, key, lang, collate) then [c] else []) + TiesWith(t, key, lang, collate)
  {
    assert ([c] + t)[1..] == t;
  }

  lemma {:induction false} InsertByNameTies(cs: seq<Country>, x: Country, key: string, lang: Lang, collate: Collation)
    requires IsTotalPreorder(collate)
    requires SortedByName(cs, lang, collate)
    ensures TiesWith(InsertByName(cs, x, lang, collate), key, lang, collate)
         == TiesWith(cs, key, lang, collate) + TiesWith([x], key, lang, collate)
  {
    var px := TiesWith([x], key, lang, collate);
    if cs == [] {
    } else if NotAfter(collate, Key(cs[0], lang), Key(x, lang)) {
      var tail := InsertByName(cs[1..], x, lang, collate);
      var rest := TiesWith(cs[1..], key, lang, collate);
      SortedTail(cs, lang, collate);
      InsertByNameTies(cs[1..], x, key, lang, collate);
      TiesWithCons(cs[0], tail, key, lang, collate);
      if Ties(cs[0], key, lang, collate) {
        assert [cs[0]] + (rest + px) == ([cs[0]] + rest) + px;
      }
    } else {
      TiesWithCons(x, cs, key, lang, collate);
      TiesWithCons(x, [], key, lang, collate);
      assert [x] + [] == [x];
      if Ties(x, key, lang, collate) {
        NoneTiesBelow(cs, x, key, lang, collate);
        assert [x] + [] == [] + [x];
      } else {
        assert TiesWith(cs, key, lang, collate) + [] == TiesWith(cs, key, lang, collate);
      }
    }
  }

  /** When `x` collates strictly before the head of a sorted list and `key`
      does not collate after `x`, no country of the list ties with `key`. */
  lemma NoneTiesBelow(cs: seq<Country>, x: Country, key: string, lang: Lang, collate: Collation)
    requires IsTotalPreorder(collate)
    requires SortedByName(cs, lang, collate)
    requires cs != [] && !NotAfter(collate, Key(cs[0], lang), Key(x, lang))
    requires NotAfter(collate, key, Key(x, lang))
    ensures TiesWith(cs, key, lang, collate) == []
  {
    var kx, k0 := Key(x, lang), Key(cs[0], lang);
    forall e | e in cs
      ensures !Ties(e, key, lang, collate)
    {
      var i :| 0 <= i < |cs| && cs[i] == e;
      var ke := Key(e, lang);
      if NotAfter(collate, ke, key) {
        assert InOrder(collate, ke, key, kx);
        if i > 0 {
          assert PairInOrder(cs, 0, i, lang, collate);
          assert InOrder(collate, k0, ke, kx);
        }
      }
    }
    NoTies(cs, key, lang, collate);
  }

  lemma {:induction false} NoTies(cs: seq<Country>, key: string, lang: Lang, collate: Collation)
    requires forall e | e in cs :: !Ties(e, key, lang, collate)
    ensures TiesWith(cs, key, lang, collate) == []
  {
    if cs != [] {
      assert cs[0] in cs;
      NoTies(cs[1..], key, lang, collate);
    }
  }

  /** The sort is stable: among the countries that tie on their name in `lang`,
      the order of the input is kept. */
  lemma {:induction false} SortByNameStable(cs: seq<Country>, key: string, lang: Lang, collate: Collation)
    requires IsTotalPreorder(collate)
    ensures TiesWith(SortByName(cs, lang, collate), key, lang, collate) == TiesWith(cs, key, lang, collate)
  {
    if cs != [] {
      var init, last := cs[..|cs| - 1], cs[|cs| - 1];
      assert cs == init + [last];
      SortByNameStable(init, key, lang, collate);
      SortByNameSorted(init, lang, collate);
      InsertByNameTies(SortByName(init, lang, collate), last, key, lang, collate);
      TiesWithAppend(init, last, key, lang, collate);
    }
  }
}
