/** The translation table and the language detector: the six display
    languages, each with its fixed interface strings, its two count sentences
    and the key under which country records carry that language's name. */
module I18n {
  import opened Wrappers
  import opened JsText

  /** The supported display languages. */
  datatype Lang = Ko | En | Ja | Zh | Es | Fr

  /** The two-letter code of each language, as used for `data-lang`, the
      `lang` attribute of the page and the keys of the table. */
  function Code(lang: Lang): string {
    match lang
    case Ko => "ko"
    case En => "en"
    case Ja => "ja"
    case Zh => "zh"
    case Es => "es"
    case Fr => "fr"
  }

  const SupportedLangs: seq<string> := ["ko", "en", "ja", "zh", "es", "fr"]

  /** The language a supported code names; nothing for any other string. */
  function FromCode(code: string): (r: Option<Lang>)
    ensures r.Some? <==> code in SupportedLangs
    ensures r.Some? ==> Code(r.value) == code
  {
    if code == "ko" then Some(Ko)
    else if code == "en" then Some(En)
    else if code == "ja" then Some(Ja)
    else if code == "zh" then Some(Zh)
    else if code == "es" then Some(Es)
    else if code == "fr" then Some(Fr)
    else None
  }

  /** Codes and languages are in one-to-one correspondence. */
  lemma CodeRoundTrip(lang: Lang)
    ensures Code(lang) in SupportedLangs
    ensures FromCode(Code(lang)) == Some(lang)
  {
  }

  /** `totalCount`: a sentence with the total embedded between two fixed texts. */
  datatype CountFormat = CountFormat(before: string, after: string)

  /** `searchCount`: a sentence with the number found and the total embedded
      between three fixed texts. */
  datatype SearchFormat = SearchFormat(before: string, middle: string, after: string)

  /* The `i18n` table, one function per entry key, each giving that key's
     text in every language. */

  /** The globe and the space every title starts with. */
  const Globe: string := "🌍 "

  /** `i18n[lang].title`: the page heading, the globe followed by the title text;
      no title is the globe alone. */
  function Title(lang: Lang): (r: string)
    ensures Globe <= r && |r| > |Globe|
  {
    Globe + TitleText(lang)
  }

  /** The text of each title after its globe. */
  function TitleText(lang: Lang): string {
    match lang
    case Ko => "세계 국기 검색"
    case En => "World Flags Search"
    case Ja => "世界の国旗検索"
    case Zh => "世界国旗搜索"
    case Es => "Buscador de Banderas"
    case Fr => "Recherche de Drapeaux"
  }

  /** `i18n[lang].placeholder`: the search box's placeholder. Each one ends
      with an ellipsis. */
  function Placeholder(lang: Lang): (r: string)
    ensures |r| > 3 && r[|r| - 3..] == "..."
  {
    match lang
    case Ko => "국가명 또는 수도명으로 검색..."
    case En => "Search by country or capital..."
    case Ja => "国名または首都名で検索..."
    case Zh => "按国家名或首都搜索..."
    case Es => "Buscar por país o capital..."
    case Fr => "Rechercher par pays ou capitale..."
  }

  /** `i18n[lang].loading`. */
  function LoadingText(lang: Lang): string {
    match lang
    case Ko => "로딩 중..."
    case En => "Loading..."
    case Ja => "読み込み中..."
    case Zh => "加载中..."
    case Es => "Cargando..."
    case Fr => "Chargement..."
  }

  /** `i18n[lang].loadingCount`. */
  function LoadingCountText(lang: Lang): string {
    match lang
    case Ko => "전체 국가를 불러오는 중..."
    case En => "Loading countries..."
    case Ja => "国データを読み込み中..."
    case Zh => "正在加载国家数据..."
    case Es => "Cargando países..."
    case Fr => "Chargement des pays..."
  }

  /** `i18n[lang].error`: the message shown when the records cannot be loaded.
      It shares the grid with the empty-results message and differs from it in
      every language. It also differs from the table's `loading` text, which
      the script never displays itself (the page's markup shows it). */
  function ErrorText(lang: Lang): (r: string)
    ensures r != NoResultsText(lang) && r != LoadingText(lang)
  {
    match lang
    case Ko => "데이터를 불러오는데 실패했습니다."
    case En => "Failed to load data."
    case Ja => "データの読み込みに失敗しました。"
    case Zh => "数据加载失败。"
    case Es => "Error al cargar los datos."
    case Fr => "Échec du chargement des données."
  }

  /** `i18n[lang].noResults`: the message shown when nothing matches; never
      empty, and never the table's `loading` text, which the script itself
      never displays. */
  function NoResultsText(lang: Lang): (r: string)
    ensures r != "" && r != LoadingText(lang)
  {
    match lang
    case Ko => "검색 결과가 없습니다."
    case En => "No results found."
    case Ja => "検索結果がありません。"
    case Zh => "没有搜索结果。"
    case Es => "No se encontraron resultados."
    case Fr => "Aucun résultat trouvé."
  }

  /** `i18n[lang].totalCount`, as the texts around the total. */
  function TotalCountFormat(lang: Lang): CountFormat {
    match lang
    case Ko => CountFormat("전체 ", "개 국가")
    case En => CountFormat("", " countries")
    case Ja => CountFormat("全", "ヶ国")
    case Zh => CountFormat("共 ", " 个国家")
    case Es => CountFormat("", " países")
    case Fr => CountFormat("", " pays")
  }

  /** `i18n[lang].searchCount`, as the texts around the two numbers. */
  function SearchCountFormat(lang: Lang): SearchFormat {
    match lang
    case Ko => SearchFormat("", "개 국가 검색됨 (전체 ", "개)")
    case En => SearchFormat("", " countries found (", " total)")
    case Ja => SearchFormat("", "ヶ国が見つかりました（全", "ヶ国）")
    case Zh => SearchFormat("找到 ", " 个国家（共 ", " 个）")
    case Es => SearchFormat("", " países encontrados (", " en total)")
    case Fr => SearchFormat("", " pays trouvés (", " au total)")
  }

  /** `i18n[lang].noCapital`: shown on a card in place of a missing capital,
      so it is never empty. */
  function NoCapitalText(lang: Lang): (r: string)
    ensures r != ""
  {
    match lang
    case Ko => "수도 정보 없음"
    case En => "No capital info"
    case Ja => "首都情報なし"
    case Zh => "无首都信息"
    case Es => "Sin información de capital"
    case Fr => "Pas d'information sur la capitale"
  }

  /** `i18n[lang].translationKey`: the key of the record translations that
      holds this language's name; none for English, whose name is the record's
      common name itself. */
  function TranslationKey(lang: Lang): (r: Option<string>)
    ensures r.None? <==> lang == En
    ensures r.Some? ==> |r.value| == 3
  {
    match lang
    case Ko => Some("kor")
    case En => None
    case Ja => Some("jpn")
    case Zh => Some("zho")
    case Es => Some("spa")
    case Fr => Some("fra")
  }

  /** Only English has no translation key; the other five have distinct keys. */
  lemma TranslationKeys()
    ensures forall lang :: TranslationKey(lang).None? <==> lang == En
    ensures forall l1, l2 :: TranslationKey(l1) == TranslationKey(l2) ==> l1 == l2
  {
  }

  /** A `totalCount` sentence for `total`. */
  function FormatTotal(f: CountFormat, total: nat): string {
    f.before + Show(total) + f.after
  }

  /** A `searchCount` sentence for `current` out of `total`. */
  function FormatSearch(f: SearchFormat, current: nat, total: nat): string {
    f.before + Show(current) + f.middle + Show(total) + f.after
  }

  /** `i18n[lang].totalCount(total)`. */
  function TotalCount(lang: Lang, total: nat): string {
    FormatTotal(TotalCountFormat(lang), total)
  }

  /** `i18n[lang].searchCount(current, total)`. */
  function SearchCount(lang: Lang, current: nat, total: nat): string {
    FormatSearch(SearchCountFormat(lang), current, total)
  }

  /** The text between a known prefix and a known suffix, if `s` has both. */
  function Between(s: string, before: string, after: string): (r: Option<string>)
    ensures r.Some? ==> s == before + r.value + after
  {
    if |before| + |after| <= |s| && before <= s && s[|s| - |after|..] == after then
      var mid := s[|before|..|s| - |after|];
      assert s == s[..|before|] + mid + s[|s| - |after|..];
      Some(mid)
    else None
  }

  lemma BetweenOf(before: string, mid: string, after: string)
    ensures Between(before + mid + after, before, after) == Some(mid)
  {
    var s := before + mid + after;
    assert s[..|before|] == before;
    assert s[|s| - |after|..] == after;
    assert s[|before|..|s| - |after|] == mid;
  }

  /** Reads the total back out of a `totalCount` sentence. */
  function ReadTotal(f: CountFormat, s: string): Option<nat> {
    match Between(s, f.before, f.after)
    case Some(d) => if d != [] && AllDigits(d) then Some(DigitsValue(d)) else None
    case None => None
  }

  /** Reads the number found and the total back out of a `searchCount` sentence. */
  function ReadSearch(f: SearchFormat, s: string): Option<(nat, nat)> {
    match Between(s, f.before, f.after)
    case None => None
    case Some(body) => ReadNumbers(f.middle, body)
  }

  /** Reads two numerals separated by `middle`. */
  function ReadNumbers(middle: string, body: string): Option<(nat, nat)> {
    var k := LeadingDigits(body);
    var rest := body[k..];
    if k == 0 || !(middle <= rest) then None
    else
      var d := rest[|middle|..];
      if d != [] && AllDigits(d) then Some((DigitsValue(body[..k]), DigitsValue(d))) else None
  }

  /** Two numerals around a separator that starts with a non-digit read back
      as their numbers. */
  lemma ReadNumbersOf(middle: string, current: nat, total: nat)
    requires middle != [] && !IsDigit(middle[0])
    ensures ReadNumbers(middle, Show(current) + middle + Show(total)) == Some((current, total))
  {
    var c, t := Show(current), Show(total);
    var body := c + middle + t;
    assert body == c + (middle + t);
    LeadingDigitsOfNumeral(c, middle + t);
    assert LeadingDigits(body) == |c|;
    assert body[..|c|] == c;
    assert body[|c|..] == middle + t;
    assert middle <= middle + t;
    assert (middle + t)[|middle|..] == t;
    ShowRoundTrip(current);
    ShowRoundTrip(total);
    assert ReadNumbers(middle, body) == Some((DigitsValue(c), DigitsValue(t)));
  }

  /** A `totalCount` sentence states its total recoverably. */
  lemma FormatTotalRoundTrip(f: CountFormat, total: nat)
    ensures ReadTotal(f, FormatTotal(f, total)) == Some(total)
  {
    BetweenOf(f.before, Show(total), f.after);
    ShowRoundTrip(total);
  }

  /** A `searchCount` sentence whose middle text starts with a non-digit states
      both of its numbers recoverably. */
  lemma FormatSearchRoundTrip(f: SearchFormat, current: nat, total: nat)
    requires f.middle != [] && !IsDigit(f.middle[0])
    ensures ReadSearch(f, FormatSearch(f, current, total)) == Some((current, total))
  {
    var body := Show(current) + f.middle + Show(total);
    assert FormatSearch(f, current, total) == f.before + body + f.after;
    BetweenOf(f.before, body, f.after);
    ReadNumbersOf(f.middle, current, total);
  }

  /** In every language both count sentences can be read back: the status line
      always states the numbers it was given. */
  lemma CountsReadBack(lang: Lang, current: nat, total: nat)
    ensures ReadTotal(TotalCountFormat(lang), TotalCount(lang, total)) == Some(total)
    ensures ReadSearch(SearchCountFormat(lang), SearchCount(lang, current, total)) == Some((current, total))
  {
    FormatTotalRoundTrip(TotalCountFormat(lang), total);
    FormatSearchRoundTrip(SearchCountFormat(lang), current, total);
  }

  /** `document.title`: the title with its first globe and space replaced
      away, which leaves the title text in every language. */
  function DocumentTitle(lang: Lang): (r: string)
    ensures r == TitleText(lang)
    ensures Globe + r == Title(lang)
  {
    ReplaceLeading(Globe, TitleText(lang), "");
    assert "" + TitleText(lang) == TitleText(lang);
    ReplaceFirst(Title(lang), Globe, "")
  }

  /** `navigator.language?.slice(0, 2)`: the first two characters of the host
      locale (fewer if it is shorter), or nothing when the host reports none. */
  function LocalePrefix(locale: Option<string>): (r: Option<string>)
    ensures r.Some? <==> locale.Some?
    ensures r.Some? ==> r.value <= locale.value && |r.value| <= 2
    ensures r.Some? && |locale.value| >= 2 ==> |r.value| == 2
    ensures r.Some? && |locale.value| <= 2 ==> r.value == locale.value
  {
    match locale
    case None => None
    case Some(s) => Some(if |s| <= 2 then s else s[..2])
  }

  /** `detectLanguage`: the host locale's two-letter prefix when it is a
      supported code, English otherwise. */
  function DetectLanguage(locale: Option<string>): (r: Lang)
    ensures Code(r) in SupportedLangs
    ensures var p := LocalePrefix(locale);
      (p.Some? && Code(r) == p.value) <==> (p.Some? && p.value in SupportedLangs)
    ensures var p := LocalePrefix(locale);
      !(p.Some? && p.value in SupportedLangs) ==> r == En
  {
    var p := LocalePrefix(locale);
    if p.Some? && p.value in SupportedLangs then FromCode(p.value).value else En
  }
}
