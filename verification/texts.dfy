/** The two language-keyed string tables of the weather handler
    (handlers/weather_module.py, ERROR_TEXTS and LABELS) and the single-slot
    `str.format` substitution they are used with. */
module Texts {
  import opened Wrappers

  /** The two supported languages. */
  datatype Lang = Uk | En

  /** The language code under which a table is stored. */
  function Code(lang: Lang): string
  {
    match lang
    case Uk => "uk"
    case En => "en"
  }

  /** Dictionary lookup by language code: any code other than the two keys
      finds nothing (Python raises `KeyError`). */
  function LangFromCode(code: string): (r: Option<Lang>)
    ensures r.Some? <==> code == "uk" || code == "en"
    ensures r.Some? ==> Code(r.value) == code
  {
    if code == "uk" then Some(Uk)
    else if code == "en" then Some(En)
    else None
  }

  /** Every language's own code finds that language's tables. */
  lemma LangFromCodeOfCode(lang: Lang)
    ensures LangFromCode(Code(lang)) == Some(lang)
  {
  }

  /** A template with at most one `{name}` placeholder, as every error text
      and the title are. */
  datatype Template =
    | Fixed(text: string)
    | Slot(before: string, after: string)

  /** `template.format(name=value)`: the value is inserted verbatim, and a
      template without a placeholder ignores it. */
  function Fill(t: Template, value: string): (r: string)
    ensures t.Slot? ==> |r| == |t.before| + |value| + |t.after|
    ensures t.Slot? ==> r[..|t.before|] == t.before
    ensures t.Slot? ==> r[|t.before|..|t.before| + |value|] == value
    ensures t.Slot? ==> r[|t.before| + |value|..] == t.after
    ensures t.Fixed? ==> r == t.text
  {
    match t
    case Fixed(text) => text
    case Slot(before, after) => before + value + after
  }

  /** Recovers the substituted value from a filled slot template, or nothing
      when the text does not have the template's shape. */
  function Unfill(t: Template, s: string): (r: Option<string>)
    requires t.Slot?
    ensures r.Some? ==> Fill(t, r.value) == s
  {
    var b := |t.before|;
    var a := |t.after|;
    if b + a <= |s| && s[..b] == t.before && s[|s| - a..] == t.after then
      var v := s[b..|s| - a];
      assert s == s[..b] + v + s[|s| - a..];
      Some(v)
    else
      None
  }

  /** Filling then unfilling a slot template gives back the value: the
      filled text carries the value verbatim and nothing can be confused
      with it. */
  lemma UnfillFill(t: Template, value: string)
    requires t.Slot?
    ensures Unfill(t, Fill(t, value)) == Some(value)
  {
    var s := Fill(t, value);
    assert s[|s| - |t.after|..] == t.after;
    assert s[|t.before|..|s| - |t.after|] == value;
  }

  /** One language's row of ERROR_TEXTS: the same six keys in every
      language. */
  datatype ErrorTable = ErrorTable(
    auth: Template,
    notFound: Template,
    api: Template,
    network: Template,
    unexpected: Template,
    title: Template)

  /** ERROR_TEXTS. In both languages `auth` and `api` take no value;
      `not_found` and `title` take the city, and `not_found` opens a single
      quote right before it; `network` and `unexpected` end with the error
      text. */
  function ErrorTexts(lang: Lang): (r: ErrorTable)
    ensures r.auth.Fixed? && r.api.Fixed?
    ensures r.notFound.Slot? && r.title.Slot? && r.network.Slot? && r.unexpected.Slot?
    ensures r.notFound.Slot? ==>
      |r.notFound.before| > 0 && r.notFound.before[|r.notFound.before| - 1] == '\''
    ensures r.network.Slot? && r.unexpected.Slot? ==> r.network.after == [] && r.unexpected.after == []
  {
    match lang
    case Uk => ErrorTable(
      Fixed("Помилка автентифікації API. Перевірте ваш API ключ."),
      Slot("Місто '", "' не знайдено. Перевірте правильність написання."),
      Fixed("Помилка при отриманні прогнозу погоди. Спробуйте пізніше."),
      Slot("Помилка мережі: ", ""),
      Slot("Сталася помилка: ", ""),
      Slot("🌤 Прогноз погоди для міста ", ":"))
    case En => ErrorTable(
      Fixed("API authentication error. Check your API key."),
      Slot("City '", "' not found. Please check the spelling."),
      Fixed("Error getting weather forecast. Please try again later."),
      Slot("Network error: ", ""),
      Slot("An error occurred: ", ""),
      Slot("🌤 Weather forecast for ", ":"))
  }

  /** Every entry of ERROR_TEXTS is written out per language: no message
      is shared between the two tables, and the two fixed messages of one
      language differ. */
  lemma ErrorTextsTranslated()
    ensures ErrorTexts(Uk).auth != ErrorTexts(En).auth && ErrorTexts(Uk).api != ErrorTexts(En).api
    ensures ErrorTexts(Uk).notFound != ErrorTexts(En).notFound && ErrorTexts(Uk).title != ErrorTexts(En).title
    ensures ErrorTexts(Uk).network != ErrorTexts(En).network && ErrorTexts(Uk).unexpected != ErrorTexts(En).unexpected
    ensures forall lang: Lang :: ErrorTexts(lang).auth != ErrorTexts(lang).api
  {
    var uk := ErrorTexts(Uk);
    var en := ErrorTexts(En);
    assert |uk.auth.text| == 51 && |en.auth.text| == 45;
    assert |uk.api.text| == 57 && |en.api.text| == 55;
    assert |uk.notFound.before| == 7 && |en.notFound.before| == 6;
    assert |uk.title.before| == 27 && |en.title.before| == 23;
    assert |uk.network.before| == 16 && |en.network.before| == 15;
    assert |uk.unexpected.before| == 17 && |en.unexpected.before| == 19;
  }

  /** One language's row of LABELS: the single-value labels as templates,
      the two-value temperature label and the date format as raw strings.
      The float and date rendering they drive is not modelled. */
  datatype LabelTable = LabelTable(
    date: Template,
    temp: string,
    desc: Template,
    humidity: Template,
    wind: Template,
    dateFormat: string)

  /** LABELS. In both languages the date, description, humidity and wind
      labels each take one value. */
  function Labels(lang: Lang): (r: LabelTable)
    ensures r.date.Slot? && r.desc.Slot? && r.humidity.Slot? && r.wind.Slot?
  {
    match lang
    case Uk => LabelTable(
      Slot("📅 ", ":"),
      "🌡 Температура: {min:.1f}°C - {max:.1f}°C",
      Slot("☁️ ", ""),
      Slot("💧 Вологість: ", "%"),
      Slot("💨 Швидкість вітру: ", " м/с"),
      "%d.%m.%Y")
    case En => LabelTable(
      Slot("📅 ", ":"),
      "🌡 Temperature: {min:.1f}°C - {max:.1f}°C",
      Slot("☁️ ", ""),
      Slot("💧 Humidity: ", "%"),
      Slot("💨 Wind speed: ", " m/s"),
      "%B %d, %Y")
  }
}
