// The request configuration of the internationalised front end: the five
// supported locales and the choice of a request's locale from the
// middleware header, the NEXT_LOCALE cookie and the user-preferences cookie.

module I18nConfig {
  import opened Wrappers

  const Locales: seq<string> := ["en", "es", "fr", "de", "pt"]
  const DefaultLocale := "en"

  const LocaleNames: map<string, string> :=
    map["en" := "English", "es" := "Español", "fr" := "Français", "de" := "Deutsch", "pt" := "Português"]

  /** `locales.includes(x)`. */
  predicate IsLocale(x: string) {
    x in Locales
  }

  /** Every locale has a display name, and only locales do. */
  lemma NamesCoverLocales(x: string)
    ensures x in LocaleNames <==> IsLocale(x)
  {
  }

  /** The user-preferences cookie: absent, not JSON (or JSON without
      properties, such as `null`), or an object whose `language` is a string
      (`Some`) or anything else (`None`). */
  datatype Preferences = NoPreferences | Malformed | Parsed(language: Option<string>)

  /** The value of the `locale` variable after the three checks, with
      `header` the `x-next-intl-locale` header and `cookie` the NEXT_LOCALE
      cookie (`None` when absent). */
  function Chosen(header: Option<string>, cookie: Option<string>, prefs: Preferences): (l: string)
    ensures header.Some? && IsLocale(header.value) ==> l == header.value
    ensures !(header.Some? && IsLocale(header.value)) && cookie.Some? && IsLocale(cookie.value) ==> l == cookie.value
    ensures !(header.Some? && IsLocale(header.value)) && !(cookie.Some? && IsLocale(cookie.value)) ==>
      (if prefs.Parsed? && prefs.language.Some? && IsLocale(prefs.language.value)
       then l == prefs.language.value else l == DefaultLocale)
  {
    if header.Some? && header.value != "" && IsLocale(header.value) then header.value
    else if cookie.Some? && cookie.value != "" && IsLocale(cookie.value) then cookie.value
    else
      match prefs
      case Parsed(Some(language)) =>
        if language != "" && IsLocale(language) then language else DefaultLocale
      case _ => DefaultLocale
  }

  /** `locales.includes(locale) ? locale : 'en'`. */
  function Validated(locale: string): (l: string)
    ensures IsLocale(l)
    ensures IsLocale(locale) ==> l == locale
    ensures !IsLocale(locale) ==> l == DefaultLocale
  {
    if IsLocale(locale) then locale else DefaultLocale
  }

  /** The locale of the request configuration. */
  function RequestLocale(header: Option<string>, cookie: Option<string>, prefs: Preferences): (l: string)
    ensures IsLocale(l)
  {
    Validated(Chosen(header, cookie, prefs))
  }

  /** Each check only ever accepts a supported locale, so the final guard
      never changes the choice. */
  lemma ChoiceNeedsNoGuard(header: Option<string>, cookie: Option<string>, prefs: Preferences)
    ensures IsLocale(Chosen(header, cookie, prefs))
    ensures RequestLocale(header, cookie, prefs) == Chosen(header, cookie, prefs)
  {
  }

  /** Malformed preferences are ignored: they choose what no preferences do. */
  lemma MalformedIgnored(header: Option<string>, cookie: Option<string>)
    ensures RequestLocale(header, cookie, Malformed) == RequestLocale(header, cookie, NoPreferences)
    ensures RequestLocale(None, None, Malformed) == DefaultLocale
  {
  }
}
