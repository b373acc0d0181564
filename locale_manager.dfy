// The client-side locale manager: the current locale, read at start from the
// NEXT_LOCALE cookie, local storage or the browser language, and on every
// change saved to cookie and storage and announced to the other tabs.

module LocaleManager {
  import opened Wrappers
  import opened Strings
  import opened I18nConfig

  const CookieName := "NEXT_LOCALE"
  const MaxAge := "31536000"

  /** A locale is short text without separators or white space. */
  lemma LocaleShape(l: string)
    requires IsLocale(l)
    ensures |l| == 2 && ';' !in l && '=' !in l && '-' !in l
    ensures !IsJsSpace(l[0]) && !IsJsSpace(l[1])
  {
  }

  /** The available locales: the supported list, each once. */
  function AvailableLocales(): (r: seq<string>)
    ensures |r| == 5
    ensures forall l :: l in r <==> IsLocale(l)
    ensures forall i, j :: 0 <= i < j < |r| ==> r[i] != r[j]
  {
    Locales
  }

  /** `getLocaleDisplayName`: the locale's own name, or the text itself. */
  function DisplayName(locale: string): (r: string)
    ensures IsLocale(locale) ==> r == LocaleNames[locale] && r != locale
    ensures !IsLocale(locale) ==> r == locale
  {
    NamesCoverLocales(locale);
    if locale in LocaleNames then LocaleNames[locale] else locale
  }

  // ---------------------------------------------------------------------
  // The three sources

  /** An item of `document.cookie.split(';')` naming the locale cookie. */
  predicate IsLocaleCookie(item: string) {
    StartsWith(Trim(item), CookieName + "=")
  }

  /** `cookies.find(...)`: the first locale cookie. */
  function FindCookie(items: seq<string>): (r: Option<nat>)
    ensures r.Some? ==> r.value < |items| && IsLocaleCookie(items[r.value])
    ensures r.Some? ==> forall j :: 0 <= j < r.value ==> !IsLocaleCookie(items[j])
    ensures r.None? ==> forall j :: 0 <= j < |items| ==> !IsLocaleCookie(items[j])
  {
    FindCookieFrom(items, 0)
  }

  /** The search from position `i` on. */
  function FindCookieFrom(items: seq<string>, i: nat): (r: Option<nat>)
    requires i <= |items|
    ensures r.Some? ==> i <= r.value < |items| && IsLocaleCookie(items[r.value])
    ensures r.Some? ==> forall j :: i <= j < r.value ==> !IsLocaleCookie(items[j])
    ensures r.None? ==> forall j :: i <= j < |items| ==> !IsLocaleCookie(items[j])
    decreases |items| - i
  {
    if i == |items| then None
    else if IsLocaleCookie(items[i]) then Some(i)
    else FindCookieFrom(items, i + 1)
  }

  /** `localeCookie.split('=')[1]`, which is `undefined` (`None`) without an `=`. */
  function CookieValue(item: string): (r: Option<string>)
    ensures r.Some? ==> '=' !in r.value
  {
    var parts := Split(item, '=');
    if |parts| >= 2 then Some(parts[1]) else None
  }

  /** `getLocaleFromCookie`; `cookie` is `document.cookie`, `None` without a document. */
  function FromCookie(cookie: Option<string>): (r: Option<string>)
    ensures r.Some? ==> IsLocale(r.value)
    ensures cookie.None? ==> r.None?
    ensures cookie.Some? && FindCookie(Split(cookie.value, ';')).None? ==> r.None?
    ensures r.Some? ==>
      (cookie.Some? && FindCookie(Split(cookie.value, ';')).Some?
       && CookieValue(Split(cookie.value, ';')[FindCookie(Split(cookie.value, ';')).value]) == r)
  {
    match cookie
    case None => None
    case Some(text) =>
      var items := Split(text, ';');
      match FindCookie(items)
      case None => None
      case Some(k) =>
        var v := CookieValue(items[k]);
        if v.Some? && IsLocale(v.value) then v else None
  }

  /** `getLocaleFromStorage`; `stored` is the `preferredLocale` item, `None`
      when it is missing or storage is unavailable. */
  function FromStorage(stored: Option<string>): (r: Option<string>)
    ensures r.Some? <==> stored.Some? && IsLocale(stored.value)
    ensures r.Some? ==> r == stored
  {
    if stored.Some? && stored.value != "" && IsLocale(stored.value) then stored else None
  }

  /** `getBrowserLocale`; `language` is `navigator.language`, `None` without a navigator. */
  function FromBrowser(language: Option<string>): (r: Option<string>)
    ensures r.Some? ==> IsLocale(r.value)
  {
    match language
    case None => None
    case Some(tag) =>
      var primary := Split(tag, '-')[0];
      if IsLocale(primary) then Some(primary) else None
  }

  /** The browser locale is the language tag up to its first `-`, whole. */
  lemma BrowserPrimaryTag(tag: string)
    ensures FromBrowser(Some(tag)).Some? ==>
      var l := FromBrowser(Some(tag)).value;
      l <= tag && (|l| == |tag| || tag[|l|] == '-')
    ensures IsLocale(tag) ==> FromBrowser(Some(tag)) == Some(tag)
  {
    SplitHead(tag, '-');
    if IsLocale(tag) {
      LocaleShape(tag);
      SplitNoSeparator(tag, '-');
    }
  }

  /** `cookieLocale || storageLocale || browserLocale || 'en'`. */
  function InitialLocale(cookie: Option<string>, stored: Option<string>, language: Option<string>): (l: string)
    ensures IsLocale(l)
    ensures FromCookie(cookie).Some? ==> l == FromCookie(cookie).value
    ensures FromCookie(cookie).None? && FromStorage(stored).Some? ==> l == stored.value
    ensures FromCookie(cookie).None? && FromStorage(stored).None? && FromBrowser(language).Some? ==>
      l == FromBrowser(language).value
    ensures FromCookie(cookie).None? && FromStorage(stored).None? && FromBrowser(language).None? ==>
      l == DefaultLocale
  {
    match FromCookie(cookie)
    case Some(l) => l
    case None =>
      match FromStorage(stored)
      case Some(l) => l
      case None => FromBrowser(language).GetOr(DefaultLocale)
  }

  /** The text the manager gives to `document.cookie`. */
  function CookieText(locale: string): string {
    CookieName + "=" + locale + "; path=/; max-age=" + MaxAge + "; SameSite=Lax"
  }

  /** The cookie the browser then sends back reads as the saved locale. */
  lemma SavedCookieReadsBack(name: string, locale: string)
    requires name == CookieName && IsLocale(locale)
    ensures FromCookie(Some(name + "=" + locale)) == Some(locale)
  {
    var item := name + "=" + locale;
    LocaleShape(locale);
    assert ';' !in item by {
      assert item == name + ['='] + locale;
    }
    SplitNoSeparator(item, ';');
    assert Split(item, ';') == [item];
    assert item[0] == 'N' && item[|item| - 1] == locale[1];
    TrimUnchanged(item);
    assert StartsWith(Trim(item), CookieName + "=") by {
      assert item[..|CookieName + "="|] == CookieName + "=";
    }
    assert item == name + ['='] + locale;
    SplitAround(name, '=', locale);
  }

  // ---------------------------------------------------------------------
  // Cross-tab synchronisation

  /** A message on the `language_sync` channel or a `storage` event. */
  datatype Event = Message(kind: string, locale: string) | StorageChange(key: string, newValue: Option<string>)

  /** The locale `setupCrossTabSync` hands to its callback, if any. */
  function Synced(e: Event): (r: Option<string>)
    ensures r.Some? ==> IsLocale(r.value)
    ensures e.Message? ==> (r.Some? <==> e.kind == "LANGUAGE_CHANGED" && IsLocale(e.locale))
    ensures e.StorageChange? ==>
      (r.Some? <==> e.key == "preferredLocale" && e.newValue.Some? && IsLocale(e.newValue.value))
  {
    match e
    case Message(kind, locale) =>
      if kind == "LANGUAGE_CHANGED" && IsLocale(locale) then Some(locale) else None
    case StorageChange(key, newValue) =>
      if key == "preferredLocale" && newValue.Some? && newValue.value != "" && IsLocale(newValue.value)
      then newValue else None
  }

  /** The two events `broadcastLocaleChange` sends. */
  function Announcements(locale: string): seq<Event> {
    [Message("LANGUAGE_CHANGED", locale), StorageChange("preferredLocale", Some(locale))]
  }

  /** Another tab picks up exactly the announced locale from either event. */
  lemma AnnouncementsSync(locale: string)
    requires IsLocale(locale)
    ensures forall e :: e in Announcements(locale) ==> Synced(e) == Some(locale)
  {
  }

  /** The manager; `hasWindow` is false on the server, where nothing is
      read, saved or announced. */
  class Manager {
    const hasWindow: bool
    var currentLocale: string
    /** The NEXT_LOCALE cookie text last written, if any. */
    var savedCookie: Option<string>
    /** The `preferredLocale` storage item. */
    var stored: Option<string>
    /** The events sent to other tabs, oldest first. */
    var sent: seq<Event>

    predicate Valid()
      reads this
    {
      IsLocale(currentLocale)
    }

    /** The constructor with the page's cookie, stored item and browser language. */
    constructor(hasWindow: bool, cookie: Option<string>, stored: Option<string>, language: Option<string>)
      ensures this.hasWindow == hasWindow && Valid() && sent == []
      ensures hasWindow ==>
        (currentLocale == InitialLocale(cookie, stored, language)
         && savedCookie == Some(CookieText(currentLocale)) && this.stored == Some(currentLocale))
      ensures !hasWindow ==> currentLocale == DefaultLocale && savedCookie.None? && this.stored == stored
    {
      this.hasWindow := hasWindow;
      currentLocale := DefaultLocale;
      savedCookie := None;
      this.stored := stored;
      sent := [];
      new;
      if hasWindow {
        var l := InitialLocale(cookie, stored, language);
        currentLocale := l;
        Save(l);
      }
    }

    /** `saveLocale`. */
    method Save(locale: string)
      modifies this
      ensures currentLocale == old(currentLocale) && sent == old(sent)
      ensures hasWindow ==> savedCookie == Some(CookieText(locale)) && stored == Some(locale)
      ensures !hasWindow ==> savedCookie == old(savedCookie) && stored == old(stored)
    {
      if hasWindow {
        savedCookie := Some(CookieText(locale));
        stored := Some(locale);
      }
    }

    /** `setLocale`: an unsupported value changes nothing. */
    method SetLocale(locale: string)
      requires Valid()
      modifies this
      ensures Valid()
      ensures !IsLocale(locale) ==>
        currentLocale == old(currentLocale) && savedCookie == old(savedCookie)
        && stored == old(stored) && sent == old(sent)
      ensures IsLocale(locale) ==> currentLocale == locale
      ensures IsLocale(locale) && hasWindow ==>
        savedCookie == Some(CookieText(locale)) && stored == Some(locale)
        && sent == old(sent) + Announcements(locale)
      ensures IsLocale(locale) && !hasWindow ==>
        savedCookie == old(savedCookie) && stored == old(stored) && sent == old(sent)
    {
      if !IsLocale(locale) {
        return;
      }
      currentLocale := locale;
      Save(locale);
      if hasWindow {
        sent := sent + Announcements(locale);
      }
    }
  }
}
