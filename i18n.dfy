/**
 * Language selection in the mobile app: which language the app starts in,
 * the right-to-left layout rule for Urdu, and switching language at run time.
 * The global state the module drives (the persisted `language` preference,
 * React Native's layout-direction flags, i18next's current language and its
 * `languageChanged` listener) is one object.
 */
module I18n {
  import opened Common

  const English := "en"
  const Urdu := "ur"

  /** The languages the app ships translations for. */
  predicate Supported(language: string)
  {
    language == English || language == Urdu
  }

  /** The first `-`-separated part of a locale tag: the language subtag of `ur-PK` is `ur`. */
  function LocalePrefix(locale: string): (p: string)
    ensures p <= locale
    ensures forall i :: 0 <= i < |p| ==> p[i] != '-'
    ensures p == locale || locale[|p|] == '-'
  {
    if locale == [] || locale[0] == '-' then []
    else [locale[0]] + LocalePrefix(locale[1..])
  }

  lemma LocalePrefixExamples()
    ensures LocalePrefix("ur-PK") == "ur"
    ensures LocalePrefix("en") == "en"
    ensures LocalePrefix("-x") == ""
  {
    assert LocalePrefix("ur-PK") == "ur" + LocalePrefix("-PK");
    assert LocalePrefix("en") == "e" + LocalePrefix("n");
  }

  /** `detectUserLanguage`: the stored preference when there is one, else the device's language if the
      app supports it, else English. `stored` is Err when reading the preference fails. */
  function DetectUserLanguage(stored: Result<Option<string>>, locale: string): (language: string)
    ensures stored.Err? ==> language == English
    ensures stored.Ok? && Truthy(stored.value) ==> language == stored.value.value
    ensures stored.Ok? && !Truthy(stored.value) ==> Supported(language)
    ensures stored.Ok? && !Truthy(stored.value) ==> (language == Urdu <==> LocalePrefix(locale) == Urdu)
  {
    match stored
    case Err(_) => English
    case Ok(preference) =>
      if Truthy(preference) then preference.value
      else if Supported(LocalePrefix(locale)) then LocalePrefix(locale)
      else English
  }

  /** A stored preference is used as it is, even one the app has no translations for. */
  lemma StoredPreferenceIsNotChecked(locale: string)
    ensures DetectUserLanguage(Ok(Some("fr")), locale) == "fr"
    ensures !Supported(DetectUserLanguage(Ok(Some("fr")), locale))
  {
  }

  /** Urdu is written right to left. */
  predicate ShouldBeRtl(language: string)
  {
    language == Urdu
  }

  /** React Native's layout direction: the current `isRTL`, and the last arguments given to `allowRTL` and
      `forceRTL` (which take effect when the app is next loaded). */
  datatype Layout = Layout(isRtl: bool, allowRtl: Option<bool>, forceRtl: Option<bool>)

  /** `setAppDirection`: when the layout is not already in the language's direction, allow and force that direction. */
  function Direct(layout: Layout, language: string): (r: Layout)
    ensures r.isRtl == layout.isRtl
    ensures layout.isRtl == ShouldBeRtl(language) ==> r == layout
    ensures layout.isRtl != ShouldBeRtl(language) ==>
              r.allowRtl == Some(ShouldBeRtl(language)) && r.forceRtl == Some(ShouldBeRtl(language))
  {
    if layout.isRtl != ShouldBeRtl(language) then
      Layout(layout.isRtl, Some(ShouldBeRtl(language)), Some(ShouldBeRtl(language)))
    else layout
  }

  /** Applying the direction twice is applying it once. */
  lemma DirectIsIdempotent(layout: Layout, language: string)
    ensures Direct(Direct(layout, language), language) == Direct(layout, language)
  {
  }

  /** After the direction is applied, the layout is in the language's direction or that direction is forced. */
  lemma DirectReachesLanguageDirection(layout: Layout, language: string)
    ensures var r := Direct(layout, language);
            r.isRtl == ShouldBeRtl(language) || r.forceRtl == Some(ShouldBeRtl(language))
  {
  }

  class AppLanguage {
    /** The `language` item of the app's persistent key-value storage. */
    var stored: Option<string>
    var layout: Layout
    /** i18next's current language; None until initialisation. */
    var current: Option<string>
    /** Whether the `languageChanged` listener is installed. */
    var listening: bool

    constructor (stored: Option<string>, isRtl: bool)
      ensures this.stored == stored && layout == Layout(isRtl, None, None)
      ensures current == None && !listening
    {
      this.stored := stored;
      layout := Layout(isRtl, None, None);
      current := None;
      listening := false;
    }

    method SetAppDirection(language: string)
      modifies this`layout
      ensures layout == Direct(old(layout), language)
    {
      var shouldBeRtl := ShouldBeRtl(language);
      if layout.isRtl != shouldBeRtl {
        layout := layout.(allowRtl := Some(shouldBeRtl));
        layout := layout.(forceRtl := Some(shouldBeRtl));
      }
    }

    /** `initI18n`: detect the language, apply its direction, persist it, start i18next in it and listen
        for changes. `readFails` says whether reading the stored preference fails; `locale` is the device locale. */
    method InitI18n(readFails: bool, locale: string)
      modifies this
      ensures var language := DetectUserLanguage(if readFails then Err("") else Ok(old(stored)), locale);
              && layout == Direct(old(layout), language)
              && stored == Some(language)
              && current == Some(language)
              && listening
    {
      var language := DetectUserLanguage(if readFails then Err("") else Ok(stored), locale);
      SetAppDirection(language);
      stored := Some(language);
      current := Some(language);
      listening := true;
    }

    /** `changeLanguage`: only `en` and `ur` are accepted. i18next switches, and its listener, once
        installed, persists the choice and applies its direction. */
    method ChangeLanguage(language: string)
      modifies this
      ensures !Supported(language) ==> unchanged(this)
      ensures Supported(language) ==> current == Some(language) && listening == old(listening)
      ensures Supported(language) && old(listening) ==>
                stored == Some(language) && layout == Direct(old(layout), language)
      ensures Supported(language) && !old(listening) ==> stored == old(stored) && layout == old(layout)
    {
      if Supported(language) {
        current := Some(language);
        if listening {
          stored := Some(language);
          SetAppDirection(language);
        }
      }
    }
  }
}
