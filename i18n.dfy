/** The renderer's choice of UI language (src/renderer/i18n.ts). `localStorage`
    and `navigator.language` enter as plain inputs. */
module I18n {
  import opened Wrappers
  import opened Strings
  import MainSettings

  /** `supportedLanguages` */
  const SupportedLanguages: seq<string> := ["en", "ko", "zh", "ja"]

  /** `getDefaultLanguage`: the saved language if supported, else the system
      language's part before the first `-` if supported, else `en`.
      `saved` is `localStorage.getItem('language')` (`None` for `null`). */
  function GetDefaultLanguage(saved: Option<string>, systemLanguage: string): (lang: string)
    ensures lang in SupportedLanguages
    ensures lang == "en" || (saved.Some? && lang == saved.value) || lang == BeforeFirst(systemLanguage, '-')
  {
    if saved.Some? && saved.value != "" && saved.value in SupportedLanguages then
      saved.value
    else
      var systemLang := BeforeFirst(systemLanguage, '-');
      if systemLang in SupportedLanguages then systemLang else "en"
  }

  /** A supported saved language wins whatever the system language is. */
  lemma SavedLanguageWins(saved: string, systemLanguage: string, other: string)
    requires saved in SupportedLanguages
    ensures GetDefaultLanguage(Some(saved), systemLanguage) == saved
    ensures GetDefaultLanguage(Some(saved), systemLanguage) == GetDefaultLanguage(Some(saved), other)
  {
  }

  /** An unsupported or absent saved language is ignored. */
  lemma UnsupportedSavedIgnored(saved: Option<string>, systemLanguage: string)
    requires saved.None? || saved.value !in SupportedLanguages
    ensures GetDefaultLanguage(saved, systemLanguage) == GetDefaultLanguage(None, systemLanguage)
  {
  }

  /** Without a usable saved language, a supported system prefix is taken,
      otherwise `en`. */
  lemma SystemLanguageFallback(systemLanguage: string)
    ensures var prefix := BeforeFirst(systemLanguage, '-');
            GetDefaultLanguage(None, systemLanguage) == if prefix in SupportedLanguages then prefix else "en"
  {
  }

  lemma KoreanSystem()
    ensures GetDefaultLanguage(None, "ko-KR") == "ko"
    ensures GetDefaultLanguage(Some("fr"), "ko-KR") == "ko"
    ensures GetDefaultLanguage(Some("ja"), "ko-KR") == "ja"
    ensures GetDefaultLanguage(None, "pt-BR") == "en"
  {
    assert BeforeFirst("ko-KR", '-') == "ko";
    assert BeforeFirst("pt-BR", '-') == "pt";
  }

  /** With nothing saved, the renderer picks the same language as the main
      process's settings default for the same locale string. */
  lemma AgreesWithMainDefault(locale: string)
    ensures GetDefaultLanguage(None, locale) == MainSettings.GetDefaultLanguage(locale)
  {
  }
}
