/** The language button (`LanguageSwitcher`): a click switches between
    English and Arabic, and the label names the language a click switches to. */
module LanguageToggle {
  import Languages

  /** The language a click switches to. */
  function Toggle(lang: Languages.Language): (r: Languages.Language)
    ensures r != lang
  {
    if lang == Languages.En then Languages.Ar else Languages.En
  }

  /** Toggling twice gives back the language. */
  lemma ToggleTwice(lang: Languages.Language)
    ensures Toggle(Toggle(lang)) == lang
  {
  }

  /** Each language's name written in that language. */
  function NativeName(lang: Languages.Language): string {
    if lang == Languages.Ar then "\U{0639}\U{0631}\U{0628}\U{064A}" else "English"
  }

  /** The button's text: the Arabic name in English, `English` in Arabic. */
  function ButtonLabel(lang: Languages.Language): (r: string)
    ensures r == NativeName(Toggle(lang))
    ensures r != NativeName(lang)
  {
    if lang == Languages.En then "\U{0639}\U{0631}\U{0628}\U{064A}" else "English"
  }

  /** A click on the button. */
  method Click(provider: Languages.LanguageProvider)
    modifies provider
    ensures provider.language == Toggle(old(provider.language))
  {
    provider.SetLanguage(Toggle(provider.language));
  }
}
