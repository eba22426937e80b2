/** The bilingual text lookup (`LanguageProvider`): the current language,
    the English and Arabic tables and `t`, which falls back to the key. The
    tables' prose is not modelled: a provider is built from two tables that
    have exactly the source's key sets and no empty text. */
module Languages {
  import opened Common

  datatype Language = En | Ar

  /** The keys of the English table. */
  const EnKeys: set<string> := {
    "hero.title", "hero.subtitle", "hero.cta", "services.title", "services.startingFrom",
    "whyChooseUs.title", "cta.title", "cta.subtitle", "cta.button", "footer.copyright",
    "footer.address", "footer.phone", "footer.email", "footer.contact",
    "services.cinematography.title", "services.cinematography.description",
    "services.aerial.title", "services.aerial.description", "services.social.title",
    "services.social.description", "services.equipment.title", "services.equipment.description",
    "services.matterport.title", "services.matterport.description", "services.tourism.title",
    "services.tourism.description", "advantages.solutions.title",
    "advantages.solutions.description", "advantages.technology.title",
    "advantages.technology.description", "advantages.partners.title",
    "advantages.partners.description", "advantages.model.title", "advantages.model.description",
    "faq.title", "faq.q1", "faq.a1", "faq.q2", "faq.a2", "faq.q3", "faq.a3", "faq.q4", "faq.a4",
    "faq.q5", "faq.a5", "faq.q6", "faq.a6"
  }

  /** The keys of the Arabic table. */
  const ArKeys: set<string> := {
    "hero.title", "hero.subtitle", "hero.cta", "services.title", "services.startingFrom",
    "whyChooseUs.title", "cta.title", "cta.subtitle", "cta.button", "footer.copyright",
    "footer.address", "footer.phone", "footer.email", "footer.contact",
    "services.cinematography.title", "services.cinematography.description",
    "services.aerial.title", "services.aerial.description", "services.social.title",
    "services.social.description", "services.equipment.title", "services.equipment.description",
    "services.matterport.title", "services.matterport.description", "services.tourism.title",
    "services.tourism.description", "advantages.solutions.title",
    "advantages.solutions.description", "advantages.technology.title",
    "advantages.technology.description", "advantages.partners.title",
    "advantages.partners.description", "advantages.model.title", "advantages.model.description",
    "faq.title", "faq.q1", "faq.a1", "faq.q2", "faq.a2", "faq.q3", "faq.a3", "faq.q4", "faq.a4",
    "faq.q5", "faq.a5", "faq.q6", "faq.a6"
  }

  function Keys(lang: Language): set<string> {
    if lang == En then EnKeys else ArKeys
  }

  /** Both tables translate the same keys. */
  lemma SameKeys()
    ensures Keys(En) == Keys(Ar)
  {
  }

  /** A translation table for `lang`: its keys, each with some non-empty text. */
  ghost predicate IsTable(table: map<string, string>, lang: Language) {
    table.Keys == Keys(lang) && forall k :: k in table ==> table[k] != ""
  }

  /** `table[key] || key`: the text when the key is present with non-empty
      text, otherwise the key itself. */
  function Lookup(table: map<string, string>, key: string): (r: string)
    ensures key in table && table[key] != "" ==> r == table[key]
    ensures key !in table || table[key] == "" ==> r == key
  {
    if key in table && table[key] != "" then table[key] else key
  }

  /** `t` shows the key itself. */
  predicate FallsBack(table: map<string, string>, key: string) {
    key !in table || table[key] == ""
  }

  /** With the two tables, a key falls back in one language exactly when it
      falls back in the other: when it is not a key of the tables. */
  lemma FallbackAgrees(en: map<string, string>, ar: map<string, string>, key: string)
    requires IsTable(en, En) && IsTable(ar, Ar)
    ensures FallsBack(en, key) <==> FallsBack(ar, key)
    ensures FallsBack(en, key) <==> key !in EnKeys
  {
    SameKeys();
  }

  const UseLanguageError := "useLanguage must be used within a LanguageProvider"

  class LanguageProvider {
    var language: Language
    const en: map<string, string>
    const ar: map<string, string>

    ghost predicate Valid()
      reads this
    {
      IsTable(en, En) && IsTable(ar, Ar)
    }

    /** The provider starts in English. */
    constructor (en: map<string, string>, ar: map<string, string>)
      requires IsTable(en, En) && IsTable(ar, Ar)
      ensures Valid() && language == En && this.en == en && this.ar == ar
    {
      language := En;
      this.en := en;
      this.ar := ar;
    }

    method SetLanguage(lang: Language)
      modifies this
      ensures language == lang
    {
      language := lang;
    }

    /** `t`: a lookup in the current language's table. */
    function T(key: string): (r: string)
      reads this
      requires Valid()
      ensures key in Keys(language) ==> r == (if language == En then en else ar)[key] && r != ""
      ensures key !in Keys(language) ==> r == key
    {
      Lookup(if language == En then en else ar, key)
    }
  }

  /** `useLanguage`: the provider's value, or the error thrown outside a provider. */
  function UseLanguage(context: Option<LanguageProvider>): (r: Result<LanguageProvider>)
    ensures r.Ok? <==> context.Some?
    ensures r.Ok? ==> r.value == context.value
    ensures r.Err? ==> r.message == UseLanguageError
  {
    if context.Some? then Ok(context.value) else Err(UseLanguageError)
  }
}
