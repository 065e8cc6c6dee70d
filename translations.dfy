/**
 * The two translation tables of the language context, the lookup `t(key)` with its
 * fall-back to the key itself, and the provider's one mutable cell, the current language.
 */
module Translations {
  import opened Wrappers

  datatype Language = Cs | En

  /** The provider starts in Czech. */
  const DefaultLanguage: Language := Cs

  const CsWelcome: map<string, string> := map[
    "welcome" := "Vítejte na",
    "customerPortal" := "Zákaznickém portálu",
    "fairEndsIn" := "Konec veletrhu za",
    "days" := "d",
    "hours" := "h",
    "minutes" := "m",
    "seconds" := "s",
    "viewCatalog" := "Zobrazit katalog",
    "rateOurBooth" := "Ohodnoťte náš stánek",
    "faq" := "Časté dotazy"
  ]

  const CsCatalog: map<string, string> := map[
    "productCatalog" := "Katalog produktů",
    "downloadCatalog" := "Stáhnout katalog",
    "viewPDF" := "Zobrazit PDF",
    "catalogDescription" := "Prohlédněte si naše produkty a služby",
    "downloading" := "Stahuji...",
    "openingCatalog" := "Otevírám katalog..."
  ]

  const CsRating: map<string, string> := map[
    "rateUs" := "Ohodnoťte nás",
    "selectRating" := "Vyberte hodnocení",
    "addComment" := "Přidat komentář (volitelné)",
    "commentPlaceholder" := "Sdělte nám svůj názor...",
    "addPhoto" := "Přidat fotku (volitelné)",
    "companyName" := "Název společnosti (volitelné)",
    "companyPlaceholder" := "Vaše společnost",
    "takePhoto" := "Vyfotit",
    "chooseFromGallery" := "Vybrat z galerie",
    "removePhoto" := "Odebrat fotku",
    "submitRating" := "Odeslat hodnocení",
    "submitting" := "Odesílám...",
    "thankYou" := "Děkujeme!",
    "ratingSuccess" := "Vaše hodnocení bylo úspěšně odesláno",
    "ratingError" := "Chyba při odesílání hodnocení",
    "selectStars" := "Vyberte prosím hodnocení hvězdičkami"
  ]

  const CsFaq: map<string, string> := map[
    "frequentlyAsked" := "Často kladené otázky",
    "faqQ1" := "Kde najdu více informací o produktech INOVIX?",
    "faqA1" := "Navštivte náš katalog produktů nebo se zeptejte našich zástupců na stánku.",
    "faqQ2" := "Nabízíte technickou podporu?",
    "faqA2" := "Ano, poskytujeme komplexní technickou podporu pro všechny naše produkty.",
    "faqQ3" := "Jak mohu objednat produkty?",
    "faqA3" := "Kontaktujte nás prostřednictvím našeho webu nebo přímo na veletrhu.",
    "faqQ4" := "Dodáváte i do zahraničí?",
    "faqA4" := "Ano, dodáváme po celé Evropě i do dalších zemí.",
    "faqQ5" := "Jaká je záruka na vaše produkty?",
    "faqA5" := "Všechny naše produkty mají standardní záruku 24 měsíců."
  ]

  const CsCommon: map<string, string> := map[
    "back" := "Zpět",
    "close" := "Zavřít",
    "ok" := "OK",
    "cancel" := "Zrušit",
    "error" := "Chyba"
  ]

  const CsTable: map<string, string> := CsWelcome + CsCatalog + CsRating + CsFaq + CsCommon

  const EnWelcome: map<string, string> := map[
    "welcome" := "Welcome to",
    "customerPortal" := "Customer Portal",
    "fairEndsIn" := "Fair ends in",
    "days" := "d",
    "hours" := "h",
    "minutes" := "m",
    "seconds" := "s",
    "viewCatalog" := "View Catalog",
    "rateOurBooth" := "Rate Our Booth",
    "faq" := "FAQ"
  ]

  const EnCatalog: map<string, string> := map[
    "productCatalog" := "Product Catalog",
    "downloadCatalog" := "Download Catalog",
    "viewPDF" := "View PDF",
    "catalogDescription" := "Browse our products and services",
    "downloading" := "Downloading...",
    "openingCatalog" := "Opening catalog..."
  ]

  const EnRating: map<string, string> := map[
    "rateUs" := "Rate Us",
    "selectRating" := "Select your rating",
    "addComment" := "Add a comment (optional)",
    "commentPlaceholder" := "Share your thoughts...",
    "addPhoto" := "Add a photo (optional)",
    "companyName" := "Company name (optional)",
    "companyPlaceholder" := "Your company",
    "takePhoto" := "Take Photo",
    "chooseFromGallery" := "Choose from Gallery",
    "removePhoto" := "Remove Photo",
    "submitRating" := "Submit Rating",
    "submitting" := "Submitting...",
    "thankYou" := "Thank You!",
    "ratingSuccess" := "Your rating has been submitted successfully",
    "ratingError" := "Error submitting rating",
    "selectStars" := "Please select a star rating"
  ]

  const EnFaq: map<string, string> := map[
    "frequentlyAsked" := "Frequently Asked Questions",
    "faqQ1" := "Where can I find more information about INOVIX products?",
    "faqA1" := "Visit our product catalog or ask our representatives at the booth.",
    "faqQ2" := "Do you offer technical support?",
    "faqA2" := "Yes, we provide comprehensive technical support for all our products.",
    "faqQ3" := "How can I order products?",
    "faqA3" := "Contact us through our website or directly at the fair.",
    "faqQ4" := "Do you ship internationally?",
    "faqA4" := "Yes, we deliver throughout Europe and other countries.",
    "faqQ5" := "What warranty do your products have?",
    "faqA5" := "All our products come with a standard 24-month warranty."
  ]

  const EnCommon: map<string, string> := map[
    "back" := "Back",
    "close" := "Close",
    "ok" := "OK",
    "cancel" := "Cancel",
    "error" := "Error"
  ]

  const EnTable: map<string, string> := EnWelcome + EnCatalog + EnRating + EnFaq + EnCommon

  function Table(lang: Language): map<string, string> {
    match lang
    case Cs => CsTable
    case En => EnTable
  }

  /** `table[key] || key`: the entry when the key is there and its entry is not empty,
      otherwise the key itself. */
  function Lookup(table: map<string, string>, key: string): (r: string)
    ensures key !in table ==> r == key
    ensures r == key || (key in table && r == table[key])
    ensures key != "" ==> r != ""
  {
    if key in table && table[key] != "" then table[key] else key
  }

  /** `t(key)` in language `lang`. */
  function Translate(lang: Language, key: string): (r: string)
    ensures key !in Table(lang) ==> r == key
    ensures r == key || (key in Table(lang) && r == Table(lang)[key])
    ensures key != "" ==> r != ""
  {
    Lookup(Table(lang), key)
  }

  /** No entry of m is the empty string. */
  predicate NoEmptyEntry(m: map<string, string>) {
    forall k :: k in m ==> m[k] != ""
  }

  /** Keys that the modelled screens look up but that no section of either table defines: the FAQ
      contact box's "language" and the quiz's three feedback keys. */
  const UntranslatedKeys: set<string> := {"language", "excellent", "goodJob", "tryAgain"}

  // The facts below are stated section by section, as the tables are written; each section is
  // small enough for the verifier to compare its literal keys directly. The lemmas about whole
  // tables then combine the sections through lemmas about map union that never look inside a
  // table.

  lemma WelcomeSectionKeys()
    ensures CsWelcome.Keys == EnWelcome.Keys
  {
  }

  lemma WelcomeSectionLacksUntranslated()
    ensures UntranslatedKeys !! CsWelcome.Keys && UntranslatedKeys !! EnWelcome.Keys
  {
  }

  lemma WelcomeSectionEntries()
    ensures NoEmptyEntry(CsWelcome) && NoEmptyEntry(EnWelcome)
  {
  }

  lemma CatalogSectionKeys()
    ensures CsCatalog.Keys == EnCatalog.Keys
  {
  }

  lemma CatalogSectionLacksUntranslated()
    ensures UntranslatedKeys !! CsCatalog.Keys && UntranslatedKeys !! EnCatalog.Keys
  {
  }

  lemma CatalogSectionEntries()
    ensures NoEmptyEntry(CsCatalog) && NoEmptyEntry(EnCatalog)
  {
  }

  lemma RatingSectionKeys()
    ensures CsRating.Keys == EnRating.Keys
  {
  }

  lemma RatingSectionLacksUntranslated()
    ensures UntranslatedKeys !! CsRating.Keys && UntranslatedKeys !! EnRating.Keys
  {
  }

  lemma RatingSectionEntries()
    ensures NoEmptyEntry(CsRating) && NoEmptyEntry(EnRating)
  {
  }

  lemma FaqSectionKeys()
    ensures CsFaq.Keys == EnFaq.Keys
  {
  }

  lemma FaqSectionLacksUntranslated()
    ensures UntranslatedKeys !! CsFaq.Keys && UntranslatedKeys !! EnFaq.Keys
  {
  }

  lemma FaqSectionEntries()
    ensures NoEmptyEntry(CsFaq) && NoEmptyEntry(EnFaq)
  {
  }

  lemma CommonSectionKeys()
    ensures CsCommon.Keys == EnCommon.Keys
  {
  }

  lemma CommonSectionLacksUntranslated()
    ensures UntranslatedKeys !! CsCommon.Keys && UntranslatedKeys !! EnCommon.Keys
  {
  }

  lemma CommonSectionEntries()
    ensures NoEmptyEntry(CsCommon) && NoEmptyEntry(EnCommon)
  {
  }

  lemma UnionKeys(a: map<string, string>, b: map<string, string>, c: map<string, string>, d: map<string, string>)
    requires a.Keys == c.Keys && b.Keys == d.Keys
    ensures (a + b).Keys == (c + d).Keys
  {
  }

  lemma UnionDisjoint(s: set<string>, a: map<string, string>, b: map<string, string>)
    requires s !! a.Keys && s !! b.Keys
    ensures s !! (a + b).Keys
  {
  }

  lemma UnionHasNoEmptyEntry(a: map<string, string>, b: map<string, string>)
    requires NoEmptyEntry(a) && NoEmptyEntry(b)
    ensures NoEmptyEntry(a + b)
  {
  }

  lemma UnionKeepsKeys(a: map<string, string>, b: map<string, string>)
    ensures a.Keys <= (a + b).Keys && b.Keys <= (a + b).Keys
  {
  }

  /** Both languages translate the same keys. */
  lemma {:induction false} TablesHaveSameKeys()
    ensures CsTable.Keys == EnTable.Keys
  {
    WelcomeSectionKeys();
    CatalogSectionKeys();
    RatingSectionKeys();
    FaqSectionKeys();
    CommonSectionKeys();
    UnionKeys(CsWelcome, CsCatalog, EnWelcome, EnCatalog);
    UnionKeys(CsWelcome + CsCatalog, CsRating, EnWelcome + EnCatalog, EnRating);
    UnionKeys(CsWelcome + CsCatalog + CsRating, CsFaq, EnWelcome + EnCatalog + EnRating, EnFaq);
    UnionKeys(CsWelcome + CsCatalog + CsRating + CsFaq, CsCommon, EnWelcome + EnCatalog + EnRating + EnFaq, EnCommon);
  }

  /** No entry of either table is the empty string. */
  lemma {:induction false} TablesHaveNoEmptyEntry()
    ensures NoEmptyEntry(CsTable) && NoEmptyEntry(EnTable)
  {
    WelcomeSectionEntries();
    CatalogSectionEntries();
    RatingSectionEntries();
    FaqSectionEntries();
    CommonSectionEntries();
    UnionHasNoEmptyEntry(CsWelcome, CsCatalog);
    UnionHasNoEmptyEntry(CsWelcome + CsCatalog, CsRating);
    UnionHasNoEmptyEntry(CsWelcome + CsCatalog + CsRating, CsFaq);
    UnionHasNoEmptyEntry(CsWelcome + CsCatalog + CsRating + CsFaq, CsCommon);
    UnionHasNoEmptyEntry(EnWelcome, EnCatalog);
    UnionHasNoEmptyEntry(EnWelcome + EnCatalog, EnRating);
    UnionHasNoEmptyEntry(EnWelcome + EnCatalog + EnRating, EnFaq);
    UnionHasNoEmptyEntry(EnWelcome + EnCatalog + EnRating + EnFaq, EnCommon);
  }

  /** Neither table defines the keys in UntranslatedKeys. */
  lemma {:induction false} TablesLackUntranslated()
    ensures UntranslatedKeys !! CsTable.Keys && UntranslatedKeys !! EnTable.Keys
  {
    WelcomeSectionLacksUntranslated();
    CatalogSectionLacksUntranslated();
    RatingSectionLacksUntranslated();
    FaqSectionLacksUntranslated();
    CommonSectionLacksUntranslated();
    UnionDisjoint(UntranslatedKeys, CsWelcome, CsCatalog);
    UnionDisjoint(UntranslatedKeys, CsWelcome + CsCatalog, CsRating);
    UnionDisjoint(UntranslatedKeys, CsWelcome + CsCatalog + CsRating, CsFaq);
    UnionDisjoint(UntranslatedKeys, CsWelcome + CsCatalog + CsRating + CsFaq, CsCommon);
    UnionDisjoint(UntranslatedKeys, EnWelcome, EnCatalog);
    UnionDisjoint(UntranslatedKeys, EnWelcome + EnCatalog, EnRating);
    UnionDisjoint(UntranslatedKeys, EnWelcome + EnCatalog + EnRating, EnFaq);
    UnionDisjoint(UntranslatedKeys, EnWelcome + EnCatalog + EnRating + EnFaq, EnCommon);
  }

  /** The FAQ section's keys are keys of the whole table. */
  lemma {:induction false} FaqSectionInTables()
    ensures CsFaq.Keys <= CsTable.Keys && EnFaq.Keys <= EnTable.Keys
  {
    UnionKeepsKeys(CsWelcome + CsCatalog + CsRating, CsFaq);
    UnionKeepsKeys(CsWelcome + CsCatalog + CsRating + CsFaq, CsCommon);
    UnionKeepsKeys(EnWelcome + EnCatalog + EnRating, EnFaq);
    UnionKeepsKeys(EnWelcome + EnCatalog + EnRating + EnFaq, EnCommon);
  }

  lemma LookupFound(table: map<string, string>, key: string)
    requires NoEmptyEntry(table) && key in table
    ensures Lookup(table, key) == table[key]
  {
  }

  lemma LookupMissing(table: map<string, string>, key: string, absent: set<string>)
    requires key in absent && absent !! table.Keys
    ensures Lookup(table, key) == key
  {
  }

  /** A key present in the table is always translated, since no entry is empty. */
  lemma TranslateFound(lang: Language, key: string)
    requires key in Table(lang)
    ensures Translate(lang, key) == Table(lang)[key]
  {
    TableHasNoEmptyEntry(lang);
    LookupFound(Table(lang), key);
  }

  lemma TableHasNoEmptyEntry(lang: Language)
    ensures NoEmptyEntry(Table(lang))
  {
    match lang
    case Cs => TablesHaveNoEmptyEntry();
    case En => TablesHaveNoEmptyEntry();
  }

  /** The modelled screens' keys that neither table holds are shown verbatim. */
  lemma UntranslatedKeysEchoed(lang: Language, key: string)
    requires key in UntranslatedKeys
    ensures Translate(lang, key) == key
  {
    TableLacksUntranslated(lang);
    LookupMissing(Table(lang), key, UntranslatedKeys);
  }

  lemma TableLacksUntranslated(lang: Language)
    ensures UntranslatedKeys !! Table(lang).Keys
  {
    match lang
    case Cs => TablesLackUntranslated();
    case En => TablesLackUntranslated();
  }

  /** The language provider: one mutable cell read by `t`. */
  class LanguageProvider {
    var language: Language

    constructor ()
      ensures language == DefaultLanguage
    {
      language := DefaultLanguage;
    }

    method SetLanguage(lang: Language)
      modifies this
      ensures language == lang
    {
      language := lang;
    }

    /** `t` reads the table of the current language. */
    function T(key: string): (r: string)
      reads this
      ensures key in Table(language) ==> r == Table(language)[key]
      ensures key !in Table(language) ==> r == key
    {
      if key in Table(language) then
        TranslateFound(language, key);
        Translate(language, key)
      else
        Translate(language, key)
    }
  }

  /** `useLanguage()`: the current context's language, or the error it throws outside a provider. */
  function UseLanguage(context: Option<Language>): (r: Result<Language, string>)
    ensures r.Failure? <==> context.None?
    ensures context.Some? ==> r == Success(context.value)
  {
    match context
    case Some(lang) => Success(lang)
    case None => Failure("useLanguage must be used within a LanguageProvider")
  }
}
