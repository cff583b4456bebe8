/** The choice of the interface language at start-up (src/i18n/index.ts):
    a saved choice wins, otherwise the browser's language decides between
    Portuguese and English. */
module I18n {
  import opened Options
  import opened Strings

  /** The languages the interface is translated to. */
  const Supported: set<string> := {"en", "pt"}

  /** The browser's language: its preferred language, else the first of
      its languages, else English; an empty or missing value is skipped. */
  function BrowserLanguage(language: string, languages: Option<seq<string>>): (tag: string)
    ensures language != "" ==> tag == language
    ensures language == "" && languages.Some? && |languages.value| > 0 && languages.value[0] != "" ==>
      tag == languages.value[0]
    ensures tag != ""
    ensures tag == "en" || tag == language || (languages.Some? && |languages.value| > 0 && tag == languages.value[0])
  {
    if language != "" then language
    else if languages.Some? && |languages.value| > 0 && languages.value[0] != "" then languages.value[0]
    else "en"
  }

  /** The primary language subtag: the lower-cased tag up to its first
      hyphen. */
  function LanguageCode(tag: string): (code: string)
    ensures '-' !in code
    ensures code <= ToLower(tag)
    ensures '-' !in tag ==> code == ToLower(tag)
  {
    FirstField(ToLower(tag), '-')
  }

  /** The language the interface starts in. `saved` is the choice stored
      by the language selector, `language` and `languages` what the
      browser reports. */
  function GetDefaultLanguage(saved: Option<string>, language: string, languages: Option<seq<string>>): (lang: string)
    ensures saved.Some? && saved.value != "" ==> lang == saved.value
    ensures saved.None? || saved.value == "" ==>
      && lang in Supported
      && (lang == "pt" <==> LanguageCode(BrowserLanguage(language, languages)) == "pt")
  {
    if saved.Some? && saved.value != "" then saved.value
    else if LanguageCode(BrowserLanguage(language, languages)) == "pt" then "pt"
    else "en"
  }

  /** A region subtag does not change the language code. */
  lemma RegionIgnored(base: string, region: string)
    requires '-' !in base
    ensures LanguageCode(base + "-" + region) == ToLower(base)
  {
    var tag := base + "-" + region;
    var lower := ToLower(tag);
    assert lower == ToLower(base) + "-" + ToLower(region);
    assert '-' !in ToLower(base) by {
      forall i | 0 <= i < |base|
        ensures ToLower(base)[i] != '-'
      {
        assert base[i] != '-';
      }
    }
    SplitAfterFree(ToLower(base), ToLower(region), '-');
  }

  /** Any Portuguese variant selects Portuguese when nothing is saved,
      whatever its case. */
  lemma PortugueseVariants(region: string)
    ensures GetDefaultLanguage(None, "pt-" + region, None) == "pt"
    ensures GetDefaultLanguage(None, "PT-" + region, None) == "pt"
  {
    LowerPt();
    assert "pt" + "-" == "pt-" && "PT" + "-" == "PT-";
    RegionIgnored("pt", region);
    assert LanguageCode(BrowserLanguage("pt-" + region, None)) == "pt";
    RegionIgnored("PT", region);
    assert LanguageCode(BrowserLanguage("PT-" + region, None)) == "pt";
  }

  lemma LowerPt()
    ensures ToLower("pt") == "pt" && ToLower("PT") == "pt"
  {
    assert ToLower("pt")[0] == 'p' && ToLower("pt")[1] == 't';
    assert ToLower("PT")[0] == 'p' && ToLower("PT")[1] == 't';
  }

  /** Without a saved choice or a browser language, English is chosen;
      a saved choice is kept even when it is not a supported language. */
  lemma Fallbacks()
    ensures GetDefaultLanguage(None, "", None) == "en"
    ensures GetDefaultLanguage(None, "", Some([])) == "en"
    ensures GetDefaultLanguage(Some("fr"), "pt-BR", None) == "fr"
    ensures GetDefaultLanguage(Some(""), "", Some(["pt-PT"])) == "pt"
  {
    RegionIgnored("pt", "PT");
    assert LanguageCode("en") == "en";
  }
}
