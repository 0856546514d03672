/** The interface language at start-up: a stored choice if it is supported,
    otherwise the browser's language if it is supported, otherwise German. */
module Language {
  import opened Common

  const Supported: set<string> := {"de", "en"}

  /** The part of a language tag before its first '-' ("en-GB" gives
      "en"). */
  function Primary(tag: string): (r: string)
    ensures StartsWith(tag, r) && '-' !in r
    ensures |r| < |tag| ==> tag[|r|] == '-'
  {
    if tag == [] || tag[0] == '-' then []
    else
      var rest := Primary(tag[1..]);
      [tag[0]] + rest
  }

  /** `saved` is the stored value, `None` when nothing is stored or the
      storage throws; `browser` is the browser's language tag, if any. */
  function GetSavedLanguage(saved: Option<string>, browser: Option<string>): (r: string)
    ensures r in Supported
    ensures saved.Some? && saved.value in Supported ==> r == saved.value
    ensures !(saved.Some? && saved.value in Supported) && browser.Some? && Primary(browser.value) in Supported ==>
      r == Primary(browser.value)
    ensures !(saved.Some? && saved.value in Supported) && !(browser.Some? && Primary(browser.value) in Supported) ==>
      r == "de"
  {
    if saved.Some? && saved.value != "" && saved.value in Supported then saved.value
    else
      var browserLang := if browser.Some? then Some(Primary(browser.value)) else None;
      if browserLang.Some? && browserLang.value in Supported then browserLang.value else "de"
  }

  /** A language switch stores the new language, and the next start-up picks
      it again, whatever the browser says. */
  lemma ChosenLanguageSticks(lng: string, browser: Option<string>)
    requires lng in Supported
    ensures GetSavedLanguage(Some(lng), browser) == lng
  {
  }

  /** The primary part of "lang-region" is "lang". */
  lemma {:induction false} PrimaryOfRegionalTag(lang: string, region: string)
    requires '-' !in lang
    ensures Primary(lang + "-" + region) == lang
    decreases |lang|
  {
    if lang != [] {
      assert (lang + "-" + region)[1..] == lang[1..] + "-" + region;
      PrimaryOfRegionalTag(lang[1..], region);
    }
  }

  /** With nothing stored, a regional tag such as "de-AT" or "en-US" selects
      its language. */
  lemma RegionalTagSelects(lang: string, region: string)
    requires lang in Supported
    ensures GetSavedLanguage(None, Some(lang + "-" + region)) == lang
  {
    PrimaryOfRegionalTag(lang, region);
  }
}
