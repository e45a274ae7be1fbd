/**
 * The per-component `getText(key)` lookup: the string for the current language,
 * else the English one, else the key itself. JavaScript's `||` also skips an
 * empty string, so an empty translation falls through like a missing one.
 */
module I18n {

  /** A text table: key, then language code, then the string. */
  type Texts = map<string, map<string, string>>

  /** The entry for `key` in `lang`, or "" when there is none (`texts[key]?.[lang]` is falsy). */
  function Entry(texts: Texts, key: string, lang: string): string {
    if key in texts && lang in texts[key] then texts[key][lang] else ""
  }

  function GetText(texts: Texts, key: string, lang: string): (r: string)
    ensures Entry(texts, key, lang) != "" ==> r == Entry(texts, key, lang)
    ensures Entry(texts, key, lang) == "" && Entry(texts, key, "en") != "" ==> r == Entry(texts, key, "en")
    ensures Entry(texts, key, lang) == "" && Entry(texts, key, "en") == "" ==> r == key
  {
    if Entry(texts, key, lang) != "" then Entry(texts, key, lang)
    else if Entry(texts, key, "en") != "" then Entry(texts, key, "en")
    else key
  }

  /** The lookup never yields an empty string for a non-empty key, and what it yields is a table entry or the key. */
  lemma GetTextNeverEmpty(texts: Texts, key: string, lang: string)
    requires key != ""
    ensures GetText(texts, key, lang) != ""
    ensures GetText(texts, key, lang) == key
         || (key in texts && GetText(texts, key, lang) in texts[key].Values)
  {
  }

  /** A language with no entry reads the English string, when there is one. */
  lemma UnknownLanguageReadsEnglish(texts: Texts, key: string, lang: string)
    requires key in texts && lang !in texts[key]
    requires "en" in texts[key] && texts[key]["en"] != ""
    ensures GetText(texts, key, lang) == texts[key]["en"]
  {
  }
}
