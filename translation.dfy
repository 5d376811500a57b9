/** The `t` lookup of `useTranslation`: the active language's string, else
    the English string, else the key itself. The string tables themselves are
    a parameter: language code -> key -> text. */
module Translation {
  import AppContext

  type Tables = map<string, map<string, string>>

  /** The language whose table is consulted: unknown codes fall back to English. */
  function ActiveLanguage(tables: Tables, language: string): (l: string)
    ensures language in tables ==> l == language
    ensures language !in tables ==> l == "en"
  {
    if language in tables then language else "en"
  }

  /** `table[key]`, with a missing entry read as the empty (falsy) string. */
  function Entry(table: map<string, string>, key: string): string {
    if key in table then table[key] else ""
  }

  /** `t(key)`: a missing or empty entry falls through to the next level. */
  function T(tables: Tables, language: string, key: string): (r: string)
    requires "en" in tables
    ensures r == Entry(tables[ActiveLanguage(tables, language)], key)
            || r == Entry(tables["en"], key)
            || r == key
    ensures key != "" ==> r != ""
  {
    var active := Entry(tables[ActiveLanguage(tables, language)], key);
    if active != "" then active
    else
      var english := Entry(tables["en"], key);
      if english != "" then english else key
  }

  /** A non-empty entry in the active language wins. */
  lemma ActiveEntryWins(tables: Tables, language: string, key: string)
    requires "en" in tables
    requires language in tables && key in tables[language] && tables[language][key] != ""
    ensures T(tables, language, key) == tables[language][key]
  {
  }

  /** A language without a table reads exactly like English. */
  lemma UnknownLanguageIsEnglish(tables: Tables, language: string, key: string)
    requires "en" in tables
    requires language !in tables
    ensures T(tables, language, key) == T(tables, "en", key)
  {
  }

  /** When the active entry is missing or empty, a non-empty English entry is used. */
  lemma EnglishFallback(tables: Tables, language: string, key: string)
    requires "en" in tables
    requires Entry(tables[ActiveLanguage(tables, language)], key) == ""
    requires key in tables["en"] && tables["en"][key] != ""
    ensures T(tables, language, key) == tables["en"][key]
  {
  }

  /** With neither entry usable the key itself is shown. */
  lemma KeyFallback(tables: Tables, language: string, key: string)
    requires "en" in tables
    requires Entry(tables[ActiveLanguage(tables, language)], key) == ""
    requires Entry(tables["en"], key) == ""
    ensures T(tables, language, key) == key
  {
  }

  /** The hook reads the store's language and hands it back unchanged, beside
      a lookup bound to it. */
  method UseTranslation(store: AppContext.AppStore, tables: Tables, key: string) returns (language: string, text: string)
    requires "en" in tables
    ensures language == store.language
    ensures text == T(tables, store.language, key)
    ensures key != "" ==> text != ""
  {
    language := store.language;
    text := T(tables, language, key);
  }
}
