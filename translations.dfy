/**
 * Translation lookup (src/i18n/utils.ts): `useTranslations(lang)` returns `t`,
 * which reads a key from the table of `lang` and falls back to the English
 * table.  The contents of the two tables are not part of this model; they are
 * parameters.
 */
module Translations {
  import opened Wrappers
  import opened I18n

  /** The imported `en` and `vi` tables, as key-to-string maps. */
  datatype TranslationTables = TranslationTables(en: map<string, string>, vi: map<string, string>)

  /** `translations[lang]`. */
  function TableOf(tables: TranslationTables, l: Language): map<string, string> {
    match l
    case En => tables.en
    case Vi => tables.vi
  }

  /** A property read: the value, or `undefined` when the key is missing. */
  function Get(table: map<string, string>, key: string): Option<string> {
    if key in table then Some(table[key]) else None
  }

  /** JavaScript truthiness of a string property: `undefined` and `''` are falsy. */
  predicate Truthy(v: Option<string>) {
    v.Some? && v.value != ""
  }

  /** `useTranslations(lang)(key)`: `lang` defaults to English, and `key` is a key
      of the English table (the `TranslationKey` type). */
  function T(tables: TranslationTables, lang: Option<Language>, key: string): (r: string)
    requires key in tables.en
    // a non-empty entry of the chosen language wins
    ensures Truthy(Get(TableOf(tables, lang.GetOr(En)), key)) ==> r == TableOf(tables, lang.GetOr(En))[key]
    // a missing or empty entry falls back to English
    ensures !Truthy(Get(TableOf(tables, lang.GetOr(En)), key)) ==> r == tables.en[key]
    // English, chosen or defaulted, always reads the English entry
    ensures lang.GetOr(En) == En ==> r == tables.en[key]
    // only the chosen table and the English table are consulted
    ensures r == tables.en[key] || (key in TableOf(tables, lang.GetOr(En)) && r == TableOf(tables, lang.GetOr(En))[key])
  {
    var chosen := Get(TableOf(tables, lang.GetOr(En)), key);
    if Truthy(chosen) then chosen.value else tables.en[key]
  }

  /** The result depends on nothing but the chosen table and the English table. */
  lemma LookupIsLocal(t1: TranslationTables, t2: TranslationTables, lang: Option<Language>, key: string)
    requires key in t1.en && t1.en == t2.en
    requires TableOf(t1, lang.GetOr(En)) == TableOf(t2, lang.GetOr(En))
    ensures T(t1, lang, key) == T(t2, lang, key)
  {
  }

  /** A key present only in the English table, looked up in Vietnamese, gives the
      English string. */
  lemma MissingVietnameseFallsBack(tables: TranslationTables, key: string)
    requires key in tables.en && key !in tables.vi
    ensures T(tables, Some(Vi), key) == tables.en[key]
  {
  }
}
