/** The language provider of i18n/LanguageContext.tsx and its two text
    classifiers: whether a text contains Chinese, and whether it looks like
    Simplified rather than Traditional Chinese. The provider's persisted
    values are a map from local-storage keys to strings. */
module LanguageContext {
  import opened Translations
  import LedgerTypes

  const StorageKey: string := "ledger-language"
  const ManualKey: string := "ledger-language-manual"

  /** A character of the CJK Unified Ideographs block, U+4E00 to U+9FFF. */
  predicate IsCjk(c: char) {
    '\U{4E00}' <= c <= '\U{9FFF}'
  }

  /** Some character of `text` belongs to `chars`: a regular-expression
      character class tested against the text. */
  predicate HasAny(text: string, chars: string) {
    exists i | 0 <= i < |text| :: text[i] in chars
  }

  /** `containsChinese(text)` */
  predicate ContainsChinese(text: string) {
    exists i | 0 <= i < |text| :: IsCjk(text[i])
  }

  /** The class of common Simplified-only characters (its first character
      is listed twice, as in the source). */
  const SimplifiedChars: string := "这这个们为来对发与说时过动会国产业经关电视机学习"

  /** The class of their Traditional counterparts. */
  const TraditionalChars: string := "這個們為來對發與說時過動會國產業經關電視機學習"

  /** `isSimplifiedChinese(text)`: some Simplified-only character and no
      Traditional one. */
  predicate IsSimplifiedChinese(text: string) {
    HasAny(text, SimplifiedChars) && !HasAny(text, TraditionalChars)
  }

  /** The two classes share no character, and every character of either
      lies in the CJK block. */
  lemma ClassesDisjointAndCjk()
    ensures forall c :: c in SimplifiedChars ==> c !in TraditionalChars && IsCjk(c)
    ensures forall c :: c in TraditionalChars ==> c !in SimplifiedChars && IsCjk(c)
  {
    SimplifiedClassOk();
    TraditionalClassCjk();
  }

  lemma SimplifiedClassOk()
    ensures forall i :: 0 <= i < |SimplifiedChars| ==>
              SimplifiedChars[i] !in TraditionalChars && IsCjk(SimplifiedChars[i])
  {
    forall i | 0 <= i < |SimplifiedChars|
      ensures SimplifiedChars[i] !in TraditionalChars && IsCjk(SimplifiedChars[i])
    {
      var c := SimplifiedChars[i];
      assert '\U{4E0E}' <= c <= '\U{8FD9}';
      assert forall j :: 0 <= j < |TraditionalChars| ==> TraditionalChars[j] != c;
    }
  }

  lemma TraditionalClassCjk()
    ensures forall i :: 0 <= i < |TraditionalChars| ==> IsCjk(TraditionalChars[i])
  {
    forall i | 0 <= i < |TraditionalChars|
      ensures IsCjk(TraditionalChars[i])
    {
    }
  }

  /** Text classified as Simplified always contains Chinese. */
  lemma SimplifiedImpliesChinese(text: string)
    requires IsSimplifiedChinese(text)
    ensures ContainsChinese(text)
  {
    ClassesDisjointAndCjk();
    var i :| 0 <= i < |text| && text[i] in SimplifiedChars;
    assert IsCjk(text[i]);
  }

  /** A text made only of Simplified-only characters is Simplified. */
  lemma PureSimplifiedIsSimplified(text: string)
    requires |text| > 0 && forall i :: 0 <= i < |text| ==> text[i] in SimplifiedChars
    ensures IsSimplifiedChinese(text)
  {
    ClassesDisjointAndCjk();
    assert text[0] in SimplifiedChars;
  }

  /** One Traditional character anywhere makes a text not Simplified, and
      text with neither kind of character is not Simplified either. */
  lemma TraditionalOrNeitherIsNotSimplified(before: string, c: char, after: string)
    requires c in TraditionalChars
    ensures !IsSimplifiedChinese(before + [c] + after)
    ensures !HasAny(before, SimplifiedChars) ==> !IsSimplifiedChinese(before)
  {
    var text := before + [c] + after;
    assert text[|before|] == c;
  }

  /** The saved preference, if it names one of the three languages. */
  function ParseLanguage(s: string): (r: LedgerTypes.Option<Language>)
    ensures r.Some? ==> Code(r.value) == s
    ensures r.None? <==> s !in {"en", "zh-TW", "zh-CN"}
  {
    if s == "en" then LedgerTypes.Some(En)
    else if s == "zh-TW" then LedgerTypes.Some(ZhTW)
    else if s == "zh-CN" then LedgerTypes.Some(ZhCN)
    else LedgerTypes.None
  }

  /** Storing a language and reading it back gives the language. */
  lemma ParseCode(l: Language)
    ensures ParseLanguage(Code(l)) == LedgerTypes.Some(l)
  {
  }

  /** The mount effect: apply a valid saved language together with the
      saved manual flag; otherwise keep the current state. */
  function LoadSpec(storage: map<string, string>, language: Language, manual: bool): (r: (Language, bool))
  {
    if StorageKey in storage && ParseLanguage(storage[StorageKey]).Some? then
      (ParseLanguage(storage[StorageKey]).value, ManualKey in storage && storage[ManualKey] == "true")
    else (language, manual)
  }

  /** After the defaults, loading applies exactly the valid saved values:
      the language when it is one of the three codes, with the flag saved
      as `"true"`; anything else leaves English and no manual choice. */
  lemma LoadMeaning(storage: map<string, string>)
    ensures var r := LoadSpec(storage, En, false);
            (StorageKey in storage && storage[StorageKey] in {"en", "zh-TW", "zh-CN"} ==>
               Code(r.0) == storage[StorageKey] &&
               (r.1 <==> ManualKey in storage && storage[ManualKey] == "true")) &&
            (!(StorageKey in storage && storage[StorageKey] in {"en", "zh-TW", "zh-CN"}) ==>
               r == (En, false))
  {
  }

  /** What `setLanguage` and `handleSetManually` store is loaded back by
      the next mount. */
  lemma SaveThenLoad(storage: map<string, string>, l: Language, manual: bool,
                     language: Language, flag: bool)
    ensures var saved := storage[StorageKey := Code(l)][ManualKey := if manual then "true" else "false"];
            LoadSpec(saved, language, flag) == (l, manual)
  {
    ParseCode(l);
  }

  class LanguageProvider {
    var language: Language
    var isManuallySet: bool
    /** the provider's local-storage entries */
    var storage: map<string, string>

    /** The initial state: English, not set manually. */
    constructor (saved: map<string, string>)
      ensures language == En && !isManuallySet && storage == saved
    {
      language := En;
      isManuallySet := false;
      storage := saved;
    }

    /** The mount effect. */
    method Load()
      modifies this
      ensures (language, isManuallySet) == LoadSpec(old(storage), old(language), old(isManuallySet))
      ensures storage == old(storage)
    {
      if StorageKey in storage {
        var savedLang := storage[StorageKey];
        var wasManual := ManualKey in storage && storage[ManualKey] == "true";
        var parsed := ParseLanguage(savedLang);
        if savedLang != "" && parsed.Some? {
          language := parsed.value;
          isManuallySet := wasManual;
        }
      }
    }

    /** `setLanguage(lang)` */
    method SetLanguage(lang: Language)
      modifies this
      ensures language == lang && storage == old(storage)[StorageKey := Code(lang)]
      ensures isManuallySet == old(isManuallySet)
    {
      language := lang;
      storage := storage[StorageKey := Code(lang)];
    }

    /** `handleSetManually(value)` */
    method HandleSetManually(value: bool)
      modifies this
      ensures isManuallySet == value
      ensures storage == old(storage)[ManualKey := if value then "true" else "false"]
      ensures language == old(language)
    {
      isManuallySet := value;
      storage := storage[ManualKey := if value then "true" else "false"];
    }
  }
}
