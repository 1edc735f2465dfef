/**
 * The language context: the current language (Persian unless a valid
 * saved preference says otherwise), the document's language and direction
 * kept in step with it, and `t`, which looks a key up with fallbacks and
 * fills in `{name}` placeholders.
 */
module Language {
  import opened Wrappers
  import opened Text

  datatype Lang = En | Fa

  function Code(l: Lang): (s: string)
    ensures s == "en" <==> l == En
    ensures s == "fa" <==> l == Fa
  {
    match l
    case En => "en"
    case Fa => "fa"
  }

  /** The document direction: right-to-left exactly for Persian. */
  function Dir(l: Lang): (s: string)
    ensures s == "rtl" <==> l == Fa
    ensures s == "ltr" <==> l == En
  {
    var rtl, ltr := "rtl", "ltr";
    assert rtl[0] != ltr[0];
    match l
    case Fa => rtl
    case En => ltr
  }

  /** The saved preference, when it names one of the two languages. */
  function SavedLanguage(saved: Option<string>): (r: Option<Lang>)
    ensures r.Some? <==> saved == Some("en") || saved == Some("fa")
    ensures r.Some? ==> Some(Code(r.value)) == saved
  {
    if saved == Some("en") then Some(En)
    else if saved == Some("fa") then Some(Fa)
    else None
  }

  /** What `setLanguage` saves is read back as the same language. */
  lemma SavedRoundTrip(l: Lang)
    ensures SavedLanguage(Some(Code(l))) == Some(l)
  {
  }

  /** `translations[lang][key]`, with a missing entry read as the empty string (both are falsy). */
  function Translated(tr: map<Lang, map<string, string>>, lang: Lang, key: string): string {
    if lang in tr && key in tr[lang] then tr[lang][key] else ""
  }

  /**
   * `translations[language][key] || translations.en[key] || key`: the
   * current language's text, else the English text, else the key; an empty
   * text counts as missing.
   */
  function Lookup(tr: map<Lang, map<string, string>>, lang: Lang, key: string): (r: string)
    ensures r == "" ==> key == ""
    ensures r == Translated(tr, lang, key) || r == Translated(tr, En, key) || r == key
    ensures Translated(tr, lang, key) != "" ==> r == Translated(tr, lang, key)
    ensures Translated(tr, lang, key) == "" && Translated(tr, En, key) != "" ==> r == Translated(tr, En, key)
  {
    if Translated(tr, lang, key) != "" then Translated(tr, lang, key)
    else if Translated(tr, En, key) != "" then Translated(tr, En, key)
    else key
  }

  /** A key missing in both languages shows as itself, whichever language is current. */
  lemma UntranslatedShowsKey(tr: map<Lang, map<string, string>>, lang: Lang, key: string)
    requires Translated(tr, lang, key) == "" && Translated(tr, En, key) == ""
    ensures Lookup(tr, lang, key) == key
  {
  }

  /** A replacement value: a string, or a number shown in decimal. */
  datatype Value = Str(s: string) | Num(n: int)

  /** `String(v)`. */
  function Show(v: Value): string {
    match v
    case Str(s) => s
    case Num(n) => IntToString(n)
  }

  function Placeholder(name: string): string {
    "{" + name + "}"
  }

  /** The text after the replacements, applied one after another in entry order. */
  function Substituted(text: string, reps: seq<(string, Value)>): string {
    if reps == [] then text
    else
      var (k, v) := reps[|reps| - 1];
      ReplaceFirst(Substituted(text, reps[..|reps| - 1]), Placeholder(k), Show(v))
  }

  /**
   * A replacement fills the first occurrence of its placeholder only: with
   * no `{` before it, `a + "{k}" + b` becomes `a + v + b`, whatever `b` holds
   * (a second `{k}` in `b` stays).
   */
  lemma FirstPlaceholderOnly(a: string, k: string, b: string, v: Value)
    requires forall i :: 0 <= i < |a| ==> a[i] != '{'
    ensures Substituted(a + Placeholder(k) + b, [(k, v)]) == a + Show(v) + b
  {
    var p := Placeholder(k);
    var s := a + p + b;
    assert [(k, v)][..0] == [];
    assert s[|a|..|a| + |p|] == p;
    forall j | 0 <= j < |a| ensures !OccursAt(s, p, j) {
      assert p[0] == '{' && s[j] == a[j] && s[j..j + |p|][0] == s[j];
    }
    assert s[..|a|] == a && s[|a| + |p|..] == b;
  }

  /** A replacement whose placeholder does not occur leaves the text as it is. */
  lemma AbsentPlaceholder(text: string, k: string, v: Value)
    requires forall j :: !OccursAt(text, Placeholder(k), j)
    ensures Substituted(text, [(k, v)]) == text
  {
    assert [(k, v)][..0] == [];
  }

  class LanguageState {
    /** The translation tables. */
    const translations: map<Lang, map<string, string>>
    var language: Lang
    var mounted: bool
    /** `localStorage['language']`. */
    var stored: Option<string>
    /** `document.documentElement.lang` and `.dir`. */
    var docLang: string
    var docDir: string

    /** Before mounting the language is the initial Persian; once mounted the document follows the language. */
    ghost predicate Valid()
      reads this
    {
      && (!mounted ==> language == Fa)
      && (mounted ==> docLang == Code(language) && docDir == Dir(language))
    }

    constructor (tables: map<Lang, map<string, string>>, saved: Option<string>, lang: string, dir: string)
      ensures Valid()
      ensures translations == tables && language == Fa && !mounted
      ensures stored == saved && docLang == lang && docDir == dir
    {
      translations := tables;
      language := Fa;
      mounted := false;
      stored := saved;
      docLang := lang;
      docDir := dir;
    }

    /** The mount effect: adopt a valid saved language, else keep Persian; set the document either way. */
    method Mount()
      requires Valid() && !mounted
      modifies this
      ensures Valid() && mounted
      ensures language == SavedLanguage(stored).GetOr(Fa)
      ensures stored == old(stored)
    {
      mounted := true;
      var savedLang := stored;
      if savedLang == Some("en") || savedLang == Some("fa") {
        var l := if savedLang == Some("en") then En else Fa;
        language := l;
        docLang := Code(l);
        docDir := if l == Fa then "rtl" else "ltr";
      } else {
        docLang := "fa";
        docDir := "rtl";
      }
    }

    /**
     * `setLanguage`: switch, save the choice, and set the document's
     * language and direction. Only a mounted provider renders its children,
     * so only then can it be called.
     */
    method SetLanguage(lang: Lang)
      requires Valid() && mounted
      modifies this
      ensures Valid() && mounted
      ensures language == lang && stored == Some(Code(lang))
      ensures docLang == Code(lang) && docDir == Dir(lang)
    {
      language := lang;
      stored := Some(Code(lang));
      docLang := Code(lang);
      docDir := if lang == Fa then "rtl" else "ltr";
    }

    function IsRtl(): (b: bool)
      reads this
      ensures b <==> language == Fa
    {
      language == Fa
    }

    /** `t(key, replacements)`. */
    method T(key: string, replacements: Option<seq<(string, Value)>>) returns (text: string)
      ensures replacements.None? ==> text == Lookup(translations, language, key)
      ensures replacements.Some? ==> text == Substituted(Lookup(translations, language, key), replacements.value)
    {
      text := Lookup(translations, language, key);
      if replacements.Some? {
        var reps := replacements.value;
        var i := 0;
        while i < |reps|
          invariant 0 <= i <= |reps|
          invariant text == Substituted(Lookup(translations, language, key), reps[..i])
        {
          var (k, v) := reps[i];
          assert reps[..i + 1][..i] == reps[..i];
          text := ReplaceFirst(text, Placeholder(k), Show(v));
          i := i + 1;
        }
        assert reps[..i] == reps;
      }
    }
  }
}
