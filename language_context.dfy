/**
 * The locale store of the frontend (`LanguageProvider`): the two state cells
 * `currentLanguage` and `translations`, the detection step run on mount,
 * `changeLanguage`, the dotted-path lookup `t`, and the `useLanguage` guard.
 */
module LanguageContext {
  import opened Wrappers
  import opened Js
  import opened Mock

  /**
   * Walking an object along `keys`: `Some(v)` is the value reached, `None` means
   * the walk met a non-object (or a falsy value) while keys were left.
   */
  function Walk(v: JsValue, keys: seq<string>): Option<JsValue>
    decreases |keys|
  {
    if keys == [] then Some(v)
    else if Truthy(v) && v.Obj? then Walk(Property(v, keys[0]), keys[1..])
    else None
  }

  /**
   * What `t(path)` answers over `translations`: the value the walk along the
   * dot-separated segments reaches when it is truthy, and the path itself when
   * the walk stops early or ends on a falsy value.
   */
  function Translate(translations: JsValue, path: string): JsValue {
    match Walk(translations, Split(path, '.'))
    case None => Str(path)
    case Some(v) => if Truthy(v) then v else Str(path)
  }

  /** Walking a prefix of the keys and then the rest is walking all of them. */
  lemma {:induction false} WalkPrefix(v: JsValue, keys: seq<string>, k: nat, w: JsValue)
    requires k <= |keys| && Walk(v, keys[..k]) == Some(w)
    ensures Walk(v, keys) == Walk(w, keys[k..])
    decreases k
  {
    if k > 0 {
      assert keys[..k][1..] == keys[1..][..k - 1];
      WalkPrefix(Property(v, keys[0]), keys[1..], k - 1, w);
      assert keys[1..][k - 1..] == keys[k..];
    }
  }

  /** A path whose segments all exist and lead to a non-empty string translates to that string. */
  lemma LeafFound(translations: JsValue, keys: seq<string>, text: string)
    requires |keys| >= 1 && NoSeparator(keys, '.')
    requires Walk(translations, keys) == Some(Str(text)) && text != ""
    ensures Translate(translations, Join(keys, '.')) == Str(text)
  {
    SplitJoin(keys, '.');
  }

  /** When the walk finds an object that lacks the next segment, `t` returns the path unchanged. */
  lemma MissingSegmentFallsBack(translations: JsValue, path: string, k: nat, level: JsValue)
    requires k < |Split(path, '.')|
    requires Walk(translations, Split(path, '.')[..k]) == Some(level)
    requires level.Obj? && Split(path, '.')[k] !in level.fields
    ensures Translate(translations, path) == Str(path)
  {
    var keys := Split(path, '.');
    WalkPrefix(translations, keys, k, level);
    assert keys[k..][0] == keys[k] && keys[k..][1..] == keys[k + 1..];
    assert Walk(level, keys[k..]) == Walk(Undefined, keys[k + 1..]);
  }

  /** When the walk reaches a string while segments are left (`'hero.title.x'`), `t` returns the path. */
  lemma StringBeforeLastSegment(translations: JsValue, path: string, k: nat, s: string)
    requires k < |Split(path, '.')|
    requires Walk(translations, Split(path, '.')[..k]) == Some(Str(s))
    ensures Translate(translations, path) == Str(path)
  {
    WalkPrefix(translations, Split(path, '.'), k, Str(s));
  }

  /** An empty-string leaf is falsy, so `t` returns the path instead. */
  lemma EmptyLeafFallsBack(translations: JsValue, path: string)
    requires Walk(translations, Split(path, '.')) == Some(Str(""))
    ensures Translate(translations, path) == Str(path)
  {
  }

  /** In a well-formed locale, `section.key` translates to the text stored under it. */
  lemma EntryInLocale(l: Locale, j: nat, i: nat)
    requires WellFormedLocale(l) && j < |l| && i < |l[j].1|
    ensures Translate(LocaleValue(l), l[j].0 + "." + l[j].1[i].0) == Str(l[j].1[i].1)
  {
    var section := l[j].1;
    LocaleLookup(l, j);
    SectionLookup(section, i);
    var keys := [l[j].0, section[i].0];
    assert Walk(LocaleValue(l), keys) == Some(Str(section[i].1)) by {
      assert keys[1..] == [section[i].0];
      assert Walk(SectionValue(section), [section[i].0]) == Walk(Str(section[i].1), []);
    }
    LeafFound(LocaleValue(l), keys, section[i].1);
    assert Join(keys, '.') == l[j].0 + "." + section[i].0 by {
      assert keys[1..] == [section[i].0];
    }
  }

  /** Every `section.key` of every locale translates to its text: `t` never falls back on a defined path. */
  lemma EveryEntryTranslates(c: nat, j: nat, i: nat)
    requires c < |Table| && j < |Table[c].1| && i < |Table[c].1[j].1|
    ensures Translate(TableFor(Table[c].0), Table[c].1[j].0 + "." + Table[c].1[j].1[i].0)
         == Str(Table[c].1[j].1[i].1)
  {
    TableComplete();
    TableForLocale(c);
    EntryInLocale(Table[c].1, j, i);
  }

  /** In a well-formed locale, a key its section lacks falls back to the path. */
  lemma MissingKeyInLocale(l: Locale, j: nat, key: string)
    requires WellFormedLocale(l) && j < |l| && '.' !in key && key !in KeyList(l[j].1)
    ensures Translate(LocaleValue(l), l[j].0 + "." + key) == Str(l[j].0 + "." + key)
  {
    LocaleLookup(l, j);
    SectionMiss(l[j].1, key);
    var keys := [l[j].0, key];
    var path := l[j].0 + "." + key;
    assert Split(path, '.') == keys by {
      assert keys[1..] == [key];
      assert Join(keys, '.') == path;
      SplitJoin(keys, '.');
    }
    assert Walk(LocaleValue(l), keys[..1]) == Some(SectionValue(l[j].1)) by {
      assert keys[..1][1..] == [];
    }
    MissingSegmentFallsBack(LocaleValue(l), path, 1, SectionValue(l[j].1));
  }

  /** A key missing from a section of the table (`'nav.blog'`) gives back the path, in every locale. */
  lemma MissingKeyFallsBack(c: nat, j: nat, key: string)
    requires c < |Table| && j < |Table[c].1| && '.' !in key && key !in KeyList(Table[c].1[j].1)
    ensures var path := Table[c].1[j].0 + "." + key;
      Translate(TableFor(Table[c].0), path) == Str(path)
  {
    TableComplete();
    TableForLocale(c);
    MissingKeyInLocale(Table[c].1, j, key);
  }

  /** A path that names a whole section (`'nav'`) yields the section's object, not a string. */
  lemma SectionPathGivesTable(c: nat, j: nat)
    requires c < |Table| && j < |Table[c].1|
    ensures Translate(TableFor(Table[c].0), Table[c].1[j].0) == SectionValue(Table[c].1[j].1)
    ensures Translate(TableFor(Table[c].0), Table[c].1[j].0).Obj?
  {
    TableComplete();
    TableForLocale(c);
    var l := Table[c].1;
    LocaleLookup(l, j);
    SplitWithoutSeparator(l[j].0, '.');
    assert [l[j].0][1..] == [];
  }

  /** In a well-formed locale, going one segment past a leaf falls back to the path. */
  lemma BeyondLeafInLocale(l: Locale, j: nat, i: nat, extra: string)
    requires WellFormedLocale(l) && j < |l| && i < |l[j].1| && '.' !in extra
    ensures var path := l[j].0 + "." + l[j].1[i].0 + "." + extra;
      Translate(LocaleValue(l), path) == Str(path)
  {
    var section := l[j].1;
    LocaleLookup(l, j);
    SectionLookup(section, i);
    var keys := [l[j].0, section[i].0, extra];
    var path := l[j].0 + "." + section[i].0 + "." + extra;
    assert Split(path, '.') == keys by {
      assert keys[1..] == [section[i].0, extra] && keys[1..][1..] == [extra];
      assert Join(keys[1..], '.') == section[i].0 + "." + extra;
      assert Join(keys, '.') == path;
      SplitJoin(keys, '.');
    }
    assert Walk(LocaleValue(l), keys[..2]) == Some(Str(section[i].1)) by {
      assert keys[..2][1..] == [section[i].0];
      assert Walk(SectionValue(section), [section[i].0]) == Walk(Str(section[i].1), []);
    }
    StringBeforeLastSegment(LocaleValue(l), path, 2, section[i].1);
  }

  /**
   * Going past any leaf (`'hero.title.x'`) falls back to the path, in every
   * locale and for every entry.
   */
  lemma PathBeyondLeaf(c: nat, j: nat, i: nat, extra: string)
    requires c < |Table| && j < |Table[c].1| && i < |Table[c].1[j].1|
    requires '.' !in extra
    ensures var path := Table[c].1[j].0 + "." + Table[c].1[j].1[i].0 + "." + extra;
      Translate(TableFor(Table[c].0), path) == Str(path)
  {
    TableComplete();
    TableForLocale(c);
    BeyondLeafInLocale(Table[c].1, j, i, extra);
  }

  /** The two state cells of `LanguageProvider`. */
  class LanguageProvider {
    var currentLanguage: string
    var translations: JsValue

    /** The provider's invariant: the table in use is the one of the current, known language. */
    ghost predicate Valid()
      reads this
    {
      currentLanguage in LocaleCodes && translations == TableFor(currentLanguage)
    }

    /** The first render: English, with the English table. */
    constructor ()
      ensures currentLanguage == "en" && translations == TableFor("en")
      ensures Valid()
    {
      currentLanguage := "en";
      translations := TableFor("en");
    }

    /**
     * The mount effect: both cells are overwritten from the detector, with no
     * membership check; the invariant survives because every detected code is a
     * locale of the table.
     */
    method DetectOnMount(choice: nat)
      requires choice < 3
      modifies this
      ensures currentLanguage == DetectLanguageByLocation(choice)
      ensures translations == TableFor(currentLanguage)
      ensures Valid()
    {
      var detected := DetectLanguageByLocation(choice);
      currentLanguage := detected;
      translations := TableFor(detected);
    }

    /** `changeLanguage(lang)`: switches both cells together when the table has `lang`, else does nothing. */
    method ChangeLanguage(lang: string)
      requires Valid()
      modifies this
      ensures lang in LocaleCodes ==> currentLanguage == lang && translations == TableFor(lang)
      ensures lang !in LocaleCodes ==> currentLanguage == old(currentLanguage) && translations == old(translations)
      ensures Valid()
    {
      TableDomain(lang);
      if Truthy(TableFor(lang)) {
        currentLanguage := lang;
        translations := TableFor(lang);
      }
    }

    /** `t(path)`: walks the current table along the path's segments. */
    method T(path: string) returns (r: JsValue)
      ensures r == Translate(translations, path)
    {
      var keys := Split(path, '.');
      var result := translations;
      for i := 0 to |keys|
        invariant Walk(translations, keys) == Walk(result, keys[i..])
      {
        assert keys[i..][0] == keys[i] && keys[i..][1..] == keys[i + 1..];
        if Truthy(result) && result.Obj? {
          result := Property(result, keys[i]);
        } else {
          return Str(path);
        }
      }
      r := if Truthy(result) then result else Str(path);
    }
  }

  const UseLanguageError := "useLanguage must be used within a LanguageProvider"

  /** `useLanguage()`: the provider's value, or the thrown error when there is no provider above. */
  function UseLanguage<C>(context: Option<C>): (r: Result<C, string>)
    ensures r.Ok? <==> context.Some?
    ensures r.Ok? ==> r.value == context.value
    ensures r.Err? ==> r.error == UseLanguageError
  {
    match context
    case None => Err(UseLanguageError)
    case Some(value) => Ok(value)
  }
}
