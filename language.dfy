/** The language setting and the translation lookup `t(key)`: a dotted
    key is split on '.' and followed through the nested translation
    object of the current language; a path that runs into a non-object,
    or ends on a missing or falsy value, gives back the key itself. */
module Language {
  import opened Js

  /** A translation file: nested objects whose leaves are strings or other
      JSON values (numbers, booleans, null), of which only their
      truthiness matters here. */
  datatype Json = JStr(s: string) | JOther(truthy: bool) | JObj(fields: map<string, Json>)

  predicate JsonTruthy(v: Json) {
    match v
    case JStr(s) => s != ""
    case JOther(b) => b
    case JObj(_) => true
  }

  /** `value && typeof value === 'object'` (`null` is `JOther(false)`). */
  predicate IsObject(v: Option<Json>) { v.Some? && v.value.JObj? }

  /** `value[k]`: `undefined` when the field is missing. */
  function Field(v: Json, k: string): Option<Json>
    requires v.JObj?
  {
    if k in v.fields then Some(v.fields[k]) else None
  }

  // ---------------------------------------------------------------------------
  // key.split('.')

  /** The parts joined again with '.'. */
  function Join(parts: seq<string>): string
    requires parts != []
  {
    if |parts| == 1 then parts[0] else parts[0] + "." + Join(parts[1..])
  }

  predicate NoDot(s: string) { forall i :: 0 <= i < |s| ==> s[i] != '.' }

  /** `s.split('.')`: at least one part (the empty string gives `[""]`),
      no part holds a '.', and joining them gives `s` back. */
  function Split(s: string): (parts: seq<string>)
    ensures |parts| >= 1
    ensures forall i :: 0 <= i < |parts| ==> NoDot(parts[i])
    ensures Join(parts) == s
  {
    if s == [] then [""]
    else
      var rest := Split(s[1..]);
      assert s == [s[0]] + s[1..];
      if s[0] == '.' then
        SplitOnDot(rest, s[1..]);
        [""] + rest
      else
        SplitExtendsFirst(s[0], rest, s[1..]);
        [[s[0]] + rest[0]] + rest[1..]
  }

  /** A leading '.' starts an empty first part. */
  lemma SplitOnDot(rest: seq<string>, t: string)
    requires |rest| >= 1 && (forall i :: 0 <= i < |rest| ==> NoDot(rest[i])) && Join(rest) == t
    ensures var parts := [""] + rest;
      (forall i :: 0 <= i < |parts| ==> NoDot(parts[i])) && Join(parts) == ['.'] + t
  {
    var parts := [""] + rest;
    assert parts[1..] == rest;
    forall i | 0 <= i < |parts| ensures NoDot(parts[i]) {
      if i > 0 { assert parts[i] == rest[i - 1]; }
    }
  }

  /** Any other leading character joins the first part. */
  lemma SplitExtendsFirst(c: char, rest: seq<string>, t: string)
    requires c != '.'
    requires |rest| >= 1 && (forall i :: 0 <= i < |rest| ==> NoDot(rest[i])) && Join(rest) == t
    ensures var parts := [[c] + rest[0]] + rest[1..];
      (forall i :: 0 <= i < |parts| ==> NoDot(parts[i])) && Join(parts) == [c] + t
  {
    var first := [c] + rest[0];
    var parts := [first] + rest[1..];
    assert NoDot(first) by {
      assert forall i :: 1 <= i < |first| ==> first[i] == rest[0][i - 1];
    }
    forall i | 0 <= i < |parts| ensures NoDot(parts[i]) {
      if i > 0 { assert parts[i] == rest[i]; }
    }
    if |rest| == 1 {
      assert parts == [first];
    } else {
      assert parts[1..] == rest[1..];
      assert Join(rest) == rest[0] + "." + Join(rest[1..]);
      assert Join(parts) == first + "." + Join(rest[1..]);
    }
  }

  /** Splitting dot-free parts that were joined gives the same parts. */
  lemma {:induction false} SplitJoin(parts: seq<string>)
    requires parts != [] && forall i :: 0 <= i < |parts| ==> NoDot(parts[i])
    ensures Split(Join(parts)) == parts
  {
    if |parts| == 1 {
      SplitNoDot(parts[0]);
    } else {
      SplitJoin(parts[1..]);
      SplitPrefix(parts[0], Join(parts[1..]));
    }
  }

  lemma {:induction false} SplitNoDot(s: string)
    requires NoDot(s)
    ensures Split(s) == [s]
  {
    if s != [] {
      SplitNoDot(s[1..]);
      assert s == [s[0]] + s[1..];
    }
  }

  /** A dot-free head followed by '.' becomes the first part. */
  lemma {:induction false} SplitPrefix(head: string, tail: string)
    requires NoDot(head)
    ensures Split(head + "." + tail) == [head] + Split(tail)
  {
    if head == [] {
      assert head + "." + tail == ['.'] + tail;
      assert (['.'] + tail)[1..] == tail;
    } else {
      var s := head + "." + tail;
      assert s[1..] == head[1..] + "." + tail;
      SplitPrefix(head[1..], tail);
      assert [s[0]] + head[1..] == head;
    }
  }

  // ---------------------------------------------------------------------------
  // t(key)

  /** Where following a path ends. */
  datatype Walked = Reached(value: Option<Json>) | HitNonObject

  /** Follows `keys` from `v`; stepping from anything but an object stops. */
  function Walk(v: Option<Json>, keys: seq<string>): Walked
    decreases |keys|
  {
    if keys == [] then Reached(v)
    else if IsObject(v) then Walk(Field(v.value, keys[0]), keys[1..])
    else HitNonObject
  }

  /** `translations[language]`: only "en" and "mr" have translations. */
  function Translations(en: Json, mr: Json, language: string): Option<Json> {
    if language == "en" then Some(en) else if language == "mr" then Some(mr) else None
  }

  /** `t(key)`: the value the path reaches when it is truthy, the key
      otherwise. */
  function Translate(en: Json, mr: Json, language: string, key: string): (r: Json)
    ensures r == JStr(key) || JsonTruthy(r)
    ensures Walk(Translations(en, mr, language), Split(key)).HitNonObject? ==> r == JStr(key)
    ensures var w := Walk(Translations(en, mr, language), Split(key));
      w.Reached? && w.value.Some? && JsonTruthy(w.value.value) ==> r == w.value.value
    ensures var w := Walk(Translations(en, mr, language), Split(key));
      w.Reached? && (w.value.None? || !JsonTruthy(w.value.value)) ==> r == JStr(key)
  {
    match Walk(Translations(en, mr, language), Split(key))
    case HitNonObject => JStr(key)
    case Reached(v) => if v.Some? && JsonTruthy(v.value) then v.value else JStr(key)
  }

  /** The loop of `t`: it walks the parts one at a time and returns the
      key as soon as the current value is not an object. */
  method T(en: Json, mr: Json, language: string, key: string) returns (r: Json)
    ensures r == Translate(en, mr, language, key)
  {
    var keys := Split(key);
    var value := Translations(en, mr, language);
    var i := 0;
    while i < |keys|
      invariant 0 <= i <= |keys|
      invariant Walk(Translations(en, mr, language), keys) == Walk(value, keys[i..])
    {
      if IsObject(value) {
        assert keys[i..][1..] == keys[i + 1..];
        value := Field(value.value, keys[i]);
      } else {
        return JStr(key);
      }
      i := i + 1;
    }
    r := if value.Some? && JsonTruthy(value.value) then value.value else JStr(key);
  }

  /** A language without translations answers every key with the key. */
  lemma UnknownLanguageGivesKey(en: Json, mr: Json, language: string, key: string)
    requires language != "en" && language != "mr"
    ensures Translate(en, mr, language, key) == JStr(key)
  {
  }

  /** In either language, a dotted key whose every part names a field on
      the way down to a truthy value translates to that value. */
  lemma FoundPathTranslates(en: Json, mr: Json, language: string, parts: seq<string>, leaf: Json)
    requires language == "en" || language == "mr"
    requires parts != [] && (forall i :: 0 <= i < |parts| ==> NoDot(parts[i]))
    requires Walk(Translations(en, mr, language), parts) == Reached(Some(leaf)) && JsonTruthy(leaf)
    ensures Translate(en, mr, language, Join(parts)) == leaf
  {
    SplitJoin(parts);
  }

  /** A path that goes through a missing field (or a leaf) and on gives
      the key: `t("a.b")` with no `a`, or with `a` a string, is "a.b". */
  lemma MissingStepGivesKey(en: Json, key: string, first: string, rest: seq<string>)
    requires Split(key) == [first] + rest && rest != []
    requires en.JObj? && (first !in en.fields || !en.fields[first].JObj?)
    ensures Translate(en, en, "en", key) == JStr(key)
  {
    var keys := Split(key);
    assert keys[1..] == rest;
    assert Walk(Field(en, first), rest) == HitNonObject;
  }

  // ---------------------------------------------------------------------------
  // The language setting

  /** The starting language: the saved one, or "en" when none is saved. */
  function Initial(saved: Option<string>): (l: string)
    ensures saved.Some? && saved.value != "" ==> l == saved.value
    ensures saved.None? || saved.value == "" ==> l == "en"
  {
    if saved.Some? && saved.value != "" then saved.value else "en"
  }

  /** `prev === 'en' ? 'mr' : 'en'` */
  function Toggled(l: string): (m: string)
    ensures m == "en" || m == "mr"
    ensures m == "mr" <==> l == "en"
  {
    if l == "en" then "mr" else "en"
  }

  /** Two toggles return to "en" or "mr"; from any other value they end on
      "mr". */
  lemma ToggleTwice(l: string)
    ensures l == "en" || l == "mr" ==> Toggled(Toggled(l)) == l
    ensures l != "en" && l != "mr" ==> Toggled(Toggled(l)) == "mr"
  {
  }

  class LanguageSetting {
    var language: string

    constructor (saved: Option<string>)
      ensures language == Initial(saved)
    {
      language := Initial(saved);
    }

    method Toggle()
      modifies this
      ensures language == Toggled(old(language))
    {
      language := Toggled(language);
    }

    /** `changeLanguage(lang)`: only "en" and "mr" are accepted. */
    method Change(lang: string)
      modifies this
      ensures lang == "en" || lang == "mr" ==> language == lang
      ensures lang != "en" && lang != "mr" ==> language == old(language)
    {
      if lang == "en" || lang == "mr" {
        language := lang;
      }
    }
  }
}
