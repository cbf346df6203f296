/** Translation lookup with English fallback, and the language-change
    callbacks. */
module Localization {
  import opened Common

  /** A translation table entry: a template string or a list of strings (weekday names). */
  datatype Entry = Text(s: string) | List(items: seq<string>)

  /** Language code to the table of keys in that language. */
  type Table = map<string, map<string, Entry>>

  const DefaultLanguage := "en"

  const SupportedLanguages: map<string, string> := map["en" := "English", "zh" := "中文"]

  /** A registered callback, by identity. */
  type CallbackId = nat

  /** `get_supported_languages`: a fresh copy naming English and Chinese. */
  function GetSupportedLanguages(): (r: map<string, string>)
    ensures r.Keys == {"en", "zh"} && r["en"] == "English"
    ensures DefaultLanguage in r
  {
    SupportedLanguages
  }

  /** The lookup shared by `get` and `get_list`: the entry of the current language's table
      (English's when the language has no table), else the English entry, else nothing. */
  function Found(table: Table, lang: string, key: string): (r: Option<Entry>)
    requires DefaultLanguage in table
    ensures lang in table && key in table[lang] ==> r == Some(table[lang][key])
    ensures lang !in table && key in table[DefaultLanguage] ==> r == Some(table[DefaultLanguage][key])
    ensures (lang !in table || key !in table[lang]) && key in table[DefaultLanguage] ==>
      r == Some(table[DefaultLanguage][key])
    ensures r.None? <==> (lang !in table || key !in table[lang]) && key !in table[DefaultLanguage]
  {
    var translations := if lang in table then table[lang] else table[DefaultLanguage];
    if key in translations then Some(translations[key])
    else if key in table[DefaultLanguage] then Some(table[DefaultLanguage][key])
    else None
  }

  /** `get(key)` without arguments: the entry found, else the key itself. */
  function Lookup(table: Table, lang: string, key: string): (r: Entry)
    requires DefaultLanguage in table
    ensures Found(table, lang, key).Some? ==> r == Found(table, lang, key).value
    ensures Found(table, lang, key).None? ==> r == Text(key)
  {
    match Found(table, lang, key)
    case Some(e) => e
    case None => Text(key)
  }

  /** `get(key, **kwargs)`: with arguments, a text template is interpolated; `format` gives
      the interpolation, `None` when it raises `KeyError` or `ValueError`, and then the
      template itself is returned. */
  function Translate(table: Table, lang: string, key: string, hasArgs: bool, format: string -> Option<string>): (r: Entry)
    requires DefaultLanguage in table
    ensures !hasArgs || Lookup(table, lang, key).List? ==> r == Lookup(table, lang, key)
    ensures hasArgs && Lookup(table, lang, key).Text? ==>
      var template := Lookup(table, lang, key).s;
      r == if format(template).Some? then Text(format(template).value) else Text(template)
  {
    var text := Lookup(table, lang, key);
    if hasArgs && text.Text? then
      match format(text.s)
      case Some(t) => Text(t)
      case None => text
    else text
  }

  /** `get_list(key)`: the list found, else `[]`; a text entry also yields `[]`. */
  function GetList(table: Table, lang: string, key: string): (r: seq<string>)
    requires DefaultLanguage in table
    ensures Found(table, lang, key).Some? && Found(table, lang, key).value.List? ==>
      r == Found(table, lang, key).value.items
    ensures Found(table, lang, key).None? || Found(table, lang, key).value.Text? ==> r == []
  {
    match Found(table, lang, key)
    case Some(List(items)) => items
    case _ => []
  }

  /** The callbacks that raise among `cbs`, in order. */
  function Failing(cbs: seq<CallbackId>, raises: set<CallbackId>): (r: seq<CallbackId>)
    ensures forall c :: c in r <==> c in cbs && c in raises
  {
    if cbs == [] then [] else (if cbs[0] in raises then [cbs[0]] else []) + Failing(cbs[1..], raises)
  }

  /** The translation manager. */
  class I18n {
    const table: Table
    var current: string
    var callbacks: seq<CallbackId>

    predicate Valid()
      reads this
    {
      DefaultLanguage in table && current in SupportedLanguages && NoDuplicates(callbacks)
    }

    constructor(translations: Table)
      requires DefaultLanguage in translations
      ensures Valid() && table == translations && current == DefaultLanguage && callbacks == []
    {
      table := translations;
      current := DefaultLanguage;
      callbacks := [];
    }

    /** `get`: the current language's entry, else the default language's, else the key. */
    function Get(key: string, hasArgs: bool, format: string -> Option<string>): (r: Entry)
      reads this
      requires Valid()
      ensures !hasArgs && current in table && key in table[current] ==> r == table[current][key]
      ensures !hasArgs && (current !in table || key !in table[current]) && key in table[DefaultLanguage] ==>
        r == table[DefaultLanguage][key]
      ensures !hasArgs && (current !in table || key !in table[current]) && key !in table[DefaultLanguage] ==>
        r == Text(key)
    {
      Translate(table, current, key, hasArgs, format)
    }

    /** The `current_language` setter: only a supported language different from the current
        one is taken; then the change signal carries it and every callback is called. */
    method SetCurrentLanguage(lang: string, raises: set<CallbackId>)
      returns (signal: Option<string>, called: seq<CallbackId>, errors: seq<CallbackId>)
      requires Valid()
      modifies this`current
      ensures Valid()
      ensures lang in SupportedLanguages && lang != old(current) ==>
        current == lang && signal == Some(lang) && called == callbacks && errors == Failing(callbacks, raises)
      ensures !(lang in SupportedLanguages && lang != old(current)) ==>
        current == old(current) && signal.None? && called == [] && errors == []
    {
      if lang in SupportedLanguages && lang != current {
        current := lang;
        signal := Some(lang);
        called, errors := NotifyCallbacks(raises);
      } else {
        signal, called, errors := None, [], [];
      }
    }

    /** `register_callback`: appends a callback that is not registered yet. */
    method RegisterCallback(cb: CallbackId)
      requires Valid()
      modifies this`callbacks
      ensures Valid()
      ensures callbacks == if cb in old(callbacks) then old(callbacks) else old(callbacks) + [cb]
    {
      if cb !in callbacks {
        AppendAbsentNoDuplicates(callbacks, cb);
        callbacks := callbacks + [cb];
      }
    }

    /** `unregister_callback`: removes a registered callback; otherwise nothing changes. */
    method UnregisterCallback(cb: CallbackId)
      requires Valid()
      modifies this`callbacks
      ensures Valid()
      ensures callbacks == RemoveFirst(old(callbacks), cb)
      ensures cb !in callbacks
      ensures Without(callbacks, cb) == Without(old(callbacks), cb)
    {
      RemoveFirstNoDuplicates(callbacks, cb);
      RemoveFirstKeepsOthers(callbacks, cb);
      if cb in callbacks {
        callbacks := RemoveFirst(callbacks, cb);
      }
    }

    /** `_notify_callbacks`: calls every callback in registration order; the ones in
        `raises` raise, which is reported and does not stop the loop. */
    method NotifyCallbacks(raises: set<CallbackId>) returns (called: seq<CallbackId>, errors: seq<CallbackId>)
      ensures called == callbacks
      ensures errors == Failing(callbacks, raises)
    {
      called, errors := [], [];
      var i := 0;
      while i < |callbacks|
        invariant 0 <= i <= |callbacks|
        invariant called == callbacks[..i]
        invariant errors == Failing(callbacks[..i], raises)
      {
        var cb := callbacks[i];
        called := called + [cb];
        FailingAppend(callbacks[..i], cb, raises);
        if cb in raises {
          errors := errors + [cb];
        }
        assert callbacks[..i + 1] == callbacks[..i] + [cb];
        i := i + 1;
      }
      assert callbacks[..i] == callbacks;
    }
  }

  lemma {:induction false} FailingAppend(cbs: seq<CallbackId>, cb: CallbackId, raises: set<CallbackId>)
    ensures Failing(cbs + [cb], raises) == Failing(cbs, raises) + (if cb in raises then [cb] else [])
  {
    var tail := if cb in raises then [cb] else [];
    if cbs == [] {
      assert cbs + [cb] == [cb] && [cb][1..] == [];
      assert Failing([cb], raises) == tail + Failing([], raises);
    } else {
      var head := if cbs[0] in raises then [cbs[0]] else [];
      assert (cbs + [cb])[0] == cbs[0] && (cbs + [cb])[1..] == cbs[1..] + [cb];
      assert Failing(cbs + [cb], raises) == head + Failing(cbs[1..] + [cb], raises);
      FailingAppend(cbs[1..], cb, raises);
      assert Failing(cbs[1..] + [cb], raises) == Failing(cbs[1..], raises) + tail;
      assert Failing(cbs, raises) == head + Failing(cbs[1..], raises);
    }
  }
}
