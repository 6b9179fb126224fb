/** The locale preference (app/i18n/LanguageContext.tsx): the provider's `locale`
    state, its load from client storage at mount, the write-through `setLocale`, the
    exposed dictionary, and the `useLanguage` guard. */
module LanguageContext {
  import opened Wrappers
  import opened Translations

  /** The storage key the preference lives under. */
  const LocaleKey: string := "locale"

  /** The browser's `localStorage`: string values under string keys. */
  class Storage {
    var items: map<string, string>

    constructor (items: map<string, string>)
      ensures this.items == items
    {
      this.items := items;
    }

    /** `getItem`: the value under key, or null. */
    function GetItem(key: string): (r: Option<string>)
      reads this
      ensures r.Some? <==> key in items
      ensures r.Some? ==> r.value == items[key]
    {
      if key in items then Some(items[key]) else None
    }

    /** `setItem`: key now maps to value; every other key is untouched. */
    method SetItem(key: string, value: string)
      modifies this
      ensures items == old(items)[key := value]
    {
      items := items[key := value];
    }
  }

  /** The locale the provider holds after its mount effect, when storage held `saved`:
      the stored value when it is "en" or "fr", the initial "fr" otherwise. */
  function LoadedLocale(saved: Option<string>): (l: Locale)
    ensures saved == Some("en") ==> l == En
    ensures saved != Some("en") ==> l == Fr
  {
    match saved
    case Some(s) => if s != "" && (s == "en" || s == "fr") then LocaleOfCode(s) else Fr
    case None => Fr
  }

  /** Whatever locale was written, reading it back selects that locale. */
  lemma StoredLocaleReadsBack(x: Locale)
    ensures LoadedLocale(Some(x.Code())) == x
  {
  }

  /** The value a provider puts in the context. */
  datatype ContextValue = ContextValue(locale: Locale, t: Dictionary)

  class LanguageProvider {
    var locale: Locale
    const storage: Storage

    /** The first render: `useState<Locale>("fr")`. */
    constructor (storage: Storage)
      ensures locale == Fr && this.storage == storage
    {
      locale := Fr;
      this.storage := storage;
    }

    /** The mount effect: adopt the stored locale only when it is a supported code. */
    method LoadFromStorage()
      modifies this`locale
      ensures var saved := storage.GetItem(LocaleKey);
        locale == (if saved == Some("en") || saved == Some("fr") then LoadedLocale(saved)
                   else old(locale))
    {
      var saved := storage.GetItem(LocaleKey);
      if saved.Some? && saved.value != "" && (saved.value == "en" || saved.value == "fr") {
        locale := LocaleOfCode(saved.value);
      }
    }

    /** `handleSetLocale`: the new locale is held and written under "locale"; other
        storage keys keep their values. */
    method SetLocale(newLocale: Locale)
      modifies this`locale, storage
      ensures locale == newLocale
      ensures storage.items == old(storage.items)[LocaleKey := newLocale.Code()]
      ensures forall k :: k in old(storage.items) && k != LocaleKey ==>
        k in storage.items && storage.items[k] == old(storage.items)[k]
    {
      locale := newLocale;
      storage.SetItem(LocaleKey, newLocale.Code());
    }

    /** The context value: the locale and `translations[locale]`. */
    function Value(): (v: ContextValue)
      reads this
      ensures v.locale == locale && v.t == TranslationsFor(locale)
    {
      ContextValue(locale, TranslationsFor(locale))
    }
  }

  /** A mounted provider: first render, then the load effect. Its initial locale is
      "fr" unless storage says otherwise. */
  method Mount(storage: Storage) returns (p: LanguageProvider)
    ensures fresh(p) && p.storage == storage
    ensures p.locale == LoadedLocale(storage.GetItem(LocaleKey))
  {
    p := new LanguageProvider(storage);
    p.LoadFromStorage();
  }

  /** The preference survives a reload: after `setLocale(x)`, a new provider on the same
      storage starts with x; setting the same locale twice leaves the same state as
      setting it once. */
  method SwitchThenReload(storage: Storage, x: Locale) returns (q: LanguageProvider)
    modifies storage
    ensures q.locale == x && q.storage == storage
    ensures storage.items == old(storage.items)[LocaleKey := x.Code()]
  {
    var p := Mount(storage);
    p.SetLocale(x);
    p.SetLocale(x);
    q := Mount(storage);
  }

  /** `useLanguage`: the context value inside a provider, an error outside one. */
  function UseLanguage(context: Option<ContextValue>): (r: Result<ContextValue, string>)
    ensures r.Failure? <==> context.None?
    ensures context.Some? ==> r == Success(context.value)
    ensures r.Failure? ==> r.error == "useLanguage must be used within a LanguageProvider"
  {
    match context
    case None => Failure("useLanguage must be used within a LanguageProvider")
    case Some(v) => Success(v)
  }
}
