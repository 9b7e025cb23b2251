/** The persisted language store: the interface locale and a flag that says
    whether the saved state has been read back from browser storage. The
    storage itself is not modelled; a rehydration arrives as an explicit
    event carrying what storage held. */
module LanguageStore {
  import opened Types

  /** The three interface languages. */
  datatype Locale = Zh | En | Ms

  function LocaleCode(l: Locale): (r: string)
    ensures |r| == 2
  {
    match l
    case Zh => "zh"
    case En => "en"
    case Ms => "ms"
  }

  /** Each code names one locale. */
  lemma LocaleCodeInjective(a: Locale, b: Locale)
    requires LocaleCode(a) == LocaleCode(b)
    ensures a == b
  {
  }

  /** What the rehydration callback receives: the state read back (holding
      the saved locale, when storage had one), or nothing when reading
      failed. */
  datatype Rehydration = Restored(saved: Option<Locale>) | Failed

  class LanguageStore {
    var locale: Locale
    var hasHydrated: bool

    constructor ()
      ensures locale == Zh && !hasHydrated
    {
      locale := Zh;
      hasHydrated := false;
    }

    /** `setLocale`: only the locale changes. */
    method SetLocale(l: Locale)
      modifies this`locale
      ensures locale == l
    {
      locale := l;
    }

    /** `setHasHydrated`: only the flag changes. */
    method SetHasHydrated(b: bool)
      modifies this`hasHydrated
      ensures hasHydrated == b
    {
      hasHydrated := b;
    }

    /** The `onRehydrateStorage` callback, after storage has been read: the
        saved locale (if any) replaces the current one and the flag is set;
        when reading failed the state is absent and nothing happens. */
    method Rehydrate(event: Rehydration)
      modifies this
      ensures event.Restored? ==> hasHydrated
      ensures event.Restored? && event.saved.Some? ==> locale == event.saved.value
      ensures event.Restored? && event.saved.None? ==> locale == old(locale)
      ensures event.Failed? ==> locale == old(locale) && hasHydrated == old(hasHydrated)
      ensures old(hasHydrated) ==> hasHydrated
    {
      if event.Restored? {
        if event.saved.Some? {
          SetLocale(event.saved.value);
        }
        SetHasHydrated(true);
      }
    }
  }
}
