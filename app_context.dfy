/** The application-wide settings store (src/contexts/AppContext.tsx): the current language
    and theme, initialised from the browser's key/value storage, written back to it on every
    change, and mirrored onto the document (direction, language attribute, theme class). */
module AppContext {
  import opened Wrappers
  import opened I18n

  datatype Theme = Light | Dark

  /** The theme's name, as stored and as used for the document class. */
  function ThemeTag(theme: Theme): string {
    match theme
    case Light => "light"
    case Dark => "dark"
  }

  /** `prev === 'light' ? 'dark' : 'light'` */
  function Toggled(theme: Theme): (r: Theme)
    ensures r != theme
  {
    if theme == Light then Dark else Light
  }

  const LanguageKey: string := "balla-language"
  const ThemeKey: string := "balla-theme"
  const ThemeClasses: set<string> := {"light", "dark"}

  function ParseLanguage(tag: string): Option<Language> {
    if tag == "ar" then Some(Ar) else if tag == "en" then Some(En) else None
  }

  function ParseTheme(tag: string): Option<Theme> {
    if tag == "light" then Some(Light) else if tag == "dark" then Some(Dark) else None
  }

  /** What the provider's casts (`saved as Language`, `saved as Theme`) take for granted: under
      its two keys the store holds either the empty string or a tag this provider writes. */
  predicate StoredWellFormed(store: map<string, string>) {
    && (LanguageKey in store ==> store[LanguageKey] == "" || ParseLanguage(store[LanguageKey]).Some?)
    && (ThemeKey in store ==> store[ThemeKey] == "" || ParseTheme(store[ThemeKey]).Some?)
  }

  /** The initial language: the stored value when there is a non-empty one, otherwise Arabic. */
  function InitialLanguage(store: map<string, string>): (r: Language)
    requires StoredWellFormed(store)
    ensures LanguageKey in store && store[LanguageKey] != "" ==> LanguageTag(r) == store[LanguageKey]
    ensures !(LanguageKey in store && store[LanguageKey] != "") ==> r == Ar
  {
    if LanguageKey in store && store[LanguageKey] != "" then ParseLanguage(store[LanguageKey]).value else Ar
  }

  /** The initial theme: the stored value when there is a non-empty one, otherwise dark exactly
      when the system prefers a dark colour scheme. */
  function InitialTheme(store: map<string, string>, prefersDark: bool): (r: Theme)
    requires StoredWellFormed(store)
    ensures ThemeKey in store && store[ThemeKey] != "" ==> ThemeTag(r) == store[ThemeKey]
    ensures !(ThemeKey in store && store[ThemeKey] != "") ==> (r == Dark <==> prefersDark)
  {
    if ThemeKey in store && store[ThemeKey] != "" then ParseTheme(store[ThemeKey]).value
    else if prefersDark then Dark else Light
  }

  /** The document direction the language effect sets. */
  function Direction(lang: Language): (r: string)
    ensures r == "rtl" <==> lang == Ar
  {
    if IsRTL(lang) then "rtl" else "ltr"
  }

  /** `classList.remove('light', 'dark'); classList.add(theme)` */
  function WithThemeClass(classes: set<string>, theme: Theme): (r: set<string>)
    ensures r * ThemeClasses == {ThemeTag(theme)}
    ensures r - ThemeClasses == classes - ThemeClasses
  {
    classes - ThemeClasses + {ThemeTag(theme)}
  }

  /** Toggling twice gives the original theme back. */
  lemma ToggleInvolutive(theme: Theme)
    ensures Toggled(Toggled(theme)) == theme
  {
  }

  /** Writing the settings and reading them back, as a reload does, gives the same settings,
      whatever else the store holds and whatever the system preference is. */
  lemma ReloadRestoresSettings(store: map<string, string>, lang: Language, theme: Theme, prefersDark: bool)
    ensures StoredWellFormed(store[LanguageKey := LanguageTag(lang)][ThemeKey := ThemeTag(theme)])
    ensures InitialLanguage(store[LanguageKey := LanguageTag(lang)][ThemeKey := ThemeTag(theme)]) == lang
    ensures InitialTheme(store[LanguageKey := LanguageTag(lang)][ThemeKey := ThemeTag(theme)], prefersDark) == theme
  {
  }

  /** Once the document carries exactly one theme class, switching to the other theme and back
      leaves the class list exactly as it was. */
  lemma ThemeClassesRestored(classes: set<string>, theme: Theme)
    requires classes * ThemeClasses == {ThemeTag(theme)}
    ensures WithThemeClass(WithThemeClass(classes, Toggled(theme)), theme) == classes
  {
    assert ThemeTag(theme) in classes;
  }

  /** `AppProvider`'s state, with the browser's storage and the document's attributes as fields. */
  class AppProvider {
    var language: Language
    var theme: Theme
    var storage: map<string, string>
    var documentDir: string
    var documentLang: string
    var documentClasses: set<string>

    /** After every effect has run: storage and document agree with the two settings. */
    ghost predicate Valid()
      reads this
    {
      && StoredWellFormed(storage)
      && LanguageKey in storage && storage[LanguageKey] == LanguageTag(language)
      && ThemeKey in storage && storage[ThemeKey] == ThemeTag(theme)
      && documentDir == Direction(language)
      && documentLang == LanguageTag(language)
      && documentClasses * ThemeClasses == {ThemeTag(theme)}
    }

    /** Mounting the provider: both lazy initialisers, then both effects once. */
    constructor (store: map<string, string>, prefersDark: bool, classes: set<string>)
      requires StoredWellFormed(store)
      ensures Valid()
      ensures language == InitialLanguage(store)
      ensures theme == InitialTheme(store, prefersDark)
      ensures storage == store[LanguageKey := LanguageTag(language)][ThemeKey := ThemeTag(theme)]
      ensures documentDir == Direction(language) && documentLang == LanguageTag(language)
      ensures documentClasses == WithThemeClass(classes, theme)
    {
      var lang := InitialLanguage(store);
      var th := InitialTheme(store, prefersDark);
      language := lang;
      theme := th;
      storage := store[LanguageKey := LanguageTag(lang)][ThemeKey := ThemeTag(th)];
      documentDir := Direction(lang);
      documentLang := LanguageTag(lang);
      documentClasses := WithThemeClass(classes, th);
    }

    /** `setLanguage` followed by the language effect. */
    method SetLanguage(lang: Language)
      requires Valid()
      modifies this
      ensures Valid()
      ensures language == lang && theme == old(theme)
      ensures storage == old(storage)[LanguageKey := LanguageTag(lang)]
      ensures documentDir == Direction(lang) && documentLang == LanguageTag(lang)
      ensures documentClasses == old(documentClasses)
    {
      language := lang;
      storage := storage[LanguageKey := LanguageTag(lang)];
      documentDir := Direction(lang);
      documentLang := LanguageTag(lang);
    }

    /** `setTheme` followed by the theme effect. */
    method SetTheme(t: Theme)
      requires Valid()
      modifies this
      ensures Valid()
      ensures theme == t && language == old(language)
      ensures storage == old(storage)[ThemeKey := ThemeTag(t)]
      ensures documentDir == old(documentDir) && documentLang == old(documentLang)
      ensures documentClasses == WithThemeClass(old(documentClasses), t)
    {
      theme := t;
      storage := storage[ThemeKey := ThemeTag(t)];
      documentClasses := WithThemeClass(documentClasses, t);
    }

    /** `toggleTheme`: switches light and dark, then the theme effect runs. */
    method ToggleTheme()
      requires Valid()
      modifies this
      ensures Valid()
      ensures theme == Toggled(old(theme)) && language == old(language)
      ensures storage == old(storage)[ThemeKey := ThemeTag(theme)]
      ensures documentDir == old(documentDir) && documentLang == old(documentLang)
      ensures documentClasses == WithThemeClass(old(documentClasses), theme)
    {
      SetTheme(Toggled(theme));
    }

    /** `t(key)`: the current language's translation. */
    function T(key: TranslationKey): (r: string)
      reads this
      ensures r == GetTranslation(language, key)
    {
      TablesShareKeys();
      Translations(language)[key]
    }

    /** The exposed `isRTL` flag. */
    function IsRtl(): (r: bool)
      reads this
      ensures r <==> language == Ar
    {
      IsRTL(language)
    }
  }

  /** A caller that toggles the theme twice ends with the theme, the storage and the document
      classes it started with. */
  method ToggleTwice(p: AppProvider)
    requires p.Valid()
    modifies p
    ensures p.Valid()
    ensures p.theme == old(p.theme) && p.language == old(p.language)
    ensures p.storage == old(p.storage) && p.documentClasses == old(p.documentClasses)
  {
    ghost var classes := p.documentClasses;
    p.ToggleTheme();
    p.ToggleTheme();
    ThemeClassesRestored(classes, p.theme);
  }

  /** `useApp()`: the provided context, or the error it throws outside a provider. */
  function UseApp(context: Option<AppProvider>): (r: Result<AppProvider, string>)
    ensures r.Success? <==> context.Some?
    ensures r.Success? ==> r.value == context.value
    ensures r.Failure? ==> r.error == "useApp must be used within an AppProvider"
  {
    match context
    case Some(p) => Success(p)
    case None => Failure("useApp must be used within an AppProvider")
  }
}
