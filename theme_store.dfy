/** The theme-mode store of apps/web/components/providers/ThemeProvider.tsx.

    React state (`mode`, `mounted`) and `localStorage` become the fields of
    class ThemeProvider; the two effects become explicit steps: `Mount`
    (the load effect, run once) and `Persist` (the save effect, run after
    every change of `mode` or `mounted`). Each method is specified by a
    transition function on the value `Store`, and what the source promises
    about sequences of steps is proved as lemmas about those functions.

    The mode is a raw string: the saved value is cast to `PaletteMode`,
    never checked, so any non-empty string can become the mode. */
module ThemeStore {
  import opened Wrappers
  import Theme

  /** The localStorage key the preference is kept under. */
  const ThemeModeKey := "themeMode"

  /** The message `useThemeMode` throws outside a provider. */
  const OutsideProviderError := "useThemeMode must be used within ThemeProvider"

  /** `localStorage`: string keys to string values. */
  type Storage = map<string, string>

  /** The provider's whole state as a value. */
  datatype Store = Store(mode: string, mounted: bool, storage: Storage)

  /** What `useThemeMode` hands to a consumer (the two callbacks are the
      methods of ThemeProvider, so only the mode is data). */
  datatype ContextValue = ContextValue(mode: string)

  /** What the provider renders once mounted: the context and the MUI theme. */
  datatype Rendered = Rendered(context: ContextValue, theme: Theme.ThemeOptions)

  /** `localStorage.getItem(key)`: null (None) when the key is absent. */
  function GetItem(storage: Storage, key: string): (v: Option<string>)
    ensures v.Some? <==> key in storage
    ensures v.Some? ==> v.value == storage[key]
  {
    if key in storage then Some(storage[key]) else None
  }

  /** The mode chosen when the provider mounts: a truthy saved value (not
      null, not "") verbatim; otherwise "dark" exactly when the OS prefers
      dark, else "light". */
  function InitialMode(saved: Option<string>, prefersDark: bool): (m: string)
    ensures m != ""
    ensures saved.Some? && saved.value != "" ==> m == saved.value
    ensures !(saved.Some? && saved.value != "") ==> (m == "dark" <==> prefersDark)
    ensures !(saved.Some? && saved.value != "") ==> (m == "light" <==> !prefersDark)
  {
    match saved
    case Some(s) => if s != "" then s else (if prefersDark then "dark" else "light")
    case None => if prefersDark then "dark" else "light"
  }

  /** The functional update of `toggleTheme`: "light" goes to "dark",
      every other string (also an unvalidated saved one) goes to "light". */
  function Toggle(mode: string): (r: string)
    ensures r == "dark" <==> mode == "light"
    ensures r == "light" <==> mode != "light"
    ensures Theme.IsPaletteMode(r)
  {
    if mode == "light" then "dark" else "light"
  }

  /** Initial state: `useState("light")`, `useState(false)`, and whatever
      localStorage holds. */
  function Fresh(storage: Storage): (s: Store)
    ensures s.mode == "light" && !s.mounted && s.storage == storage
  {
    Store("light", false, storage)
  }

  /** The load effect: marks the provider mounted and adopts the mode
      chosen from the stored value and the OS preference. Storage is read only. */
  function MountStep(s: Store, prefersDark: bool): (r: Store)
    ensures r.mounted
    ensures r.storage == s.storage
    ensures r.mode == InitialMode(GetItem(s.storage, ThemeModeKey), prefersDark)
  {
    Store(InitialMode(GetItem(s.storage, ThemeModeKey), prefersDark), true, s.storage)
  }

  /** The save effect: once mounted, writes the mode under "themeMode";
      before that, writes nothing. No other key is touched. */
  function PersistStep(s: Store): (r: Store)
    ensures r.mode == s.mode && r.mounted == s.mounted
    ensures s.mounted ==> ThemeModeKey in r.storage && r.storage[ThemeModeKey] == s.mode
    ensures !s.mounted ==> r.storage == s.storage
    ensures r.storage.Keys <= s.storage.Keys + {ThemeModeKey}
    ensures forall k :: k in s.storage && k != ThemeModeKey ==> k in r.storage && r.storage[k] == s.storage[k]
  {
    if s.mounted then s.(storage := s.storage[ThemeModeKey := s.mode]) else s
  }

  /** `toggleTheme`: changes the mode only. */
  function ToggleStep(s: Store): (r: Store)
    ensures r.mode == Toggle(s.mode)
    ensures r.mounted == s.mounted && r.storage == s.storage
  {
    s.(mode := Toggle(s.mode))
  }

  /** `setThemeMode(m)`: changes the mode only. */
  function SetStep(s: Store, m: string): (r: Store)
    ensures r.mode == m
    ensures r.mounted == s.mounted && r.storage == s.storage
  {
    s.(mode := m)
  }

  /** The render gate: nothing before mount; afterwards the context with
      the current mode and the theme `getTheme` resolves for it. */
  function Render(s: Store): (r: Option<Rendered>)
    ensures r.None? <==> !s.mounted
    ensures r.Some? ==> r.value.context.mode == s.mode
    ensures r.Some? ==> r.value.theme == Theme.GetTheme(s.mode)
    ensures r.Some? ==> r.value.theme.palette.mode == (if s.mode == "light" then "light" else "dark")
  {
    if s.mounted then Some(Rendered(ContextValue(s.mode), Theme.GetTheme(s.mode))) else None
  }

  /** `useThemeMode`: the context a provider renders, or an error when the
      consumer has no provider above it (never a default). */
  function UseThemeMode(context: Option<ContextValue>): (r: Result<ContextValue, string>)
    ensures r.Failure? <==> context.None?
    ensures r.Failure? ==> r.error == OutsideProviderError
    ensures r.Success? ==> r.value == context.value
  {
    match context
    case None => Failure(OutsideProviderError)
    case Some(c) => Success(c)
  }

  /** A user action on a mounted provider. */
  datatype Event = ToggleClick | SetMode(m: string)

  function Apply(s: Store, e: Event): Store {
    match e
    case ToggleClick => ToggleStep(s)
    case SetMode(m) => SetStep(s, m)
  }

  /** A session after mount: each action is followed by the save effect. */
  function Run(s: Store, events: seq<Event>): Store
    decreases |events|
  {
    if events == [] then s else Run(PersistStep(Apply(s, events[0])), events[1..])
  }

  /** A whole session: fresh provider, mount, first save, then the actions. */
  function Session(storage: Storage, prefersDark: bool, events: seq<Event>): Store {
    Run(PersistStep(MountStep(Fresh(storage), prefersDark)), events)
  }

  /** Storage mirrors the mode. */
  predicate Persisted(s: Store) {
    ThemeModeKey in s.storage && s.storage[ThemeModeKey] == s.mode
  }

  /** Two storages agree on every key except "themeMode". */
  predicate SameOutsideKey(a: Storage, b: Storage) {
    && (forall k :: k in a && k != ThemeModeKey ==> k in b && b[k] == a[k])
    && (forall k :: k in b && k != ThemeModeKey ==> k in a)
  }

  /** The toggle is an involution on the two palette modes. */
  lemma ToggleInvolution(mode: string)
    requires Theme.IsPaletteMode(mode)
    ensures Toggle(Toggle(mode)) == mode
  {
  }

  /** Before mount: mode "light", nothing rendered, and the save effect
      leaves storage exactly as it was. */
  lemma BeforeMount(storage: Storage)
    ensures Fresh(storage).mode == "light" && !Fresh(storage).mounted
    ensures Render(Fresh(storage)).None?
    ensures PersistStep(Fresh(storage)).storage == storage
  {
  }

  /** After mount and the first save, storage already holds the mode,
      including a mode derived from the OS preference. */
  lemma MountThenPersist(storage: Storage, prefersDark: bool)
    ensures Persisted(PersistStep(MountStep(Fresh(storage), prefersDark)))
    ensures PersistStep(MountStep(Fresh(storage), prefersDark)).mounted
    ensures SameOutsideKey(storage, PersistStep(MountStep(Fresh(storage), prefersDark)).storage)
  {
  }

  /** `setThemeMode(m)` followed by the save effect stores `m`. */
  lemma SetThenPersist(s: Store, m: string)
    requires s.mounted
    ensures PersistStep(SetStep(s, m)).mode == m
    ensures PersistStep(SetStep(s, m)).storage[ThemeModeKey] == m
  {
  }

  /** Once mounted, every session keeps storage mirroring the mode and
      never changes another key. */
  lemma {:induction false} RunKeepsPersisted(s: Store, events: seq<Event>)
    requires s.mounted && Persisted(s)
    ensures Run(s, events).mounted
    ensures Persisted(Run(s, events))
    ensures SameOutsideKey(s.storage, Run(s, events).storage)
    decreases |events|
  {
    if events != [] {
      var next := PersistStep(Apply(s, events[0]));
      RunKeepsPersisted(next, events[1..]);
    }
  }

  /** The preference written in one session is what the next session's
      mount adopts, whatever that session's OS preference is (as long as
      the mode is not the empty string, which the load effect treats as absent). */
  lemma {:induction false} NextSessionRestores(storage: Storage, prefersDark: bool, events: seq<Event>, laterPrefersDark: bool)
    requires Session(storage, prefersDark, events).mode != ""
    ensures MountStep(Fresh(Session(storage, prefersDark, events).storage), laterPrefersDark).mode
         == Session(storage, prefersDark, events).mode
  {
    var start := PersistStep(MountStep(Fresh(storage), prefersDark));
    RunKeepsPersisted(start, events);
  }

  /** `n` clicks of the toggle. */
  function Clicks(n: nat): (e: seq<Event>)
    ensures |e| == n
    ensures forall i :: 0 <= i < n ==> e[i] == ToggleClick
  {
    seq(n, _ => ToggleClick)
  }

  /** On a palette mode, an even number of clicks returns to it and an odd
      number lands on the other one. */
  lemma {:induction false} ClicksParity(s: Store, n: nat)
    requires Theme.IsPaletteMode(s.mode)
    ensures Run(s, Clicks(n)).mode == if n % 2 == 0 then s.mode else Toggle(s.mode)
    decreases n
  {
    if n > 0 {
      var next := PersistStep(ToggleStep(s));
      assert Clicks(n)[1..] == Clicks(n - 1);
      ClicksParity(next, n - 1);
      ToggleInvolution(s.mode);
    }
  }

  /** A stored value is adopted verbatim over the OS preference. */
  lemma SavedWinsOverOs(storage: Storage, prefersDark: bool)
    requires ThemeModeKey in storage && storage[ThemeModeKey] != ""
    ensures MountStep(Fresh(storage), prefersDark).mode == storage[ThemeModeKey]
  {
  }

  /** Fresh session, nothing stored, OS prefers dark: mode "dark" and the
      dark theme, whose default background is "#121212". */
  lemma DarkOsScenario(storage: Storage)
    requires ThemeModeKey !in storage
    ensures MountStep(Fresh(storage), true).mode == "dark"
    ensures Render(MountStep(Fresh(storage), true)).value.theme.palette.background.default == "#121212"
  {
  }

  /** The saved value is not validated: a stored "system" becomes the mode,
      while the rendered theme is the dark one. */
  lemma UnvalidatedSavedMode(prefersDark: bool)
    ensures MountStep(Fresh(map[ThemeModeKey := "system"]), prefersDark).mode == "system"
    ensures Render(MountStep(Fresh(map[ThemeModeKey := "system"]), prefersDark)).value.theme.palette.mode == "dark"
  {
  }

  /** The provider component: React state plus the localStorage it writes to. */
  class ThemeProvider {
    var mode: string
    var mounted: bool
    var storage: Storage

    /** The provider's state as a value. */
    function Snapshot(): (s: Store)
      reads this
      ensures s.mode == mode && s.mounted == mounted && s.storage == storage
    {
      Store(mode, mounted, storage)
    }

    /** First render: `useState("light")`, `useState(false)`. */
    constructor (initialStorage: Storage)
      ensures Snapshot() == Fresh(initialStorage)
    {
      mode := "light";
      mounted := false;
      storage := initialStorage;
    }

    /** The load effect: `setMounted(true)`, then the mode from the saved
        value or the OS preference. */
    method Mount(prefersDark: bool)
      modifies this
      ensures Snapshot() == MountStep(old(Snapshot()), prefersDark)
      ensures mounted && storage == old(storage)
    {
      mounted := true;
      var saved := GetItem(storage, ThemeModeKey);
      if saved.Some? && saved.value != "" {
        mode := saved.value;
      } else {
        mode := if prefersDark then "dark" else "light";
      }
    }

    /** The save effect. */
    method Persist()
      modifies this
      ensures Snapshot() == PersistStep(old(Snapshot()))
      ensures old(mounted) ==> storage == old(storage)[ThemeModeKey := mode]
      ensures !old(mounted) ==> storage == old(storage)
    {
      if mounted {
        storage := storage[ThemeModeKey := mode];
      }
    }

    method ToggleTheme()
      modifies this
      ensures Snapshot() == ToggleStep(old(Snapshot()))
    {
      mode := if mode == "light" then "dark" else "light";
    }

    method SetThemeMode(newMode: string)
      modifies this
      ensures Snapshot() == SetStep(old(Snapshot()), newMode)
    {
      mode := newMode;
    }

    /** What the component returns from render. */
    function View(): (r: Option<Rendered>)
      reads this
      ensures r.None? <==> !mounted
      ensures r.Some? ==> r.value.context.mode == mode
      ensures r.Some? ==> r.value.theme == Theme.GetTheme(mode)
      ensures r == Render(Snapshot())
    {
      Render(Snapshot())
    }
  }

  /** A session driven through the provider's methods: mount, save, a
      toggle, save. Storage ends up mirroring the toggled mode. */
  method ToggleSession(initialStorage: Storage, prefersDark: bool) returns (p: ThemeProvider)
    ensures p.mounted
    ensures p.mode == Toggle(InitialMode(GetItem(initialStorage, ThemeModeKey), prefersDark))
    ensures ThemeModeKey in p.storage && p.storage[ThemeModeKey] == p.mode
  {
    p := new ThemeProvider(initialStorage);
    p.Mount(prefersDark);
    p.Persist();
    p.ToggleTheme();
    p.Persist();
  }
}
