# ProvisionHub theme and configuration rules, in Dafny

This project models the decision rules of ProvisionHub: the web front end's light/dark
theme handling and the control plane's configuration loading.

- **Theme** (`theme.dfy`, from `apps/web/components/theme.ts`). The MUI option records for
  the light and the dark theme are modelled as datatypes. They are built from an inline
  palette plus the spread of `getCommonTheme(mode)`. `getTheme` is a two-way lookup
  into them.
- **ThemeStore** (`theme_store.dfy`, from `apps/web/components/providers/ThemeProvider.tsx`).
  Class `ThemeProvider` holds the React state (`mode`, `mounted`) and the
  `localStorage` map it writes to. The two effects are explicit methods: `Mount`
  (the load effect) and `Persist` (the save effect). Each method is specified by a
  transition function on the value `Store`. A session is `Run`: every user action is
  followed by the save effect. The session lemmas cover persistence, key-only writes,
  restoring the preference in a later session, and toggle parity.
- **ThemeToggle** (`theme_toggle.dfy`, from `apps/web/components/ui/ThemeToggle.tsx`).
  The button's tooltip, icon, aria-label and click are functions of the mode.
- **Config** (`config.dfy`, from `apps/control-plane/internal/config/config.go`).
  `getEnv` is a lookup with fallback. `Load` decides whether `.env` is read and
  applies the defaults `"8180"` and `"development"`.

The mode is a raw string, not a two-value enum. The code casts the stored value to
`PaletteMode` and adopts any non-empty stored string without checking that it is a
palette mode (ThemeProvider.tsx:36-38). So a stored `"system"` becomes the mode, and the
lookups send it to their "other" branch (`UnvalidatedSavedMode`,
`IconDisagreesOffPalette`). Nothing renders before mount, so no consumer can read the
context early. The only failure is `useThemeMode` called outside a provider
(ThemeProvider.tsx:17-23, `UseThemeMode`).

## Model

| member | source | states |
|---|---|---|
| Theme.Spread | apps/web/components/theme.ts:62-83 | the object spread keeps the inline palette and copies typography, shape and components from the common part |
| Theme.CommonTheme | apps/web/components/theme.ts:4-58 | border radius 8, button override `textTransform: none`/weight 500, card shadow alpha 0.1 exactly for "light" and 0.3 for every other mode |
| Theme.LightTheme | apps/web/components/theme.ts:61-84 | palette mode "light", background `#fafafa`/`#ffffff`, the light card shadow |
| Theme.DarkTheme | apps/web/components/theme.ts:87-110 | palette mode "dark", background `#121212`/`#1e1e1e`, the dark card shadow |
| Theme.GetTheme | apps/web/components/theme.ts:113-115 | the palette mode and default background are the light ones exactly for "light"; typography and shape are the common ones |
| Theme.GetThemeReportsMode | apps/web/components/theme.ts:113-115 | for "light" and "dark", the resolved theme's palette mode equals the requested mode |
| Theme.GetThemeLookup | apps/web/components/theme.ts:113-115 | "light" gives `lightTheme`; every other string gives `darkTheme` |
| Theme.CommonPartsDifferOnlyInShadow | apps/web/components/theme.ts:4-58 | the common parts of any two modes share typography, shape and button override; they are equal iff both or neither mode is "light" |
| Theme.ThemesShareCommonParts | apps/web/components/theme.ts:61-110 | the two themes share typography, shape and button override, yet differ, in particular in default background |
| Theme.PaletteIsInline | apps/web/components/theme.ts:61-110 | each theme's palette is exactly its inline literal |
| ThemeStore.GetItem | apps/web/components/providers/ThemeProvider.tsx:36 | `getItem` returns null exactly when the key is absent, else the stored value |
| ThemeStore.InitialMode | apps/web/components/providers/ThemeProvider.tsx:36-45 | a non-empty saved value is adopted verbatim; otherwise "dark" iff the OS prefers dark and "light" iff not; the result is never empty |
| ThemeStore.Toggle | apps/web/components/providers/ThemeProvider.tsx:55-57 | "light" goes to "dark", every other string to "light"; the result is always a palette mode |
| ThemeStore.Fresh | apps/web/components/providers/ThemeProvider.tsx:30-31 | the first render has mode "light", is not mounted, and storage is untouched |
| ThemeStore.MountStep | apps/web/components/providers/ThemeProvider.tsx:34-46 | the load effect sets mounted, reads storage without writing it, and adopts the initial mode |
| ThemeStore.PersistStep | apps/web/components/providers/ThemeProvider.tsx:49-53 | once mounted, "themeMode" holds the mode; before mount, storage is unchanged; no other key is added, removed or changed |
| ThemeStore.ToggleStep | apps/web/components/providers/ThemeProvider.tsx:55-57 | `toggleTheme` changes only the mode, to its toggle |
| ThemeStore.SetStep | apps/web/components/providers/ThemeProvider.tsx:59-61 | `setThemeMode(m)` makes the mode `m` and changes nothing else |
| ThemeStore.Render | apps/web/components/providers/ThemeProvider.tsx:63-86 | nothing is rendered before mount; afterwards the context carries the mode and the theme is `getTheme(mode)`, whose palette mode is "light" exactly for "light" |
| ThemeStore.UseThemeMode | apps/web/components/providers/ThemeProvider.tsx:17-23 | outside a provider the result is the error "useThemeMode must be used within ThemeProvider", never a default; inside, the provider's context |
| ThemeStore.ToggleInvolution | apps/web/components/providers/ThemeProvider.tsx:55-57 | on "light" and "dark", toggling twice is the identity |
| ThemeStore.BeforeMount | apps/web/components/providers/ThemeProvider.tsx:29-77 | before mount the mode is "light", nothing renders, and the save effect writes nothing |
| ThemeStore.MountThenPersist | apps/web/components/providers/ThemeProvider.tsx:34-53 | after mount and the first save, storage mirrors the mode (also an OS-derived one) and no other key changed |
| ThemeStore.SetThenPersist | apps/web/components/providers/ThemeProvider.tsx:49-61 | after `setThemeMode(m)` and the save, mode and "themeMode" are both `m` |
| ThemeStore.RunKeepsPersisted | apps/web/components/providers/ThemeProvider.tsx:49-53 | in any sequence of toggles and sets after mount, storage keeps mirroring the mode and every other key keeps its value |
| ThemeStore.NextSessionRestores | apps/web/components/providers/ThemeProvider.tsx:34-53 | the next session's mount adopts the last session's final mode whatever its OS preference, unless that mode is "" |
| ThemeStore.ClicksParity | apps/web/components/providers/ThemeProvider.tsx:55-57 | from a palette mode, an even number of toggles returns to it and an odd number gives the other mode |
| ThemeStore.SavedWinsOverOs | apps/web/components/providers/ThemeProvider.tsx:36-38 | a non-empty stored value is adopted whatever the OS preference |
| ThemeStore.DarkOsScenario | apps/web/components/providers/ThemeProvider.tsx:39-45 | with nothing stored and a dark OS preference, the mode is "dark" and the rendered background is `#121212` |
| ThemeStore.UnvalidatedSavedMode | apps/web/components/providers/ThemeProvider.tsx:36-38 | a stored "system" becomes the mode while the rendered theme is the dark one |
| ThemeStore.ThemeProvider.constructor | apps/web/components/providers/ThemeProvider.tsx:29-31 | a new provider is in the state `Fresh(storage)` |
| ThemeStore.ThemeProvider.Mount | apps/web/components/providers/ThemeProvider.tsx:34-46 | the new state is `MountStep` of the old one; storage is unchanged |
| ThemeStore.ThemeProvider.Persist | apps/web/components/providers/ThemeProvider.tsx:49-53 | the new state is `PersistStep` of the old one: one write of "themeMode" if mounted, else none |
| ThemeStore.ThemeProvider.ToggleTheme | apps/web/components/providers/ThemeProvider.tsx:55-57 | the new state is `ToggleStep` of the old one |
| ThemeStore.ThemeProvider.SetThemeMode | apps/web/components/providers/ThemeProvider.tsx:59-61 | the new state is `SetStep` of the old one |
| ThemeStore.ThemeProvider.View | apps/web/components/providers/ThemeProvider.tsx:74-86 | the component's output is `Render` of its state: nothing exactly while unmounted, then a context with the current mode and the theme `getTheme(mode)` |
| ThemeStore.ToggleSession | apps/web/components/providers/ThemeProvider.tsx:29-57 | mount, save, toggle, save on a real provider leaves the mode toggled from the initial one and stored under "themeMode" |
| ThemeToggle.TooltipTitle | apps/web/components/ui/ThemeToggle.tsx:12 | the tooltip is "Switch to " + toggle(mode) + " mode": "dark" for "light", "light" for every other mode |
| ThemeToggle.IconFor | apps/web/components/ui/ThemeToggle.tsx:18 | the icon is Brightness7 exactly when the mode is "dark" |
| ThemeToggle.View | apps/web/components/ui/ThemeToggle.tsx:11-21 | the button has that tooltip and icon, the constant aria-label "toggle theme", and its click is a toggle |
| ThemeToggle.ClickDoesWhatTooltipSays | apps/web/components/ui/ThemeToggle.tsx:12-14 | after a click and the save, the store holds the mode the tooltip named, and storage changed only under "themeMode" |
| ThemeToggle.IconMatchesTooltip | apps/web/components/ui/ThemeToggle.tsx:12-18 | on the two palette modes, Brightness7 goes with exactly "Switch to light mode" |
| ThemeToggle.IconDisagreesOffPalette | apps/web/components/ui/ThemeToggle.tsx:12-18 | for an unvalidated mode such as "system", the tooltip offers light but the icon is Brightness4 |
| Config.Getenv | apps/control-plane/internal/config/config.go:17 | `os.Getenv` gives the value of a set variable and "" for an unset one |
| Config.GetEnv | apps/control-plane/internal/config/config.go:34-39 | the value when set and non-empty; the fallback when unset or set to ""; never empty when the fallback is not |
| Config.Load | apps/control-plane/internal/config/config.go:15-32 | `.env` is read iff ENV is not exactly "production"; a failed read leaves the process environment as it was; Port and Env are never empty and default to "8180" and "development" |
| Config.LoadDefaults | apps/control-plane/internal/config/config.go:24-27 | for every environment where PORT and ENV are unset or empty (before and after reading `.env`), the configuration is ("8180", "development") and `.env` is read |
| Config.ProductionIgnoresDotEnv | apps/control-plane/internal/config/config.go:17-22 | in production `.env` is not read, the configuration does not depend on it, and Env is "production" |
| Config.FailedDotEnvIsHarmless | apps/control-plane/internal/config/config.go:18-21 | a failed `.env` load gives the configuration of the unchanged environment |

## Left out

- `createTheme`, `MUIThemeProvider`, `CssBaseline` and the icon components are MUI code. A theme here is the option record given to `createTheme`, without MUI's defaulting and merging.
- React scheduling (effect order, `useMemo`, batching of state updates) is not modelled. The two effects are the explicit steps `Mount` and `Persist`, and `Run` calls `Persist` after every action.
- `toggleTheme` and `setThemeMode` are modelled as plain updates of `mode`, not as React's queued functional updates.
- `window.matchMedia` is a boolean parameter of `Mount`. `localStorage` is a map. The source does not handle storage exceptions, so none are modelled.
- Config.Load: how `godotenv` parses `.env` and merges it into the process environment is not modelled. The environment after a successful load is a parameter, and a failed load is `None`. The `log.Printf` output is left out as well.
- `apps/control-plane/cmd/server/main.go` (HTTP server, timeouts, hello-world handler) and `apps/control-plane/internal/middleware/request_logger.go` (request-body logging) are network I/O and are not part of this model.
- `apps/web/app/page.tsx` (layout markup) and `apps/web/components/index.ts` (re-exports) hold no logic and are not part of this model.
