/** The toggle button of apps/web/components/ui/ThemeToggle.tsx: its
    tooltip, icon, label and click are functions of the current mode. */
module ThemeToggle {
  import ThemeStore
  import Theme

  /** The two MUI icons the button can show. */
  datatype Icon = Brightness4 | Brightness7

  /** The rendered button: tooltip title, icon, aria-label and the store
      action its click triggers. */
  datatype ToggleView = ToggleView(title: string, icon: Icon, ariaLabel: string, onClick: ThemeStore.Event)

  const AriaLabel := "toggle theme"

  /** The tooltip names the mode the toggle produces: "dark" from "light",
      "light" from every other mode. */
  function TooltipTitle(mode: string): (t: string)
    ensures t == "Switch to " + ThemeStore.Toggle(mode) + " mode"
    ensures mode == "light" ==> t == "Switch to dark mode"
    ensures mode != "light" ==> t == "Switch to light mode"
  {
    "Switch to " + (if mode == "light" then "dark" else "light") + " mode"
  }

  /** Brightness7 exactly for "dark", Brightness4 for every other mode. */
  function IconFor(mode: string): (i: Icon)
    ensures i == Brightness7 <==> mode == "dark"
  {
    if mode == "dark" then Brightness7 else Brightness4
  }

  /** The whole button for a mode. */
  function View(mode: string): (v: ToggleView)
    ensures v.title == TooltipTitle(mode)
    ensures v.icon == IconFor(mode)
    ensures v.ariaLabel == "toggle theme"
    ensures v.onClick == ThemeStore.ToggleClick
  {
    ToggleView(TooltipTitle(mode), IconFor(mode), AriaLabel, ThemeStore.ToggleClick)
  }

  /** A click only toggles the mode and saves it: the tooltip shown before
      the click names the mode the store holds after it, and storage
      follows. Nothing else changes. */
  lemma ClickDoesWhatTooltipSays(s: ThemeStore.Store)
    requires s.mounted
    ensures var after := ThemeStore.Run(s, [View(s.mode).onClick]);
      && View(s.mode).title == "Switch to " + after.mode + " mode"
      && after.mounted
      && after.storage == s.storage[ThemeStore.ThemeModeKey := after.mode]
  {
  }

  /** On the two palette modes the icon and the tooltip agree: Brightness7
      goes with "Switch to light mode". */
  lemma IconMatchesTooltip(mode: string)
    requires Theme.IsPaletteMode(mode)
    ensures IconFor(mode) == Brightness7 <==> TooltipTitle(mode) == "Switch to light mode"
  {
  }

  /** For a mode outside the two palette modes (an unvalidated saved value)
      they disagree: the tooltip offers "light" but the icon is Brightness4. */
  lemma IconDisagreesOffPalette()
    ensures TooltipTitle("system") == "Switch to light mode"
    ensures IconFor("system") == Brightness4
  {
  }
}
