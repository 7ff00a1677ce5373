/** The MUI theme options of apps/web/components/theme.ts, as plain records.
    `createTheme` belongs to MUI and is not modelled: a theme here IS the
    option record that the source hands to `createTheme`. */
module Theme {

  /** A heading or body text style: a CSS font size and, for headings, a weight. */
  datatype TextStyle = TextStyle(fontSize: string, fontWeight: int)

  datatype Typography = Typography(
    fontFamily: string,
    h1: TextStyle, h2: TextStyle, h3: TextStyle,
    h4: TextStyle, h5: TextStyle, h6: TextStyle,
    body1Size: string)

  datatype Shape = Shape(borderRadius: int)

  datatype ButtonRoot = ButtonRoot(textTransform: string, fontWeight: int)
  datatype CardRoot = CardRoot(boxShadow: string)

  /** `components.MuiButton.styleOverrides.root` and `components.MuiCard.styleOverrides.root`. */
  datatype Components = Components(muiButton: ButtonRoot, muiCard: CardRoot)

  /** The object `getCommonTheme` returns: it has exactly the keys
      typography, shape and components, and no palette key. */
  datatype CommonOptions = CommonOptions(typography: Typography, shape: Shape, components: Components)

  datatype ColorSet = ColorSet(main: string, light: string, dark: string)
  datatype Background = Background(default: string, paper: string)
  datatype TextColors = TextColors(primary: string, secondary: string)

  datatype Palette = Palette(
    mode: string,
    primary: ColorSet,
    secondary: ColorSet,
    background: Background,
    text: TextColors)

  /** The literal passed to `createTheme`: an inline palette followed by
      the spread of the common options. */
  datatype ThemeOptions = ThemeOptions(
    palette: Palette,
    typography: Typography,
    shape: Shape,
    components: Components)

  const LightShadow := "0 2px 8px rgba(0,0,0,0.1)"
  const DarkShadow := "0 2px 8px rgba(0,0,0,0.3)"

  /** `{ palette, ...common }`: the spread copies the three keys of the
      common part; since it has no palette key, the inline palette survives. */
  function Spread(palette: Palette, common: CommonOptions): (t: ThemeOptions)
    ensures t.palette == palette
    ensures t.typography == common.typography
    ensures t.shape == common.shape
    ensures t.components == common.components
  {
    ThemeOptions(palette, common.typography, common.shape, common.components)
  }

  /** `getCommonTheme(mode)`: fixed typography, shape and button overrides,
      and a card shadow that is lighter only for the mode "light". */
  function CommonTheme(mode: string): (c: CommonOptions)
    ensures c.shape.borderRadius == 8
    ensures c.components.muiButton == ButtonRoot("none", 500)
    ensures c.components.muiCard.boxShadow == (if mode == "light" then LightShadow else DarkShadow)
  {
    CommonOptions(
      Typography(
        "\"Roboto\", \"Helvetica\", \"Arial\", sans-serif",
        TextStyle("2.5rem", 600), TextStyle("2rem", 600), TextStyle("1.75rem", 600),
        TextStyle("1.5rem", 600), TextStyle("1.25rem", 600), TextStyle("1rem", 600),
        "1rem"),
      Shape(8),
      Components(ButtonRoot("none", 500), CardRoot(if mode == "light" then LightShadow else DarkShadow)))
  }

  const LightPalette := Palette(
    "light",
    ColorSet("#1976d2", "#42a5f5", "#1565c0"),
    ColorSet("#dc004e", "#f73378", "#9a0036"),
    Background("#fafafa", "#ffffff"),
    TextColors("#000000", "#666666"))

  const DarkPalette := Palette(
    "dark",
    ColorSet("#90caf9", "#b3d9fc", "#648dae"),
    ColorSet("#f48fb1", "#f6a5c1", "#aa647b"),
    Background("#121212", "#1e1e1e"),
    TextColors("#ffffff", "#b0b0b0"))

  /** `lightTheme` */
  function LightTheme(): (t: ThemeOptions)
    ensures t.palette.mode == "light"
    ensures t.palette.background == Background("#fafafa", "#ffffff")
    ensures t.components.muiCard.boxShadow == LightShadow
  {
    Spread(LightPalette, CommonTheme("light"))
  }

  /** `darkTheme` */
  function DarkTheme(): (t: ThemeOptions)
    ensures t.palette.mode == "dark"
    ensures t.palette.background == Background("#121212", "#1e1e1e")
    ensures t.components.muiCard.boxShadow == DarkShadow
  {
    Spread(DarkPalette, CommonTheme("dark"))
  }

  /** `getTheme(mode)`: the light theme for "light", the dark theme for
      every other string. */
  function GetTheme(mode: string): (t: ThemeOptions)
    ensures t.palette.mode == (if mode == "light" then "light" else "dark")
    ensures t.palette.background.default == (if mode == "light" then "#fafafa" else "#121212")
    ensures t.typography == CommonTheme(mode).typography
    ensures t.shape.borderRadius == 8
  {
    if mode == "light" then LightTheme() else DarkTheme()
  }

  /** A valid palette mode: the two values of MUI's `PaletteMode`. */
  predicate IsPaletteMode(mode: string) {
    mode == "light" || mode == "dark"
  }

  /** On the two palette modes the resolved theme reports the mode it was asked for. */
  lemma GetThemeReportsMode(mode: string)
    requires IsPaletteMode(mode)
    ensures GetTheme(mode).palette.mode == mode
  {
  }

  /** `getTheme` is a two-way lookup: "light" gives `lightTheme`, any other string `darkTheme`. */
  lemma GetThemeLookup(mode: string)
    ensures mode == "light" ==> GetTheme(mode) == LightTheme()
    ensures mode != "light" ==> GetTheme(mode) == DarkTheme()
  {
  }

  /** Everything but the card shadow is shared by the common parts of any two modes. */
  lemma CommonPartsDifferOnlyInShadow(m1: string, m2: string)
    ensures CommonTheme(m1).typography == CommonTheme(m2).typography
    ensures CommonTheme(m1).shape == CommonTheme(m2).shape
    ensures CommonTheme(m1).components.muiButton == CommonTheme(m2).components.muiButton
    ensures CommonTheme(m1) == CommonTheme(m2) <==> ((m1 == "light") == (m2 == "light"))
  {
  }

  /** The two themes share typography, shape and the button override, and
      are nonetheless distinct (palette, background, card shadow). */
  lemma ThemesShareCommonParts()
    ensures LightTheme().typography == DarkTheme().typography
    ensures LightTheme().shape == DarkTheme().shape
    ensures LightTheme().components.muiButton == DarkTheme().components.muiButton
    ensures LightTheme() != DarkTheme()
    ensures LightTheme().palette.background.default != DarkTheme().palette.background.default
  {
  }

  /** Each theme's palette is exactly the one written inline: the spread of
      the common options never replaces it. */
  lemma PaletteIsInline()
    ensures LightTheme().palette == LightPalette
    ensures DarkTheme().palette == DarkPalette
  {
  }
}
