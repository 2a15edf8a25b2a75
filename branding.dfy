/**
 * The white-label theme state of src/app/context/BrandingContext.tsx: a theme
 * name and the bank configuration in force, switched between three presets
 * or edited field by field into a custom theme.
 */
module Branding {
  import opened Wrappers

  datatype BankTheme = Hdfc | Icici | Axis | Custom

  /** The three themes `DEFAULT_CONFIGS` has an entry for. */
  type PresetTheme = t: BankTheme | !t.Custom? witness Hdfc

  datatype HeaderSize = Regular | Large
  datatype InputStyle = Filled | Outline
  datatype StylePreset = Glassy | Neobrutalist | Minimal

  datatype Modules = Modules(showBenefits: bool, showSecurity: bool, headerSize: HeaderSize, inputStyle: InputStyle)

  datatype BankConfig = BankConfig(
    name: string,
    primary: string,
    secondary: string,
    accent: string,
    logo: string,
    borderRadius: int,
    fontFamily: string,
    glassOpacity: real,
    modules: Modules,
    preset: StylePreset)

  /** `DEFAULT_CONFIGS` (lines 25-77). */
  function DefaultConfig(t: PresetTheme): BankConfig {
    match t
    case Hdfc =>
      BankConfig("HDFC Bank", "#004C8F", "#ED232A", "#f5f5f5", "hdfc", 8, "Open Sans", 0.4,
                 Modules(true, true, Large, Filled), Glassy)
    case Icici =>
      BankConfig("ICICI Bank", "#f27121", "#9b1c1c", "#fffaf0", "I", 24, "Open Sans", 0.5,
                 Modules(true, true, Regular, Filled), Minimal)
    case Axis =>
      BankConfig("Axis Bank", "#971237", "#f5f5f5", "#fff5f7", "A", 12, "Open Sans", 0.3,
                 Modules(false, true, Regular, Filled), Glassy)
  }

  /** The three presets are told apart by their configurations. */
  lemma DefaultConfigsDistinct(a: PresetTheme, b: PresetTheme)
    ensures DefaultConfig(a) == DefaultConfig(b) <==> a == b
  {
  }

  /** `Partial<BankConfig>`: the members an update supplies. */
  datatype ConfigUpdate = ConfigUpdate(
    name: Option<string>,
    primary: Option<string>,
    secondary: Option<string>,
    accent: Option<string>,
    logo: Option<string>,
    borderRadius: Option<int>,
    fontFamily: Option<string>,
    glassOpacity: Option<real>,
    modules: Option<Modules>,
    preset: Option<StylePreset>)

  /** The update that supplies nothing. */
  function NoChange(): ConfigUpdate {
    ConfigUpdate(None, None, None, None, None, None, None, None, None, None)
  }

  /**
   * `{ ...prev, ...updates }` (line 102): every member the update supplies
   * replaces the old one, `modules` included as a whole, and every other
   * member is kept.
   */
  function Apply(prev: BankConfig, u: ConfigUpdate): (r: BankConfig)
    ensures r.name == u.name.GetOr(prev.name) && r.primary == u.primary.GetOr(prev.primary)
    ensures r.secondary == u.secondary.GetOr(prev.secondary) && r.accent == u.accent.GetOr(prev.accent)
    ensures r.logo == u.logo.GetOr(prev.logo) && r.borderRadius == u.borderRadius.GetOr(prev.borderRadius)
    ensures r.fontFamily == u.fontFamily.GetOr(prev.fontFamily)
    ensures r.glassOpacity == u.glassOpacity.GetOr(prev.glassOpacity)
    ensures r.modules == u.modules.GetOr(prev.modules) && r.preset == u.preset.GetOr(prev.preset)
  {
    BankConfig(
      u.name.GetOr(prev.name),
      u.primary.GetOr(prev.primary),
      u.secondary.GetOr(prev.secondary),
      u.accent.GetOr(prev.accent),
      u.logo.GetOr(prev.logo),
      u.borderRadius.GetOr(prev.borderRadius),
      u.fontFamily.GetOr(prev.fontFamily),
      u.glassOpacity.GetOr(prev.glassOpacity),
      u.modules.GetOr(prev.modules),
      u.preset.GetOr(prev.preset))
  }

  /** An update that supplies nothing leaves the configuration as it was. */
  lemma ApplyNothing(prev: BankConfig)
    ensures Apply(prev, NoChange()) == prev
  {
  }

  /** Applying the same update twice is applying it once. */
  lemma ApplyIdempotent(prev: BankConfig, u: ConfigUpdate)
    ensures Apply(Apply(prev, u), u) == Apply(prev, u)
  {
  }

  /** `themes` in `toggleTheme` (line 106). */
  function Presets(): seq<PresetTheme> {
    [Hdfc, Icici, Axis]
  }

  /** `themes.indexOf(theme)`: -1 for the custom theme. */
  function PresetIndex(t: BankTheme): (r: int)
    ensures -1 <= r < |Presets()|
    ensures r == -1 <==> t == Custom
    ensures r >= 0 ==> Presets()[r] == t
  {
    match t
    case Hdfc => 0
    case Icici => 1
    case Axis => 2
    case Custom => -1
  }

  /** The theme `toggleTheme` moves to (lines 105-110): the next preset in the cycle, hdfc after custom. */
  function NextPreset(t: BankTheme): (r: PresetTheme)
    ensures t == Custom ==> r == Hdfc
    ensures t != Custom ==> PresetIndex(r) == (PresetIndex(t) + 1) % 3
  {
    Presets()[(PresetIndex(t) + 1) % |Presets()|]
  }

  /** Three toggles from a preset come back to it; the toggle never yields custom. */
  lemma ToggleCycle(t: PresetTheme)
    ensures NextPreset(NextPreset(NextPreset(t))) == t
    ensures NextPreset(t) != t
  {
  }

  /** The provider's state. */
  class Provider {
    var theme: BankTheme
    var config: BankConfig

    /** Lines 90-91: the hdfc theme with its preset configuration. */
    constructor ()
      ensures theme == Hdfc && config == DefaultConfig(Hdfc)
    {
      theme := Hdfc;
      config := DefaultConfig(Hdfc);
    }

    /** A preset theme shows its own configuration. */
    predicate ShowsPreset()
      reads this
    {
      theme != Custom && config == DefaultConfig(theme)
    }

    /**
     * `setTheme` (lines 93-98): a preset brings its configuration; the custom
     * theme keeps the configuration in force.
     */
    method SetTheme(t: BankTheme)
      modifies this
      ensures theme == t
      ensures t != Custom ==> config == DefaultConfig(t) && ShowsPreset()
      ensures t == Custom ==> config == old(config)
    {
      theme := t;
      if t != Custom {
        config := DefaultConfig(t);
      }
    }

    /** `updateConfig` (lines 100-103): the theme becomes custom and the update is merged in. */
    method UpdateConfig(u: ConfigUpdate)
      modifies this
      ensures theme == Custom && config == Apply(old(config), u)
    {
      theme := Custom;
      config := Apply(config, u);
    }

    /** `toggleTheme` (lines 105-110): the next preset, with its configuration. */
    method ToggleTheme()
      modifies this
      ensures theme == NextPreset(old(theme)) && ShowsPreset()
    {
      var themes := Presets();
      var currentIndex := PresetIndex(theme);
      var nextIndex := (currentIndex + 1) % |themes|;
      SetTheme(themes[nextIndex]);
    }
  }
}
