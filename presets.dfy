/**
 * The preset catalogue and the test that marks a preset as the one in use.
 * A preset is current when the text of its configuration equals the text of
 * the current configuration.
 */
module Presets {
  import opened Wrappers
  import opened Config
  import opened Codec
  import opened Text
  import opened ScrollbarRules

  datatype ScrollbarPreset = ScrollbarPreset(
    name: string,
    description: string,
    config: ScrollbarConfig,
    gradient: Option<string>,
    icon: Option<string>)

  /** A preset configuration: every preset leaves `customCSS` out. */
  function PresetConfig(thumb: string, track: string, hover: string, size: nat, radius: nat, visibility: Visibility): ScrollbarConfig {
    ScrollbarConfig(thumb, track, hover, size, size, radius, radius, visibility, None)
  }

  /** `linear-gradient(135deg, <from> 0%, <to> 100%)`. */
  function Gradient(from: string, to: string): string {
    "linear-gradient(135deg, " + from + " 0%, " + to + " 100%)"
  }

  const Catalogue: seq<ScrollbarPreset> := [
    ScrollbarPreset("Default", "Clean and minimal",
      PresetConfig("#94a3b8", "transparent", "#64748b", 8, 4, Auto),
      Some(Gradient("#94a3b8", "#64748b")), Some("\U{1F3A8}")),
    ScrollbarPreset("Dark Mode", "Perfect for dark themes",
      PresetConfig("#374151", "#1f2937", "#4b5563", 8, 5, Auto),
      Some(Gradient("#374151", "#1f2937")), Some("\U{1F319}")),
    ScrollbarPreset("Neon", "Electric and vibrant",
      PresetConfig("#10b981", "#064e3b", "#059669", 8, 6, Auto),
      Some(Gradient("#10b981", "#059669")), Some("\U{26A1}")),
    ScrollbarPreset("Glassmorphism", "Translucent and modern",
      PresetConfig("rgba(255, 255, 255, 0.3)", "rgba(255, 255, 255, 0.1)", "rgba(255, 255, 255, 0.5)", 8, 7, Auto),
      Some(Gradient("rgba(255, 255, 255, 0.3)", "rgba(255, 255, 255, 0.1)")), Some("\U{1F52E}")),
    ScrollbarPreset("Ocean Breeze", "Calm and refreshing",
      PresetConfig("#0ea5e9", "#e0f2fe", "#0284c7", 8, 5, Auto),
      Some(Gradient("#0ea5e9", "#0284c7")), Some("\U{1F30A}")),
    ScrollbarPreset("Cyberpunk", "Futuristic and bold",
      PresetConfig("#f59e0b", "#7c2d12", "#d97706", 8, 2, Auto),
      Some(Gradient("#f59e0b", "#d97706")), Some("\U{1F916}")),
    ScrollbarPreset("Sunset", "Warm and inviting",
      PresetConfig("#f97316", "#fed7aa", "#ea580c", 8, 6, Auto),
      Some(Gradient("#f97316", "#ea580c")), Some("\U{1F305}")),
    ScrollbarPreset("Forest", "Natural and earthy",
      PresetConfig("#16a34a", "#dcfce7", "#15803d", 8, 5, Auto),
      Some(Gradient("#16a34a", "#15803d")), Some("\U{1F332}")),
    ScrollbarPreset("Lavender", "Soft and elegant",
      PresetConfig("#8b5cf6", "#f3e8ff", "#7c3aed", 8, 4, Auto),
      Some(Gradient("#8b5cf6", "#7c3aed")), Some("\U{1F338}")),
    ScrollbarPreset("Invisible", "Minimal and hidden",
      PresetConfig("transparent", "transparent", "rgba(0, 0, 0, 0.1)", 0, 0, Hidden),
      Some(Gradient("transparent", "transparent")), Some("\U{1F47B}"))
  ]

  const InvisibleIndex := 9

  lemma CatalogueSize()
    ensures |Catalogue| == 10
  {
  }

  /** Names are the presets' keys: no two presets share one. */
  lemma NamesDistinct()
    ensures forall i, j :: 0 <= i < j < |Catalogue| ==> Catalogue[i].name != Catalogue[j].name
  {
  }

  /** The `Default` preset is the default configuration. */
  lemma DefaultPresetIsDefault()
    ensures Catalogue[0].name == "Default" && Catalogue[0].config == DefaultConfig
  {
  }

  /** Every preset is square (equal width and height, equal radii), bounded, and carries no `customCSS`. */
  lemma PresetFieldConstraints()
    ensures forall i :: 0 <= i < |Catalogue| ==>
      var c := Catalogue[i].config;
      && c.customCSS.None?
      && c.width == c.height && c.thumbRadius == c.trackRadius
      && c.width <= 30 && c.height <= 30 && c.thumbRadius <= 15 && c.trackRadius <= 15
  {
  }

  /** No preset colour carries a line break. */
  lemma PresetsOnOneLine()
    ensures forall i :: 0 <= i < |Catalogue| ==> ColorsOnOneLine(Catalogue[i].config)
  {
    forall i | 0 <= i < |Catalogue|
      ensures ColorsOnOneLine(Catalogue[i].config)
    {
      PresetOnOneLine(i);
    }
  }

  lemma PresetOnOneLine(i: nat)
    requires i < |Catalogue|
    ensures ColorsOnOneLine(Catalogue[i].config)
  {
    PresetColorsListed(i);
    PresetColorsOnOneLine();
  }

  /** Every colour a preset uses. */
  const PresetColors: set<string> := {
    "#94a3b8", "#64748b", "#374151", "#1f2937", "#4b5563", "#10b981", "#064e3b", "#059669",
    "rgba(255, 255, 255, 0.3)", "rgba(255, 255, 255, 0.1)", "rgba(255, 255, 255, 0.5)",
    "#0ea5e9", "#e0f2fe", "#0284c7", "#f59e0b", "#7c2d12", "#d97706", "#f97316", "#fed7aa", "#ea580c",
    "#16a34a", "#dcfce7", "#15803d", "#8b5cf6", "#f3e8ff", "#7c3aed", "transparent", "rgba(0, 0, 0, 0.1)" }

  lemma PresetColorsListed(i: nat)
    requires i < |Catalogue|
    ensures var c := Catalogue[i].config;
      c.thumbColor in PresetColors && c.trackColor in PresetColors && c.hoverColor in PresetColors
  {
  }

  lemma PresetColorsOnOneLine()
    ensures forall color :: color in PresetColors ==> NoNewline(color)
  {
    forall color | color in PresetColors
      ensures NoNewline(color)
    {
    }
  }

  /** Only `Invisible` hides the scrollbar, with every size zero; every other preset is eight pixels and `auto`. */
  lemma OnlyInvisibleHides()
    ensures Catalogue[InvisibleIndex].name == "Invisible"
    ensures Catalogue[InvisibleIndex].config.visibility == Hidden
    ensures Catalogue[InvisibleIndex].config.width == 0 && Catalogue[InvisibleIndex].config.height == 0
    ensures Catalogue[InvisibleIndex].config.thumbRadius == 0 && Catalogue[InvisibleIndex].config.trackRadius == 0
    ensures forall i :: 0 <= i < |Catalogue| && i != InvisibleIndex ==>
      Catalogue[i].config.visibility == Auto && Catalogue[i].config.width == 8 && Catalogue[i].config.height == 8
  {
  }

  /** No two presets have the same configuration: their thumb colours already differ. */
  lemma ConfigsDistinct()
    ensures forall i, j :: 0 <= i < j < |Catalogue| ==> Catalogue[i].config != Catalogue[j].config
  {
    assert forall i, j :: 0 <= i < j < |Catalogue| ==> Catalogue[i].config.thumbColor != Catalogue[j].config.thumbColor;
  }

  /** `isCurrentPreset(presetConfig)`: the two configurations serialise to the same text. */
  predicate IsCurrentPreset(presetConfig: ScrollbarConfig, current: ScrollbarConfig)
    ensures IsCurrentPreset(presetConfig, current) <==> presetConfig == current
  {
    EncodeInjective(presetConfig, current);
    Encode(presetConfig) == Encode(current)
  }

  /** Comparing the texts is comparing the configurations field by field. */
  lemma IsCurrentPresetIff(presetConfig: ScrollbarConfig, current: ScrollbarConfig)
    ensures IsCurrentPreset(presetConfig, current) <==> forall f :: Get(presetConfig, f) == Get(current, f)
  {
    EncodeInjective(presetConfig, current);
    if forall f :: Get(presetConfig, f) == Get(current, f) {
      ConfigExtensionality(presetConfig, current);
    }
  }

  /** A preset stops being current as soon as any one field of the configuration differs. */
  lemma ChangedFieldNotCurrent(presetConfig: ScrollbarConfig, current: ScrollbarConfig, changed: ScrollbarConfig, f: Field)
    requires IsCurrentPreset(presetConfig, current)
    requires Get(changed, f) != Get(current, f)
    ensures !IsCurrentPreset(presetConfig, changed)
  {
    EncodeInjective(presetConfig, current);
    EncodeInjective(presetConfig, changed);
  }

  /** At most one preset is current at any time. */
  lemma AtMostOneCurrent(current: ScrollbarConfig, i: nat, j: nat)
    requires i < |Catalogue| && j < |Catalogue|
    requires IsCurrentPreset(Catalogue[i].config, current) && IsCurrentPreset(Catalogue[j].config, current)
    ensures i == j
  {
    EncodeInjective(Catalogue[i].config, current);
    EncodeInjective(Catalogue[j].config, current);
    ConfigsDistinct();
  }

  /** A configuration with custom CSS matches no preset. */
  lemma CustomCssMatchesNoPreset(current: ScrollbarConfig, i: nat)
    requires current.customCSS.Some? && i < |Catalogue|
    ensures !IsCurrentPreset(Catalogue[i].config, current)
  {
    PresetFieldConstraints();
    EncodeInjective(Catalogue[i].config, current);
  }
}
