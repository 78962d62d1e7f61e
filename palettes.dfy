/** The palette registry: five fantasy themes, each bound to three colour
    buckets, looked up by lower-cased name with the warrior palette as the
    fallback (ImageGeneration.py `_get_fantasy_palette`). */
module Palettes {
  import opened Colors
  import opened Strings

  datatype Palette = Palette(primary: seq<Rgb>, secondary: seq<Rgb>, accent: seq<Rgb>) {
    /** What the renderers need so that every `random.choice` they make,
        including those on `primary[2:]` and `primary[:2]`, has a bucket to
        draw from. */
    predicate Usable() {
      |primary| > 2 && |secondary| > 0 && |accent| > 0
    }

    predicate Valid() {
      (forall c :: c in primary ==> c.Valid())
      && (forall c :: c in secondary ==> c.Valid())
      && (forall c :: c in accent ==> c.Valid())
    }
  }

  datatype Theme = Warrior | Wizard | Elf | Dwarf | Rogue

  /** The dictionary key of each theme. */
  function ThemeName(t: Theme): string {
    match t
    case Warrior => "warrior"
    case Wizard => "wizard"
    case Elf => "elf"
    case Dwarf => "dwarf"
    case Rogue => "rogue"
  }

  const WarriorPalette := Palette(
    [Rgb(139, 69, 19), Rgb(255, 215, 0), Rgb(128, 128, 128), Rgb(0, 0, 0)],
    [Rgb(178, 34, 34), Rgb(184, 134, 11), Rgb(105, 105, 105)],
    [Rgb(255, 0, 0), Rgb(0, 100, 0), Rgb(0, 0, 139)])
  const WizardPalette := Palette(
    [Rgb(75, 0, 130), Rgb(255, 255, 255), Rgb(138, 43, 226), Rgb(25, 25, 112)],
    [Rgb(148, 0, 211), Rgb(255, 20, 147), Rgb(0, 191, 255)],
    [Rgb(255, 215, 0), Rgb(50, 205, 50), Rgb(220, 20, 60)])
  const ElfPalette := Palette(
    [Rgb(34, 139, 34), Rgb(255, 255, 255), Rgb(139, 69, 19), Rgb(0, 100, 0)],
    [Rgb(50, 205, 50), Rgb(107, 142, 35), Rgb(184, 134, 11)],
    [Rgb(255, 215, 0), Rgb(0, 191, 255), Rgb(255, 20, 147)])
  const DwarfPalette := Palette(
    [Rgb(139, 69, 19), Rgb(255, 215, 0), Rgb(105, 105, 105), Rgb(47, 79, 79)],
    [Rgb(160, 82, 45), Rgb(184, 134, 11), Rgb(112, 128, 144)],
    [Rgb(255, 0, 0), Rgb(0, 100, 0), Rgb(70, 130, 180)])
  const RoguePalette := Palette(
    [Rgb(0, 0, 0), Rgb(128, 128, 128), Rgb(169, 169, 169), Rgb(105, 105, 105)],
    [Rgb(47, 79, 79), Rgb(112, 128, 144), Rgb(119, 136, 153)],
    [Rgb(255, 215, 0), Rgb(255, 0, 0), Rgb(0, 191, 255)])

  /** The `palettes` dictionary, keyed by theme name. */
  const Registry: map<string, Palette> := map[
    "warrior" := WarriorPalette,
    "wizard" := WizardPalette,
    "elf" := ElfPalette,
    "dwarf" := DwarfPalette,
    "rogue" := RoguePalette
  ]

  /** Every colour of the registry is a byte triple, palette by palette. */
  lemma PalettesValid()
    ensures WarriorPalette.Valid() && WizardPalette.Valid() && ElfPalette.Valid()
    ensures DwarfPalette.Valid() && RoguePalette.Valid()
  {
    BucketsValid(WarriorPalette);
    BucketsValid(WizardPalette);
    BucketsValid(ElfPalette);
    BucketsValid(DwarfPalette);
    BucketsValid(RoguePalette);
  }

  /** A palette is valid once each of its buckets, read entry by entry, is. */
  lemma BucketsValid(p: Palette)
    requires forall i :: 0 <= i < |p.primary| ==> p.primary[i].Valid()
    requires forall i :: 0 <= i < |p.secondary| ==> p.secondary[i].Valid()
    requires forall i :: 0 <= i < |p.accent| ==> p.accent[i].Valid()
    ensures p.Valid()
  {
  }

  /** The palette bound to a theme: four primary, three secondary and three
      accent colours, all of them bytes. */
  function ThemePalette(t: Theme): (p: Palette)
    ensures p == Registry[ThemeName(t)]
    ensures |p.primary| == 4 && |p.secondary| == 3 && |p.accent| == 3
    ensures p.Usable() && p.Valid()
  {
    PalettesValid();
    match t
    case Warrior => WarriorPalette
    case Wizard => WizardPalette
    case Elf => ElfPalette
    case Dwarf => DwarfPalette
    case Rogue => RoguePalette
  }

  /** `_get_fantasy_palette(theme)`: `palettes.get(theme.lower(), palettes["warrior"])`. */
  function GetFantasyPalette(theme: string): (p: Palette)
    ensures p.Usable() && p.Valid()
  {
    var key := Lower(theme);
    RegistryEntriesUsable(key);
    RegistryEntriesUsable("warrior");
    if key in Registry then Registry[key] else Registry["warrior"]
  }

  /** Every palette stored in the registry is usable and valid. */
  lemma RegistryEntriesUsable(key: string)
    ensures key in Registry ==> Registry[key].Usable() && Registry[key].Valid()
  {
    if key in Registry {
      PalettesValid();
      assert key == "warrior" || key == "wizard" || key == "elf" || key == "dwarf" || key == "rogue";
    }
  }

  /** Reference routing: the theme whose name equals the lower-cased tag,
      Warrior for every other tag. */
  function ParseTheme(tag: string): Theme {
    var key := Lower(tag);
    if key == "wizard" then Wizard
    else if key == "elf" then Elf
    else if key == "dwarf" then Dwarf
    else if key == "rogue" then Rogue
    else Warrior
  }

  /** The dictionary lookup agrees with the reference routing. */
  lemma GetFantasyPaletteByTheme(tag: string)
    ensures GetFantasyPalette(tag) == ThemePalette(ParseTheme(tag))
  {
  }

  /** The five palettes are pairwise distinct, so a lookup selects exactly one theme. */
  lemma ThemePalettesDistinct(t1: Theme, t2: Theme)
    ensures ThemePalette(t1) == ThemePalette(t2) <==> t1 == t2
  {
  }

  /** Looking up a theme by its own name returns its palette. */
  lemma GetFantasyPaletteOfName(t: Theme)
    ensures GetFantasyPalette(ThemeName(t)) == ThemePalette(t)
  {
    ThemeNameLowerCase(t);
    assert ThemeName(t) in Registry;
  }

  /** Every theme name is written in lower case. */
  lemma ThemeNameLowerCase(t: Theme)
    ensures Lower(ThemeName(t)) == ThemeName(t)
  {
    var name := ThemeName(t);
    assert forall i :: 0 <= i < |name| ==> !IsUpper(name[i]) by {
      match t
      case Warrior =>
      case Wizard =>
      case Elf =>
      case Dwarf =>
      case Rogue =>
    }
    LowerOfLowerCase(name);
  }

  /** The lookup ignores case. */
  lemma GetFantasyPaletteCaseInsensitive(tag: string)
    ensures GetFantasyPalette(Lower(tag)) == GetFantasyPalette(tag)
  {
    LowerIdempotent(tag);
  }
}
