/** How a subject tag selects a theme, a palette and a renderer branch
    (ImageGeneration.py `generate_character_art`, `generate_weapon`,
    `generate_environment_sketch`, and the branch tests inside the renderers). */
module Routing {
  import opened Strings
  import opened Palettes

  /** `"wizard" in style.lower() or "mage" in style.lower()`: the test that
      picks the wizard theme and makes the character carry a staff. */
  predicate IsMagicStyle(style: string) {
    Contains(Lower(style), "wizard") || Contains(Lower(style), "mage")
  }

  /** The character theme: the first of wizard/mage, elf, dwarf, rogue/thief
      found in the lower-cased style, warrior when none is. */
  function CharacterTheme(style: string): (t: Theme)
    ensures t == Wizard <==> IsMagicStyle(style)
    ensures t == Elf <==> !IsMagicStyle(style) && Contains(Lower(style), "elf")
    ensures t == Dwarf <==>
      !IsMagicStyle(style) && !Contains(Lower(style), "elf") && Contains(Lower(style), "dwarf")
    ensures t == Rogue <==>
      !IsMagicStyle(style) && !Contains(Lower(style), "elf") && !Contains(Lower(style), "dwarf")
      && (Contains(Lower(style), "rogue") || Contains(Lower(style), "thief"))
  {
    var s := Lower(style);
    if Contains(s, "wizard") || Contains(s, "mage") then Wizard
    else if Contains(s, "elf") then Elf
    else if Contains(s, "dwarf") then Dwarf
    else if Contains(s, "rogue") || Contains(s, "thief") then Rogue
    else Warrior
  }

  /** Reference definition: an ordered rule list, each rule a theme and its
      keywords; the first rule with a keyword in the text wins. */
  datatype Rule = Rule(theme: Theme, keywords: seq<string>)

  const CharacterRules: seq<Rule> := [
    Rule(Wizard, ["wizard", "mage"]),
    Rule(Elf, ["elf"]),
    Rule(Dwarf, ["dwarf"]),
    Rule(Rogue, ["rogue", "thief"])
  ]

  predicate AnyKeyword(text: string, keywords: seq<string>) {
    exists k :: 0 <= k < |keywords| && Contains(text, keywords[k])
  }

  function FirstMatch(rules: seq<Rule>, text: string, fallback: Theme): Theme {
    if rules == [] then fallback
    else if AnyKeyword(text, rules[0].keywords) then rules[0].theme
    else FirstMatch(rules[1..], text, fallback)
  }

  /** The if/elif chain is the first-match rule list with Warrior as the fallback. */
  lemma CharacterThemeIsFirstMatch(style: string)
    ensures CharacterTheme(style) == FirstMatch(CharacterRules, Lower(style), Warrior)
  {
    var s := Lower(style);
    assert AnyKeyword(s, ["wizard", "mage"]) <==> Contains(s, "wizard") || Contains(s, "mage") by {
      var kw := ["wizard", "mage"];
      if Contains(s, "wizard") { assert Contains(s, kw[0]); }
      if Contains(s, "mage") { assert Contains(s, kw[1]); }
    }
    assert AnyKeyword(s, ["rogue", "thief"]) <==> Contains(s, "rogue") || Contains(s, "thief") by {
      var kw := ["rogue", "thief"];
      if Contains(s, "rogue") { assert Contains(s, kw[0]); }
      if Contains(s, "thief") { assert Contains(s, kw[1]); }
    }
    assert AnyKeyword(s, ["elf"]) <==> Contains(s, "elf") by {
      var kw := ["elf"];
      if Contains(s, "elf") { assert Contains(s, kw[0]); }
    }
    assert AnyKeyword(s, ["dwarf"]) <==> Contains(s, "dwarf") by {
      var kw := ["dwarf"];
      if Contains(s, "dwarf") { assert Contains(s, kw[0]); }
    }
    var r1 := CharacterRules[1..];
    var r2 := r1[1..];
    var r3 := r2[1..];
    assert r3[1..] == [];
    assert FirstMatch(r3, s, Warrior) == if Contains(s, "rogue") || Contains(s, "thief") then Rogue else Warrior;
    assert FirstMatch(r2, s, Warrior) == if Contains(s, "dwarf") then Dwarf else FirstMatch(r3, s, Warrior);
    assert FirstMatch(r1, s, Warrior) == if Contains(s, "elf") then Elf else FirstMatch(r2, s, Warrior);
  }

  /** Routing ignores case. */
  lemma CharacterThemeCaseInsensitive(style: string)
    ensures CharacterTheme(Lower(style)) == CharacterTheme(style)
  {
    LowerIdempotent(style);
  }

  /** `palette = self._get_fantasy_palette(theme)` with the routed theme name. */
  function CharacterPalette(style: string): (p: Palette)
    ensures p == ThemePalette(CharacterTheme(style))
  {
    GetFantasyPaletteOfName(CharacterTheme(style));
    GetFantasyPalette(ThemeName(CharacterTheme(style)))
  }

  /** Weapons always use `_get_fantasy_palette("warrior")`. */
  function WeaponPalette(): (p: Palette)
    ensures p == ThemePalette(Warrior)
  {
    GetFantasyPaletteOfName(Warrior);
    GetFantasyPalette("warrior")
  }

  datatype EnvironmentKind = Forest | Mountain | Castle | Desert | Cave

  /** `environment.lower()` compared exactly with the four named scenes; every
      other tag is the cave. */
  function EnvironmentKindOf(tag: string): EnvironmentKind {
    var t := Lower(tag);
    if t == "forest" then Forest
    else if t == "mountain" then Mountain
    else if t == "castle" then Castle
    else if t == "desert" then Desert
    else Cave
  }

  /** The palette `generate_environment_sketch` passes to the renderer. */
  function EnvironmentPalette(tag: string): Palette {
    var t := Lower(tag);
    if t == "forest" || t == "mountain" then GetFantasyPalette("elf")
    else if t == "castle" then GetFantasyPalette("warrior")
    else if t == "desert" then GetFantasyPalette("dwarf")
    else GetFantasyPalette("rogue")
  }

  function EnvironmentTheme(kind: EnvironmentKind): Theme {
    match kind
    case Forest => Elf
    case Mountain => Elf
    case Castle => Warrior
    case Desert => Dwarf
    case Cave => Rogue
  }

  /** Forest and mountain take the elf palette, the castle the warrior one,
      the desert the dwarf one, every other tag the rogue one. */
  lemma EnvironmentPaletteByKind(tag: string)
    ensures EnvironmentPalette(tag) == ThemePalette(EnvironmentTheme(EnvironmentKindOf(tag)))
  {
    var t := Lower(tag);
    var theme := EnvironmentTheme(EnvironmentKindOf(tag));
    GetFantasyPaletteOfName(theme);
    if t == "forest" || t == "mountain" {
      assert theme == Elf;
    } else if t == "castle" {
      assert theme == Warrior;
    } else if t == "desert" {
      assert theme == Dwarf;
    } else {
      assert theme == Rogue;
    }
  }

  datatype WeaponKind = Sword | Axe | Bow | Staff | Dagger

  /** `weapon_type.lower()` compared exactly with the four named weapons;
      every other tag is the dagger. */
  function WeaponKindOf(tag: string): WeaponKind {
    var t := Lower(tag);
    if t == "sword" then Sword
    else if t == "axe" then Axe
    else if t == "bow" then Bow
    else if t == "staff" then Staff
    else Dagger
  }

  function WeaponName(k: WeaponKind): string {
    match k
    case Sword => "sword"
    case Axe => "axe"
    case Bow => "bow"
    case Staff => "staff"
    case Dagger => "dagger"
  }

  /** A named weapon is chosen exactly by the tags whose lower case is its
      name; the dagger by every tag that names none of the other four. */
  lemma WeaponKindOfName(k: WeaponKind, tag: string)
    ensures k != Dagger ==> (WeaponKindOf(tag) == k <==> Lower(tag) == WeaponName(k))
    ensures WeaponKindOf(tag) == Dagger <==> Lower(tag) !in ["sword", "axe", "bow", "staff"]
  {
  }

  function EnvironmentName(k: EnvironmentKind): string {
    match k
    case Forest => "forest"
    case Mountain => "mountain"
    case Castle => "castle"
    case Desert => "desert"
    case Cave => "cave"
  }

  /** A named scene is chosen exactly by the tags whose lower case is its
      name; the cave by every tag that names none of the other four. */
  lemma EnvironmentKindOfName(k: EnvironmentKind, tag: string)
    ensures k != Cave ==> (EnvironmentKindOf(tag) == k <==> Lower(tag) == EnvironmentName(k))
    ensures EnvironmentKindOf(tag) == Cave <==> Lower(tag) !in ["forest", "mountain", "castle", "desert"]
  {
  }
}
