/** The three generators of ImageGeneration.py (`generate_character_art`,
    `generate_weapon`, `generate_environment_sketch`): route the tag to a
    palette, run the renderer on a 512 x 512 canvas, build the gradient
    buffer, run the noise pass with the generator's intensity and name the
    output file. The draws of the noise pass follow the renderer's draws in
    the one shared random source. */
module Pipeline {
  import opened Colors
  import opened Draws
  import opened Shapes
  import opened Palettes
  import opened Routing
  import opened CharacterRenderer
  import opened WeaponRenderer
  import opened EnvironmentRenderer
  import opened PostProcess

  const CanvasSize: nat := 512

  datatype AssetKind = CharacterAsset | WeaponAsset | EnvironmentAsset

  /** The filename prefix of each generator. */
  function KindName(k: AssetKind): string {
    match k
    case CharacterAsset => "character"
    case WeaponAsset => "weapon"
    case EnvironmentAsset => "environment"
  }

  /** The `intensity` each generator passes to `_add_noise`, as a threshold
      on the scaled `random()` draw. */
  function NoiseThreshold(k: AssetKind): int {
    match k
    case CharacterAsset => CharacterNoise
    case WeaponAsset => WeaponNoise
    case EnvironmentAsset => EnvironmentNoise
  }

  /** The dark fantasy sky behind characters. */
  const CharacterSkyTop := Rgb(70, 90, 120)
  const CharacterSkyBottom := Rgb(30, 50, 80)
  /** The dark mystical background behind weapons. */
  const WeaponSkyTop := Rgb(40, 40, 60)
  const WeaponSkyBottom := Rgb(20, 20, 40)

  /** `f"{kind}_{hexdigest[:8]}.png"`, where `digest` is the hex MD5 digest
      of the generator's parameter string. */
  function AssetFilename(k: AssetKind, digest: string): (f: string)
    requires |digest| >= 8
    ensures |f| == |KindName(k)| + 13
    ensures f[..|KindName(k)|] == KindName(k) && f[|KindName(k)|] == '_'
    ensures f[|KindName(k)| + 1..|KindName(k)| + 9] == digest[..8]
    ensures f[|f| - 4..] == ".png"
  {
    var f := KindName(k) + "_" + digest[..8] + ".png";
    assert f[|KindName(k)| + 1..|KindName(k)| + 9] == digest[..8];
    f
  }

  datatype Option<T> = None | Some(value: T)

  datatype ParsedName = ParsedName(kind: AssetKind, tag: string)

  /** Reads a name as `<kind>_<8 characters>.png` for one kind. */
  function ParseAs(k: AssetKind, f: string): Option<ParsedName> {
    var n := |KindName(k)|;
    if |f| == n + 13 && f[..n] == KindName(k) && f[n] == '_' && f[|f| - 4..] == ".png"
    then Some(ParsedName(k, f[n + 1..|f| - 4]))
    else None
  }

  /** Reference reading of an output name: the generator that wrote it and
      the eight digest characters. */
  function ParseAssetFilename(f: string): Option<ParsedName> {
    var c := ParseAs(CharacterAsset, f);
    var w := ParseAs(WeaponAsset, f);
    if c.Some? then c else if w.Some? then w else ParseAs(EnvironmentAsset, f)
  }

  /** An output name gives back its generator and digest prefix. */
  lemma ParseAssetFilenameRoundTrip(k: AssetKind, digest: string)
    requires |digest| >= 8
    ensures ParseAssetFilename(AssetFilename(k, digest)) == Some(ParsedName(k, digest[..8]))
  {
    var f := AssetFilename(k, digest);
    assert f[|KindName(k)| + 1..|f| - 4] == digest[..8];
  }

  /** Two outputs share a name exactly when they come from the same
      generator and their digests share the first eight characters. */
  lemma AssetFilenameInjective(k1: AssetKind, d1: string, k2: AssetKind, d2: string)
    requires |d1| >= 8 && |d2| >= 8
    ensures AssetFilename(k1, d1) == AssetFilename(k2, d2) <==> k1 == k2 && d1[..8] == d2[..8]
  {
    ParseAssetFilenameRoundTrip(k1, d1);
    ParseAssetFilenameRoundTrip(k2, d2);
  }

  /** `generate_character_art(style)` up to the title: the routed palette, the
      character sketch, the sky gradient, the noise pass over the rendered
      picture (`rendered`, the 512 x 512 composite the rasteriser produces)
      and the output name. */
  method GenerateCharacterArt(rng: DrawSource, style: string, rendered: array2<Rgb>, digest: string)
    returns (draw: Sketch, background: array2<Rgb>, filename: string)
    requires |digest| >= 8
    requires rendered.Length0 == CanvasSize && rendered.Length1 == CanvasSize
    modifies rng, rendered
    ensures fresh(draw) && fresh(background)
    ensures var scene := CharacterScene(ThemePalette(CharacterTheme(style)), style, CanvasSize, CanvasSize, old(rng.State()));
      draw.shapes == scene.shapes
      && (forall x, y :: 0 <= x < rendered.Length0 && 0 <= y < rendered.Length1 ==>
            rendered[x, y] == NoisePixel(old(rendered[x, y]),
              NoiseCursor(scene.rest, CharacterNoise, ScanIndex(x, y, rendered.Length1)), CharacterNoise))
      && rng.State() == NoiseCursor(scene.rest, CharacterNoise, ScanIndex(rendered.Length0, 0, rendered.Length1))
    ensures background.Length0 == CanvasSize && background.Length1 == CanvasSize
    ensures forall x, y :: 0 <= x < CanvasSize && 0 <= y < CanvasSize ==>
      background[x, y] == GradientRow(CharacterSkyTop, CharacterSkyBottom, y, CanvasSize)
    ensures filename == AssetFilename(CharacterAsset, digest)
  {
    draw := SketchCharacter(rng, style);
    background := GradientBackground(CharacterSkyTop, CharacterSkyBottom, CanvasSize, CanvasSize);
    AddNoise(rendered, rng, CharacterNoise);
    filename := AssetFilename(CharacterAsset, digest);
  }

  /** `generate_weapon(weapon_type)` up to the title, with the warrior palette. */
  method GenerateWeapon(rng: DrawSource, weaponType: string, rendered: array2<Rgb>, digest: string)
    returns (draw: Sketch, background: array2<Rgb>, filename: string)
    requires |digest| >= 8
    requires rendered.Length0 == CanvasSize && rendered.Length1 == CanvasSize
    modifies rng, rendered
    ensures fresh(draw) && fresh(background)
    ensures var scene := WeaponScene(ThemePalette(Warrior), weaponType, CanvasSize, CanvasSize, old(rng.State()));
      draw.shapes == scene.shapes
      && (forall x, y :: 0 <= x < rendered.Length0 && 0 <= y < rendered.Length1 ==>
            rendered[x, y] == NoisePixel(old(rendered[x, y]),
              NoiseCursor(scene.rest, WeaponNoise, ScanIndex(x, y, rendered.Length1)), WeaponNoise))
      && rng.State() == NoiseCursor(scene.rest, WeaponNoise, ScanIndex(rendered.Length0, 0, rendered.Length1))
    ensures background.Length0 == CanvasSize && background.Length1 == CanvasSize
    ensures forall x, y :: 0 <= x < CanvasSize && 0 <= y < CanvasSize ==>
      background[x, y] == GradientRow(WeaponSkyTop, WeaponSkyBottom, y, CanvasSize)
    ensures filename == AssetFilename(WeaponAsset, digest)
  {
    draw := SketchWeapon(rng, weaponType);
    background := GradientBackground(WeaponSkyTop, WeaponSkyBottom, CanvasSize, CanvasSize);
    AddNoise(rendered, rng, WeaponNoise);
    filename := AssetFilename(WeaponAsset, digest);
  }

  /** `generate_environment_sketch(environment)` up to the title: the scene
      is drawn on a black canvas, with no gradient. */
  method GenerateEnvironmentSketch(rng: DrawSource, environment: string, rendered: array2<Rgb>, digest: string)
    returns (draw: Sketch, filename: string)
    requires |digest| >= 8
    requires rendered.Length0 == CanvasSize && rendered.Length1 == CanvasSize
    modifies rng, rendered
    ensures fresh(draw)
    ensures var scene := EnvironmentScene(ThemePalette(EnvironmentTheme(EnvironmentKindOf(environment))),
                                          environment, CanvasSize, CanvasSize, old(rng.State()));
      draw.shapes == scene.shapes
      && (forall x, y :: 0 <= x < rendered.Length0 && 0 <= y < rendered.Length1 ==>
            rendered[x, y] == NoisePixel(old(rendered[x, y]),
              NoiseCursor(scene.rest, EnvironmentNoise, ScanIndex(x, y, rendered.Length1)), EnvironmentNoise))
      && rng.State() == NoiseCursor(scene.rest, EnvironmentNoise, ScanIndex(rendered.Length0, 0, rendered.Length1))
    ensures filename == AssetFilename(EnvironmentAsset, digest)
  {
    draw := SketchEnvironment(rng, environment);
    AddNoise(rendered, rng, EnvironmentNoise);
    filename := AssetFilename(EnvironmentAsset, digest);
  }

  /** The palette routing and the renderer call of `generate_character_art`,
      on a fresh drawing surface. */
  method SketchCharacter(rng: DrawSource, style: string) returns (draw: Sketch)
    modifies rng
    ensures fresh(draw)
    ensures draw.shapes == CharacterScene(ThemePalette(CharacterTheme(style)), style, CanvasSize, CanvasSize, old(rng.State())).shapes
    ensures rng.State() == CharacterScene(ThemePalette(CharacterTheme(style)), style, CanvasSize, CanvasSize, old(rng.State())).rest
  {
    var palette := CharacterPalette(style);
    draw := new Sketch();
    DrawFantasyCharacter(draw, rng, palette, style, CanvasSize, CanvasSize);
  }

  /** The renderer call of `generate_weapon`, with the warrior palette. */
  method SketchWeapon(rng: DrawSource, weaponType: string) returns (draw: Sketch)
    modifies rng
    ensures fresh(draw)
    ensures draw.shapes == WeaponScene(ThemePalette(Warrior), weaponType, CanvasSize, CanvasSize, old(rng.State())).shapes
    ensures rng.State() == WeaponScene(ThemePalette(Warrior), weaponType, CanvasSize, CanvasSize, old(rng.State())).rest
  {
    var palette := WeaponPalette();
    draw := new Sketch();
    DrawWeapon(draw, rng, palette, weaponType, CanvasSize, CanvasSize);
  }

  /** The palette branch and the renderer call of `generate_environment_sketch`. */
  method SketchEnvironment(rng: DrawSource, environment: string) returns (draw: Sketch)
    modifies rng
    ensures fresh(draw)
    ensures var p := ThemePalette(EnvironmentTheme(EnvironmentKindOf(environment)));
      draw.shapes == EnvironmentScene(p, environment, CanvasSize, CanvasSize, old(rng.State())).shapes
      && rng.State() == EnvironmentScene(p, environment, CanvasSize, CanvasSize, old(rng.State())).rest
  {
    var palette := EnvironmentPalette(environment);
    EnvironmentPaletteByKind(environment);
    draw := new Sketch();
    DrawEnvironment(draw, rng, palette, environment, CanvasSize, CanvasSize);
  }

  /** Every scene fits the 512-pixel canvas, so no generator call can hit an
      empty `randint` range. */
  lemma CanvasFitsEveryScene(k: EnvironmentKind)
    ensures SceneFits(k, CanvasSize, CanvasSize)
    ensures SceneFits(k, 200, 200)
    ensures !SceneFits(Cave, 199, CanvasSize) && !SceneFits(Forest, 99, CanvasSize)
  {
  }
}
