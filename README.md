# Fantasy asset generator: procedural drawing and text heuristics

This project models the deterministic core of a small fantasy game-asset
generator in Dafny.

The first part, `ImageGeneration.py`, covers:

- the palette registry (five themes, three colour buckets each);
- how a character style, a weapon type or an environment name selects a
  theme, a palette and a renderer branch;
- the three renderers (character, weapon, environment), modelled as
  emitters of ordered drawing commands;
- the noise pass over an RGB buffer, with per-channel clamping;
- the per-row colour of the vertical gradient;
- the output filename of each generator.

The second part, `TextGenration.py`, covers the prompt stripping and return
selection of `generate_text`, and the four heuristic assessors of
`ExperimentRunner`.

All randomness comes from an explicit draw source:

- `Draws.Stream` is a value: a sequence of raw draws and a position in it.
- `Draws.DrawSource` is the stateful generator object; every call advances
  its cursor by one draw.
- `randint(lo, hi)` yields a value in `[lo, hi]` (both ends included).
- `choice(bucket)` yields the entry at an index drawn in `[0, |bucket|)`.
- `random()` yields an integer `u` in `[0, 2^53)`. The test
  `random() < intensity` becomes `u < ceil(intensity * 2^53)`; that integer
  threshold is exact for the three intensities used (0.05, 0.03, 0.02).

Each renderer is written twice:

- a specification function. It maps the draw stream to `Emitted(shapes,
  rest)`: the commands drawn, and the stream position after the last draw.
- an imperative method. It appends to a `Shapes.Sketch` (the `ImageDraw`
  object) and advances a `DrawSource`. It is proved to append exactly the
  function's commands and to leave the source at the function's `rest`.

Lemmas on the functions state what the source promises: counts, colour
buckets, coordinate ranges, draw counts and routing.

Modules, one per file:

- `colors.dfy` (`Colors`): colours, the clamp and the gradient row.
- `draws.dfy` (`Draws`): the draw source.
- `shapes.dfy` (`Shapes`): the drawing commands.
- `strings.dfy` (`Strings`): the Python string operations used.
- `palettes.dfy` (`Palettes`): the palette registry.
- `routing.dfy` (`Routing`): theme, palette and branch routing.
- `character.dfy` (`CharacterRenderer`): the character renderer.
- `weapon.dfy` (`WeaponRenderer`): the weapon renderer.
- `environment.dfy` (`EnvironmentRenderer`): the environment renderer.
- `postprocess.dfy` (`PostProcess`): the noise pass and the gradient buffer.
- `pipeline.dfy` (`Pipeline`): the three generators.
- `text_quality.dfy` (`TextQuality`): the text heuristics.

## Model

| member | source | states |
|---|---|---|
| Colors.Clamp | ImageGeneration.py:74-76 | `max(0, min(255, v))` lies in [0, 255]; it is the identity on bytes, 0 below and 255 above. |
| Colors.TruncDiv | ImageGeneration.py:89 | Python's `int()` of an exact quotient rounds toward zero: the quotient brackets `n` from below for non-negative `n`, and from above for negative `n`. |
| Colors.LerpFirstRow | ImageGeneration.py:86-91 | Row 0 of the interpolation is the top channel exactly. |
| Colors.LerpBetween | ImageGeneration.py:86-91 | Every row's channel lies between the two endpoint channels. |
| Colors.LerpLastRow | ImageGeneration.py:86-91 | When the endpoints differ by less than the height, the last row is within one unit of the bottom channel. It is exact when the channel does not rise. |
| Colors.GradientFirstRow | ImageGeneration.py:84-91 | Row 0 of the gradient equals `colors[0]`. |
| Colors.GradientRowBetween | ImageGeneration.py:86-91 | Each channel of every row lies between the endpoint channels, so every row is a valid colour. |
| Colors.GradientLastRow | ImageGeneration.py:86-91 | With 256 rows or more, the last row is within one unit of `colors[1]` on every channel. |
| Draws.Stream.RandInt | ImageGeneration.py:73 | `random.randint(lo, hi)` returns a value in `[lo, hi]`. |
| Draws.Stream.Choice | ImageGeneration.py:105 | `random.choice(bucket)` returns an entry of the bucket. |
| Draws.Stream.Random | ImageGeneration.py:71 | `random.random()`, scaled by 2^53, lies in `[0, 2^53)`. |
| Draws.RandIntReachesAll | ImageGeneration.py:73 | Every value in `[lo, hi]`, both ends included, is the result of some draw. |
| Draws.ChoiceReachesAll | ImageGeneration.py:105 | Every entry of a bucket is the result of some draw. |
| Draws.DrawSource.constructor | ImageGeneration.py:415-416 | Seeding positions a fresh source at the first draw of its sequence. |
| Draws.DrawSource.RandInt | ImageGeneration.py:73 | Returns the stream's `randint` value and consumes one draw. |
| Draws.DrawSource.Choice | ImageGeneration.py:105 | Returns the stream's `choice` value and consumes one draw. |
| Draws.DrawSource.Random | ImageGeneration.py:71 | Returns the stream's `random` value and consumes one draw. |
| Shapes.Sketch.constructor | ImageGeneration.py:435-436 | A new drawing surface has issued no command. |
| Shapes.Sketch.Draw | ImageGeneration.py:106 | A draw call appends exactly one command and changes nothing else. |
| Strings.Lower | ImageGeneration.py:62 | `s.lower()` keeps the length and lower-cases each character. |
| Strings.LowerIdempotent | ImageGeneration.py:62 | Lower-casing twice is lower-casing once. |
| Strings.ContainsIffOccurs | TextGenration.py:286 | The substring test `pat in s` holds exactly when `pat` occurs at some position of `s`. |
| Strings.TrimStart | TextGenration.py:92 | `lstrip()` returns the suffix after a run of whitespace; the suffix is empty or starts with a non-space. |
| Strings.TrimEnd | TextGenration.py:92 | `rstrip()` returns the prefix before a run of whitespace; the prefix is empty or ends with a non-space. |
| Strings.Strip | TextGenration.py:92 | `strip()` returns a window of `s` with only whitespace on both sides, and no whitespace at either end. |
| Strings.StripIdempotent | TextGenration.py:92 | Stripping twice is stripping once. |
| Strings.TokenLength | TextGenration.py:295 | The leading word ends at the first whitespace or at the end of the text. |
| Strings.Split | TextGenration.py:295 | Every entry of `split()` is a non-empty word free of whitespace; the four lemmas below fix which words, on every input. |
| Strings.SplitEmptyIffSpace | TextGenration.py:295 | `split()` gives no word exactly when the text is all whitespace. |
| Strings.SplitAfterSpace | TextGenration.py:295 | Leading whitespace of any kind and length adds no word. |
| Strings.SplitTokenThenSpaces | TextGenration.py:295 | A word followed by any non-empty run of whitespace is the first word, and the split goes on with what follows the run. |
| Strings.SplitSingleToken | TextGenration.py:295 | A text that is one word splits into that word. |
| Strings.SplitJoin | TextGenration.py:295 | Splitting a space-joined list of words gives the words back, so `len(text.split())` counts them. |
| Palettes.PalettesValid | ImageGeneration.py:35-61 | Every colour of the five palettes is a byte triple. |
| Palettes.ThemePalette | ImageGeneration.py:35-61 | Each theme's palette is its registry entry, with 4 primary, 3 secondary and 3 accent colours. So `primary[2:]` and `primary[:2]` are non-empty, and every colour is valid. |
| Palettes.GetFantasyPalette | ImageGeneration.py:62 | The lookup always returns a palette on which every renderer's `random.choice` is defined. |
| Palettes.RegistryEntriesUsable | ImageGeneration.py:35-61 | Every palette stored under a key of the registry is usable and valid. |
| Palettes.GetFantasyPaletteByTheme | ImageGeneration.py:33-62 | The lookup returns the palette of the theme whose name equals the lower-cased tag; every other tag gets warrior. |
| Palettes.ThemePalettesDistinct | ImageGeneration.py:35-61 | The five palettes are pairwise distinct, so a lookup selects exactly one theme. |
| Palettes.GetFantasyPaletteOfName | ImageGeneration.py:62 | Looking up a theme by its own name returns that theme's palette. |
| Palettes.ThemeNameLowerCase | ImageGeneration.py:36-56 | Every registry key is in lower case. |
| Palettes.GetFantasyPaletteCaseInsensitive | ImageGeneration.py:62 | The lookup ignores the case of the tag. |
| Routing.CharacterTheme | ImageGeneration.py:421-430 | Wizard exactly when the lower-cased style contains "wizard" or "mage". Otherwise elf on "elf", then dwarf on "dwarf", then rogue on "rogue" or "thief". Otherwise warrior. Each case is an if-and-only-if. |
| Routing.CharacterThemeIsFirstMatch | ImageGeneration.py:421-430 | The if/elif chain equals the first matching rule of an ordered keyword list, with warrior as the fallback. |
| Routing.CharacterThemeCaseInsensitive | ImageGeneration.py:421-430 | Routing ignores case. |
| Routing.CharacterPalette | ImageGeneration.py:432 | The character palette is the registry palette of the routed theme. |
| Routing.WeaponPalette | ImageGeneration.py:499 | Weapons always use the warrior palette. |
| Routing.EnvironmentPaletteByKind | ImageGeneration.py:554-561 | Forest and mountain use the elf palette, castle warrior and desert dwarf; every other tag uses rogue. |
| Routing.WeaponKindOfName | ImageGeneration.py:163-233 | Sword, axe, bow and staff are chosen exactly by tags whose lower case is their name. Every other tag is a dagger. |
| Routing.EnvironmentKindOfName | ImageGeneration.py:259-371 | Forest, mountain, castle and desert are chosen exactly by tags whose lower case is their name. Every other tag is a cave. |
| CharacterRenderer.DecorationDotsWithin | ImageGeneration.py:152-157 | Each decoration dot has its corner in `[0, width] x [0, height]`, side 2 to 6 and an accent colour. |
| CharacterRenderer.FigureLayout | ImageGeneration.py:105-149 | The figure has nine commands; the breakdown is in the next row. |
| CharacterRenderer.CharacterLayout | ImageGeneration.py:100-157 | 24 commands: body and head in primary colours; both eyes in one accent colour; both shoulder pads and the belt in one secondary colour. A staff (ending in an ellipse crystal) is drawn exactly when the style names a wizard or mage, otherwise a sword. Then 15 dots on the canvas. It consumes 66 draws with a staff and 65 otherwise. |
| CharacterRenderer.DotsFollowFigure | ImageGeneration.py:152-157 | The dots keep their bounds and colours when placed after the nine figure commands. |
| CharacterRenderer.DrawFantasyCharacter | ImageGeneration.py:100-157 | Appends exactly the character scene's commands and leaves the source after its draws. |
| CharacterRenderer.DrawFigure | ImageGeneration.py:102-149 | Appends the figure and consumes 6 draws for a staff, 5 for a sword. |
| CharacterRenderer.DrawTorso | ImageGeneration.py:105-131 | Appends body, head, eyes, pads and belt, and consumes 4 draws. |
| CharacterRenderer.DrawFace | ImageGeneration.py:105-119 | Appends body, head and both eyes, and consumes 3 draws. |
| CharacterRenderer.DrawArmour | ImageGeneration.py:122-131 | Appends the pads and the belt in one colour, and consumes 1 draw. |
| CharacterRenderer.DrawHeldWeapon | ImageGeneration.py:134-149 | Appends the staff or the sword, and consumes 2 or 1 draws. |
| CharacterRenderer.DrawDecorations | ImageGeneration.py:152-157 | Appends the 15 decoration dots and consumes 60 draws. |
| CharacterRenderer.DrawDecoration | ImageGeneration.py:153-157 | Draws x, y, colour and size in that order, and appends one dot. |
| WeaponRenderer.GlowDotsWithin | ImageGeneration.py:251-255 | Every glow dot has the shared colour, its corner within 50 pixels of the centre on both axes, and side 1 to 3. |
| WeaponRenderer.BowCurveShape | ImageGeneration.py:206-209 | Segment `k` of the bow is a width-3 line in the bow colour. It starts at offset `-20 + 2k` and ends at most 4 pixels below the centre line. |
| WeaponRenderer.BowSegmentShape | ImageGeneration.py:206-209 | One segment for offset `i` in `range(-20, 21, 2)` has that shape. |
| WeaponRenderer.StaffRingsShape | ImageGeneration.py:228-231 | The staff rings are one ellipse per offset, in one colour, centred on the shaft. |
| WeaponRenderer.WeaponLayout | ImageGeneration.py:159-255 | The routed weapon's body comes first, then exactly ten glow dots. The dots share one accent colour, lie within 50 pixels of the centre and have side 1 to 3. It consumes the body's draws plus 31. |
| WeaponRenderer.BodyShapeCount | ImageGeneration.py:163-247 | Sword 4, axe 3, bow 22, staff 5 and dagger 3 commands. |
| WeaponRenderer.BowLayout | ImageGeneration.py:202-214 | The bow is 21 curve lines of width 3 in one colour, then a width-2 string in a secondary colour. |
| WeaponRenderer.UnknownWeaponIsDagger | ImageGeneration.py:233-247 | A tag other than sword, axe, bow or staff draws exactly what "dagger" draws. |
| WeaponRenderer.SameKindSameScene | ImageGeneration.py:163-255 | The scene depends on the tag only through the weapon it names. |
| WeaponRenderer.DrawWeapon | ImageGeneration.py:159-255 | Appends exactly the weapon scene's commands and leaves the source after its draws. |
| WeaponRenderer.DrawWeaponBody | ImageGeneration.py:163-247 | Appends the body of the weapon the tag names. |
| WeaponRenderer.DrawSword | ImageGeneration.py:163-182 | Appends the sword's blade, guard, handle and pommel, and consumes 4 draws. |
| WeaponRenderer.DrawAxe | ImageGeneration.py:184-200 | Appends the axe's handle, blade and edge, and consumes 3 draws. |
| WeaponRenderer.DrawBow | ImageGeneration.py:202-214 | Appends the curve and the string, and consumes 2 draws. |
| WeaponRenderer.DrawStaff | ImageGeneration.py:216-231 | Appends the shaft, the orb and three rings, and consumes 3 draws. |
| WeaponRenderer.DrawDagger | ImageGeneration.py:233-247 | Appends the dagger's blade, guard and handle, and consumes 3 draws. |
| WeaponRenderer.DrawGlow | ImageGeneration.py:251-255 | Appends the ten glow dots and consumes 30 draws. |
| WeaponRenderer.DrawGlowDot | ImageGeneration.py:252-255 | Draws x, y and size in that order, and appends one dot. |
| EnvironmentRenderer.WindowRowCountRange | ImageGeneration.py:341 | `len(range(h // 2, h - 40, 50))` is exact: each counted row lies above `h - 40`, and the next does not. |
| EnvironmentRenderer.SkyRowsShape | ImageGeneration.py:261-267 | Sky row `k` is a line across the image in the gradient colour of row `k`. That colour is valid and lies between the two blues. |
| EnvironmentRenderer.TreesShape | ImageGeneration.py:274-284 | Every tree is a 16-pixel trunk in a secondary colour, 60 to 100 pixels tall and standing on the bottom edge. Its 50-pixel crown rests on the trunk, in one of the first two primary colours. |
| EnvironmentRenderer.ForestLayout | ImageGeneration.py:259-284 | `h // 2` sky rows, then the ground covering the bottom half in a primary colour, then six trees; 25 draws. |
| EnvironmentRenderer.ForestSkyStartsBlue | ImageGeneration.py:261-267 | The first sky row is (135, 206, 235) exactly. |
| EnvironmentRenderer.MountainLayout | ImageGeneration.py:286-313 | A sky band, then three triangles sharing one primary colour, then two white snow caps, the first centred on the first peak; one draw. |
| EnvironmentRenderer.TowersShape | ImageGeneration.py:327-336 | Each tower is a body in a secondary colour over its column, then a roof in an accent colour. |
| EnvironmentRenderer.TowerWindowsShape | ImageGeneration.py:341-342 | Window `k` of a tower is at row `h // 2 + 50k`. |
| EnvironmentRenderer.WindowsOfThree | ImageGeneration.py:340-342 | The windows come in tower order, one column per tower. |
| EnvironmentRenderer.CastleLayout | ImageGeneration.py:315-342 | Sky, then the keep in a primary colour, then three towers at a quarter, half and three quarters of the width. Then the same column of windows for each tower; seven draws. |
| EnvironmentRenderer.CastleWindowsAt512 | ImageGeneration.py:340-342 | At height 512 each tower has five windows, at rows 256, 306, 356, 406 and 456. |
| EnvironmentRenderer.DunePointCount | ImageGeneration.py:355 | `len(range(0, w + 100, 80))` is the least `n` with `80n >= w + 100`. |
| EnvironmentRenderer.DunePointsShape | ImageGeneration.py:355-357 | A ridge has one point every 80 columns from 0, each within 40 rows of its base. |
| EnvironmentRenderer.DuneDrawnIff | ImageGeneration.py:358-359 | A dune polygon is drawn exactly when the ridge has more than two points, that is for width above 60. |
| EnvironmentRenderer.DunesShape | ImageGeneration.py:352-359 | Dune `i` is one polygon in the sand colour over a ridge around `h // 3 + 60i`. |
| EnvironmentRenderer.CactiShape | ImageGeneration.py:363-369 | Each cactus is three rectangles in the cactus colour. Its body is 100 pixels or more from the sides and ends 30 pixels above the bottom. |
| EnvironmentRenderer.DesertLayout | ImageGeneration.py:344-369 | A sky band, then four dunes in one primary colour with ridges every 80 columns. Then the four cacti of the cactus loop in one secondary colour, each body 100 pixels or more from the sides and ending 30 pixels above the bottom. |
| EnvironmentRenderer.DunePointsAt512 | ImageGeneration.py:355 | At width 512 each ridge has 8 points. |
| EnvironmentRenderer.SpikesShape | ImageGeneration.py:378-385 | Each spike is a stalactite hanging 30 to 80 pixels, 50 pixels or more from the sides. Under it is a stalagmite of the same height and column; both are in the rock colour. |
| EnvironmentRenderer.CrystalsShape | ImageGeneration.py:389-393 | Each crystal is a triangle in the crystal colour, 100 pixels or more inside every edge, 10 to 25 pixels tall. |
| EnvironmentRenderer.CaveLayout | ImageGeneration.py:371-393 | A background in a primary colour, then the eight spike pairs of the spike loop in one secondary colour, each hanging 30 to 80 pixels and 50 pixels or more from the sides. Then the five crystals of the crystal loop in one accent colour, each 100 pixels or more inside every edge; 34 draws. |
| EnvironmentRenderer.UnknownEnvironmentIsCave | ImageGeneration.py:371 | A tag other than forest, mountain, castle or desert draws exactly what "cave" draws. |
| EnvironmentRenderer.DrawEnvironment | ImageGeneration.py:257-393 | Appends exactly the scene's commands and leaves the source after its draws. |
| EnvironmentRenderer.DrawForest | ImageGeneration.py:259-284 | Appends the forest scene. |
| EnvironmentRenderer.DrawSky | ImageGeneration.py:261-267 | Appends one gradient line per row of the top half. |
| EnvironmentRenderer.DrawTrees | ImageGeneration.py:274-284 | Appends six trees and consumes 24 draws. |
| EnvironmentRenderer.DrawTree | ImageGeneration.py:275-284 | Appends a trunk and its crown, and consumes 4 draws. |
| EnvironmentRenderer.DrawMountain | ImageGeneration.py:286-313 | Appends the mountain scene. |
| EnvironmentRenderer.DrawCastle | ImageGeneration.py:315-342 | Appends the castle scene. |
| EnvironmentRenderer.DrawTowers | ImageGeneration.py:327-336 | Appends one body and one roof per position, and consumes 2 draws per tower. |
| EnvironmentRenderer.DrawTower | ImageGeneration.py:329-336 | Appends a tower body and its roof, and consumes 2 draws. |
| EnvironmentRenderer.DrawWindows | ImageGeneration.py:340-342 | Appends every tower's windows in tower order. |
| EnvironmentRenderer.DrawTowerWindows | ImageGeneration.py:341-342 | Appends one window per row of `range(h // 2, h - 40, 50)`. |
| EnvironmentRenderer.DrawDesert | ImageGeneration.py:344-369 | Appends the desert scene. |
| EnvironmentRenderer.DrawSandDunes | ImageGeneration.py:350-359 | Draws the sand colour, then appends the four dunes. |
| EnvironmentRenderer.DrawCactusField | ImageGeneration.py:362-369 | Draws the cactus colour, then appends four cacti. |
| EnvironmentRenderer.DrawDunes | ImageGeneration.py:352-359 | Appends the four dunes, each reading its ridge after the previous one. |
| EnvironmentRenderer.DrawDune | ImageGeneration.py:353-359 | Consumes one draw per ridge point, and appends the polygon only when the ridge has more than two points. |
| EnvironmentRenderer.DrawCacti | ImageGeneration.py:363-369 | Appends four cacti and consumes 4 draws. |
| EnvironmentRenderer.DrawCactus | ImageGeneration.py:364-369 | Appends a body and two arms, and consumes 1 draw. |
| EnvironmentRenderer.DrawCave | ImageGeneration.py:371-393 | Appends the cave scene. |
| EnvironmentRenderer.DrawRocks | ImageGeneration.py:377-385 | Draws the rock colour, then appends the spikes; 17 draws. |
| EnvironmentRenderer.DrawCrystalField | ImageGeneration.py:388-393 | Draws the crystal colour, then appends the crystals; 16 draws. |
| EnvironmentRenderer.DrawSpikes | ImageGeneration.py:378-385 | Appends eight spike pairs and consumes 16 draws. |
| EnvironmentRenderer.DrawSpike | ImageGeneration.py:379-385 | Appends a stalactite and a stalagmite, and consumes 2 draws. |
| EnvironmentRenderer.DrawCrystals | ImageGeneration.py:389-393 | Appends five crystals and consumes 15 draws. |
| EnvironmentRenderer.DrawCrystal | ImageGeneration.py:390-393 | Appends one crystal and consumes 3 draws. |
| PostProcess.Shift | ImageGeneration.py:73-76 | Adding one offset to every channel, each clamped separately, gives a valid colour. |
| PostProcess.ShiftBounded | ImageGeneration.py:73-76 | A shift moves each channel by at most the offset, never against its sign. |
| PostProcess.ShiftZero | ImageGeneration.py:74-76 | A zero shift leaves a valid colour unchanged. |
| PostProcess.NoisePixelCases | ImageGeneration.py:71-77 | A pixel whose draw is not below the intensity is left untouched. A selected pixel gets one shared offset in [-20, 20]. |
| PostProcess.NoiseKeepsValid | ImageGeneration.py:71-77 | The noise pass keeps every channel a byte and moves it by at most 20. |
| PostProcess.NoiseReachesEveryOffset | ImageGeneration.py:73 | Every offset in [-20, 20] can be the one a selected pixel receives. |
| PostProcess.NoiseCursorAdvance | ImageGeneration.py:69-73 | The pass reads one or two draws per pixel. |
| PostProcess.NoiseCursorUnselected | ImageGeneration.py:71 | With intensity zero no pixel is selected, and each pixel reads exactly one draw. |
| PostProcess.ScanIndexClosedForm | ImageGeneration.py:69-70 | The scan runs column by column: pixel `[x, y]` is visited at position `x * height + y`. |
| PostProcess.AddNoise | ImageGeneration.py:64-79 | Every pixel becomes its noise value, read at its place in column-major scan order. The dimensions are unchanged, and the source ends after the whole scan. |
| PostProcess.NoiseColumn | ImageGeneration.py:69-77 | One pass of the `x` loop updates column `x` only. |
| PostProcess.NoisePixels | ImageGeneration.py:70-77 | The `y` loop updates every pixel of its column in order, and no other pixel. |
| PostProcess.NoiseStep | ImageGeneration.py:71-77 | One iteration updates pixel `[x, y]` only, and consumes two draws if it is selected, one otherwise. |
| PostProcess.GradientBackground | ImageGeneration.py:84-94 | The buffer has the image's dimensions; pixel `[x, y]` holds the colour of row `y`. |
| PostProcess.GradientBufferRows | ImageGeneration.py:84-94 | Every row is a valid colour between the endpoints, and row 0 is `colors[0]`. |
| Pipeline.AssetFilename | ImageGeneration.py:474-475 | The name is the kind, `_`, the first eight digest characters and `.png`. |
| Pipeline.ParseAssetFilenameRoundTrip | ImageGeneration.py:474-475 | An output name gives back its generator and digest prefix. |
| Pipeline.AssetFilenameInjective | ImageGeneration.py:475 | Two outputs share a name exactly when they share the generator and the first eight digest characters. |
| Pipeline.GenerateCharacterArt | ImageGeneration.py:418-475 | Routes the style to a palette and draws the character on 512 x 512. Builds the dark-sky gradient. Applies noise at 0.05 to the 512 x 512 picture, with the draws that follow the renderer's. Names the file. |
| Pipeline.GenerateWeapon | ImageGeneration.py:499-530 | The same with the warrior palette, the mystical gradient and noise at 0.03. |
| Pipeline.GenerateEnvironmentSketch | ImageGeneration.py:553-588 | The same with the palette of the environment's kind, no gradient, and noise at 0.02. |
| Pipeline.SketchCharacter | ImageGeneration.py:418-439 | A fresh surface holding exactly the routed character scene. |
| Pipeline.SketchWeapon | ImageGeneration.py:499-506 | A fresh surface holding exactly the weapon scene in the warrior palette. |
| Pipeline.SketchEnvironment | ImageGeneration.py:553-568 | A fresh surface holding exactly the environment scene in its kind's palette. |
| Pipeline.CanvasFitsEveryScene | ImageGeneration.py:418 | Every scene's `randint` ranges are non-empty on the 512-pixel canvas. |
| TextQuality.StripPrompt | TextGenration.py:91-93 | Text starting with the prompt becomes the rest of it, with outer whitespace removed. Any other text is returned unchanged. |
| TextQuality.StripPromptRoundTrip | TextGenration.py:91-92 | A completion without outer whitespace comes back exactly once its prompt is stripped. |
| TextQuality.StripPromptStable | TextGenration.py:92 | The stripped text has nothing more to strip. |
| TextQuality.StripAll | TextGenration.py:88-93 | The decode loop yields, in order, each output with its prompt stripped. |
| TextQuality.SelectReturn | TextGenration.py:95 | Returns the list when `num_return_sequences > 1`. Otherwise it returns the first text, or the `IndexError` outcome exactly when there is no text. |
| TextQuality.AssessQuality | TextGenration.py:270-282 | Score 8 exactly for temperature ≤ 0.5, 9 for ≤ 0.8, 7 for ≤ 1.0, and 4 above 1.0. |
| TextQuality.AssessQualityIgnoresText | TextGenration.py:270-282 | The text plays no part in the score, and the score is at most 9. |
| TextQuality.CategorizeVariation | TextGenration.py:284-291 | "Task-like" exactly when the lower-cased text contains "quest" or "must", even beside "dragon" or "magic". Otherwise "Fantasy-themed" exactly when it contains "dragon" or "magic", and "Generic" for everything else. |
| TextQuality.CategorizeVariationCaseInsensitive | TextGenration.py:284-291 | The category ignores case. |
| TextQuality.AssessCoherence | TextGenration.py:293-303 | Score 3 exactly below 5 words, 8 below 15, 7 below 30, and 5 from 30 on. |
| TextQuality.AssessCoherenceOfWords | TextGenration.py:293-303 | For a space-joined list of words, the score depends only on how many words there are. |
| TextQuality.AssessUsability | TextGenration.py:305-315 | Score 9 exactly for 6 to 24 words with a capital first character. Otherwise 5 above 30 words, and 7 for the rest. Empty text counts as not capitalised. |
| TextQuality.AssessUsabilityOfWords | TextGenration.py:305-315 | For a space-joined list of words, the score follows from the word count and the first word's first letter. |

## Left out

- Rasterisation: the `ImageDraw` calls are modelled as recorded commands, not as the pixels they cover. That drawing is done by a foreign library.
- `Image.alpha_composite` and `ImageFilter.GaussianBlur` are not modelled; they are library internals and floating-point convolution. The noise pass therefore takes the picture it works on, the composite, as an input buffer (`rendered`).
- Titles: font loading, `textbbox` and the text drawing are not modelled.
- MD5: the hex digest of the parameter string is an input of `Pipeline.AssetFilename`, not computed.
- File and directory I/O, `img.save`, the experiment runner's CSV, JSON and Markdown writers, and printing are not modelled.
- Python's Mersenne Twister and `random.seed` are replaced by an explicit draw sequence. Every `randint`, `choice` and `random` call consumes exactly one entry of it. A draw past the end of the sequence reads as 0.
- Colors.Lerp: rows are computed exactly as `(c0 * (h - y) + c1 * y) / h`, truncated toward zero. CPython's float product `c0 * (1 - y/h) + c1 * (y/h)` can differ from this by one unit on some rows, so the contracts state bounds, not float bit-equality. The forest sky uses the same row colour.
- Draws.Stream.Random: `random() < intensity` is modelled as an integer comparison with `ceil(intensity * 2^53)`. This is exact for 0.05, 0.03 and 0.02 as Python reads those literals.
- TextQuality.AssessQuality: the temperature is a `real`, so the float rounding of the thresholds 0.5, 0.8 and 1.0 is not modelled.
- Strings.Lower: only the ASCII letters are lower-cased, and `isupper` is true only for `A` to `Z`. Non-ASCII case mappings are not modelled.
- `randint` with an empty range raises `ValueError` in Python. The renderers' preconditions (`SceneFits`, width at least 100 or 200) exclude those sizes instead; every generator calls the renderers at 512 x 512, where all ranges are non-empty (`Pipeline.CanvasFitsEveryScene`).
- The tokenizer and DistilGPT-2 model calls of `generate_text` are not modelled; the decoded outputs are an input of `TextQuality.StripAll`.
- Seeding with `seed=None` (an unseeded global generator) is the caller's choice of draw sequence.
- The experiment drivers (`experiment_*` and `main`) are not modelled. They are I/O loops, and two of them call a missing method or pass an unsupported argument.
- The image and the gradient buffer are indexed `[x, y]`, as PIL's pixel access does; the conversion between RGBA and RGB is not modelled.
