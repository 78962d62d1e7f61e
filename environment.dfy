/** The environment renderer (ImageGeneration.py `_draw_environment`): a
    forest, mountain, castle or desert scene chosen by the lower-cased tag,
    and the cave for every other tag. */
module EnvironmentRenderer {
  import opened Colors
  import opened Draws
  import opened Shapes
  import opened Palettes
  import opened Routing
  import opened Strings

  const SkyBlue := Rgb(135, 206, 235)
  /** The forest sky fades from `SkyBlue` at the top to this colour at the horizon. */
  const HorizonBlue := Rgb(70, 130, 180)
  const WindowYellow := Rgb(255, 255, 0)

  const TreeCount: nat := 6
  const DuneCount: nat := 4
  const CactusCount: nat := 4
  const SpikeCount: nat := 8
  const CrystalCount: nat := 5

  /** The sizes for which every `randint` of the scene has a non-empty range;
      outside them the Python call raises `ValueError`. */
  predicate SceneFits(kind: EnvironmentKind, w: nat, h: nat) {
    match kind
    case Forest => w >= 100
    case Mountain => true
    case Castle => true
    case Desert => w >= 200
    case Cave => w >= 200 && h >= 200
  }

  // ---------------------------------------------------------------- forest

  /** The first `n` rows of the forest sky, one horizontal line per row over
      the top `half` rows. */
  function SkyRows(w: int, half: nat, n: nat): seq<Shape>
    requires n <= half
  {
    if n == 0 then []
    else SkyRows(w, half, n - 1)
         + [Line([Point(0, n - 1), Point(w, n - 1)], GradientRow(SkyBlue, HorizonBlue, n - 1, half), DefaultLineWidth)]
  }

  /** A trunk standing on the bottom edge and its crown; four draws. */
  function Tree(p: Palette, w: nat, h: nat, s: Stream): seq<Shape>
    requires p.Usable() && w >= 100
  {
    var x := s.RandInt(50, w - 50);
    var th := s.Skip(1).RandInt(60, 100);
    [ Rectangle(Box(x - 8, h - th, x + 8, h), s.Skip(2).Choice(p.secondary)),
      Ellipse(Box(x - 25, h - th - 50, x + 25, h - th), s.Skip(3).Choice(p.primary[..2])) ]
  }

  function Trees(p: Palette, w: nat, h: nat, s: Stream, n: nat): seq<Shape>
    requires p.Usable() && w >= 100
  {
    if n == 0 then []
    else Trees(p, w, h, s, n - 1) + Tree(p, w, h, s.Skip(4 * (n - 1)))
  }

  function ForestScene(p: Palette, w: nat, h: nat, s: Stream): Emitted
    requires p.Usable() && w >= 100
  {
    Emitted(SkyRows(w, h / 2, h / 2) + [Rectangle(Box(0, h / 2, w, h), s.Choice(p.primary))]
            + Trees(p, w, h, s.Skip(1), TreeCount),
            s.Skip(1 + 4 * TreeCount))
  }

  // -------------------------------------------------------------- mountain

  function MountainScene(p: Palette, w: nat, h: nat, s: Stream): Emitted
    requires p.Usable()
  {
    var c := s.Choice(p.primary);
    Emitted([ Rectangle(Box(0, 0, w, h / 2), SkyBlue),
              Polygon([Point(-50, h / 2), Point(w / 3, h / 3), Point(w / 2, h / 2)], c),
              Polygon([Point(w / 2, h / 2), Point(2 * w / 3, h / 4), Point(w + 50, h / 2)], c),
              Polygon([Point(2 * w / 3, h / 2), Point(w, h / 5), Point(w + 50, h / 2)], c),
              Ellipse(Box(w / 3 - 40, h / 3 - 15, w / 3 + 40, h / 3 + 15), White),
              Ellipse(Box(2 * w / 3 - 35, h / 5 - 12, 2 * w / 3 + 35, h / 5 + 12), White) ],
            s.Skip(1))
  }

  // ---------------------------------------------------------------- castle

  function TowerPositions(w: nat): seq<int> {
    [w / 4, w / 2, 3 * w / 4]
  }

  /** A tower body and its roof; two draws. */
  function Tower(p: Palette, pos: int, h: nat, s: Stream): seq<Shape>
    requires p.Usable()
  {
    [ Rectangle(Box(pos - 25, h / 3, pos + 25, h), s.Choice(p.secondary)),
      Polygon([Point(pos - 30, h / 3), Point(pos + 30, h / 3), Point(pos + 20, h / 4), Point(pos - 20, h / 4)],
              s.Skip(1).Choice(p.accent)) ]
  }

  function Towers(p: Palette, ps: seq<int>, h: nat, s: Stream): (r: seq<Shape>)
    requires p.Usable()
    ensures |r| == 2 * |ps|
  {
    if ps == [] then []
    else Towers(p, ps[..|ps| - 1], h, s) + Tower(p, ps[|ps| - 1], h, s.Skip(2 * (|ps| - 1)))
  }

  /** `len(range(h // 2, h - 40, 50))`: the rows `h // 2 + 50 k` below `h - 40`. */
  function WindowRowCount(h: nat): nat {
    if h - 40 > h / 2 then (h - 40 - h / 2 + 49) / 50 else 0
  }

  /** The count is exact: each of the first `n` rows lies above `h - 40`,
      and the next one does not. */
  lemma WindowRowCountRange(h: nat)
    ensures var n := WindowRowCount(h);
      h / 2 + 50 * n >= h - 40 && forall k :: 0 <= k < n ==> h / 2 + 50 * k < h - 40
  {
  }

  function Window(pos: int, y: int): Shape {
    Rectangle(Box(pos - 10, y, pos + 10, y + 25), WindowYellow)
  }

  function TowerWindows(pos: int, h: nat, n: nat): (r: seq<Shape>)
    ensures |r| == n
  {
    if n == 0 then []
    else TowerWindows(pos, h, n - 1) + [Window(pos, h / 2 + 50 * (n - 1))]
  }

  function Windows(ps: seq<int>, h: nat): seq<Shape> {
    if ps == [] then []
    else Windows(ps[..|ps| - 1], h) + TowerWindows(ps[|ps| - 1], h, WindowRowCount(h))
  }

  function CastleScene(p: Palette, w: nat, h: nat, s: Stream): Emitted
    requires p.Usable()
  {
    Emitted([Rectangle(Box(0, 0, w, h), SkyBlue), Rectangle(Box(w / 4, h / 2, 3 * w / 4, h), s.Choice(p.primary))]
            + Towers(p, TowerPositions(w), h, s.Skip(1)) + Windows(TowerPositions(w), h),
            s.Skip(7))
  }

  // ---------------------------------------------------------------- desert

  /** `len(range(0, w + 100, 80))`: the columns `80 k` left of `w + 100`. */
  function DunePointCount(w: nat): (n: nat)
    ensures 80 * n >= w + 100
    ensures n > 0 && 80 * (n - 1) < w + 100
  {
    (w + 100 + 79) / 80
  }

  /** The first `n` points of a dune ridge, one draw each. */
  function DunePoints(yBase: int, s: Stream, n: nat): seq<Point> {
    if n == 0 then []
    else DunePoints(yBase, s, n - 1) + [Point(80 * (n - 1), yBase + s.Skip(n - 1).RandInt(-40, 40))]
  }

  /** A dune is drawn only when its ridge has more than two points; the
      ridge's draws are made either way. */
  function Dune(sand: Rgb, w: nat, yBase: int, s: Stream): seq<Shape> {
    var pts := DunePoints(yBase, s, DunePointCount(w));
    if |pts| > 2 then [Polygon(pts, sand)] else []
  }

  function Dunes(sand: Rgb, w: nat, h: nat, s: Stream, n: nat): seq<Shape> {
    if n == 0 then []
    else Dunes(sand, w, h, s, n - 1) + Dune(sand, w, h / 3 + (n - 1) * 60, DuneStart(s, w, n - 1))
  }

  /** Where the ridge of dune `i` starts reading: after the ridges before it. */
  function DuneStart(s: Stream, w: nat, i: nat): Stream {
    s.Skip(DunePointCount(w) * i)
  }

  lemma DuneStartNext(s: Stream, w: nat, i: nat)
    ensures DuneStart(s, w, i).Skip(DunePointCount(w)) == DuneStart(s, w, i + 1)
  {
    assert DunePointCount(w) * i + DunePointCount(w) == DunePointCount(w) * (i + 1);
  }

  /** A cactus body and its two arms; one draw. */
  function Cactus(c: Rgb, w: nat, h: nat, s: Stream): seq<Shape>
    requires w >= 200
  {
    var x := s.RandInt(100, w - 100);
    [ Rectangle(Box(x - 4, h - 80, x + 4, h - 30), c),
      Rectangle(Box(x - 12, h - 60, x - 4, h - 50), c),
      Rectangle(Box(x + 4, h - 65, x + 12, h - 55), c) ]
  }

  function Cacti(c: Rgb, w: nat, h: nat, s: Stream, n: nat): seq<Shape>
    requires w >= 200
  {
    if n == 0 then []
    else Cacti(c, w, h, s, n - 1) + Cactus(c, w, h, s.Skip(n - 1))
  }

  /** Draws made before the cactus colour: the sand colour and every ridge point. */
  function DesertDuneDraws(w: nat): nat {
    1 + DunePointCount(w) * DuneCount
  }

  function DesertScene(p: Palette, w: nat, h: nat, s: Stream): Emitted
    requires p.Usable() && w >= 200
  {
    var after := DuneStart(s.Skip(1), w, DuneCount);
    Emitted([Rectangle(Box(0, 0, w, h / 3), SkyBlue)]
            + Dunes(s.Choice(p.primary), w, h, s.Skip(1), DuneCount)
            + Cacti(after.Choice(p.secondary), w, h, after.Skip(1), CactusCount),
            after.Skip(1 + CactusCount))
  }

  // ------------------------------------------------------------------ cave

  /** A stalactite from the ceiling and the matching stalagmite from the
      floor; two draws. */
  function Spike(rock: Rgb, w: nat, h: nat, s: Stream): seq<Shape>
    requires w >= 100
  {
    var x := s.RandInt(50, w - 50);
    var hv := s.Skip(1).RandInt(30, 80);
    [ Polygon([Point(x - 5, 0), Point(x + 5, 0), Point(x, hv)], rock),
      Polygon([Point(x - 5, h), Point(x + 5, h), Point(x, h - hv)], rock) ]
  }

  function Spikes(rock: Rgb, w: nat, h: nat, s: Stream, n: nat): seq<Shape>
    requires w >= 100
  {
    if n == 0 then []
    else Spikes(rock, w, h, s, n - 1) + Spike(rock, w, h, s.Skip(2 * (n - 1)))
  }

  /** A triangular crystal; three draws. */
  function Crystal(c: Rgb, w: nat, h: nat, s: Stream): Shape
    requires w >= 200 && h >= 200
  {
    var x := s.RandInt(100, w - 100);
    var y := s.Skip(1).RandInt(100, h - 100);
    var size := s.Skip(2).RandInt(10, 25);
    Polygon([Point(x, y - size), Point(x - size / 2, y), Point(x + size / 2, y)], c)
  }

  function Crystals(c: Rgb, w: nat, h: nat, s: Stream, n: nat): seq<Shape>
    requires w >= 200 && h >= 200
  {
    if n == 0 then []
    else Crystals(c, w, h, s, n - 1) + [Crystal(c, w, h, s.Skip(3 * (n - 1)))]
  }

  /** The rock colour, then the spike loop; seventeen draws. */
  function CaveRocks(p: Palette, w: nat, h: nat, s: Stream): seq<Shape>
    requires p.Usable() && w >= 200
  {
    Spikes(s.Choice(p.secondary), w, h, s.Skip(1), SpikeCount)
  }

  /** The crystal colour, then the crystal loop; sixteen draws. */
  function CaveCrystals(p: Palette, w: nat, h: nat, s: Stream): seq<Shape>
    requires p.Usable() && w >= 200 && h >= 200
  {
    Crystals(s.Choice(p.accent), w, h, s.Skip(1), CrystalCount)
  }

  function CaveScene(p: Palette, w: nat, h: nat, s: Stream): Emitted
    requires p.Usable() && w >= 200 && h >= 200
  {
    Emitted([Rectangle(Box(0, 0, w, h), s.Choice(p.primary))]
            + CaveRocks(p, w, h, s.Skip(1)) + CaveCrystals(p, w, h, s.Skip(18)),
            s.Skip(34))
  }

  // ------------------------------------------------------------- the scene

  /** Everything `_draw_environment` draws for a given draw stream. */
  function EnvironmentScene(p: Palette, environment: string, w: nat, h: nat, s: Stream): Emitted
    requires p.Usable() && SceneFits(EnvironmentKindOf(environment), w, h)
  {
    match EnvironmentKindOf(environment)
    case Forest => ForestScene(p, w, h, s)
    case Mountain => MountainScene(p, w, h, s)
    case Castle => CastleScene(p, w, h, s)
    case Desert => DesertScene(p, w, h, s)
    case Cave => CaveScene(p, w, h, s)
  }

  // ----------------------------------------------------------------- lemmas

  /** Row `k` of the sky: a horizontal line across the image in the gradient
      colour of row `k`, a valid colour between the two blues. */
  predicate SkyLine(line: Shape, w: int, k: int, half: nat) {
    line.Line? && line.points == [Point(0, k), Point(w, k)] && 0 <= k < half
    && line.fill == GradientRow(SkyBlue, HorizonBlue, k, half) && line.fill.Valid()
  }

  lemma {:induction false} SkyRowsShape(w: int, half: nat, n: nat)
    requires n <= half
    ensures |SkyRows(w, half, n)| == n
    ensures forall k :: 0 <= k < n ==> SkyLine(SkyRows(w, half, n)[k], w, k, half)
  {
    if n > 0 {
      var prev := SkyRows(w, half, n - 1);
      var last := Line([Point(0, n - 1), Point(w, n - 1)], GradientRow(SkyBlue, HorizonBlue, n - 1, half), DefaultLineWidth);
      assert SkyRows(w, half, n) == prev + [last];
      SkyRowsShape(w, half, n - 1);
      GradientRowBetween(SkyBlue, HorizonBlue, n - 1, half);
      SkyAppend(w, half, prev, last, n);
    }
  }

  /** One more sky row after `n - 1` of them. */
  lemma SkyAppend(w: int, half: nat, prev: seq<Shape>, last: Shape, n: nat)
    requires n > 0 && |prev| == n - 1
    requires forall k :: 0 <= k < n - 1 ==> SkyLine(prev[k], w, k, half)
    requires SkyLine(last, w, n - 1, half)
    ensures forall k :: 0 <= k < n ==> SkyLine((prev + [last])[k], w, k, half)
  {
    var all := prev + [last];
    forall k | 0 <= k < n
      ensures SkyLine(all[k], w, k, half)
    {
      if k < n - 1 {
        assert all[k] == prev[k];
      }
    }
  }

  /** A 16-pixel trunk standing on the bottom edge, 60 to 100 pixels tall,
      in a secondary colour, under a 50-pixel crown resting on its top in one
      of the first two primary colours. */
  predicate PlantedTree(p: Palette, w: nat, h: nat, trunk: Shape, crown: Shape)
    requires p.Usable()
  {
    trunk.Rectangle? && trunk.fill in p.secondary
    && 42 <= trunk.box.x0 <= w - 58 && trunk.box.x1 == trunk.box.x0 + 16
    && trunk.box.y1 == h && h - 100 <= trunk.box.y0 <= h - 60
    && crown.Ellipse? && crown.fill in p.primary[..2]
    && crown.box.y1 == trunk.box.y0 && crown.box.y0 == trunk.box.y0 - 50
    && crown.box.x0 == trunk.box.x0 - 17 && crown.box.x1 == trunk.box.x1 + 17
  }

  /** Every tree of the loop is a planted tree. */
  lemma {:induction false} TreesShape(p: Palette, w: nat, h: nat, s: Stream, n: nat)
    requires p.Usable() && w >= 100
    ensures |Trees(p, w, h, s, n)| == 2 * n
    ensures forall k :: 0 <= k < n ==>
      PlantedTree(p, w, h, Trees(p, w, h, s, n)[2 * k], Trees(p, w, h, s, n)[2 * k + 1])
  {
    if n > 0 {
      TreesShape(p, w, h, s, n - 1);
      var prev := Trees(p, w, h, s, n - 1);
      var last := Tree(p, w, h, s.Skip(4 * (n - 1)));
      assert Trees(p, w, h, s, n) == prev + last;
      TreePlanted(p, w, h, s.Skip(4 * (n - 1)));
      PlantedAppend(p, w, h, prev, last, n);
    }
  }

  /** One pass of the tree loop draws a planted tree. */
  lemma TreePlanted(p: Palette, w: nat, h: nat, t: Stream)
    requires p.Usable() && w >= 100
    ensures |Tree(p, w, h, t)| == 2 && PlantedTree(p, w, h, Tree(p, w, h, t)[0], Tree(p, w, h, t)[1])
  {
  }

  /** One more planted tree after `n - 1` of them. */
  lemma PlantedAppend(p: Palette, w: nat, h: nat, prev: seq<Shape>, last: seq<Shape>, n: nat)
    requires p.Usable() && n > 0 && |prev| == 2 * (n - 1) && |last| == 2
    requires forall k :: 0 <= k < n - 1 ==> PlantedTree(p, w, h, prev[2 * k], prev[2 * k + 1])
    requires PlantedTree(p, w, h, last[0], last[1])
    ensures forall k :: 0 <= k < n ==> PlantedTree(p, w, h, (prev + last)[2 * k], (prev + last)[2 * k + 1])
  {
    var all := prev + last;
    forall k | 0 <= k < n
      ensures PlantedTree(p, w, h, all[2 * k], all[2 * k + 1])
    {
      if k < n - 1 {
        assert all[2 * k] == prev[2 * k] && all[2 * k + 1] == prev[2 * k + 1];
      } else {
        assert all[2 * k] == last[0] && all[2 * k + 1] == last[1];
      }
    }
  }

  /** The forest: `h // 2` sky rows, the ground covering the bottom half in a
      primary colour, then six trees; 25 draws in all. */
  lemma ForestLayout(p: Palette, w: nat, h: nat, s: Stream)
    requires p.Usable() && w >= 100
    ensures var e := ForestScene(p, w, h, s);
      |e.shapes| == h / 2 + 1 + 2 * TreeCount
      && (forall k :: 0 <= k < h / 2 ==> SkyLine(e.shapes[k], w, k, h / 2))
      && e.shapes[h / 2].Rectangle? && e.shapes[h / 2].box == Box(0, h / 2, w, h)
      && e.shapes[h / 2].fill in p.primary
      && e.shapes[h / 2 + 1..] == Trees(p, w, h, s.Skip(1), TreeCount)
      && e.rest == s.Skip(25)
  {
    SkyRowsShape(w, h / 2, h / 2);
    TreesShape(p, w, h, s.Skip(1), TreeCount);
  }

  /** The first sky row is the top blue exactly. */
  lemma ForestSkyStartsBlue(w: nat, h: nat)
    requires h >= 2
    ensures SkyRows(w, h / 2, h / 2)[0].fill == SkyBlue
  {
    SkyRowsShape(w, h / 2, h / 2);
    GradientFirstRow(SkyBlue, HorizonBlue, h / 2);
  }

  /** The mountain scene: a sky band, three peaks sharing one primary colour,
      and two white snow caps, the first centred on the first peak; one draw. */
  lemma MountainLayout(p: Palette, w: nat, h: nat, s: Stream)
    requires p.Usable()
    ensures var e := MountainScene(p, w, h, s);
      |e.shapes| == 6 && e.rest == s.Skip(1)
      && e.shapes[1].fill in p.primary
      && (forall k :: 1 <= k <= 3 ==> e.shapes[k].Polygon? && |e.shapes[k].points| == 3 && e.shapes[k].fill == e.shapes[1].fill)
      && e.shapes[4].fill == White && e.shapes[5].fill == White
      && e.shapes[4].box.x0 + e.shapes[4].box.x1 == 2 * e.shapes[1].points[1].x
      && e.shapes[4].box.y0 + e.shapes[4].box.y1 == 2 * e.shapes[1].points[1].y
  {
  }

  /** A tower body in a secondary colour over column `pos`, then a roof in
      an accent colour. */
  predicate TowerPair(body: Shape, roof: Shape, p: Palette, pos: int, h: int) {
    body.Rectangle? && body.fill in p.secondary && body.box == Box(pos - 25, h / 3, pos + 25, h)
    && roof.Polygon? && roof.fill in p.accent
  }

  lemma {:induction false} TowersShape(p: Palette, ps: seq<int>, h: nat, s: Stream)
    requires p.Usable()
    ensures |Towers(p, ps, h, s)| == 2 * |ps|
    ensures forall i :: 0 <= i < |ps| ==>
      TowerPair(Towers(p, ps, h, s)[2 * i], Towers(p, ps, h, s)[2 * i + 1], p, ps[i], h)
  {
    if ps != [] {
      var n := |ps|;
      var init := ps[..n - 1];
      TowersShape(p, init, h, s);
      var pair := Tower(p, ps[n - 1], h, s.Skip(2 * (n - 1)));
      assert TowerPair(pair[0], pair[1], p, ps[n - 1], h);
      TowersAppend(p, h, ps, Towers(p, init, h, s), pair);
    }
  }

  lemma TowersAppend(p: Palette, h: int, ps: seq<int>, prev: seq<Shape>, pair: seq<Shape>)
    requires |ps| > 0 && |prev| == 2 * (|ps| - 1) && |pair| == 2
    requires forall i :: 0 <= i < |ps| - 1 ==> TowerPair(prev[2 * i], prev[2 * i + 1], p, ps[..|ps| - 1][i], h)
    requires TowerPair(pair[0], pair[1], p, ps[|ps| - 1], h)
    ensures forall i :: 0 <= i < |ps| ==> TowerPair((prev + pair)[2 * i], (prev + pair)[2 * i + 1], p, ps[i], h)
  {
    var all := prev + pair;
    var n := |ps|;
    forall i | 0 <= i < n
      ensures TowerPair(all[2 * i], all[2 * i + 1], p, ps[i], h)
    {
      if i < n - 1 {
        assert all[2 * i] == prev[2 * i] && all[2 * i + 1] == prev[2 * i + 1];
        assert ps[..n - 1][i] == ps[i];
      } else {
        assert all[2 * i] == pair[0] && all[2 * i + 1] == pair[1];
      }
    }
  }

  lemma {:induction false} TowerWindowsShape(pos: int, h: nat, n: nat)
    ensures |TowerWindows(pos, h, n)| == n
    ensures forall k :: 0 <= k < n ==> TowerWindows(pos, h, n)[k] == Window(pos, h / 2 + 50 * k)
  {
    if n > 0 {
      TowerWindowsShape(pos, h, n - 1);
    }
  }

  /** One column of windows per tower, in tower order. */
  lemma WindowsOfThree(a: int, b: int, c: int, h: nat)
    ensures Windows([a, b, c], h)
      == TowerWindows(a, h, WindowRowCount(h)) + TowerWindows(b, h, WindowRowCount(h)) + TowerWindows(c, h, WindowRowCount(h))
  {
    var n := WindowRowCount(h);
    assert [a, b, c][..2] == [a, b];
    assert [a, b][..1] == [a];
    assert [a][..0] == [];
    assert Windows([a], h) == TowerWindows(a, h, n);
    assert Windows([a, b], h) == Windows([a], h) + TowerWindows(b, h, n);
    assert Windows([a, b, c], h) == Windows([a, b], h) + TowerWindows(c, h, n);
  }

  /** The castle: sky, keep in a primary colour, the three towers at a
      quarter, half and three quarters of the width, then the same column of
      windows for each tower in tower order; seven draws. */
  lemma CastleLayout(p: Palette, w: nat, h: nat, s: Stream)
    requires p.Usable()
    ensures var e := CastleScene(p, w, h, s);
      var c := WindowRowCount(h);
      |e.shapes| == 8 + 3 * c && e.rest == s.Skip(7)
      && e.shapes[0] == Rectangle(Box(0, 0, w, h), SkyBlue)
      && e.shapes[1].Rectangle? && e.shapes[1].box == Box(w / 4, h / 2, 3 * w / 4, h) && e.shapes[1].fill in p.primary
      && e.shapes[2..8] == Towers(p, [w / 4, w / 2, 3 * w / 4], h, s.Skip(1))
      && e.shapes[8..8 + c] == TowerWindows(w / 4, h, c)
      && e.shapes[8 + c..8 + 2 * c] == TowerWindows(w / 2, h, c)
      && e.shapes[8 + 2 * c..] == TowerWindows(3 * w / 4, h, c)
  {
    var c := WindowRowCount(h);
    var towers := Towers(p, [w / 4, w / 2, 3 * w / 4], h, s.Skip(1));
    WindowsOfThree(w / 4, w / 2, 3 * w / 4, h);
    var t1, t2, t3 := TowerWindows(w / 4, h, c), TowerWindows(w / 2, h, c), TowerWindows(3 * w / 4, h, c);
    var head := [Rectangle(Box(0, 0, w, h), SkyBlue), Rectangle(Box(w / 4, h / 2, 3 * w / 4, h), s.Choice(p.primary))];
    assert CastleScene(p, w, h, s) == Emitted(head + towers + (t1 + t2 + t3), s.Skip(7));
    CastleSlices(head, towers, t1, t2, t3, c);
  }

  /** Where each part of the castle's command list sits. */
  lemma CastleSlices(head: seq<Shape>, towers: seq<Shape>, t1: seq<Shape>, t2: seq<Shape>, t3: seq<Shape>, c: nat)
    requires |head| == 2 && |towers| == 6 && |t1| == c && |t2| == c && |t3| == c
    ensures var all := head + towers + (t1 + t2 + t3);
      |all| == 8 + 3 * c && all[0] == head[0] && all[1] == head[1] && all[2..8] == towers
      && all[8..8 + c] == t1 && all[8 + c..8 + 2 * c] == t2 && all[8 + 2 * c..] == t3
  {
    var all := head + towers + (t1 + t2 + t3);
    assert all[8..] == t1 + t2 + t3;
    assert (t1 + t2 + t3)[..c] == t1;
    assert (t1 + t2 + t3)[c..2 * c] == t2;
    assert (t1 + t2 + t3)[2 * c..] == t3;
  }

  /** At the 512-pixel size every tower has five windows, at rows 256, 306,
      356, 406 and 456. */
  lemma CastleWindowsAt512()
    ensures WindowRowCount(512) == 5
    ensures TowerWindows(128, 512, 5) == [Window(128, 256), Window(128, 306), Window(128, 356), Window(128, 406), Window(128, 456)]
  {
    TowerWindowsShape(128, 512, 5);
  }

  /** `n` ridge points, one every 80 columns from column 0, each within 40
      rows of `yBase`. */
  predicate Ridge(pts: seq<Point>, n: nat, yBase: int) {
    |pts| == n
    && forall k :: 0 <= k < n ==> pts[k].x == 80 * k && yBase - 40 <= pts[k].y <= yBase + 40
  }

  lemma {:induction false} DunePointsShape(yBase: int, s: Stream, n: nat)
    ensures Ridge(DunePoints(yBase, s, n), n, yBase)
  {
    if n > 0 {
      DunePointsShape(yBase, s, n - 1);
      var prev := DunePoints(yBase, s, n - 1);
      var pts := DunePoints(yBase, s, n);
      assert pts == prev + [Point(80 * (n - 1), yBase + s.Skip(n - 1).RandInt(-40, 40))];
      forall k | 0 <= k < n
        ensures pts[k].x == 80 * k && yBase - 40 <= pts[k].y <= yBase + 40
      {
        if k < n - 1 {
          assert pts[k] == prev[k];
        }
      }
    }
  }

  /** A dune polygon is drawn exactly when the width leaves room for more
      than two ridge points, that is from width 61 on. */
  lemma DuneDrawnIff(sand: Rgb, w: nat, yBase: int, s: Stream)
    ensures |Dune(sand, w, yBase, s)| == (if w > 60 then 1 else 0)
  {
    DunePointsShape(yBase, s, DunePointCount(w));
  }

  /** A drawn dune: a polygon in the sand colour over a ridge of `n` points
      around `yBase`. */
  predicate DuneShape(d: Shape, sand: Rgb, n: nat, yBase: int) {
    d.Polygon? && d.fill == sand && Ridge(d.points, n, yBase)
  }

  /** Dune `i` is one polygon in the sand colour whose ridge points sit every
      80 columns, each within 40 rows of the dune's base `h // 3 + 60 i`. */
  lemma {:induction false} DunesShape(sand: Rgb, w: nat, h: nat, s: Stream, n: nat)
    requires w > 60
    ensures |Dunes(sand, w, h, s, n)| == n
    ensures forall i :: 0 <= i < n ==> DuneShape(Dunes(sand, w, h, s, n)[i], sand, DunePointCount(w), h / 3 + 60 * i)
  {
    if n > 0 {
      var m := DunePointCount(w);
      var yBase := h / 3 + (n - 1) * 60;
      var t := DuneStart(s, w, n - 1);
      var prev, dune := Dunes(sand, w, h, s, n - 1), Dune(sand, w, yBase, t);
      assert Dunes(sand, w, h, s, n) == prev + dune;
      DunesShape(sand, w, h, s, n - 1);
      DuneOfWidth(sand, w, yBase, t);
      DuneAppend(sand, m, h, prev, dune[0], n);
    }
  }

  /** From width 61 on a dune is the one polygon over its ridge. */
  lemma DuneOfWidth(sand: Rgb, w: nat, yBase: int, s: Stream)
    requires w > 60
    ensures var d := Dune(sand, w, yBase, s);
      |d| == 1 && d[0] == Polygon(DunePoints(yBase, s, DunePointCount(w)), sand)
      && DuneShape(d[0], sand, DunePointCount(w), yBase)
  {
    DunePointsShape(yBase, s, DunePointCount(w));
  }

  /** One more dune after `n - 1` of them. */
  lemma DuneAppend(sand: Rgb, m: nat, h: nat, prev: seq<Shape>, last: Shape, n: nat)
    requires n > 0 && |prev| == n - 1
    requires forall i :: 0 <= i < n - 1 ==> DuneShape(prev[i], sand, m, h / 3 + 60 * i)
    requires DuneShape(last, sand, m, h / 3 + 60 * (n - 1))
    ensures forall i :: 0 <= i < n ==> DuneShape((prev + [last])[i], sand, m, h / 3 + 60 * i)
  {
    var all := prev + [last];
    forall i | 0 <= i < n
      ensures DuneShape(all[i], sand, m, h / 3 + 60 * i)
    {
      if i < n - 1 {
        assert all[i] == prev[i];
      }
    }
  }

  lemma {:induction false} CactiShape(c: Rgb, w: nat, h: nat, s: Stream, n: nat)
    requires w >= 200
    ensures |Cacti(c, w, h, s, n)| == 3 * n
    ensures forall k :: 0 <= k < 3 * n ==> Cacti(c, w, h, s, n)[k].Rectangle? && Cacti(c, w, h, s, n)[k].fill == c
    ensures forall j :: 0 <= j < n ==>
      100 <= Cacti(c, w, h, s, n)[3 * j].box.x0 + 4 <= w - 100
      && Cacti(c, w, h, s, n)[3 * j].box.y1 == h - 30
  {
    if n > 0 {
      CactiShape(c, w, h, s, n - 1);
    }
  }

  /** The desert: a sky band, four dunes in one primary colour with ridges
      every 80 columns (eight points at width 512), then four cacti in one
      secondary colour standing 100 pixels or more from the sides. */
  lemma DesertLayout(p: Palette, w: nat, h: nat, s: Stream)
    requires p.Usable() && w >= 200
    ensures var e := DesertScene(p, w, h, s);
      |e.shapes| == 1 + DuneCount + 3 * CactusCount
      && e.rest == s.Skip(DesertDuneDraws(w) + 1 + CactusCount)
      && e.shapes[0] == Rectangle(Box(0, 0, w, h / 3), SkyBlue)
      && e.shapes[1].fill in p.primary
      && (forall i :: 0 <= i < DuneCount ==>
            DuneShape(e.shapes[1 + i], e.shapes[1].fill, DunePointCount(w), h / 3 + 60 * i))
      && (forall k :: 5 <= k < |e.shapes| ==> e.shapes[k].Rectangle? && e.shapes[k].fill == e.shapes[5].fill)
      && e.shapes[5].fill in p.secondary
      && e.shapes[5..] == Cacti(e.shapes[5].fill, w, h, s.Skip(DesertDuneDraws(w) + 1), CactusCount)
      && (forall j :: 0 <= j < CactusCount ==>
            100 <= e.shapes[5 + 3 * j].box.x0 + 4 <= w - 100 && e.shapes[5 + 3 * j].box.y1 == h - 30)
  {
    DunesShape(s.Choice(p.primary), w, h, s.Skip(1), DuneCount);
    var after := DuneStart(s.Skip(1), w, DuneCount);
    assert after == s.Skip(DesertDuneDraws(w));
    CactiShape(after.Choice(p.secondary), w, h, after.Skip(1), CactusCount);
  }

  lemma DunePointsAt512()
    ensures DunePointCount(512) == 8
  {
  }

  /** A triangle filled with `rock`. */
  predicate RockShape(t: Shape, rock: Rgb) {
    t.Polygon? && t.fill == rock && |t.points| == 3
  }

  /** A stalactite hanging 30 to 80 pixels from the ceiling, 50 pixels or
      more from the sides, and a stalagmite of the same height and column
      rising from the floor. */
  predicate SpikePair(top: Shape, bottom: Shape, rock: Rgb, w: int, h: int) {
    RockShape(top, rock) && RockShape(bottom, rock)
    && top.points[0].y == 0 && 30 <= top.points[2].y <= 80 && 50 <= top.points[2].x <= w - 50
    && bottom.points[0].y == h && bottom.points[2] == Point(top.points[2].x, h - top.points[2].y)
  }

  /** Spike `k` is the pair of commands `2k` and `2k + 1`. */
  lemma {:induction false} SpikesShape(rock: Rgb, w: nat, h: nat, s: Stream, n: nat)
    requires w >= 100
    ensures |Spikes(rock, w, h, s, n)| == 2 * n
    ensures forall k :: 0 <= k < 2 * n ==> RockShape(Spikes(rock, w, h, s, n)[k], rock)
    ensures forall k :: 0 <= k < n ==>
      SpikePair(Spikes(rock, w, h, s, n)[2 * k], Spikes(rock, w, h, s, n)[2 * k + 1], rock, w, h)
  {
    if n > 0 {
      SpikesShape(rock, w, h, s, n - 1);
      var pair := Spike(rock, w, h, s.Skip(2 * (n - 1)));
      assert SpikePair(pair[0], pair[1], rock, w, h);
      SpikesAppend(rock, w, h, Spikes(rock, w, h, s, n - 1), pair, n);
    }
  }

  lemma SpikesAppend(rock: Rgb, w: int, h: int, prev: seq<Shape>, pair: seq<Shape>, n: nat)
    requires n > 0 && |prev| == 2 * (n - 1) && |pair| == 2
    requires forall k :: 0 <= k < 2 * (n - 1) ==> RockShape(prev[k], rock)
    requires forall k :: 0 <= k < n - 1 ==> SpikePair(prev[2 * k], prev[2 * k + 1], rock, w, h)
    requires SpikePair(pair[0], pair[1], rock, w, h)
    ensures forall k :: 0 <= k < 2 * n ==> RockShape((prev + pair)[k], rock)
    ensures forall k :: 0 <= k < n ==> SpikePair((prev + pair)[2 * k], (prev + pair)[2 * k + 1], rock, w, h)
  {
    var all := prev + pair;
    var m := 2 * (n - 1);
    forall k | 0 <= k < 2 * n
      ensures RockShape(all[k], rock)
    {
      if k < m {
        assert all[k] == prev[k];
      } else {
        assert all[k] == pair[k - m];
      }
    }
    forall k | 0 <= k < n
      ensures SpikePair(all[2 * k], all[2 * k + 1], rock, w, h)
    {
      if k < n - 1 {
        assert all[2 * k] == prev[2 * k] && all[2 * k + 1] == prev[2 * k + 1];
      } else {
        assert all[2 * k] == pair[0] && all[2 * k + 1] == pair[1];
      }
    }
  }

  /** A triangle in colour `c` whose base centre lies 100 pixels or more
      inside every edge and whose apex is 10 to 25 pixels above it. */
  predicate CrystalShape(t: Shape, c: Rgb, w: int, h: int) {
    RockShape(t, c)
    && 100 <= t.points[0].x <= w - 100 && 100 <= t.points[1].y <= h - 100
    && t.points[1].y == t.points[2].y && 10 <= t.points[1].y - t.points[0].y <= 25
  }

  lemma {:induction false} CrystalsShape(c: Rgb, w: nat, h: nat, s: Stream, n: nat)
    requires w >= 200 && h >= 200
    ensures |Crystals(c, w, h, s, n)| == n
    ensures forall k :: 0 <= k < n ==> CrystalShape(Crystals(c, w, h, s, n)[k], c, w, h)
  {
    if n > 0 {
      CrystalsShape(c, w, h, s, n - 1);
      var last := Crystal(c, w, h, s.Skip(3 * (n - 1)));
      assert CrystalShape(last, c, w, h);
      CrystalsAppend(c, w, h, Crystals(c, w, h, s, n - 1), last, n);
    }
  }

  lemma CrystalsAppend(c: Rgb, w: int, h: int, prev: seq<Shape>, last: Shape, n: nat)
    requires n > 0 && |prev| == n - 1
    requires forall k :: 0 <= k < n - 1 ==> CrystalShape(prev[k], c, w, h)
    requires CrystalShape(last, c, w, h)
    ensures forall k :: 0 <= k < n ==> CrystalShape((prev + [last])[k], c, w, h)
  {
    var all := prev + [last];
    forall k | 0 <= k < n
      ensures CrystalShape(all[k], c, w, h)
    {
      if k < n - 1 {
        assert all[k] == prev[k];
      }
    }
  }

  /** The cave: a background in a primary colour, eight stalactite and
      stalagmite pairs in one secondary colour, five crystals in one accent
      colour; 34 draws. */
  lemma CaveLayout(p: Palette, w: nat, h: nat, s: Stream)
    requires p.Usable() && w >= 200 && h >= 200
    ensures var e := CaveScene(p, w, h, s);
      |e.shapes| == 1 + 2 * SpikeCount + CrystalCount && e.rest == s.Skip(34)
      && e.shapes[0].box == Box(0, 0, w, h) && e.shapes[0].fill in p.primary
      && e.shapes[1].fill in p.secondary
      && (forall k :: 1 <= k <= 2 * SpikeCount ==> e.shapes[k].Polygon? && e.shapes[k].fill == e.shapes[1].fill)
      && e.shapes[17].fill in p.accent
      && (forall k :: 17 <= k < |e.shapes| ==> e.shapes[k].Polygon? && e.shapes[k].fill == e.shapes[17].fill)
      && e.shapes[1..17] == Spikes(e.shapes[1].fill, w, h, s.Skip(2), SpikeCount)
      && e.shapes[17..] == Crystals(e.shapes[17].fill, w, h, s.Skip(19), CrystalCount)
      && (forall k :: 0 <= k < SpikeCount ==> SpikePair(e.shapes[1 + 2 * k], e.shapes[2 + 2 * k], e.shapes[1].fill, w, h))
      && (forall k :: 17 <= k < |e.shapes| ==> CrystalShape(e.shapes[k], e.shapes[17].fill, w, h))
  {
    var rock, gem := s.Skip(1).Choice(p.secondary), s.Skip(18).Choice(p.accent);
    var background := Rectangle(Box(0, 0, w, h), s.Choice(p.primary));
    var spikes := Spikes(rock, w, h, s.Skip(2), SpikeCount);
    var crystals := Crystals(gem, w, h, s.Skip(19), CrystalCount);
    SpikesShape(rock, w, h, s.Skip(2), SpikeCount);
    CrystalsShape(gem, w, h, s.Skip(19), CrystalCount);
    assert CaveScene(p, w, h, s) == Emitted([background] + spikes + crystals, s.Skip(34));
    CaveSlices(background, spikes, crystals);
  }

  /** Where each part of the cave's command list sits. */
  lemma CaveSlices(background: Shape, spikes: seq<Shape>, crystals: seq<Shape>)
    requires |spikes| == 2 * SpikeCount && |crystals| == CrystalCount
    ensures var all := [background] + spikes + crystals;
      |all| == 1 + 2 * SpikeCount + CrystalCount && all[0] == background
      && all[1..17] == spikes && all[17..] == crystals
      && (forall k :: 1 <= k < 17 ==> all[k] == spikes[k - 1])
      && (forall k :: 17 <= k < |all| ==> all[k] == crystals[k - 17])
  {
  }

  /** An unrecognised tag draws exactly what "cave" draws. */
  lemma UnknownEnvironmentIsCave(p: Palette, environment: string, w: nat, h: nat, s: Stream)
    requires p.Usable() && w >= 200 && h >= 200
    requires Lower(environment) !in ["forest", "mountain", "castle", "desert"]
    ensures EnvironmentScene(p, environment, w, h, s) == EnvironmentScene(p, "cave", w, h, s)
  {
    LowerOfLowerCase("cave");
    assert EnvironmentKindOf("cave") == Cave;
    EnvironmentKindOfName(Cave, environment);
  }

  // ---------------------------------------------------------------- methods

  /** `_draw_environment(draw, palette, environment, width, height)`. */
  method DrawEnvironment(draw: Sketch, rng: DrawSource, p: Palette, environment: string, width: nat, height: nat)
    requires p.Usable() && SceneFits(EnvironmentKindOf(environment), width, height)
    modifies draw, rng
    ensures draw.shapes == old(draw.shapes) + EnvironmentScene(p, environment, width, height, old(rng.State())).shapes
    ensures rng.State() == EnvironmentScene(p, environment, width, height, old(rng.State())).rest
  {
    var t := Lower(environment);
    if t == "forest" {
      DrawForest(draw, rng, p, width, height);
    } else if t == "mountain" {
      DrawMountain(draw, rng, p, width, height);
    } else if t == "castle" {
      DrawCastle(draw, rng, p, width, height);
    } else if t == "desert" {
      DrawDesert(draw, rng, p, width, height);
    } else {
      DrawCave(draw, rng, p, width, height);
    }
  }

  method DrawForest(draw: Sketch, rng: DrawSource, p: Palette, width: nat, height: nat)
    requires p.Usable() && width >= 100
    modifies draw, rng
    ensures draw.shapes == old(draw.shapes) + ForestScene(p, width, height, old(rng.State())).shapes
    ensures rng.State() == ForestScene(p, width, height, old(rng.State())).rest
  {
    ghost var s0, start := rng.State(), draw.shapes;
    DrawSky(draw, width, height / 2);
    ghost var sky := SkyRows(width, height / 2, height / 2);
    var groundColor := rng.Choice(p.primary);
    assert groundColor == s0.Choice(p.primary) && rng.State() == s0.Skip(1);
    ghost var ground := [Rectangle(Box(0, height / 2, width, height), groundColor)];
    draw.Draw(Rectangle(Box(0, height / 2, width, height), groundColor));
    assert draw.shapes == (start + sky) + ground;
    AppendAssoc(start, sky, ground);
    DrawTrees(draw, rng, p, width, height);
    ghost var trees := Trees(p, width, height, s0.Skip(1), TreeCount);
    assert draw.shapes == (start + (sky + ground)) + trees;
    AppendAssoc(start, sky + ground, trees);
    assert s0.Skip(1).Skip(4 * TreeCount) == s0.Skip(1 + 4 * TreeCount);
  }

  /** The sky loop of the forest: one gradient line per row of the top half. */
  method DrawSky(draw: Sketch, width: nat, half: nat)
    modifies draw
    ensures draw.shapes == old(draw.shapes) + SkyRows(width, half, half)
  {
    for y := 0 to half
      invariant draw.shapes == old(draw.shapes) + SkyRows(width, half, y)
    {
      var color := GradientRow(SkyBlue, HorizonBlue, y, half);
      draw.Draw(Line([Point(0, y), Point(width, y)], color, DefaultLineWidth));
    }
  }

  method DrawTrees(draw: Sketch, rng: DrawSource, p: Palette, width: nat, height: nat)
    requires p.Usable() && width >= 100
    modifies draw, rng
    ensures draw.shapes == old(draw.shapes) + Trees(p, width, height, old(rng.State()), TreeCount)
    ensures rng.State() == old(rng.State()).Skip(4 * TreeCount)
  {
    ghost var s0 := rng.State();
    ghost var start := draw.shapes;
    for i := 0 to TreeCount
      invariant rng.State() == s0.Skip(4 * i)
      invariant draw.shapes == start + Trees(p, width, height, s0, i)
    {
      ghost var trees, tree := Trees(p, width, height, s0, i), Tree(p, width, height, s0.Skip(4 * i));
      DrawTree(draw, rng, p, width, height);
      assert draw.shapes == (start + trees) + tree;
      AppendAssoc(start, trees, tree);
      assert Trees(p, width, height, s0, i + 1) == trees + tree;
    }
  }

  /** One pass of the tree loop. */
  method DrawTree(draw: Sketch, rng: DrawSource, p: Palette, width: nat, height: nat)
    requires p.Usable() && width >= 100
    modifies draw, rng
    ensures draw.shapes == old(draw.shapes) + Tree(p, width, height, old(rng.State()))
    ensures rng.State() == old(rng.State()).Skip(4)
  {
    var x := rng.RandInt(50, width - 50);
    var trunkHeight := rng.RandInt(60, 100);
    var trunkColor := rng.Choice(p.secondary);
    draw.Draw(Rectangle(Box(x - 8, height - trunkHeight, x + 8, height), trunkColor));
    var leavesColor := rng.Choice(p.primary[..2]);
    draw.Draw(Ellipse(Box(x - 25, height - trunkHeight - 50, x + 25, height - trunkHeight), leavesColor));
  }

  method DrawMountain(draw: Sketch, rng: DrawSource, p: Palette, width: nat, height: nat)
    requires p.Usable()
    modifies draw, rng
    ensures draw.shapes == old(draw.shapes) + MountainScene(p, width, height, old(rng.State())).shapes
    ensures rng.State() == MountainScene(p, width, height, old(rng.State())).rest
  {
    draw.Draw(Rectangle(Box(0, 0, width, height / 2), SkyBlue));
    var mountainColor := rng.Choice(p.primary);
    draw.Draw(Polygon([Point(-50, height / 2), Point(width / 3, height / 3), Point(width / 2, height / 2)], mountainColor));
    draw.Draw(Polygon([Point(width / 2, height / 2), Point(2 * width / 3, height / 4), Point(width + 50, height / 2)], mountainColor));
    draw.Draw(Polygon([Point(2 * width / 3, height / 2), Point(width, height / 5), Point(width + 50, height / 2)], mountainColor));
    draw.Draw(Ellipse(Box(width / 3 - 40, height / 3 - 15, width / 3 + 40, height / 3 + 15), White));
    draw.Draw(Ellipse(Box(2 * width / 3 - 35, height / 5 - 12, 2 * width / 3 + 35, height / 5 + 12), White));
  }

  method DrawCastle(draw: Sketch, rng: DrawSource, p: Palette, width: nat, height: nat)
    requires p.Usable()
    modifies draw, rng
    ensures draw.shapes == old(draw.shapes) + CastleScene(p, width, height, old(rng.State())).shapes
    ensures rng.State() == CastleScene(p, width, height, old(rng.State())).rest
  {
    ghost var s0 := rng.State();
    ghost var start := draw.shapes;
    draw.Draw(Rectangle(Box(0, 0, width, height), SkyBlue));
    var castleColor := rng.Choice(p.primary);
    draw.Draw(Rectangle(Box(width / 4, height / 2, 3 * width / 4, height), castleColor));
    ghost var head := [Rectangle(Box(0, 0, width, height), SkyBlue),
                       Rectangle(Box(width / 4, height / 2, 3 * width / 4, height), castleColor)];
    assert draw.shapes == start + head;
    var towerPositions := [width / 4, width / 2, 3 * width / 4];
    ghost var towers := Towers(p, towerPositions, height, s0.Skip(1));
    DrawTowers(draw, rng, p, towerPositions, height);
    AppendAssoc(start, head, towers);
    ghost var windows := Windows(towerPositions, height);
    DrawWindows(draw, towerPositions, height);
    AppendAssoc(start, head + towers, windows);
    assert CastleScene(p, width, height, s0).shapes == head + towers + windows;
    assert s0.Skip(1).Skip(2 * 3) == s0.Skip(7);
  }

  method DrawTowers(draw: Sketch, rng: DrawSource, p: Palette, positions: seq<int>, height: nat)
    requires p.Usable()
    modifies draw, rng
    ensures draw.shapes == old(draw.shapes) + Towers(p, positions, height, old(rng.State()))
    ensures rng.State() == old(rng.State()).Skip(2 * |positions|)
  {
    ghost var s0 := rng.State();
    ghost var start := draw.shapes;
    for i := 0 to |positions|
      invariant rng.State() == s0.Skip(2 * i)
      invariant draw.shapes == start + Towers(p, positions[..i], height, s0)
    {
      ghost var towers, tower := Towers(p, positions[..i], height, s0), Tower(p, positions[i], height, s0.Skip(2 * i));
      DrawTower(draw, rng, p, positions[i], height);
      assert draw.shapes == (start + towers) + tower;
      AppendAssoc(start, towers, tower);
      assert positions[..i + 1][..i] == positions[..i];
      assert Towers(p, positions[..i + 1], height, s0) == towers + tower;
    }
    assert positions[..|positions|] == positions;
  }

  /** One tower body and its roof; two draws. */
  method DrawTower(draw: Sketch, rng: DrawSource, p: Palette, pos: int, height: nat)
    requires p.Usable()
    modifies draw, rng
    ensures draw.shapes == old(draw.shapes) + Tower(p, pos, height, old(rng.State()))
    ensures rng.State() == old(rng.State()).Skip(2)
  {
    var towerColor := rng.Choice(p.secondary);
    draw.Draw(Rectangle(Box(pos - 25, height / 3, pos + 25, height), towerColor));
    var topColor := rng.Choice(p.accent);
    draw.Draw(Polygon([Point(pos - 30, height / 3), Point(pos + 30, height / 3), Point(pos + 20, height / 4), Point(pos - 20, height / 4)],
                      topColor));
  }

  method DrawWindows(draw: Sketch, positions: seq<int>, height: nat)
    modifies draw
    ensures draw.shapes == old(draw.shapes) + Windows(positions, height)
  {
    for i := 0 to |positions|
      invariant draw.shapes == old(draw.shapes) + Windows(positions[..i], height)
    {
      DrawTowerWindows(draw, positions[i], height);
      assert positions[..i + 1][..i] == positions[..i];
    }
    assert positions[..|positions|] == positions;
  }

  /** `for y in range(height // 2, height - 40, 50)` for one tower. */
  method DrawTowerWindows(draw: Sketch, pos: int, height: nat)
    modifies draw
    ensures draw.shapes == old(draw.shapes) + TowerWindows(pos, height, WindowRowCount(height))
  {
    var y := height / 2;
    ghost var n: nat := 0;
    WindowRowCountRange(height);
    while y < height - 40
      invariant y == height / 2 + 50 * n && n <= WindowRowCount(height)
      invariant draw.shapes == old(draw.shapes) + TowerWindows(pos, height, n)
      decreases height - y
    {
      draw.Draw(Rectangle(Box(pos - 10, y, pos + 10, y + 25), WindowYellow));
      y := y + 50;
      n := n + 1;
    }
  }

  method DrawDesert(draw: Sketch, rng: DrawSource, p: Palette, width: nat, height: nat)
    requires p.Usable() && width >= 200
    modifies draw, rng
    ensures draw.shapes == old(draw.shapes) + DesertScene(p, width, height, old(rng.State())).shapes
    ensures rng.State() == DesertScene(p, width, height, old(rng.State())).rest
  {
    ghost var s0, start := rng.State(), draw.shapes;
    ghost var after := DuneStart(s0.Skip(1), width, DuneCount);
    ghost var sky := [Rectangle(Box(0, 0, width, height / 3), SkyBlue)];
    draw.Draw(Rectangle(Box(0, 0, width, height / 3), SkyBlue));
    DrawSandDunes(draw, rng, p, width, height);
    ghost var dunes := Dunes(s0.Choice(p.primary), width, height, s0.Skip(1), DuneCount);
    assert draw.shapes == (start + sky) + dunes;
    AppendAssoc(start, sky, dunes);
    DrawCactusField(draw, rng, p, width, height);
    ghost var cacti := Cacti(after.Choice(p.secondary), width, height, after.Skip(1), CactusCount);
    assert draw.shapes == (start + (sky + dunes)) + cacti;
    AppendAssoc(start, sky + dunes, cacti);
    assert DesertScene(p, width, height, s0) == Emitted(sky + dunes + cacti, after.Skip(1 + CactusCount));
  }

  /** The sand colour, then the dune loop. */
  method DrawSandDunes(draw: Sketch, rng: DrawSource, p: Palette, width: nat, height: nat)
    requires p.Usable()
    modifies draw, rng
    ensures draw.shapes == old(draw.shapes) + Dunes(old(rng.State()).Choice(p.primary), width, height, old(rng.State()).Skip(1), DuneCount)
    ensures rng.State() == DuneStart(old(rng.State()).Skip(1), width, DuneCount)
  {
    var sandColor := rng.Choice(p.primary);
    DrawDunes(draw, rng, sandColor, width, height);
  }

  /** The cactus colour, then the cactus loop. */
  method DrawCactusField(draw: Sketch, rng: DrawSource, p: Palette, width: nat, height: nat)
    requires p.Usable() && width >= 200
    modifies draw, rng
    ensures draw.shapes == old(draw.shapes) + Cacti(old(rng.State()).Choice(p.secondary), width, height, old(rng.State()).Skip(1), CactusCount)
    ensures rng.State() == old(rng.State()).Skip(1 + CactusCount)
  {
    var cactusColor := rng.Choice(p.secondary);
    DrawCacti(draw, rng, cactusColor, width, height);
  }

  method DrawDunes(draw: Sketch, rng: DrawSource, sand: Rgb, width: nat, height: nat)
    modifies draw, rng
    ensures draw.shapes == old(draw.shapes) + Dunes(sand, width, height, old(rng.State()), DuneCount)
    ensures rng.State() == DuneStart(old(rng.State()), width, DuneCount)
  {
    ghost var s0 := rng.State();
    ghost var start := draw.shapes;
    for i := 0 to DuneCount
      invariant rng.State() == DuneStart(s0, width, i)
      invariant draw.shapes == start + Dunes(sand, width, height, s0, i)
    {
      var yBase := height / 3 + i * 60;
      ghost var dunes, dune := Dunes(sand, width, height, s0, i), Dune(sand, width, yBase, DuneStart(s0, width, i));
      DrawDune(draw, rng, sand, width, yBase);
      assert draw.shapes == (start + dunes) + dune;
      AppendAssoc(start, dunes, dune);
      assert Dunes(sand, width, height, s0, i + 1) == dunes + dune;
      DuneStartNext(s0, width, i);
    }
  }

  /** One dune: a ridge point every 80 columns, then the polygon if the
      ridge has more than two points. */
  method DrawDune(draw: Sketch, rng: DrawSource, sand: Rgb, width: nat, yBase: int)
    modifies draw, rng
    ensures draw.shapes == old(draw.shapes) + Dune(sand, width, yBase, old(rng.State()))
    ensures rng.State() == old(rng.State()).Skip(DunePointCount(width))
  {
    ghost var s0 := rng.State();
    var points: seq<Point> := [];
    var x := 0;
    ghost var n: nat := 0;
    while x < width + 100
      invariant x == 80 * n && n <= DunePointCount(width)
      invariant points == DunePoints(yBase, s0, n)
      invariant rng.State() == s0.Skip(n)
      invariant draw.shapes == old(draw.shapes)
      decreases width + 100 - x
    {
      var dy := rng.RandInt(-40, 40);
      points := points + [Point(x, yBase + dy)];
      x := x + 80;
      n := n + 1;
    }
    if |points| > 2 {
      draw.Draw(Polygon(points, sand));
    }
  }

  method DrawCacti(draw: Sketch, rng: DrawSource, c: Rgb, width: nat, height: nat)
    requires width >= 200
    modifies draw, rng
    ensures draw.shapes == old(draw.shapes) + Cacti(c, width, height, old(rng.State()), CactusCount)
    ensures rng.State() == old(rng.State()).Skip(CactusCount)
  {
    ghost var s0 := rng.State();
    ghost var start := draw.shapes;
    for i := 0 to CactusCount
      invariant rng.State() == s0.Skip(i)
      invariant draw.shapes == start + Cacti(c, width, height, s0, i)
    {
      ghost var cacti, cactus := Cacti(c, width, height, s0, i), Cactus(c, width, height, s0.Skip(i));
      DrawCactus(draw, rng, c, width, height);
      assert draw.shapes == (start + cacti) + cactus;
      AppendAssoc(start, cacti, cactus);
      assert Cacti(c, width, height, s0, i + 1) == cacti + cactus;
    }
  }

  /** One pass of the cactus loop. */
  method DrawCactus(draw: Sketch, rng: DrawSource, c: Rgb, width: nat, height: nat)
    requires width >= 200
    modifies draw, rng
    ensures draw.shapes == old(draw.shapes) + Cactus(c, width, height, old(rng.State()))
    ensures rng.State() == old(rng.State()).Skip(1)
  {
    var x := rng.RandInt(100, width - 100);
    draw.Draw(Rectangle(Box(x - 4, height - 80, x + 4, height - 30), c));
    draw.Draw(Rectangle(Box(x - 12, height - 60, x - 4, height - 50), c));
    draw.Draw(Rectangle(Box(x + 4, height - 65, x + 12, height - 55), c));
  }

  method DrawCave(draw: Sketch, rng: DrawSource, p: Palette, width: nat, height: nat)
    requires p.Usable() && width >= 200 && height >= 200
    modifies draw, rng
    ensures draw.shapes == old(draw.shapes) + CaveScene(p, width, height, old(rng.State())).shapes
    ensures rng.State() == CaveScene(p, width, height, old(rng.State())).rest
  {
    ghost var s0 := rng.State();
    ghost var start := draw.shapes;
    var caveColor := rng.Choice(p.primary);
    draw.Draw(Rectangle(Box(0, 0, width, height), caveColor));
    ghost var back := [Rectangle(Box(0, 0, width, height), caveColor)];
    ghost var rocks := CaveRocks(p, width, height, s0.Skip(1));
    DrawRocks(draw, rng, p, width, height);
    AppendAssoc(start, back, rocks);
    ghost var crystals := CaveCrystals(p, width, height, s0.Skip(18));
    DrawCrystalField(draw, rng, p, width, height);
    AppendAssoc(start, back + rocks, crystals);
    assert CaveScene(p, width, height, s0).shapes == back + rocks + crystals;
    assert s0.Skip(1).Skip(17).Skip(16) == s0.Skip(34);
  }

  method DrawRocks(draw: Sketch, rng: DrawSource, p: Palette, width: nat, height: nat)
    requires p.Usable() && width >= 200
    modifies draw, rng
    ensures draw.shapes == old(draw.shapes) + CaveRocks(p, width, height, old(rng.State()))
    ensures rng.State() == old(rng.State()).Skip(17)
  {
    var rockColor := rng.Choice(p.secondary);
    DrawSpikes(draw, rng, rockColor, width, height);
  }

  method DrawCrystalField(draw: Sketch, rng: DrawSource, p: Palette, width: nat, height: nat)
    requires p.Usable() && width >= 200 && height >= 200
    modifies draw, rng
    ensures draw.shapes == old(draw.shapes) + CaveCrystals(p, width, height, old(rng.State()))
    ensures rng.State() == old(rng.State()).Skip(16)
  {
    var crystalColor := rng.Choice(p.accent);
    DrawCrystals(draw, rng, crystalColor, width, height);
  }

  method DrawSpikes(draw: Sketch, rng: DrawSource, rock: Rgb, width: nat, height: nat)
    requires width >= 100
    modifies draw, rng
    ensures draw.shapes == old(draw.shapes) + Spikes(rock, width, height, old(rng.State()), SpikeCount)
    ensures rng.State() == old(rng.State()).Skip(2 * SpikeCount)
  {
    ghost var s0 := rng.State();
    ghost var start := draw.shapes;
    for i := 0 to SpikeCount
      invariant rng.State() == s0.Skip(2 * i)
      invariant draw.shapes == start + Spikes(rock, width, height, s0, i)
    {
      ghost var spikes, spike := Spikes(rock, width, height, s0, i), Spike(rock, width, height, s0.Skip(2 * i));
      DrawSpike(draw, rng, rock, width, height);
      assert draw.shapes == (start + spikes) + spike;
      AppendAssoc(start, spikes, spike);
      assert Spikes(rock, width, height, s0, i + 1) == spikes + spike;
    }
  }

  /** One pass of the spike loop. */
  method DrawSpike(draw: Sketch, rng: DrawSource, rock: Rgb, width: nat, height: nat)
    requires width >= 100
    modifies draw, rng
    ensures draw.shapes == old(draw.shapes) + Spike(rock, width, height, old(rng.State()))
    ensures rng.State() == old(rng.State()).Skip(2)
  {
    var x := rng.RandInt(50, width - 50);
    var heightVar := rng.RandInt(30, 80);
    draw.Draw(Polygon([Point(x - 5, 0), Point(x + 5, 0), Point(x, heightVar)], rock));
    draw.Draw(Polygon([Point(x - 5, height), Point(x + 5, height), Point(x, height - heightVar)], rock));
  }

  method DrawCrystals(draw: Sketch, rng: DrawSource, c: Rgb, width: nat, height: nat)
    requires width >= 200 && height >= 200
    modifies draw, rng
    ensures draw.shapes == old(draw.shapes) + Crystals(c, width, height, old(rng.State()), CrystalCount)
    ensures rng.State() == old(rng.State()).Skip(3 * CrystalCount)
  {
    ghost var s0 := rng.State();
    ghost var start := draw.shapes;
    for i := 0 to CrystalCount
      invariant rng.State() == s0.Skip(3 * i)
      invariant draw.shapes == start + Crystals(c, width, height, s0, i)
    {
      ghost var crystals, crystal := Crystals(c, width, height, s0, i), [Crystal(c, width, height, s0.Skip(3 * i))];
      DrawCrystal(draw, rng, c, width, height);
      assert draw.shapes == (start + crystals) + crystal;
      AppendAssoc(start, crystals, crystal);
      assert Crystals(c, width, height, s0, i + 1) == crystals + crystal;
    }
  }

  /** One pass of the crystal loop. */
  method DrawCrystal(draw: Sketch, rng: DrawSource, c: Rgb, width: nat, height: nat)
    requires width >= 200 && height >= 200
    modifies draw, rng
    ensures draw.shapes == old(draw.shapes) + [Crystal(c, width, height, old(rng.State()))]
    ensures rng.State() == old(rng.State()).Skip(3)
  {
    var x := rng.RandInt(100, width - 100);
    var y := rng.RandInt(100, height - 100);
    var size := rng.RandInt(10, 25);
    draw.Draw(Polygon([Point(x, y - size), Point(x - size / 2, y), Point(x + size / 2, y)], c));
  }
}
