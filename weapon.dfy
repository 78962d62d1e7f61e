/** The weapon renderer (ImageGeneration.py `_draw_weapon`): one of five
    weapon bodies chosen by the lower-cased tag, then ten glow dots. */
module WeaponRenderer {
  import opened Colors
  import opened Draws
  import opened Shapes
  import opened Palettes
  import opened Routing
  import opened Strings

  const GlowCount: nat := 10

  /** Blade, guard, handle (from `primary[2:]`) and pommel; four draws. */
  function SwordBody(p: Palette, cx: int, cy: int, s: Stream): seq<Shape>
    requires p.Usable()
  {
    [ Rectangle(Box(cx - 4, cy - 80, cx + 4, cy + 20), s.Choice(p.primary)),
      Rectangle(Box(cx - 25, cy + 15, cx + 25, cy + 25), s.Skip(1).Choice(p.secondary)),
      Rectangle(Box(cx - 3, cy + 25, cx + 3, cy + 60), s.Skip(2).Choice(p.primary[2..])),
      Ellipse(Box(cx - 6, cy + 55, cx + 6, cy + 65), s.Skip(3).Choice(p.accent)) ]
  }

  /** Handle (from `primary[2:]`), four-point blade and edge; three draws. */
  function AxeBody(p: Palette, cx: int, cy: int, s: Stream): seq<Shape>
    requires p.Usable()
  {
    [ Rectangle(Box(cx - 3, cy + 20, cx + 3, cy + 80), s.Choice(p.primary[2..])),
      Polygon([Point(cx - 30, cy - 20), Point(cx + 30, cy - 20), Point(cx + 20, cy + 20), Point(cx - 20, cy + 20)],
              s.Skip(1).Choice(p.secondary)),
      Rectangle(Box(cx - 25, cy - 15, cx + 25, cy - 5), s.Skip(2).Choice(p.accent)) ]
  }

  /** One segment of the bow curve, for offset `i` in `range(-20, 21, 2)`. */
  function BowSegment(cx: int, cy: int, fill: Rgb, i: int): Shape {
    Line([Point(cx - 40, cy + i), Point(cx + 40, cy + (i * i) / 100)], fill, 3)
  }

  /** The first `n` bow segments, offsets -20, -18, ... */
  function BowCurve(cx: int, cy: int, fill: Rgb, n: nat): seq<Shape> {
    if n == 0 then []
    else BowCurve(cx, cy, fill, n - 1) + [BowSegment(cx, cy, fill, -20 + 2 * (n - 1))]
  }

  /** `len(range(-20, 21, 2))`. */
  const BowSegments: nat := 21

  /** Curve in one primary colour, then the string; two draws. */
  function BowBody(p: Palette, cx: int, cy: int, s: Stream): seq<Shape>
    requires p.Usable()
  {
    BowCurve(cx, cy, s.Choice(p.primary), BowSegments)
    + [Line([Point(cx - 35, cy), Point(cx + 35, cy)], s.Skip(1).Choice(p.secondary), 2)]
  }

  /** The vertical offsets of the staff's three rings. */
  const RingOffsets: seq<int> := [-40, -10, 20]

  function StaffRings(cx: int, cy: int, fill: Rgb, offsets: seq<int>): seq<Shape> {
    if offsets == [] then []
    else
      var y := cy + offsets[|offsets| - 1];
      StaffRings(cx, cy, fill, offsets[..|offsets| - 1]) + [Ellipse(Box(cx - 8, y - 3, cx + 8, y + 3), fill)]
  }

  /** Shaft (from `primary[2:]`), orb and three rings in one colour; three draws. */
  function StaffBody(p: Palette, cx: int, cy: int, s: Stream): seq<Shape>
    requires p.Usable()
  {
    [ Rectangle(Box(cx - 4, cy - 100, cx + 4, cy + 80), s.Choice(p.primary[2..])),
      Ellipse(Box(cx - 15, cy - 110, cx + 15, cy - 80), s.Skip(1).Choice(p.accent)) ]
    + StaffRings(cx, cy, s.Skip(2).Choice(p.secondary), RingOffsets)
  }

  /** Blade, guard and handle (from `primary[2:]`), shorter than the sword's; three draws. */
  function DaggerBody(p: Palette, cx: int, cy: int, s: Stream): seq<Shape>
    requires p.Usable()
  {
    [ Rectangle(Box(cx - 2, cy - 60, cx + 2, cy + 20), s.Choice(p.primary)),
      Rectangle(Box(cx - 12, cy + 15, cx + 12, cy + 25), s.Skip(1).Choice(p.secondary)),
      Rectangle(Box(cx - 2, cy + 25, cx + 2, cy + 50), s.Skip(2).Choice(p.primary[2..])) ]
  }

  function BodyDraws(kind: WeaponKind): nat {
    match kind
    case Sword => 4
    case Axe => 3
    case Bow => 2
    case Staff => 3
    case Dagger => 3
  }

  function WeaponBody(p: Palette, kind: WeaponKind, cx: int, cy: int, s: Stream): seq<Shape>
    requires p.Usable()
  {
    match kind
    case Sword => SwordBody(p, cx, cy, s)
    case Axe => AxeBody(p, cx, cy, s)
    case Bow => BowBody(p, cx, cy, s)
    case Staff => StaffBody(p, cx, cy, s)
    case Dagger => DaggerBody(p, cx, cy, s)
  }

  /** One glow dot: draws x, y and size in that order. */
  function GlowDot(fill: Rgb, cx: int, cy: int, s: Stream): Shape {
    Dot(s.RandInt(cx - 50, cx + 50), s.Skip(1).RandInt(cy - 50, cy + 50), s.Skip(2).RandInt(1, 3), fill)
  }

  /** The first `n` glow dots, three draws each. */
  function GlowDots(fill: Rgb, cx: int, cy: int, s: Stream, n: nat): seq<Shape> {
    if n == 0 then []
    else GlowDots(fill, cx, cy, s, n - 1) + [GlowDot(fill, cx, cy, s.Skip(3 * (n - 1)))]
  }

  /** Everything `_draw_weapon` draws for a given draw stream. */
  function WeaponScene(p: Palette, weaponType: string, w: nat, h: nat, s: Stream): Emitted
    requires p.Usable()
  {
    var kind := WeaponKindOf(weaponType);
    var k := BodyDraws(kind);
    var glow := s.Skip(k).Choice(p.accent);
    Emitted(WeaponBody(p, kind, w / 2, h / 2, s) + GlowDots(glow, w / 2, h / 2, s.Skip(k + 1), GlowCount),
            s.Skip(k + 1 + 3 * GlowCount))
  }

  function BodyShapes(kind: WeaponKind): nat {
    match kind
    case Sword => 4
    case Axe => 3
    case Bow => BowSegments + 1
    case Staff => 5
    case Dagger => 3
  }

  /** Every glow dot has the shared colour, its corner within 50 pixels of
      the centre on both axes and side 1 to 3. */
  lemma {:induction false} GlowDotsWithin(fill: Rgb, cx: int, cy: int, s: Stream, n: nat)
    ensures |GlowDots(fill, cx, cy, s, n)| == n
    ensures forall i :: 0 <= i < n ==>
      DotWithin(GlowDots(fill, cx, cy, s, n)[i], cx - 50, cx + 50, cy - 50, cy + 50, 1, 3)
      && GlowDots(fill, cx, cy, s, n)[i].fill == fill
  {
    if n > 0 {
      GlowDotsWithin(fill, cx, cy, s, n - 1);
    }
  }

  /** Segment `k` of the bow starts at offset `-20 + 2k` on the left and ends
      at most 4 pixels below the centre line on the right, width 3, one colour. */
  lemma {:induction false} BowCurveShape(cx: int, cy: int, fill: Rgb, n: nat)
    ensures |BowCurve(cx, cy, fill, n)| == n
    ensures forall k :: 0 <= k < n ==> BowLine(BowCurve(cx, cy, fill, n)[k], cx, cy, fill, k)
  {
    if n > 0 {
      var prev := BowCurve(cx, cy, fill, n - 1);
      var last := BowSegment(cx, cy, fill, -20 + 2 * (n - 1));
      assert BowCurve(cx, cy, fill, n) == prev + [last];
      BowCurveShape(cx, cy, fill, n - 1);
      BowSegmentShape(cx, cy, fill, n - 1);
      BowAppend(cx, cy, fill, prev, last, n);
    }
  }

  /** Segment `k` of the bow: a width-3 line in the bow colour from offset
      `-20 + 2k` on the left to a point at most 4 pixels below the centre
      line on the right, for the 21 segments the loop draws. */
  predicate BowLine(l: Shape, cx: int, cy: int, fill: Rgb, k: int) {
    l.Line? && l.fill == fill && l.width == 3 && |l.points| == 2
    && l.points[0] == Point(cx - 40, cy - 20 + 2 * k)
    && l.points[1].x == cx + 40
    && (0 <= k <= 20 ==> cy <= l.points[1].y <= cy + 4)
  }

  lemma BowSegmentShape(cx: int, cy: int, fill: Rgb, k: nat)
    ensures BowLine(BowSegment(cx, cy, fill, -20 + 2 * k), cx, cy, fill, k)
  {
    var i := -20 + 2 * k;
    if k <= 20 {
      assert 0 <= i * i <= 400 by {
        assert -20 <= i <= 20;
        if i < 0 { assert i * i == (-i) * (-i); }
      }
    }
  }

  /** One more bow segment after `n - 1` of them. */
  lemma BowAppend(cx: int, cy: int, fill: Rgb, prev: seq<Shape>, last: Shape, n: nat)
    requires n > 0 && |prev| == n - 1
    requires forall k :: 0 <= k < n - 1 ==> BowLine(prev[k], cx, cy, fill, k)
    requires BowLine(last, cx, cy, fill, n - 1)
    ensures forall k :: 0 <= k < n ==> BowLine((prev + [last])[k], cx, cy, fill, k)
  {
    var all := prev + [last];
    forall k | 0 <= k < n
      ensures BowLine(all[k], cx, cy, fill, k)
    {
      if k < n - 1 {
        assert all[k] == prev[k];
      }
    }
  }

  lemma {:induction false} StaffRingsShape(cx: int, cy: int, fill: Rgb, offsets: seq<int>)
    ensures |StaffRings(cx, cy, fill, offsets)| == |offsets|
    ensures forall k :: 0 <= k < |offsets| ==>
      StaffRings(cx, cy, fill, offsets)[k] == Ellipse(Box(cx - 8, cy + offsets[k] - 3, cx + 8, cy + offsets[k] + 3), fill)
  {
    if offsets != [] {
      var init := offsets[..|offsets| - 1];
      StaffRingsShape(cx, cy, fill, init);
      assert forall k :: 0 <= k < |init| ==> init[k] == offsets[k];
    }
  }

  /** The layout promised for every weapon: the body of the routed kind (4,
      3, 22, 5 or 3 commands), then exactly ten glow dots sharing one accent
      colour, each within 50 pixels of the centre with side 1 to 3. */
  lemma WeaponLayout(p: Palette, weaponType: string, w: nat, h: nat, s: Stream)
    requires p.Usable()
    ensures var kind := WeaponKindOf(weaponType);
      var e := WeaponScene(p, weaponType, w, h, s);
      var b := BodyShapes(kind);
      |e.shapes| == b + GlowCount
      && e.shapes[..b] == WeaponBody(p, kind, w / 2, h / 2, s)
      && e.shapes[b].fill in p.accent
      && (forall i :: b <= i < |e.shapes| ==>
            e.shapes[i].fill == e.shapes[b].fill
            && DotWithin(e.shapes[i], w / 2 - 50, w / 2 + 50, h / 2 - 50, h / 2 + 50, 1, 3))
      && e.rest == s.Skip(BodyDraws(kind) + 1 + 3 * GlowCount)
  {
    var kind := WeaponKindOf(weaponType);
    var k := BodyDraws(kind);
    var glow := s.Skip(k).Choice(p.accent);
    var body := WeaponBody(p, kind, w / 2, h / 2, s);
    var dots := GlowDots(glow, w / 2, h / 2, s.Skip(k + 1), GlowCount);
    GlowDotsWithin(glow, w / 2, h / 2, s.Skip(k + 1), GlowCount);
    BodyShapeCount(p, kind, w / 2, h / 2, s);
    assert WeaponScene(p, weaponType, w, h, s).shapes == body + dots;
    var all := body + dots;
    assert all[..|body|] == body;
    assert forall i :: |body| <= i < |all| ==> all[i] == dots[i - |body|];
  }

  /** Each weapon body has the number of commands `BodyShapes` gives. */
  lemma BodyShapeCount(p: Palette, kind: WeaponKind, cx: int, cy: int, s: Stream)
    requires p.Usable()
    ensures |WeaponBody(p, kind, cx, cy, s)| == BodyShapes(kind)
  {
    match kind
    case Bow => BowCurveShape(cx, cy, s.Choice(p.primary), BowSegments);
    case Staff => StaffRingsShape(cx, cy, s.Skip(2).Choice(p.secondary), RingOffsets);
    case _ =>
  }

  /** The bow is 21 curve segments and a string. */
  lemma BowLayout(p: Palette, cx: int, cy: int, s: Stream)
    requires p.Usable()
    ensures var b := BowBody(p, cx, cy, s);
      |b| == 22 && (forall k :: 0 <= k < 21 ==> b[k].Line? && b[k].width == 3 && b[k].fill == b[0].fill)
      && b[21].Line? && b[21].width == 2 && b[21].fill in p.secondary
  {
    BowCurveShape(cx, cy, s.Choice(p.primary), BowSegments);
  }

  /** An unrecognised tag draws exactly what "dagger" draws. */
  lemma UnknownWeaponIsDagger(p: Palette, weaponType: string, w: nat, h: nat, s: Stream)
    requires p.Usable()
    requires Lower(weaponType) !in ["sword", "axe", "bow", "staff"]
    ensures WeaponScene(p, weaponType, w, h, s) == WeaponScene(p, "dagger", w, h, s)
  {
    LowerOfLowerCase("dagger");
    assert WeaponKindOf("dagger") == Dagger;
    WeaponKindOfName(Dagger, weaponType);
    SameKindSameScene(p, weaponType, "dagger", w, h, s);
  }

  /** The scene depends on the tag only through the weapon it names. */
  lemma SameKindSameScene(p: Palette, t1: string, t2: string, w: nat, h: nat, s: Stream)
    requires p.Usable() && WeaponKindOf(t1) == WeaponKindOf(t2)
    ensures WeaponScene(p, t1, w, h, s) == WeaponScene(p, t2, w, h, s)
  {
  }

  /** `_draw_weapon(draw, palette, weapon_type, width, height)`. */
  method DrawWeapon(draw: Sketch, rng: DrawSource, p: Palette, weaponType: string, width: nat, height: nat)
    requires p.Usable()
    modifies draw, rng
    ensures draw.shapes == old(draw.shapes) + WeaponScene(p, weaponType, width, height, old(rng.State())).shapes
    ensures rng.State() == WeaponScene(p, weaponType, width, height, old(rng.State())).rest
  {
    ghost var s0, start := rng.State(), draw.shapes;
    ghost var kind := WeaponKindOf(weaponType);
    ghost var k := BodyDraws(kind);
    var cx, cy := width / 2, height / 2;
    DrawWeaponBody(draw, rng, p, weaponType, cx, cy);
    ghost var body := WeaponBody(p, kind, cx, cy, s0);
    assert draw.shapes == start + body && rng.State() == s0.Skip(k);
    var glowColor := rng.Choice(p.accent);
    assert glowColor == s0.Skip(k).Choice(p.accent) && rng.State() == s0.Skip(k + 1);
    DrawGlow(draw, rng, glowColor, cx, cy);
    ghost var dots := GlowDots(glowColor, cx, cy, s0.Skip(k + 1), GlowCount);
    assert draw.shapes == (start + body) + dots;
    AppendAssoc(start, body, dots);
    assert rng.State() == s0.Skip(k + 1 + 3 * GlowCount);
  }

  /** The branch on `weapon_type.lower()` that draws the weapon's body. */
  method DrawWeaponBody(draw: Sketch, rng: DrawSource, p: Palette, weaponType: string, cx: int, cy: int)
    requires p.Usable()
    modifies draw, rng
    ensures draw.shapes == old(draw.shapes) + WeaponBody(p, WeaponKindOf(weaponType), cx, cy, old(rng.State()))
    ensures rng.State() == old(rng.State()).Skip(BodyDraws(WeaponKindOf(weaponType)))
  {
    var t := Lower(weaponType);
    if t == "sword" {
      DrawSword(draw, rng, p, cx, cy);
    } else if t == "axe" {
      DrawAxe(draw, rng, p, cx, cy);
    } else if t == "bow" {
      DrawBow(draw, rng, p, cx, cy);
    } else if t == "staff" {
      DrawStaff(draw, rng, p, cx, cy);
    } else {
      DrawDagger(draw, rng, p, cx, cy);
    }
  }

  method DrawSword(draw: Sketch, rng: DrawSource, p: Palette, cx: int, cy: int)
    requires p.Usable()
    modifies draw, rng
    ensures draw.shapes == old(draw.shapes) + SwordBody(p, cx, cy, old(rng.State()))
    ensures rng.State() == old(rng.State()).Skip(4)
  {
    var bladeColor := rng.Choice(p.primary);
    draw.Draw(Rectangle(Box(cx - 4, cy - 80, cx + 4, cy + 20), bladeColor));
    var guardColor := rng.Choice(p.secondary);
    draw.Draw(Rectangle(Box(cx - 25, cy + 15, cx + 25, cy + 25), guardColor));
    var handleColor := rng.Choice(p.primary[2..]);
    draw.Draw(Rectangle(Box(cx - 3, cy + 25, cx + 3, cy + 60), handleColor));
    var pommelColor := rng.Choice(p.accent);
    draw.Draw(Ellipse(Box(cx - 6, cy + 55, cx + 6, cy + 65), pommelColor));
  }

  method DrawAxe(draw: Sketch, rng: DrawSource, p: Palette, cx: int, cy: int)
    requires p.Usable()
    modifies draw, rng
    ensures draw.shapes == old(draw.shapes) + AxeBody(p, cx, cy, old(rng.State()))
    ensures rng.State() == old(rng.State()).Skip(3)
  {
    var handleColor := rng.Choice(p.primary[2..]);
    draw.Draw(Rectangle(Box(cx - 3, cy + 20, cx + 3, cy + 80), handleColor));
    var bladeColor := rng.Choice(p.secondary);
    var bladePoints := [Point(cx - 30, cy - 20), Point(cx + 30, cy - 20), Point(cx + 20, cy + 20), Point(cx - 20, cy + 20)];
    draw.Draw(Polygon(bladePoints, bladeColor));
    var edgeColor := rng.Choice(p.accent);
    draw.Draw(Rectangle(Box(cx - 25, cy - 15, cx + 25, cy - 5), edgeColor));
  }

  method DrawBow(draw: Sketch, rng: DrawSource, p: Palette, cx: int, cy: int)
    requires p.Usable()
    modifies draw, rng
    ensures draw.shapes == old(draw.shapes) + BowBody(p, cx, cy, old(rng.State()))
    ensures rng.State() == old(rng.State()).Skip(2)
  {
    ghost var start := draw.shapes;
    var bowColor := rng.Choice(p.primary);
    var i := -20;
    ghost var n: nat := 0;
    while i < 21
      invariant i == -20 + 2 * n && n <= BowSegments
      invariant draw.shapes == start + BowCurve(cx, cy, bowColor, n)
      invariant rng.State() == old(rng.State()).Skip(1)
    {
      var y := cy + (i * i) / 100;
      draw.Draw(Line([Point(cx - 40, cy + i), Point(cx + 40, y)], bowColor, 3));
      i := i + 2;
      n := n + 1;
    }
    var stringColor := rng.Choice(p.secondary);
    draw.Draw(Line([Point(cx - 35, cy), Point(cx + 35, cy)], stringColor, 2));
  }

  method DrawStaff(draw: Sketch, rng: DrawSource, p: Palette, cx: int, cy: int)
    requires p.Usable()
    modifies draw, rng
    ensures draw.shapes == old(draw.shapes) + StaffBody(p, cx, cy, old(rng.State()))
    ensures rng.State() == old(rng.State()).Skip(3)
  {
    var shaftColor := rng.Choice(p.primary[2..]);
    draw.Draw(Rectangle(Box(cx - 4, cy - 100, cx + 4, cy + 80), shaftColor));
    var orbColor := rng.Choice(p.accent);
    draw.Draw(Ellipse(Box(cx - 15, cy - 110, cx + 15, cy - 80), orbColor));
    ghost var mid := draw.shapes;
    var ringColor := rng.Choice(p.secondary);
    for k := 0 to |RingOffsets|
      invariant draw.shapes == mid + StaffRings(cx, cy, ringColor, RingOffsets[..k])
      invariant rng.State() == old(rng.State()).Skip(3)
    {
      var y := cy + RingOffsets[k];
      draw.Draw(Ellipse(Box(cx - 8, y - 3, cx + 8, y + 3), ringColor));
      assert RingOffsets[..k + 1][..k] == RingOffsets[..k];
    }
    assert RingOffsets[..|RingOffsets|] == RingOffsets;
  }

  method DrawDagger(draw: Sketch, rng: DrawSource, p: Palette, cx: int, cy: int)
    requires p.Usable()
    modifies draw, rng
    ensures draw.shapes == old(draw.shapes) + DaggerBody(p, cx, cy, old(rng.State()))
    ensures rng.State() == old(rng.State()).Skip(3)
  {
    var bladeColor := rng.Choice(p.primary);
    draw.Draw(Rectangle(Box(cx - 2, cy - 60, cx + 2, cy + 20), bladeColor));
    var guardColor := rng.Choice(p.secondary);
    draw.Draw(Rectangle(Box(cx - 12, cy + 15, cx + 12, cy + 25), guardColor));
    var handleColor := rng.Choice(p.primary[2..]);
    draw.Draw(Rectangle(Box(cx - 2, cy + 25, cx + 2, cy + 50), handleColor));
  }

  /** The glow loop of `_draw_weapon`, after its colour has been drawn. */
  method DrawGlow(draw: Sketch, rng: DrawSource, glowColor: Rgb, cx: int, cy: int)
    modifies draw, rng
    ensures draw.shapes == old(draw.shapes) + GlowDots(glowColor, cx, cy, old(rng.State()), GlowCount)
    ensures rng.State() == old(rng.State()).Skip(3 * GlowCount)
  {
    ghost var s0 := rng.State();
    ghost var start := draw.shapes;
    for i := 0 to GlowCount
      invariant rng.State() == s0.Skip(3 * i)
      invariant draw.shapes == start + GlowDots(glowColor, cx, cy, s0, i)
    {
      ghost var dots, dot := GlowDots(glowColor, cx, cy, s0, i), [GlowDot(glowColor, cx, cy, s0.Skip(3 * i))];
      DrawGlowDot(draw, rng, glowColor, cx, cy);
      assert draw.shapes == (start + dots) + dot;
      AppendAssoc(start, dots, dot);
      assert GlowDots(glowColor, cx, cy, s0, i + 1) == dots + dot;
    }
  }

  /** One pass of the glow loop. */
  method DrawGlowDot(draw: Sketch, rng: DrawSource, glowColor: Rgb, cx: int, cy: int)
    modifies draw, rng
    ensures draw.shapes == old(draw.shapes) + [GlowDot(glowColor, cx, cy, old(rng.State()))]
    ensures rng.State() == old(rng.State()).Skip(3)
  {
    var x := rng.RandInt(cx - 50, cx + 50);
    var y := rng.RandInt(cy - 50, cy + 50);
    var size := rng.RandInt(1, 3);
    draw.Draw(Dot(x, y, size, glowColor));
  }
}
