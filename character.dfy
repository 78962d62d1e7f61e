/** The character renderer (ImageGeneration.py `_draw_fantasy_character`):
    a figure of nine shapes followed by fifteen decoration dots. */
module CharacterRenderer {
  import opened Colors
  import opened Draws
  import opened Shapes
  import opened Palettes
  import opened Routing
  import opened Strings

  const DecorationCount: nat := 15

  /** Colour draws the figure makes: body, head, eyes, armour and weapon, plus
      the crystal when the character carries a staff. */
  function FigureDraws(magic: bool): nat {
    if magic then 6 else 5
  }

  /** Body, head and the two eyes, centred on `(cx, cy)`; three colour draws. */
  function Face(p: Palette, cx: int, cy: int, s: Stream): seq<Shape>
    requires p.Usable()
  {
    var body := s.Choice(p.primary);
    var head := s.Skip(1).Choice(p.primary);
    var eye := s.Skip(2).Choice(p.accent);
    [ Ellipse(Box(cx - 25, cy - 40, cx + 25, cy + 40), body),
      Ellipse(Box(cx - 20, cy - 80, cx + 20, cy - 40), head),
      Ellipse(Box(cx - 8, cy - 65, cx - 2, cy - 55), eye),
      Ellipse(Box(cx + 2, cy - 65, cx + 8, cy - 55), eye) ]
  }

  /** The two shoulder pads and the belt in one secondary colour; one draw. */
  function Armour(p: Palette, cx: int, cy: int, s: Stream): seq<Shape>
    requires p.Usable()
  {
    var armor := s.Choice(p.secondary);
    [ Ellipse(Box(cx - 35, cy - 30, cx - 15, cy - 10), armor),
      Ellipse(Box(cx + 15, cy - 30, cx + 35, cy - 10), armor),
      Rectangle(Box(cx - 20, cy + 10, cx + 20, cy + 20), armor) ]
  }

  /** Body, head, two eyes, two shoulder pads and the belt; four colour draws. */
  function Torso(p: Palette, cx: int, cy: int, s: Stream): seq<Shape>
    requires p.Usable()
  {
    Face(p, cx, cy, s) + Armour(p, cx, cy, s.Skip(3))
  }

  /** The staff (shaft and crystal) or the sword (blade and crossguard). */
  function HeldWeapon(p: Palette, magic: bool, cx: int, cy: int, s: Stream): seq<Shape>
    requires p.Usable()
  {
    var weapon := s.Choice(p.secondary);
    if magic then
      [ Rectangle(Box(cx - 2, cy - 100, cx + 2, cy + 50), weapon),
        Ellipse(Box(cx - 8, cy - 110, cx + 8, cy - 90), s.Skip(1).Choice(p.accent)) ]
    else
      [ Rectangle(Box(cx - 3, cy - 90, cx + 3, cy + 30), weapon),
        Rectangle(Box(cx - 15, cy + 25, cx + 15, cy + 35), weapon) ]
  }

  function Figure(p: Palette, magic: bool, cx: int, cy: int, s: Stream): seq<Shape>
    requires p.Usable()
  {
    Torso(p, cx, cy, s) + HeldWeapon(p, magic, cx, cy, s.Skip(4))
  }

  /** One decoration dot: draws x, y, colour and size in that order. */
  function DecorationDot(p: Palette, w: nat, h: nat, s: Stream): Shape
    requires p.Usable()
  {
    Dot(s.RandInt(0, w), s.Skip(1).RandInt(0, h), s.Skip(3).RandInt(2, 6), s.Skip(2).Choice(p.accent))
  }

  /** The first `n` decoration dots, four draws each. */
  function DecorationDots(p: Palette, w: nat, h: nat, s: Stream, n: nat): seq<Shape>
    requires p.Usable()
  {
    if n == 0 then []
    else DecorationDots(p, w, h, s, n - 1) + [DecorationDot(p, w, h, s.Skip(4 * (n - 1)))]
  }

  /** Everything `_draw_fantasy_character` draws for a given draw stream. */
  function CharacterScene(p: Palette, style: string, w: nat, h: nat, s: Stream): Emitted
    requires p.Usable()
  {
    var magic := IsMagicStyle(style);
    var k := FigureDraws(magic);
    Emitted(Figure(p, magic, w / 2, h / 2, s) + DecorationDots(p, w, h, s.Skip(k), DecorationCount),
            s.Skip(k + 4 * DecorationCount))
  }

  /** Each decoration dot lies on the canvas, has side 2 to 6 and an accent colour. */
  lemma {:induction false} DecorationDotsWithin(p: Palette, w: nat, h: nat, s: Stream, n: nat)
    requires p.Usable()
    ensures |DecorationDots(p, w, h, s, n)| == n
    ensures forall i :: 0 <= i < n ==>
      DotWithin(DecorationDots(p, w, h, s, n)[i], 0, w, 0, h, 2, 6)
      && DecorationDots(p, w, h, s, n)[i].fill in p.accent
  {
    if n > 0 {
      DecorationDotsWithin(p, w, h, s, n - 1);
    }
  }

  /** The layout promised for every character: 24 commands; both eyes share
      one accent colour; both shoulder pads and the belt share one secondary
      colour; a staff (ending in an ellipse crystal) exactly when the style
      names a wizard or mage, otherwise a sword; then 15 dots on the canvas. */
  lemma CharacterLayout(p: Palette, style: string, w: nat, h: nat, s: Stream)
    requires p.Usable()
    ensures var e := CharacterScene(p, style, w, h, s);
      |e.shapes| == 9 + DecorationCount
      && e.shapes[0].fill in p.primary && e.shapes[1].fill in p.primary
      && e.shapes[2].fill == e.shapes[3].fill && e.shapes[2].fill in p.accent
      && e.shapes[4].fill == e.shapes[5].fill == e.shapes[6].fill && e.shapes[4].fill in p.secondary
      && e.shapes[6].Rectangle? && e.shapes[7].Rectangle? && e.shapes[7].fill in p.secondary
      && (e.shapes[8].Ellipse? <==> IsMagicStyle(style))
      && (forall i :: 9 <= i < |e.shapes| ==>
            DotWithin(e.shapes[i], 0, w, 0, h, 2, 6) && e.shapes[i].fill in p.accent)
      && e.rest == s.Skip(if IsMagicStyle(style) then 66 else 65)
  {
    var magic := IsMagicStyle(style);
    var k := FigureDraws(magic);
    var figure := Figure(p, magic, w / 2, h / 2, s);
    var dots := DecorationDots(p, w, h, s.Skip(k), DecorationCount);
    FigureLayout(p, magic, w / 2, h / 2, s);
    DecorationDotsWithin(p, w, h, s.Skip(k), DecorationCount);
    assert CharacterScene(p, style, w, h, s).shapes == figure + dots;
    DotsFollowFigure(p, figure, dots, w, h);
  }

  /** The dots keep their properties once they follow the nine figure shapes. */
  lemma DotsFollowFigure(p: Palette, figure: seq<Shape>, dots: seq<Shape>, w: int, h: int)
    requires |figure| == 9
    requires forall i :: 0 <= i < |dots| ==> DotWithin(dots[i], 0, w, 0, h, 2, 6) && dots[i].fill in p.accent
    ensures forall i :: 0 <= i < 9 ==> (figure + dots)[i] == figure[i]
    ensures forall i :: 9 <= i < |figure + dots| ==>
      DotWithin((figure + dots)[i], 0, w, 0, h, 2, 6) && (figure + dots)[i].fill in p.accent
  {
    var all := figure + dots;
    forall i | 9 <= i < |all|
      ensures DotWithin(all[i], 0, w, 0, h, 2, 6) && all[i].fill in p.accent
    {
      assert all[i] == dots[i - 9];
    }
  }

  /** The nine shapes of the figure: body and head in primary colours, both
      eyes in one accent colour, pads and belt in one secondary colour, then
      the weapon, whose second shape is an ellipse exactly for a staff. */
  lemma FigureLayout(p: Palette, magic: bool, cx: int, cy: int, s: Stream)
    requires p.Usable()
    ensures var f := Figure(p, magic, cx, cy, s);
      |f| == 9
      && f[0].fill in p.primary && f[1].fill in p.primary
      && f[2].fill == f[3].fill && f[2].fill in p.accent
      && f[4].fill == f[5].fill == f[6].fill && f[4].fill in p.secondary
      && f[6].Rectangle? && f[7].Rectangle? && f[7].fill in p.secondary
      && (f[8].Ellipse? <==> magic)
  {
  }

  /** `_draw_fantasy_character(draw, palette, style, width, height)`. */
  method DrawFantasyCharacter(draw: Sketch, rng: DrawSource, p: Palette, style: string, width: nat, height: nat)
    requires p.Usable()
    modifies draw, rng
    ensures draw.shapes == old(draw.shapes) + CharacterScene(p, style, width, height, old(rng.State())).shapes
    ensures rng.State() == CharacterScene(p, style, width, height, old(rng.State())).rest
  {
    ghost var s0, start := rng.State(), draw.shapes;
    var magic := Contains(Lower(style), "wizard") || Contains(Lower(style), "mage");
    assert magic == IsMagicStyle(style);
    DrawFigure(draw, rng, p, magic, width / 2, height / 2);
    ghost var k := FigureDraws(magic);
    ghost var figure := Figure(p, magic, width / 2, height / 2, s0);
    assert draw.shapes == start + figure && rng.State() == s0.Skip(k);
    DrawDecorations(draw, rng, p, width, height);
    ghost var dots := DecorationDots(p, width, height, s0.Skip(k), DecorationCount);
    assert draw.shapes == (start + figure) + dots;
    AppendAssoc(start, figure, dots);
    assert rng.State() == s0.Skip(k + 4 * DecorationCount);
  }

  /** The figure part of `_draw_fantasy_character`. */
  method DrawFigure(draw: Sketch, rng: DrawSource, p: Palette, magic: bool, cx: int, cy: int)
    requires p.Usable()
    modifies draw, rng
    ensures draw.shapes == old(draw.shapes) + Figure(p, magic, cx, cy, old(rng.State()))
    ensures rng.State() == old(rng.State()).Skip(FigureDraws(magic))
  {
    ghost var s0 := rng.State();
    DrawTorso(draw, rng, p, cx, cy);
    DrawHeldWeapon(draw, rng, p, magic, cx, cy);
    assert s0.Skip(4).Skip(FigureDraws(magic) - 4) == s0.Skip(FigureDraws(magic));
  }

  method DrawTorso(draw: Sketch, rng: DrawSource, p: Palette, cx: int, cy: int)
    requires p.Usable()
    modifies draw, rng
    ensures draw.shapes == old(draw.shapes) + Torso(p, cx, cy, old(rng.State()))
    ensures rng.State() == old(rng.State()).Skip(4)
  {
    ghost var s0, start := rng.State(), draw.shapes;
    DrawFace(draw, rng, p, cx, cy);
    ghost var face := Face(p, cx, cy, s0);
    DrawArmour(draw, rng, p, cx, cy);
    ghost var armour := Armour(p, cx, cy, s0.Skip(3));
    assert draw.shapes == (start + face) + armour;
    AppendAssoc(start, face, armour);
  }

  method DrawFace(draw: Sketch, rng: DrawSource, p: Palette, cx: int, cy: int)
    requires p.Usable()
    modifies draw, rng
    ensures draw.shapes == old(draw.shapes) + Face(p, cx, cy, old(rng.State()))
    ensures rng.State() == old(rng.State()).Skip(3)
  {
    var bodyColor := rng.Choice(p.primary);
    draw.Draw(Ellipse(Box(cx - 25, cy - 40, cx + 25, cy + 40), bodyColor));
    var headColor := rng.Choice(p.primary);
    draw.Draw(Ellipse(Box(cx - 20, cy - 80, cx + 20, cy - 40), headColor));
    var eyeColor := rng.Choice(p.accent);
    draw.Draw(Ellipse(Box(cx - 8, cy - 65, cx - 2, cy - 55), eyeColor));
    draw.Draw(Ellipse(Box(cx + 2, cy - 65, cx + 8, cy - 55), eyeColor));
  }

  method DrawArmour(draw: Sketch, rng: DrawSource, p: Palette, cx: int, cy: int)
    requires p.Usable()
    modifies draw, rng
    ensures draw.shapes == old(draw.shapes) + Armour(p, cx, cy, old(rng.State()))
    ensures rng.State() == old(rng.State()).Skip(1)
  {
    var armorColor := rng.Choice(p.secondary);
    draw.Draw(Ellipse(Box(cx - 35, cy - 30, cx - 15, cy - 10), armorColor));
    draw.Draw(Ellipse(Box(cx + 15, cy - 30, cx + 35, cy - 10), armorColor));
    draw.Draw(Rectangle(Box(cx - 20, cy + 10, cx + 20, cy + 20), armorColor));
  }

  method DrawHeldWeapon(draw: Sketch, rng: DrawSource, p: Palette, magic: bool, cx: int, cy: int)
    requires p.Usable()
    modifies draw, rng
    ensures draw.shapes == old(draw.shapes) + HeldWeapon(p, magic, cx, cy, old(rng.State()))
    ensures rng.State() == old(rng.State()).Skip(if magic then 2 else 1)
  {
    var weaponColor := rng.Choice(p.secondary);
    if magic {
      draw.Draw(Rectangle(Box(cx - 2, cy - 100, cx + 2, cy + 50), weaponColor));
      var crystalColor := rng.Choice(p.accent);
      draw.Draw(Ellipse(Box(cx - 8, cy - 110, cx + 8, cy - 90), crystalColor));
    } else {
      draw.Draw(Rectangle(Box(cx - 3, cy - 90, cx + 3, cy + 30), weaponColor));
      draw.Draw(Rectangle(Box(cx - 15, cy + 25, cx + 15, cy + 35), weaponColor));
    }
  }

  /** The decoration loop of `_draw_fantasy_character`. */
  method DrawDecorations(draw: Sketch, rng: DrawSource, p: Palette, width: nat, height: nat)
    requires p.Usable()
    modifies draw, rng
    ensures draw.shapes == old(draw.shapes) + DecorationDots(p, width, height, old(rng.State()), DecorationCount)
    ensures rng.State() == old(rng.State()).Skip(4 * DecorationCount)
  {
    ghost var s0 := rng.State();
    ghost var start := draw.shapes;
    for i := 0 to DecorationCount
      invariant rng.State() == s0.Skip(4 * i)
      invariant draw.shapes == start + DecorationDots(p, width, height, s0, i)
    {
      ghost var dots, dot := DecorationDots(p, width, height, s0, i), [DecorationDot(p, width, height, s0.Skip(4 * i))];
      DrawDecoration(draw, rng, p, width, height);
      assert draw.shapes == (start + dots) + dot;
      AppendAssoc(start, dots, dot);
      assert DecorationDots(p, width, height, s0, i + 1) == dots + dot;
    }
  }

  /** One pass of the decoration loop. */
  method DrawDecoration(draw: Sketch, rng: DrawSource, p: Palette, width: nat, height: nat)
    requires p.Usable()
    modifies draw, rng
    ensures draw.shapes == old(draw.shapes) + [DecorationDot(p, width, height, old(rng.State()))]
    ensures rng.State() == old(rng.State()).Skip(4)
  {
    var x := rng.RandInt(0, width);
    var y := rng.RandInt(0, height);
    var color := rng.Choice(p.accent);
    var size := rng.RandInt(2, 6);
    draw.Draw(Dot(x, y, size, color));
  }
}
