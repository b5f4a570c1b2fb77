/**
 * The decorative overlay of `add_doodles_everywhere`: 120 passes, each of
 * which picks an origin, a colour and one of six pattern kinds and then draws
 * that pattern's strokes. Python's `random` module is replaced by an injected
 * stream of raw draws, read in the order the source calls it; the drawing
 * calls are recorded as primitives instead of being rasterised.
 */
module Doodles {

  datatype Point = Point(x: int, y: int)

  /** A colour by the name PIL knows it by. */
  type Colour = string

  datatype Kind = Line | Zigzag | Star | Spiral | Arrow | Scribble

  /** The pattern names, in the order of the list `random.choice` picks from. */
  const Kinds: seq<Kind> := [Line, Zigzag, Star, Spiral, Arrow, Scribble]

  /** The number of passes of the drawing loop. */
  const Passes: nat := 120

  /** One drawing call on the layer. */
  datatype Primitive =
    | Segment(a: Point, b: Point, colour: Colour, width: nat)           // draw.line((a, b))
    | Polyline(points: seq<Point>, colour: Colour, width: nat)          // draw.line(points)
    | Arc(corner0: Point, corner1: Point, startDeg: int, endDeg: int,   // draw.arc(box, start, end)
          colour: Colour, width: nat)

  /** What one pass of the loop drew. */
  datatype Doodle = Doodle(kind: Kind, origin: Point, colour: Colour, strokes: seq<Primitive>)

  /** The random source: the raw value of the k-th draw. */
  type Draws = nat -> int

  /**
   * `random.randint(lo, hi)`, inclusive at both ends, from one raw draw: a
   * draw inside the range is taken as it is, one outside is clamped to it.
   */
  function RandInt(lo: int, hi: int, raw: int): (v: int)
    requires lo <= hi
    ensures lo <= v <= hi
    ensures lo <= raw <= hi ==> v == raw
  {
    if raw < lo then lo else if raw > hi then hi else raw
  }

  /** `random.choice(xs)` from one raw draw, which stands for the index picked. */
  function Choice<T>(xs: seq<T>, raw: int): (x: T)
    requires |xs| > 0
    ensures x in xs
    ensures 0 <= raw < |xs| ==> x == xs[raw]
  {
    xs[RandInt(0, |xs| - 1, raw)]
  }

  // ---------------------------------------------------------------------
  // The shape of each pattern kind, stated independently of the draws

  /** `p` lies within `r` of `o` along each axis. */
  predicate Near(p: Point, o: Point, r: nat) {
    o.x - r <= p.x <= o.x + r && o.y - r <= p.y <= o.y + r
  }

  /** A line: one width-4 segment from the origin to a point within 80 on each axis. */
  predicate IsLine(o: Point, c: Colour, ps: seq<Primitive>) {
    |ps| == 1 && ps[0].Segment? && ps[0].colour == c && ps[0].width == 4 &&
    ps[0].a == o && Near(ps[0].b, o, 80)
  }

  /** A zigzag: one width-3 polyline of 6 vertices, vertex k at x + 10k and within 20 of y. */
  predicate IsZigzag(o: Point, c: Colour, ps: seq<Primitive>) {
    |ps| == 1 && ps[0].Polyline? && ps[0].colour == c && ps[0].width == 3 &&
    |ps[0].points| == 6 &&
    forall k :: 0 <= k < 6 ==>
      ps[0].points[k].x == o.x + 10 * k && o.y - 20 <= ps[0].points[k].y <= o.y + 20
  }

  /** The segment's midpoint is `o`. */
  predicate SymmetricAbout(s: Primitive, o: Point)
    requires s.Segment?
  {
    s.a.x + s.b.x == 2 * o.x && s.a.y + s.b.y == 2 * o.y
  }

  /**
   * A star: four segments symmetric about the origin with one half-length s
   * in [10, 20]: horizontal and vertical at width 3, then the two diagonals
   * at width 2.
   */
  predicate IsStar(o: Point, c: Colour, ps: seq<Primitive>) {
    |ps| == 4 &&
    (forall k :: 0 <= k < 4 ==> ps[k].Segment? && ps[k].colour == c && SymmetricAbout(ps[k], o)) &&
    var s := o.x - ps[0].a.x;
    10 <= s <= 20 &&
    ps[0].a == Point(o.x - s, o.y) && ps[0].width == 3 &&
    ps[1].a == Point(o.x, o.y - s) && ps[1].width == 3 &&
    ps[2].a == Point(o.x - s, o.y - s) && ps[2].width == 2 &&
    ps[3].a == Point(o.x - s, o.y + s) && ps[3].width == 2
  }

  /**
   * A spiral: one width-3 arc whose bounding box is the square of radius r
   * in [15, 35] centred on the origin, from 0 degrees to an end in [250, 320].
   */
  predicate IsSpiral(o: Point, c: Colour, ps: seq<Primitive>) {
    |ps| == 1 && ps[0].Arc? && ps[0].colour == c && ps[0].width == 3 &&
    var r := o.x - ps[0].corner0.x;
    15 <= r <= 35 &&
    ps[0].corner0 == Point(o.x - r, o.y - r) && ps[0].corner1 == Point(o.x + r, o.y + r) &&
    ps[0].startDeg == 0 && 250 <= ps[0].endDeg <= 320
  }

  /**
   * An arrow: three width-3 segments, a shaft from the origin to a tip within
   * 50 on each axis, and two barbs from the tip to tip + (-8, -8) and tip + (8, -8).
   */
  predicate IsArrow(o: Point, c: Colour, ps: seq<Primitive>) {
    |ps| == 3 &&
    (forall k :: 0 <= k < 3 ==> ps[k].Segment? && ps[k].colour == c && ps[k].width == 3) &&
    var tip := ps[0].b;
    ps[0].a == o && Near(tip, o, 50) &&
    ps[1].a == tip && ps[1].b == Point(tip.x - 8, tip.y - 8) &&
    ps[2].a == tip && ps[2].b == Point(tip.x + 8, tip.y - 8)
  }

  /** A scribble patch: six width-3 segments with every end point within 20 of the origin. */
  predicate IsScribble(o: Point, c: Colour, ps: seq<Primitive>) {
    |ps| == 6 &&
    forall k :: 0 <= k < 6 ==>
      ps[k].Segment? && ps[k].colour == c && ps[k].width == 3 &&
      Near(ps[k].a, o, 20) && Near(ps[k].b, o, 20)
  }

  predicate HasShape(kind: Kind, o: Point, c: Colour, ps: seq<Primitive>) {
    match kind
    case Line => IsLine(o, c, ps)
    case Zigzag => IsZigzag(o, c, ps)
    case Star => IsStar(o, c, ps)
    case Spiral => IsSpiral(o, c, ps)
    case Arrow => IsArrow(o, c, ps)
    case Scribble => IsScribble(o, c, ps)
  }

  /**
   * A pass drew this: a palette colour, an origin inside the canvas (both
   * bounds inclusive, as `randint` is), and strokes of the kind's shape.
   */
  predicate WellFormed(d: Doodle, width: nat, height: nat, colors: seq<Colour>) {
    d.colour in colors &&
    0 <= d.origin.x <= width && 0 <= d.origin.y <= height &&
    HasShape(d.kind, d.origin, d.colour, d.strokes)
  }

  // ---------------------------------------------------------------------
  // The pattern generators, reading their draws from `rng` at `pos` onwards

  /** The `"line"` branch: dx, then dy, each `randint(-80, 80)`. */
  function LineStrokes(o: Point, c: Colour, rng: Draws, pos: nat): seq<Primitive> {
    [Segment(o, Point(o.x + RandInt(-80, 80, rng(pos)), o.y + RandInt(-80, 80, rng(pos + 1))), c, 4)]
  }

  /** The first `n` vertices `draw_zigzag` appends, one y-jitter draw each. */
  function ZigzagPoints(o: Point, rng: Draws, pos: nat, n: nat): seq<Point> {
    if n == 0 then []
    else ZigzagPoints(o, rng, pos, n - 1) + [Point(o.x + (n - 1) * 10, o.y + RandInt(-20, 20, rng(pos + n - 1)))]
  }

  /** Vertex k is 10k to the right of the origin and jittered by draw `pos + k`. */
  lemma {:induction false} ZigzagVertices(o: Point, rng: Draws, pos: nat, n: nat)
    ensures var pts := ZigzagPoints(o, rng, pos, n);
      |pts| == n &&
      forall k :: 0 <= k < n ==> pts[k] == Point(o.x + k * 10, o.y + RandInt(-20, 20, rng(pos + k)))
  {
    if n > 0 {
      ZigzagVertices(o, rng, pos, n - 1);
    }
  }

  function ZigzagStrokes(o: Point, c: Colour, rng: Draws, pos: nat): seq<Primitive> {
    [Polyline(ZigzagPoints(o, rng, pos, 6), c, 3)]
  }

  lemma ZigzagShape(o: Point, c: Colour, rng: Draws, pos: nat)
    ensures IsZigzag(o, c, ZigzagStrokes(o, c, rng, pos))
  {
    ZigzagVertices(o, rng, pos, 6);
  }

  /** `draw_zigzag`: builds the vertex list point by point, then draws it as one line. */
  method DrawZigzag(o: Point, c: Colour, rng: Draws, pos: nat) returns (ps: seq<Primitive>, next: nat)
    ensures ps == ZigzagStrokes(o, c, rng, pos) && IsZigzag(o, c, ps)
    ensures next == pos + 6
  {
    var points: seq<Point> := [];
    for i := 0 to 6
      invariant points == ZigzagPoints(o, rng, pos, i)
    {
      points := points + [Point(o.x + i * 10, o.y + RandInt(-20, 20, rng(pos + i)))];
    }
    ps := [Polyline(points, c, 3)];
    next := pos + 6;
    ZigzagShape(o, c, rng, pos);
  }

  /** `draw_star`: one half-length draw, `randint(10, 20)`. */
  function StarStrokes(o: Point, c: Colour, rng: Draws, pos: nat): seq<Primitive> {
    var s := RandInt(10, 20, rng(pos));
    [Segment(Point(o.x - s, o.y), Point(o.x + s, o.y), c, 3),
     Segment(Point(o.x, o.y - s), Point(o.x, o.y + s), c, 3),
     Segment(Point(o.x - s, o.y - s), Point(o.x + s, o.y + s), c, 2),
     Segment(Point(o.x - s, o.y + s), Point(o.x + s, o.y - s), c, 2)]
  }

  /** `draw_spiral`: the radius, `randint(15, 35)`, then the end angle, `randint(250, 320)`. */
  function SpiralStrokes(o: Point, c: Colour, rng: Draws, pos: nat): seq<Primitive> {
    var r := RandInt(15, 35, rng(pos));
    [Arc(Point(o.x - r, o.y - r), Point(o.x + r, o.y + r), 0, RandInt(250, 320, rng(pos + 1)), c, 3)]
  }

  /** `draw_arrow`: dx, then dy, each `randint(-50, 50)`. */
  function ArrowStrokes(o: Point, c: Colour, rng: Draws, pos: nat): seq<Primitive> {
    var tip := Point(o.x + RandInt(-50, 50, rng(pos)), o.y + RandInt(-50, 50, rng(pos + 1)));
    [Segment(o, tip, c, 3),
     Segment(tip, Point(tip.x - 8, tip.y - 8), c, 3),
     Segment(tip, Point(tip.x + 8, tip.y - 8), c, 3)]
  }

  /** One scribble line: four `randint(-20, 20)` draws, for x1, y1, x2, y2 in that order. */
  function ScribbleLine(o: Point, c: Colour, rng: Draws, pos: nat): Primitive {
    Segment(Point(o.x + RandInt(-20, 20, rng(pos)), o.y + RandInt(-20, 20, rng(pos + 1))),
            Point(o.x + RandInt(-20, 20, rng(pos + 2)), o.y + RandInt(-20, 20, rng(pos + 3))), c, 3)
  }

  /** The first `n` lines of a scribble patch. */
  function ScribbleLines(o: Point, c: Colour, rng: Draws, pos: nat, n: nat): seq<Primitive> {
    if n == 0 then [] else ScribbleLines(o, c, rng, pos, n - 1) + [ScribbleLine(o, c, rng, pos + 4 * (n - 1))]
  }

  /** Line k of a patch reads the four draws from `pos + 4k`. */
  lemma {:induction false} ScribbleLinesAt(o: Point, c: Colour, rng: Draws, pos: nat, n: nat)
    ensures var ps := ScribbleLines(o, c, rng, pos, n);
      |ps| == n && forall k :: 0 <= k < n ==> ps[k] == ScribbleLine(o, c, rng, pos + 4 * k)
  {
    if n > 0 {
      ScribbleLinesAt(o, c, rng, pos, n - 1);
    }
  }

  function ScribbleStrokes(o: Point, c: Colour, rng: Draws, pos: nat): seq<Primitive> {
    ScribbleLines(o, c, rng, pos, 6)
  }

  lemma ScribbleShape(o: Point, c: Colour, rng: Draws, pos: nat)
    ensures IsScribble(o, c, ScribbleStrokes(o, c, rng, pos))
  {
    ScribbleLinesAt(o, c, rng, pos, 6);
  }

  /** `draw_scribble_patch`: six lines drawn one after the other. */
  method DrawScribblePatch(o: Point, c: Colour, rng: Draws, pos: nat) returns (ps: seq<Primitive>, next: nat)
    ensures ps == ScribbleStrokes(o, c, rng, pos) && IsScribble(o, c, ps)
    ensures next == pos + 24
  {
    ps, next := [], pos;
    for i := 0 to 6
      invariant ps == ScribbleLines(o, c, rng, pos, i)
      invariant next == pos + 4 * i
    {
      var line := Segment(Point(o.x + RandInt(-20, 20, rng(next)), o.y + RandInt(-20, 20, rng(next + 1))),
                          Point(o.x + RandInt(-20, 20, rng(next + 2)), o.y + RandInt(-20, 20, rng(next + 3))), c, 3);
      ps := ps + [line];
      next := next + 4;
    }
    ScribbleShape(o, c, rng, pos);
  }

  /** `random.choice` over the six pattern names. */
  function PatternChoice(raw: int): (kind: Kind)
    ensures 0 <= raw < |Kinds| ==> kind == Kinds[raw]
  {
    Kinds[RandInt(0, |Kinds| - 1, raw)]
  }

  /** How many draws the strokes of each kind take. */
  function DrawsUsed(kind: Kind): nat {
    match kind
    case Line => 2
    case Zigzag => 6
    case Star => 1
    case Spiral => 2
    case Arrow => 2
    case Scribble => 24
  }

  /** The strokes of the branch the pattern name selects. */
  function Strokes(kind: Kind, o: Point, c: Colour, rng: Draws, pos: nat): seq<Primitive>
  {
    match kind
    case Line => LineStrokes(o, c, rng, pos)
    case Zigzag => ZigzagStrokes(o, c, rng, pos)
    case Star => StarStrokes(o, c, rng, pos)
    case Spiral => SpiralStrokes(o, c, rng, pos)
    case Arrow => ArrowStrokes(o, c, rng, pos)
    case Scribble => ScribbleStrokes(o, c, rng, pos)
  }

  /** Whatever the draws, each branch draws the shape of its pattern name. */
  lemma StrokesHaveShape(kind: Kind, o: Point, c: Colour, rng: Draws, pos: nat)
    ensures HasShape(kind, o, c, Strokes(kind, o, c, rng, pos))
  {
    match kind
    case Zigzag => ZigzagShape(o, c, rng, pos);
    case Scribble => ScribbleShape(o, c, rng, pos);
    case _ =>
  }

  // ---------------------------------------------------------------------
  // The converse: every stroke list of the right shape is drawn by some draws

  /** The draws from `pos` onwards are `raws`. */
  predicate Feeds(rng: Draws, pos: nat, raws: seq<int>) {
    forall k :: 0 <= k < |raws| ==> rng(pos + k) == raws[k]
  }

  /** A stream that feeds `a + b` feeds `a`, and its later draws feed `b`. */
  lemma FeedsSuffix(rng: Draws, pos: nat, a: seq<int>, b: seq<int>)
    requires Feeds(rng, pos, a + b)
    ensures Feeds(rng, pos, a)
    ensures Feeds(rng, pos + |a|, b)
  {
    forall k | 0 <= k < |a|
      ensures rng(pos + k) == a[k]
    {
      assert (a + b)[k] == a[k];
    }
    forall k | 0 <= k < |b|
      ensures rng(pos + |a| + k) == b[k]
    {
      assert (a + b)[|a| + k] == b[k];
    }
  }

  /** The offsets of a segment's ends from `o`, in the order a scribble line draws them. */
  function SegmentRaws(o: Point, s: Primitive): seq<int>
    requires s.Segment?
  {
    [s.a.x - o.x, s.a.y - o.y, s.b.x - o.x, s.b.y - o.y]
  }

  /** The draws of the first `n` lines of a scribble patch. */
  function ScribbleRaws(o: Point, ps: seq<Primitive>, n: nat): (raws: seq<int>)
    requires n <= |ps| && forall k :: 0 <= k < n ==> ps[k].Segment?
    ensures |raws| == 4 * n
  {
    if n == 0 then [] else ScribbleRaws(o, ps, n - 1) + SegmentRaws(o, ps[n - 1])
  }

  /** The draws from which the branch of `kind` draws exactly `ps` around `o`. */
  function StrokeRaws(kind: Kind, o: Point, c: Colour, ps: seq<Primitive>): (raws: seq<int>)
    requires HasShape(kind, o, c, ps)
    ensures |raws| == DrawsUsed(kind)
  {
    match kind
    case Line => [ps[0].b.x - o.x, ps[0].b.y - o.y]
    case Zigzag => seq(6, k requires 0 <= k < 6 => ps[0].points[k].y - o.y)
    case Star => [o.x - ps[0].a.x]
    case Spiral => [o.x - ps[0].corner0.x, ps[0].endDeg]
    case Arrow => [ps[0].b.x - o.x, ps[0].b.y - o.y]
    case Scribble => ScribbleRaws(o, ps, 6)
  }

  /** A scribble line fed the offsets of a segment near `o` draws that segment. */
  lemma ScribbleLineReplay(o: Point, c: Colour, s: Primitive, rng: Draws, pos: nat)
    requires s.Segment? && s.colour == c && s.width == 3 && Near(s.a, o, 20) && Near(s.b, o, 20)
    requires Feeds(rng, pos, SegmentRaws(o, s))
    ensures ScribbleLine(o, c, rng, pos) == s
  {
    var raws := SegmentRaws(o, s);
    assert rng(pos) == raws[0] && rng(pos + 1) == raws[1];
    assert rng(pos + 2) == raws[2] && rng(pos + 3) == raws[3];
  }

  /** The first `n` lines of a patch, fed their own offsets, are redrawn as they were. */
  lemma {:induction false} ScribbleReplay(o: Point, c: Colour, ps: seq<Primitive>, rng: Draws, pos: nat, n: nat)
    requires IsScribble(o, c, ps) && n <= 6
    requires Feeds(rng, pos, ScribbleRaws(o, ps, n))
    ensures ScribbleLines(o, c, rng, pos, n) == ps[..n]
  {
    if n > 0 {
      var front := ScribbleRaws(o, ps, n - 1);
      FeedsSuffix(rng, pos, front, SegmentRaws(o, ps[n - 1]));
      ScribbleReplay(o, c, ps, rng, pos, n - 1);
      ScribbleLineReplay(o, c, ps[n - 1], rng, pos + 4 * (n - 1));
      assert ps[..n] == ps[..n - 1] + [ps[n - 1]];
    }
  }

  /**
   * Replay: the branch of `kind`, fed the draws `StrokeRaws` reads off a
   * stroke list of that kind's shape, draws exactly that stroke list.
   */
  lemma StrokesReplay(kind: Kind, o: Point, c: Colour, ps: seq<Primitive>, rng: Draws, pos: nat)
    requires HasShape(kind, o, c, ps)
    requires Feeds(rng, pos, StrokeRaws(kind, o, c, ps))
    ensures Strokes(kind, o, c, rng, pos) == ps
  {
    var raws := StrokeRaws(kind, o, c, ps);
    match kind
    case Line =>
      assert rng(pos) == raws[0] && rng(pos + 1) == raws[1];
    case Zigzag =>
      ZigzagVertices(o, rng, pos, 6);
      var pts := ZigzagPoints(o, rng, pos, 6);
      forall k | 0 <= k < 6
        ensures pts[k] == ps[0].points[k]
      {
        assert rng(pos + k) == raws[k];
      }
      assert pts == ps[0].points;
      assert ps == [ps[0]];
    case Star =>
      assert rng(pos) == raws[0];
      var sym := o.x - ps[0].a.x;
      assert SymmetricAbout(ps[0], o) && SymmetricAbout(ps[1], o);
      assert SymmetricAbout(ps[2], o) && SymmetricAbout(ps[3], o);
      assert ps[0].b == Point(o.x + sym, o.y) && ps[1].b == Point(o.x, o.y + sym);
      assert ps[2].b == Point(o.x + sym, o.y + sym) && ps[3].b == Point(o.x + sym, o.y - sym);
    case Spiral =>
      assert rng(pos) == raws[0] && rng(pos + 1) == raws[1];
    case Arrow =>
      assert rng(pos) == raws[0] && rng(pos + 1) == raws[1];
      assert ps[1].Segment? && ps[2].Segment?;
    case Scribble =>
      ScribbleReplay(o, c, ps, rng, pos, 6);
      assert ps[..6] == ps;
  }

  /**
   * One pass of the loop starting at draw `pos`: x, y, the colour and the
   * pattern name, in that order, then the pattern's own draws.
   */
  function Pass(width: nat, height: nat, colors: seq<Colour>, rng: Draws, pos: nat): (d: Doodle)
    requires |colors| > 0
    ensures d.kind == PatternChoice(rng(pos + 3)) && d.colour in colors
    ensures 0 <= d.origin.x <= width && 0 <= d.origin.y <= height
  {
    var o := Point(RandInt(0, width, rng(pos)), RandInt(0, height, rng(pos + 1)));
    var c := Choice(colors, rng(pos + 2));
    var kind := PatternChoice(rng(pos + 3));
    Doodle(kind, o, c, Strokes(kind, o, c, rng, pos + 4))
  }

  /** How many draws the pass starting at draw `pos` takes: decided by its pattern name. */
  function PassDraws(rng: Draws, pos: nat): (n: nat)
    ensures 5 <= n <= 28
  {
    4 + DrawsUsed(PatternChoice(rng(pos + 3)))
  }

  /** Every pass draws a well-formed doodle on the canvas. */
  lemma PassWellFormed(width: nat, height: nat, colors: seq<Colour>, rng: Draws, pos: nat)
    requires |colors| > 0
    ensures WellFormed(Pass(width, height, colors, rng, pos), width, height, colors)
  {
    var d := Pass(width, height, colors, rng, pos);
    StrokesHaveShape(d.kind, d.origin, d.colour, rng, pos + 4);
  }

  /** The position of a pattern name in the list `random.choice` picks from. */
  function KindIndex(kind: Kind): (i: nat)
    ensures i < |Kinds| && Kinds[i] == kind
  {
    match kind
    case Line => 0
    case Zigzag => 1
    case Star => 2
    case Spiral => 3
    case Arrow => 4
    case Scribble => 5
  }

  /** The first position at which `x` occurs in `xs`. */
  function IndexOf<T(==)>(xs: seq<T>, x: T): (i: nat)
    requires x in xs
    ensures i < |xs| && xs[i] == x && x !in xs[..i]
  {
    if xs[0] == x then 0 else 1 + IndexOf(xs[1..], x)
  }

  /** The draws of a pass that draws `d`: x, y, colour index, pattern index, then the strokes' own. */
  function PassRaws(width: nat, height: nat, colors: seq<Colour>, d: Doodle): (raws: seq<int>)
    requires WellFormed(d, width, height, colors)
    ensures |raws| == 4 + DrawsUsed(d.kind)
  {
    [d.origin.x, d.origin.y, IndexOf(colors, d.colour), KindIndex(d.kind)] +
      StrokeRaws(d.kind, d.origin, d.colour, d.strokes)
  }

  /** A pass fed the draws `PassRaws` reads off a well-formed doodle draws that doodle, and uses them all. */
  lemma PassReplay(width: nat, height: nat, colors: seq<Colour>, d: Doodle, rng: Draws, pos: nat)
    requires WellFormed(d, width, height, colors)
    requires Feeds(rng, pos, PassRaws(width, height, colors, d))
    ensures Pass(width, height, colors, rng, pos) == d
    ensures PassDraws(rng, pos) == |PassRaws(width, height, colors, d)|
  {
    var head := [d.origin.x, d.origin.y, IndexOf(colors, d.colour), KindIndex(d.kind)];
    var raws := PassRaws(width, height, colors, d);
    assert rng(pos) == raws[0] && rng(pos + 1) == raws[1];
    assert rng(pos + 2) == raws[2] && rng(pos + 3) == raws[3];
    FeedsSuffix(rng, pos, head, StrokeRaws(d.kind, d.origin, d.colour, d.strokes));
    StrokesReplay(d.kind, d.origin, d.colour, d.strokes, rng, pos + 4);
  }

  /**
   * The passes draw exactly the well-formed doodles: every pass draws one
   * (`PassWellFormed`), and every one is drawn by the pass that some draws
   * feed.
   */
  lemma PassDrawsExactlyWellFormed(width: nat, height: nat, colors: seq<Colour>, d: Doodle)
    requires |colors| > 0
    ensures WellFormed(d, width, height, colors) <==>
      exists rng: Draws :: Pass(width, height, colors, rng, 0) == d
  {
    if WellFormed(d, width, height, colors) {
      var raws := PassRaws(width, height, colors, d);
      var rng: Draws := (k: nat) => if k < |raws| then raws[k] else 0;
      PassReplay(width, height, colors, d, rng, 0);
    }
    if rng: Draws :| Pass(width, height, colors, rng, 0) == d {
      PassWellFormed(width, height, colors, rng, 0);
    }
  }

  /** The body of the drawing loop: one pass, dispatched on the pattern name. */
  method DrawPass(width: nat, height: nat, colors: seq<Colour>, rng: Draws, pos: nat)
    returns (d: Doodle, next: nat)
    requires |colors| > 0
    ensures d == Pass(width, height, colors, rng, pos)
    ensures next == pos + PassDraws(rng, pos)
  {
    var o := Point(RandInt(0, width, rng(pos)), RandInt(0, height, rng(pos + 1)));
    var colour := Choice(colors, rng(pos + 2));
    var kind := PatternChoice(rng(pos + 3));
    var at := pos + 4;
    var strokes: seq<Primitive>;
    match kind {
      case Line => strokes, next := LineStrokes(o, colour, rng, at), at + 2;
      case Zigzag => strokes, next := DrawZigzag(o, colour, rng, at);
      case Star => strokes, next := StarStrokes(o, colour, rng, at), at + 1;
      case Spiral => strokes, next := SpiralStrokes(o, colour, rng, at), at + 2;
      case Arrow => strokes, next := ArrowStrokes(o, colour, rng, at), at + 2;
      case Scribble => strokes, next := DrawScribblePatch(o, colour, rng, at);
    }
    d := Doodle(kind, o, colour, strokes);
  }

  /**
   * The draw position at which pass `i` starts when the first pass starts
   * at `pos`: each pass begins right after the draws of the one before, so
   * no draw is skipped or read twice.
   */
  function Start(rng: Draws, pos: nat, i: nat): (at: nat)
    ensures pos + 5 * i <= at <= pos + 28 * i
  {
    if i == 0 then pos
    else
      var prev := Start(rng, pos, i - 1);
      prev + PassDraws(rng, prev)
  }

  /** The doodles of `n` passes, the first one starting at draw `pos`, in the order they were drawn. */
  function Layer(width: nat, height: nat, colors: seq<Colour>, rng: Draws, pos: nat, n: nat): (r: seq<Doodle>)
    requires |colors| > 0
    ensures |r| == n
  {
    seq(n, i requires 0 <= i => Pass(width, height, colors, rng, Start(rng, pos, i)))
  }

  /** Doodle i of a layer is the pass that starts where the first i passes stopped. */
  lemma LayerAt(width: nat, height: nat, colors: seq<Colour>, rng: Draws, pos: nat, n: nat, i: nat)
    requires |colors| > 0 && i < n
    ensures Layer(width, height, colors, rng, pos, n)[i] == Pass(width, height, colors, rng, Start(rng, pos, i))
  {
  }

  /** One more pass appends the doodle drawn from where the layer stopped. */
  lemma LayerSnoc(width: nat, height: nat, colors: seq<Colour>, rng: Draws, pos: nat, n: nat)
    requires |colors| > 0
    ensures Layer(width, height, colors, rng, pos, n + 1) ==
      Layer(width, height, colors, rng, pos, n) + [Pass(width, height, colors, rng, Start(rng, pos, n))]
  {
    var front := Layer(width, height, colors, rng, pos, n);
    var longer := Layer(width, height, colors, rng, pos, n + 1);
    var d := Pass(width, height, colors, rng, Start(rng, pos, n));
    forall k | 0 <= k < n + 1
      ensures longer[k] == (front + [d])[k]
    {
      if k < n {
        assert (front + [d])[k] == front[k];
      }
    }
  }

  /** Every doodle of a layer is well formed. */
  lemma LayerWellFormed(width: nat, height: nat, colors: seq<Colour>, rng: Draws, pos: nat, n: nat)
    requires |colors| > 0
    ensures forall d :: d in Layer(width, height, colors, rng, pos, n) ==> WellFormed(d, width, height, colors)
  {
    var r := Layer(width, height, colors, rng, pos, n);
    forall i | 0 <= i < n
      ensures WellFormed(r[i], width, height, colors)
    {
      LayerAt(width, height, colors, rng, pos, n, i);
      PassWellFormed(width, height, colors, rng, Start(rng, pos, i));
    }
  }

  /**
   * `add_doodles_everywhere` on a `width` x `height` layer: exactly 120
   * passes, each drawn from where the previous one stopped, each with a
   * palette colour, an origin on the canvas and the strokes of its kind.
   */
  method AddDoodlesEverywhere(width: nat, height: nat, colors: seq<Colour>, rng: Draws, pos: nat)
    returns (doodles: seq<Doodle>, next: nat)
    requires |colors| > 0
    ensures doodles == Layer(width, height, colors, rng, pos, Passes)
    ensures next == Start(rng, pos, Passes)
    ensures forall d :: d in doodles ==> WellFormed(d, width, height, colors)
  {
    doodles, next := [], pos;
    for i := 0 to Passes
      invariant next == Start(rng, pos, i)
      invariant doodles == Layer(width, height, colors, rng, pos, i)
    {
      var d;
      d, next := DrawPass(width, height, colors, rng, next);
      LayerSnoc(width, height, colors, rng, pos, i);
      doodles := doodles + [d];
    }
    LayerWellFormed(width, height, colors, rng, pos, Passes);
  }
}
