/**
  The pure part of the line overlay: where each line goes, how thick it is,
  which colour it gets, and the rectangle it fills. A frame is described as a
  sequence of coloured integer rectangles instead of calls on a canvas.
 */
module LinePlan {
  import opened Palette
  import opened Sorting

  /** Random thicknesses are drawn from [MIN_THICKNESS, THICKNESS_BOUND). */
  const MIN_THICKNESS: int := 6
  const THICKNESS_BOUND: int := 13

  /** What an overlay view is built with. */
  datatype Config = Config(colors: seq<string>, lineCount: int, orientation: string, randomize: bool)

  /** An overlay view is only ever built with at least one colour name. */
  predicate ValidConfig(c: Config) {
    |c.colors| > 0
  }

  /** Only the exact string "vertical" gives vertical lines; everything else is horizontal. */
  predicate IsVertical(orientation: string) {
    orientation == "vertical"
  }

  /** The length of the main axis, along which the lines are distributed. */
  function Extent(orientation: string, width: int, height: int): int {
    if IsVertical(orientation) then width else height
  }

  /** How many times `for (i in 0 until lineCount)` runs. */
  function LineSlots(lineCount: int): nat {
    if lineCount > 0 then lineCount else 0
  }

  predicate ThicknessInRange(t: int) {
    MIN_THICKNESS <= t < THICKNESS_BOUND
  }

  /** Values one layout pass may receive from the random source. */
  predicate DrawsFit(c: Config, maxPosition: int, positionDraws: seq<int>, thicknessDraws: seq<int>) {
    && |thicknessDraws| == LineSlots(c.lineCount)
    && (forall i :: 0 <= i < |thicknessDraws| ==> ThicknessInRange(thicknessDraws[i]))
    && (c.randomize ==>
          && |positionDraws| == LineSlots(c.lineCount)
          && forall i :: 0 <= i < |positionDraws| ==> 0 <= positionDraws[i] < maxPosition)
  }

  /** The layout a view holds once initialised on a main axis of length maxPosition. */
  predicate LayoutFits(c: Config, maxPosition: int, positions: seq<int>, thicknesses: seq<int>) {
    && maxPosition > 0
    && |thicknesses| == LineSlots(c.lineCount)
    && (forall i :: 0 <= i < |thicknesses| ==> ThicknessInRange(thicknesses[i]))
    && (if c.randomize then
          && |positions| == LineSlots(c.lineCount)
          && Sorted(positions)
          && (forall i :: 0 <= i < |positions| ==> 0 <= positions[i] < maxPosition)
        else positions == [])
  }

  /** The shape the drawing code needs from a layout: one thickness per line. */
  predicate Drawable(c: Config, positions: seq<int>, thicknesses: seq<int>) {
    && |thicknesses| == LineSlots(c.lineCount)
    && (c.randomize ==> |positions| == |thicknesses|)
  }

  /** A rectangle with edges left, top, right, bottom; it covers [left, right) x [top, bottom). */
  datatype Rect = Rect(left: int, top: int, right: int, bottom: int)

  predicate Covers(r: Rect, x: int, y: int) {
    r.left <= x < r.right && r.top <= y < r.bottom
  }

  /** One painted line: its rectangle and its colour. */
  datatype Stroke = Stroke(rect: Rect, color: Argb)

  /** A frame: the strokes painted, or the integer division by zero the drawing code raises. */
  datatype Frame = Painted(strokes: seq<Stroke>) | DivisionByZero

  /** A vertical line at x fills the columns [x, x + thickness) over the full height. */
  function VerticalLineRect(x: int, height: int, thickness: int): (r: Rect)
    ensures forall px, py :: Covers(r, px, py) <==> x <= px < x + thickness && 0 <= py < height
  {
    Rect(x, 0, x + thickness, height)
  }

  /** A horizontal line at y fills the rows [y, y + thickness) over the full width. */
  function HorizontalLineRect(y: int, width: int, thickness: int): (r: Rect)
    ensures forall px, py :: Covers(r, px, py) <==> 0 <= px < width && y <= py < y + thickness
  {
    Rect(0, y, width, y + thickness)
  }

  /** The rectangle of a line at the given main-axis offset. */
  function LineRect(orientation: string, offset: int, thickness: int, width: int, height: int): Rect {
    if IsVertical(orientation) then VerticalLineRect(offset, height, thickness)
    else HorizontalLineRect(offset, width, thickness)
  }

  /** Where a rectangle starts on the main axis. */
  function MainStart(orientation: string, r: Rect): int {
    if IsVertical(orientation) then r.left else r.top
  }

  /** How far a rectangle reaches along the main axis. */
  function MainSpan(orientation: string, r: Rect): int {
    if IsVertical(orientation) then r.right - r.left else r.bottom - r.top
  }

  /** The rectangle runs across the whole surface on the cross axis. */
  predicate SpansCrossAxis(orientation: string, r: Rect, width: int, height: int) {
    if IsVertical(orientation) then r.top == 0 && r.bottom == height
    else r.left == 0 && r.right == width
  }

  /** The colour of line i: the colour names are used in turn, starting again after the last. */
  function LineColor(colors: seq<string>, i: nat): Argb
    requires |colors| > 0
  {
    ParseColor(colors[i % |colors|])
  }

  /** The main-axis offset of line i: its drawn position, or i times the integer spacing. */
  function LineOffset(c: Config, positions: seq<int>, i: nat, width: int, height: int): int
    requires c.randomize ==> i < |positions|
    requires !c.randomize ==> c.lineCount != 0
  {
    if c.randomize then positions[i]
    else i * (Extent(c.orientation, width, height) / c.lineCount)
  }

  /** The stroke painted for line i. */
  function PlannedStroke(c: Config, positions: seq<int>, thicknesses: seq<int>, i: nat, width: int, height: int): Stroke
    requires ValidConfig(c)
    requires i < |thicknesses|
    requires c.randomize ==> i < |positions|
    requires !c.randomize ==> c.lineCount != 0
  {
    Stroke(LineRect(c.orientation, LineOffset(c, positions, i, width, height), thicknesses[i], width, height),
           LineColor(c.colors, i))
  }

  /**
    The frame painted on a width x height canvas. Nothing is painted before the
    layout exists; a randomised layout paints one line per stored position; an
    evenly spaced one divides the main axis by lineCount, which fails for zero.
   */
  function DrawPlan(c: Config, initialized: bool, positions: seq<int>, thicknesses: seq<int>, width: nat, height: nat): (f: Frame)
    requires ValidConfig(c)
    requires initialized ==> Drawable(c, positions, thicknesses)
    ensures f.DivisionByZero? <==> initialized && !c.randomize && c.lineCount == 0
    ensures f.Painted? ==> |f.strokes| == (if initialized then LineSlots(c.lineCount) else 0)
  {
    if !initialized then Painted([])
    else if c.randomize then
      Painted(seq(|positions|, i requires 0 <= i < |positions| => PlannedStroke(c, positions, thicknesses, i, width, height)))
    else if c.lineCount == 0 then DivisionByZero
    else
      Painted(seq(LineSlots(c.lineCount), i requires 0 <= i < LineSlots(c.lineCount) => PlannedStroke(c, positions, thicknesses, i, width, height)))
  }

  /** Before the layout is computed a frame paints nothing. */
  lemma NothingBeforeInit(c: Config, positions: seq<int>, thicknesses: seq<int>, width: nat, height: nat)
    requires ValidConfig(c)
    ensures DrawPlan(c, false, positions, thicknesses, width, height) == Painted([])
  {
  }

  /** i * (e / n) for i < n stays on the axis, and leaves room for one more spacing. */
  lemma {:induction false} SpacedOffsetBound(i: nat, e: nat, n: nat)
    requires i < n
    ensures 0 <= i * (e / n)
    ensures i * (e / n) + e / n <= e
    ensures e > 0 ==> i * (e / n) < e
  {
    var q := e / n;
    assert n * q <= e;
    assert (i + 1) * q <= n * q by {
      MulMonotone(i + 1, n, q);
    }
    if q == 0 {
      assert i * q == 0;
    }
  }

  lemma {:induction false} MulMonotone(a: nat, b: nat, q: nat)
    requires a <= b
    ensures a * q <= b * q
  {
    if a < b {
      MulMonotone(a, b - 1, q);
      assert b * q == (b - 1) * q + q;
    }
  }

  /**
    Without randomisation line i starts at i * (extent / lineCount), integer
    division, with extent the width for vertical lines and the height otherwise;
    every line starts inside the canvas and the last spacing fits before the far edge.
   */
  lemma EvenSpacing(c: Config, positions: seq<int>, thicknesses: seq<int>, width: nat, height: nat, i: nat)
    requires ValidConfig(c) && Drawable(c, positions, thicknesses)
    requires !c.randomize && c.lineCount > 0 && i < c.lineCount
    ensures DrawPlan(c, true, positions, thicknesses, width, height).Painted?
    ensures var strokes := DrawPlan(c, true, positions, thicknesses, width, height).strokes;
      && |strokes| == c.lineCount
      && var e := Extent(c.orientation, width, height);
      && MainStart(c.orientation, strokes[i].rect) == i * (e / c.lineCount)
      && 0 <= MainStart(c.orientation, strokes[i].rect)
      && (e > 0 ==> MainStart(c.orientation, strokes[i].rect) < e)
      && MainStart(c.orientation, strokes[i].rect) + e / c.lineCount <= e
  {
    var e := Extent(c.orientation, width, height);
    SpacedOffsetBound(i, e, c.lineCount);
    var f := DrawPlan(c, true, positions, thicknesses, width, height);
    assert f.strokes[i] == PlannedStroke(c, positions, thicknesses, i, width, height);
    assert MainStart(c.orientation, f.strokes[i].rect) == i * (e / c.lineCount);
  }

  /** With randomisation line i starts at the i-th stored position. */
  lemma RandomPlacement(c: Config, positions: seq<int>, thicknesses: seq<int>, width: nat, height: nat, i: nat)
    requires ValidConfig(c) && Drawable(c, positions, thicknesses)
    requires c.randomize && i < |positions|
    ensures DrawPlan(c, true, positions, thicknesses, width, height).Painted?
    ensures var strokes := DrawPlan(c, true, positions, thicknesses, width, height).strokes;
      |strokes| == |positions| && MainStart(c.orientation, strokes[i].rect) == positions[i]
  {
  }

  /** With randomisation over a sorted layout, later lines never start before earlier ones. */
  lemma RandomLinesAscend(c: Config, positions: seq<int>, thicknesses: seq<int>, width: nat, height: nat, i: nat, j: nat)
    requires ValidConfig(c) && Drawable(c, positions, thicknesses)
    requires c.randomize && Sorted(positions) && i <= j < |positions|
    ensures DrawPlan(c, true, positions, thicknesses, width, height).Painted?
    ensures var strokes := DrawPlan(c, true, positions, thicknesses, width, height).strokes;
      MainStart(c.orientation, strokes[i].rect) <= MainStart(c.orientation, strokes[j].rect)
  {
    RandomPlacement(c, positions, thicknesses, width, height, i);
    RandomPlacement(c, positions, thicknesses, width, height, j);
  }

  /** Line i is painted in colors[i mod |colors|], resolved by ParseColor. */
  lemma CyclicColors(c: Config, initialized: bool, positions: seq<int>, thicknesses: seq<int>, width: nat, height: nat, i: nat)
    requires ValidConfig(c) && (initialized ==> Drawable(c, positions, thicknesses))
    requires DrawPlan(c, initialized, positions, thicknesses, width, height).Painted?
    requires i < |DrawPlan(c, initialized, positions, thicknesses, width, height).strokes|
    ensures DrawPlan(c, initialized, positions, thicknesses, width, height).strokes[i].color
            == ParseColor(c.colors[i % |c.colors|])
  {
  }

  /**
    Line i is thicknesses[i] pixels thick along the main axis and spans the
    whole cross axis: the full height for vertical lines, the full width otherwise.
   */
  lemma LineGeometry(c: Config, initialized: bool, positions: seq<int>, thicknesses: seq<int>, width: nat, height: nat, i: nat)
    requires ValidConfig(c) && (initialized ==> Drawable(c, positions, thicknesses))
    requires DrawPlan(c, initialized, positions, thicknesses, width, height).Painted?
    requires i < |DrawPlan(c, initialized, positions, thicknesses, width, height).strokes|
    ensures var r := DrawPlan(c, initialized, positions, thicknesses, width, height).strokes[i].rect;
      && MainSpan(c.orientation, r) == thicknesses[i]
      && SpansCrossAxis(c.orientation, r, width, height)
  {
  }

  /**
    Three evenly spaced vertical lines in green and purple on a canvas 300 wide
    start at 0, 100 and 200 and are coloured green, purple, green.
   */
  lemma ThreeVerticalLinesExample(thicknesses: seq<int>, height: nat)
    requires |thicknesses| == 3
    ensures var f := DrawPlan(Config(["green", "purple"], 3, "vertical", false), true, [], thicknesses, 300, height);
      && f.Painted? && |f.strokes| == 3
      && f.strokes[0].rect.left == 0 && f.strokes[1].rect.left == 100 && f.strokes[2].rect.left == 200
      && f.strokes[0].color == GREEN && f.strokes[1].color == MAGENTA && f.strokes[2].color == GREEN
  {
    var c := Config(["green", "purple"], 3, "vertical", false);
    var f := DrawPlan(c, true, [], thicknesses, 300, height);
    assert f.strokes[2].color == ParseColor(c.colors[2 % 2]);
  }
}
