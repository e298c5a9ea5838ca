/**
  The overlay surface: it computes its line layout once, on the first size
  callback with a positive width and height, and paints from that layout on
  every draw callback.
 */
module Overlay {
  import opened Sorting
  import opened LinePlan

  class OverlayView {
    const colors: seq<string>
    const lineCount: int
    const orientation: string
    const randomize: bool

    var linePositions: seq<int>
    var lineThicknesses: seq<int>
    var isInitialized: bool

    /** The main-axis length the layout was computed for. */
    ghost var maxPosition: int

    function Settings(): Config {
      Config(colors, lineCount, orientation, randomize)
    }

    /** Uninitialised views hold no layout; initialised ones hold a complete one. */
    ghost predicate Valid()
      reads this
    {
      && ValidConfig(Settings())
      && (if isInitialized then LayoutFits(Settings(), maxPosition, linePositions, lineThicknesses)
          else linePositions == [] && lineThicknesses == [])
    }

    constructor (colors: seq<string>, lineCount: int, orientation: string, randomize: bool)
      requires |colors| > 0
      ensures Valid()
      ensures Settings() == Config(colors, lineCount, orientation, randomize)
      ensures !isInitialized && linePositions == [] && lineThicknesses == []
    {
      this.colors := colors;
      this.lineCount := lineCount;
      this.orientation := orientation;
      this.randomize := randomize;
      linePositions := [];
      lineThicknesses := [];
      isInitialized := false;
    }

    /**
      The size callback. The layout is computed on the first call whose width
      and height are both positive and never again; positionDraws and
      thicknessDraws are the values the random source yields in that pass.
     */
    method OnSizeChanged(w: int, h: int, positionDraws: seq<int>, thicknessDraws: seq<int>)
      requires Valid()
      requires !isInitialized && w > 0 && h > 0 ==>
                 DrawsFit(Settings(), Extent(orientation, w, h), positionDraws, thicknessDraws)
      modifies this
      ensures Valid()
      ensures isInitialized <==> old(isInitialized) || (w > 0 && h > 0)
      ensures old(isInitialized) || w <= 0 || h <= 0 ==>
                linePositions == old(linePositions) && lineThicknesses == old(lineThicknesses)
      ensures !old(isInitialized) && w > 0 && h > 0 ==>
                && lineThicknesses == thicknessDraws
                && (randomize ==> Sorted(linePositions) && multiset(linePositions) == multiset(positionDraws))
                && (!randomize ==> linePositions == [])
    {
      if !isInitialized && w > 0 && h > 0 {
        InitializeLines(w, h, positionDraws, thicknessDraws);
        isInitialized := true;
      }
    }

    /**
      Draws one thickness per line, and with randomisation one position per
      line in [0, maxPosition), then sorts the positions ascending.
     */
    method InitializeLines(width: int, height: int, positionDraws: seq<int>, thicknessDraws: seq<int>)
      requires ValidConfig(Settings())
      requires linePositions == [] && lineThicknesses == []
      requires DrawsFit(Settings(), Extent(orientation, width, height), positionDraws, thicknessDraws)
      requires width > 0 && height > 0
      modifies this
      ensures isInitialized == old(isInitialized)
      ensures maxPosition == Extent(orientation, width, height)
      ensures LayoutFits(Settings(), maxPosition, linePositions, lineThicknesses)
      ensures lineThicknesses == thicknessDraws
      ensures randomize ==> multiset(linePositions) == multiset(positionDraws)
    {
      maxPosition := if orientation == "vertical" then width else height;
      var i := 0;
      while i < lineCount
        invariant 0 <= i <= LineSlots(lineCount)
        invariant lineThicknesses == thicknessDraws[..i]
        invariant linePositions == if randomize then positionDraws[..i] else []
        invariant isInitialized == old(isInitialized)
        invariant maxPosition == Extent(orientation, width, height)
      {
        if randomize {
          linePositions := linePositions + [positionDraws[i]];
        }
        lineThicknesses := lineThicknesses + [thicknessDraws[i]];
        i := i + 1;
      }
      assert lineThicknesses == thicknessDraws;
      if randomize {
        assert linePositions == positionDraws;
        var sorted := SortAscending(linePositions);
        forall k | 0 <= k < |sorted|
          ensures 0 <= sorted[k] < maxPosition
        {
          assert sorted[k] in multiset(positionDraws);
        }
        linePositions := sorted;
      }
    }

    /** The draw callback on a canvas of the given size. */
    method OnDraw(width: nat, height: nat) returns (f: Frame)
      requires Valid()
      ensures f == DrawPlan(Settings(), isInitialized, linePositions, lineThicknesses, width, height)
    {
      if !isInitialized {
        return Painted([]);
      }
      var c := Settings();
      var strokes: seq<Stroke> := [];
      if randomize {
        var i := 0;
        while i < |linePositions|
          invariant 0 <= i <= |linePositions|
          invariant |strokes| == i
          invariant forall k :: 0 <= k < i ==> strokes[k] == PlannedStroke(c, linePositions, lineThicknesses, k, width, height)
        {
          var x := linePositions[i];
          var rect := if orientation == "vertical" then VerticalLineRect(x, height, lineThicknesses[i])
                      else HorizontalLineRect(x, width, lineThicknesses[i]);
          strokes := strokes + [Stroke(rect, LineColor(colors, i))];
          i := i + 1;
        }
      } else {
        if lineCount == 0 {
          return DivisionByZero;
        }
        var lineSpacing := (if orientation == "vertical" then width else height) / lineCount;
        var i := 0;
        while i < lineCount
          invariant 0 <= i <= LineSlots(lineCount)
          invariant |strokes| == i
          invariant forall k :: 0 <= k < i ==> strokes[k] == PlannedStroke(c, linePositions, lineThicknesses, k, width, height)
        {
          var rect := if orientation == "vertical" then VerticalLineRect(i * lineSpacing, height, lineThicknesses[i])
                      else HorizontalLineRect(i * lineSpacing, width, lineThicknesses[i]);
          strokes := strokes + [Stroke(rect, LineColor(colors, i))];
          i := i + 1;
        }
      }
      f := Painted(strokes);
    }
  }
}
