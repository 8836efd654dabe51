/** The scatter view: the two coordinate maps of `SignalView::paintEvent`,
    the pixel rounding of its points, and the sequence of draw calls one
    repaint issues. A repaint changes no state, so it is modelled as a
    function from the displayed data and the widget size to draw calls. */
module Display {
  import opened Samples

  /** One painter call. `Line` is a grid line drawn with the grey pen; its
      coordinates are whole pixels, because the four coordinates are passed
      to `QPainter::drawLine(int, int, int, int)`. `Dot` is a sample drawn
      with the black pen at a whole pixel. */
  datatype DrawOp =
    | Line(x1: int, y1: int, x2: int, y2: int)
    | Dot(px: int, py: int)

  /** Maps an amplitude in the nominal range [-1.5, 1.5] onto [0, w - 1]. */
  function XToCoord(w: int, x: real): (c: real)
    ensures c == ((w - 1) as real) * (x + 1.5) / 3.0
  {
    ((x * (1.0 / 1.5) + 1.0) * 0.5) * ((w - 1) as real)
  }

  /** Maps an amplitude in the nominal range [-1.5, 1.5] onto [h - 1, 0]:
      the Y axis is flipped so that positive amplitudes plot upwards. */
  function YToCoord(h: int, y: real): (c: real)
    ensures c == ((h - 1) as real) * (1.5 - y) / 3.0
  {
    (1.0 - ((y * (1.0 / 1.5) + 1.0) * 0.5)) * ((h - 1) as real)
  }

  /** `std::lround`: the nearest integer, with halfway cases rounded away
      from zero. */
  function LRound(v: real): (n: int)
    ensures v - 0.5 <= n as real <= v + 0.5
    ensures n as real - v == 0.5 ==> v > 0.0
    ensures v - n as real == 0.5 ==> v < 0.0
  {
    if v >= 0.0 then (v + 0.5).Floor else -((0.5 - v).Floor)
  }

  /** The implicit conversion of a floating-point value to `int`: the
      fraction is dropped, rounding toward zero. */
  function Trunc(v: real): (n: int)
    ensures v >= 0.0 ==> 0 <= n && n as real <= v < n as real + 1.0
    ensures v < 0.0 ==> n <= 0 && n as real - 1.0 < v <= n as real
  {
    if v >= 0.0 then v.Floor else -((-v).Floor)
  }

  /** The amplitudes at which grid lines are drawn, on both axes. */
  const GridPositions: seq<real> := [-1.0, -0.5, 0.0, 0.5, 1.0]

  /** A vertical grid line at amplitude `x`, running from amplitude -2 to 2. */
  function VerticalLine(w: int, h: int, x: real): (op: DrawOp)
  {
    Line(Trunc(XToCoord(w, x)), Trunc(YToCoord(h, -2.0)), Trunc(XToCoord(w, x)), Trunc(YToCoord(h, 2.0)))
  }

  /** A horizontal grid line at amplitude `y`, running from amplitude -2 to 2. */
  function HorizontalLine(w: int, h: int, y: real): (op: DrawOp)
  {
    Line(Trunc(XToCoord(w, -2.0)), Trunc(YToCoord(h, y)), Trunc(XToCoord(w, 2.0)), Trunc(YToCoord(h, y)))
  }

  /** The grid: the five vertical lines, then the five horizontal ones. */
  function Grid(w: int, h: int): (ops: seq<DrawOp>)
  {
    seq(5, i requires 0 <= i < 5 => VerticalLine(w, h, GridPositions[i]))
    + seq(5, i requires 0 <= i < 5 => HorizontalLine(w, h, GridPositions[i]))
  }

  /** The pixel a sample is plotted at. */
  function PlotPoint(w: int, h: int, p: Point): (op: DrawOp)
  {
    Dot(LRound(XToCoord(w, p.x)), LRound(YToCoord(h, p.y)))
  }

  /** The point loop: one dot per sample, in the order of the data. */
  function Dots(w: int, h: int, data: seq<Point>): (ops: seq<DrawOp>)
    ensures |ops| == |data|
    ensures forall i | 0 <= i < |data| :: ops[i] == PlotPoint(w, h, data[i])
  {
    if data == [] then [] else [PlotPoint(w, h, data[0])] + Dots(w, h, data[1..])
  }

  /** Everything one repaint draws for `data` on a `w` by `h` widget:
      nothing when there is no data, otherwise the grid and then the
      samples. */
  function Paint(w: int, h: int, data: seq<Point>): (ops: seq<DrawOp>)
    ensures |data| == 0 ==> ops == []
    ensures |data| > 0 ==> |ops| == 10 + |data|
    ensures |data| > 0 ==> forall i | 0 <= i < 5 ::
              ops[i] == VerticalLine(w, h, GridPositions[i])
              && ops[5 + i] == HorizontalLine(w, h, GridPositions[i])
    ensures |data| > 0 ==> forall i | 0 <= i < |data| :: ops[10 + i] == PlotPoint(w, h, data[i])
  {
    if |data| < 1 then [] else Grid(w, h) + Dots(w, h, data)
  }

  /** The view widget: the data it shows, replaced wholesale on each refresh. */
  class SignalView {
    var data: seq<Point>

    /** A new view shows no data, so it draws nothing. */
    constructor ()
      ensures data == []
    {
      data := [];
    }

    /** Replaces the shown data. The repaint it requests is `Paint` on the
        new data. */
    method SetData(d: seq<Point>)
      modifies this
      ensures data == d
    {
      data := d;
    }
  }

  // -----------------------------------------------------------------------
  // Properties of the coordinate maps

  /** The X map sends the ends of the nominal range to the edges of the
      widget and zero to its middle. */
  lemma XToCoordLandmarks(w: int)
    ensures XToCoord(w, -1.5) == 0.0
    ensures XToCoord(w, 0.0) == ((w - 1) as real) / 2.0
    ensures XToCoord(w, 1.5) == (w - 1) as real
  {
  }

  /** The Y map sends the top of the nominal range to the top edge, the
      bottom to the bottom edge and zero to the middle. */
  lemma YToCoordLandmarks(h: int)
    ensures YToCoord(h, 1.5) == 0.0
    ensures YToCoord(h, 0.0) == ((h - 1) as real) / 2.0
    ensures YToCoord(h, -1.5) == (h - 1) as real
  {
  }

  /** A larger amplitude never plots further left. */
  lemma XToCoordMonotonic(w: int, x1: real, x2: real)
    requires w >= 1 && x1 <= x2
    ensures XToCoord(w, x1) <= XToCoord(w, x2)
  {
  }

  /** A larger amplitude never plots further down. */
  lemma YToCoordAntitonic(h: int, y1: real, y2: real)
    requires h >= 1 && y1 <= y2
    ensures YToCoord(h, y1) >= YToCoord(h, y2)
  {
  }

  /** The X map is affine and, on a widget at least two pixels wide, can be
      undone: the amplitude is recovered from the coordinate. */
  lemma XToCoordInverse(w: int, x: real)
    requires w >= 2
    ensures 1.5 * (2.0 * (XToCoord(w, x) / ((w - 1) as real)) - 1.0) == x
  {
    var a := (x * (1.0 / 1.5) + 1.0) * 0.5;
    CancelScale(a, (w - 1) as real);
    assert XToCoord(w, x) / ((w - 1) as real) == a;
  }

  /** The Y map is affine and, on a widget at least two pixels high, can be
      undone. */
  lemma YToCoordInverse(h: int, y: real)
    requires h >= 2
    ensures 1.5 * (1.0 - 2.0 * (YToCoord(h, y) / ((h - 1) as real))) == y
  {
    var a := 1.0 - (y * (1.0 / 1.5) + 1.0) * 0.5;
    CancelScale(a, (h - 1) as real);
    assert YToCoord(h, y) / ((h - 1) as real) == a;
  }

  /** Scaling by a positive widget extent and dividing by it again is the
      identity. */
  lemma CancelScale(a: real, c: real)
    requires c > 0.0
    ensures a * c / c == a
  {
  }

  // -----------------------------------------------------------------------
  // Properties of the paint plan

  /** Every grid line is axis-parallel, sits inside the widget, and runs
      past both of its edges, so it spans the whole visible range. */
  lemma GridSpansView(w: int, h: int, i: nat)
    requires w >= 1 && h >= 1 && i < 5
    ensures VerticalLine(w, h, GridPositions[i]).x1 == VerticalLine(w, h, GridPositions[i]).x2
    ensures 0 <= VerticalLine(w, h, GridPositions[i]).x1 <= w - 1
    ensures VerticalLine(w, h, GridPositions[i]).y2 <= 0
    ensures VerticalLine(w, h, GridPositions[i]).y1 >= h - 1
    ensures HorizontalLine(w, h, GridPositions[i]).y1 == HorizontalLine(w, h, GridPositions[i]).y2
    ensures 0 <= HorizontalLine(w, h, GridPositions[i]).y1 <= h - 1
    ensures HorizontalLine(w, h, GridPositions[i]).x1 <= 0
    ensures HorizontalLine(w, h, GridPositions[i]).x2 >= w - 1
  {
    var p := GridPositions[i];
    assert -1.5 <= p <= 1.5;
    XToCoordMonotonic(w, -1.5, p);
    XToCoordMonotonic(w, p, 1.5);
    YToCoordAntitonic(h, -1.5, p);
    YToCoordAntitonic(h, p, 1.5);
  }

  /** Rounding a coordinate that lies between two whole pixels keeps it
      between them. */
  lemma LRoundWithin(v: real, lo: int, hi: int)
    requires lo as real <= v <= hi as real
    ensures lo <= LRound(v) <= hi
  {
  }

  /** A sample inside the nominal range is plotted at a pixel of the widget. */
  lemma PlotPointInView(w: int, h: int, p: Point)
    requires w >= 1 && h >= 1
    requires -1.5 <= p.x <= 1.5 && -1.5 <= p.y <= 1.5
    ensures 0 <= PlotPoint(w, h, p).px <= w - 1
    ensures 0 <= PlotPoint(w, h, p).py <= h - 1
  {
    XToCoordMonotonic(w, -1.5, p.x);
    XToCoordMonotonic(w, p.x, 1.5);
    YToCoordAntitonic(h, -1.5, p.y);
    YToCoordAntitonic(h, p.y, 1.5);
    XToCoordLandmarks(w);
    YToCoordLandmarks(h);
    LRoundWithin(XToCoord(w, p.x), 0, w - 1);
    LRoundWithin(YToCoord(h, p.y), 0, h - 1);
  }

  /** When every sample is inside the nominal range, every dot of a repaint
      lands on the widget. */
  lemma PaintDotsInView(w: int, h: int, data: seq<Point>)
    requires w >= 1 && h >= 1
    requires forall i | 0 <= i < |data| :: -1.5 <= data[i].x <= 1.5 && -1.5 <= data[i].y <= 1.5
    ensures forall j | 0 <= j < |Paint(w, h, data)| && Paint(w, h, data)[j].Dot? ::
              0 <= Paint(w, h, data)[j].px <= w - 1 && 0 <= Paint(w, h, data)[j].py <= h - 1
  {
    var ops := Paint(w, h, data);
    forall j | 0 <= j < |ops| && ops[j].Dot?
      ensures 0 <= ops[j].px <= w - 1 && 0 <= ops[j].py <= h - 1
    {
      assert j >= 10;
      PlotPointInView(w, h, data[j - 10]);
    }
  }
}
