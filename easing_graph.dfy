/**
 * The easing graph (components/EasingGraph.tsx): the axes, the curve of an
 * easing, and, for a four-number Bézier array, the dashed handles from the
 * curve's endpoints to its control points with a circle on each control point.
 */
module EasingGraph {
  import opened Options
  import opened Easing

  /** A straight line drawn from one point to another. */
  datatype Line = Line(from: Point, to: Point)

  /** The control-point decoration: two dashed handles and two circles. */
  datatype Handles = Handles(first: Line, second: Line, circle1: Point, circle2: Point)

  /** Everything the graph draws, in pixels. */
  datatype Graph = Graph(xAxis: Line, yAxis: Line, curve: Path, handles: Option<Handles>)

  /** The size used for an omitted width or height. */
  const DefaultSize: real := 300.0

  /** An optional size property with its default applied. */
  function SizeOr300(size: Option<real>): (r: real)
    ensures size.Some? ==> r == size.value
    ensures size.None? ==> r == DefaultSize
  {
    size.GetOr(DefaultSize)
  }

  /**
   * The geometry of `EasingGraph` for an easing and optional width and height.
   * The curve is the path `generateEasingPath` builds; the axes meet at the
   * curve's start; handles appear exactly for a four-number array, and then
   * join the curve's endpoints to its control points, with the circles on them.
   */
  function RenderGraph(easing: Descriptor, width: Option<real>, height: Option<real>): (g: Graph)
    ensures var w, h := SizeOr300(width), SizeOr300(height);
      g.curve == GenerateEasingPath(easing, w, h)
      && g.xAxis == Line(g.curve.start, Point(w, h))
      && g.yAxis == Line(Point(0.0, 0.0), g.curve.start)
    ensures g.handles.Some? <==> IsFourNumbers(easing)
    ensures g.handles.Some? ==>
      && g.handles.value.first == Line(g.curve.start, g.curve.cp1)
      && g.handles.value.second == Line(g.curve.end, g.curve.cp2)
      && g.handles.value.circle1 == g.curve.cp1
      && g.handles.value.circle2 == g.curve.cp2
  {
    var w, h := SizeOr300(width), SizeOr300(height);
    var curve := GenerateEasingPath(easing, w, h);
    var handles :=
      if easing.BezierArray? && |easing.values| == 4 then
        var e := easing.values;
        ArrayPathControlPoints(e, w, h);
        Some(Handles(
          Line(Point(0.0, h), Point(e[0] * w, h - e[1] * h)),
          Line(Point(w, 0.0), Point(e[2] * w, h - e[3] * h)),
          Point(e[0] * w, h - e[1] * h),
          Point(e[2] * w, h - e[3] * h)))
      else None;
    Graph(Line(Point(0.0, h), Point(w, h)), Line(Point(0.0, 0.0), Point(0.0, h)), curve, handles)
  }

  /**
   * With a positive size, both control circles of a Bézier array sit inside
   * the frame exactly when its four numbers lie in [0, 1]; nothing is clamped.
   */
  lemma {:induction false} CirclesInFrameIff(vs: seq<real>, w: real, h: real)
    requires |vs| == 4 && w > 0.0 && h > 0.0
    ensures var hs := RenderGraph(BezierArray(vs), Some(w), Some(h)).handles.value;
      InFrame(hs.circle1, w, h) && InFrame(hs.circle2, w, h)
      <==> forall i :: 0 <= i < 4 ==> 0.0 <= vs[i] <= 1.0
  {
    ArrayPathControlPoints(vs, w, h);
    InFrameIff(vs[0], vs[1], w, h);
    InFrameIff(vs[2], vs[3], w, h);
  }

  /** A named easing draws no handles, and its curve's control points lie in the frame. */
  lemma NamedCurveInFrame(s: string, w: real, h: real)
    requires w > 0.0 && h > 0.0
    ensures var g := RenderGraph(Named(s), Some(w), Some(h));
      g.handles.None? && InFrame(g.curve.cp1, w, h) && InFrame(g.curve.cp2, w, h)
  {
  }

  /** An omitted width or height draws exactly as 300 does. */
  lemma DefaultSizeIs300(easing: Descriptor, width: Option<real>, height: Option<real>)
    ensures RenderGraph(easing, None, height) == RenderGraph(easing, Some(300.0), height)
    ensures RenderGraph(easing, width, None) == RenderGraph(easing, width, Some(300.0))
  {
  }
}
