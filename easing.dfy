/**
 * The easing registry and the cubic Bézier path builder (utils/easing.ts):
 * the eleven easing names, their descriptions, their approximate Bézier
 * control points, and the construction of the pixel-space path of an easing
 * graph from an easing descriptor and a drawing size.
 */
module Easing {
  import opened Options
  import Text

  /** The closed set of easing names (the `EasingType` union). */
  datatype EasingName =
    | Linear | EaseIn | EaseOut | EaseInOut
    | CircIn | CircOut | CircInOut
    | BackIn | BackOut | BackInOut | Anticipate

  /** Every name, in the order the union and the tables list them. */
  const AllNames: seq<EasingName> :=
    [Linear, EaseIn, EaseOut, EaseInOut, CircIn, CircOut, CircInOut,
     BackIn, BackOut, BackInOut, Anticipate]

  /** The string a name is spelled as in the source's tables and its callers. */
  function NameText(n: EasingName): string
  {
    match n
    case Linear => "linear"
    case EaseIn => "easeIn"
    case EaseOut => "easeOut"
    case EaseInOut => "easeInOut"
    case CircIn => "circIn"
    case CircOut => "circOut"
    case CircInOut => "circInOut"
    case BackIn => "backIn"
    case BackOut => "backOut"
    case BackInOut => "backInOut"
    case Anticipate => "anticipate"
  }

  /** The name a string spells, if it spells one of the eleven. */
  function ParseName(s: string): (r: Option<EasingName>)
    ensures r.Some? ==> NameText(r.value) == s
    ensures r.None? ==> forall n: EasingName :: NameText(n) != s
  {
    if s == "linear" then Some(Linear)
    else if s == "easeIn" then Some(EaseIn)
    else if s == "easeOut" then Some(EaseOut)
    else if s == "easeInOut" then Some(EaseInOut)
    else if s == "circIn" then Some(CircIn)
    else if s == "circOut" then Some(CircOut)
    else if s == "circInOut" then Some(CircInOut)
    else if s == "backIn" then Some(BackIn)
    else if s == "backOut" then Some(BackOut)
    else if s == "backInOut" then Some(BackInOut)
    else if s == "anticipate" then Some(Anticipate)
    else None
  }

  /** Reading a name's spelling gives the name back: the spellings are distinct. */
  lemma ParseNameText(n: EasingName)
    ensures ParseName(NameText(n)) == Some(n)
  {
  }

  /** `AllNames` lists every name exactly once. */
  lemma AllNamesEnumerates()
    ensures |AllNames| == 11
    ensures forall n: EasingName :: n in AllNames
    ensures forall i, j :: 0 <= i < j < |AllNames| ==> AllNames[i] != AllNames[j]
  {
    forall n: EasingName
      ensures n in AllNames
    {
      match n
      case Linear => assert AllNames[0] == n;
      case EaseIn => assert AllNames[1] == n;
      case EaseOut => assert AllNames[2] == n;
      case EaseInOut => assert AllNames[3] == n;
      case CircIn => assert AllNames[4] == n;
      case CircOut => assert AllNames[5] == n;
      case CircInOut => assert AllNames[6] == n;
      case BackIn => assert AllNames[7] == n;
      case BackOut => assert AllNames[8] == n;
      case BackInOut => assert AllNames[9] == n;
      case Anticipate => assert AllNames[10] == n;
    }
  }

  /** The `NAMED_EASINGS` table: each name mapped to the easing of that name. */
  const NamedEasings: map<string, string> := map[
    "linear" := "linear",
    "easeIn" := "easeIn",
    "easeOut" := "easeOut",
    "easeInOut" := "easeInOut",
    "circIn" := "circIn",
    "circOut" := "circOut",
    "circInOut" := "circInOut",
    "backIn" := "backIn",
    "backOut" := "backOut",
    "backInOut" := "backInOut",
    "anticipate" := "anticipate"
  ]

  /** `NAMED_EASINGS` is keyed by exactly the eleven names and maps each to itself. */
  lemma NamedEasingsIdentity()
    ensures forall n: EasingName :: NameText(n) in NamedEasings && NamedEasings[NameText(n)] == NameText(n)
    ensures forall k :: k in NamedEasings ==> ParseName(k).Some?
  {
  }

  /** The `EASING_DESCRIPTIONS` table: a fixed, non-empty text for every name. */
  function Description(n: EasingName): (d: string)
    ensures |d| > 0
  {
    match n
    case Linear => "Constant speed"
    case EaseIn => "Starts slow, ends fast"
    case EaseOut => "Starts fast, ends slow"
    case EaseInOut => "Starts slow, speeds up, ends slow"
    case CircIn => "Circular curve, starts slow"
    case CircOut => "Circular curve, ends slow"
    case CircInOut => "Circular curve, slow start and end"
    case BackIn => "Pull back before moving forward"
    case BackOut => "Overshoot and settle"
    case BackInOut => "Pull back, move forward, overshoot, settle"
    case Anticipate => "Anticipates the motion"
  }

  /** No two names share a description. */
  lemma DescriptionsDistinct(a: EasingName, b: EasingName)
    requires a != b
    ensures Description(a) != Description(b)
  {
  }

  /** Four cubic Bézier control numbers: the control points (x1, y1) and (x2, y2). */
  datatype Bezier = Bezier(x1: real, y1: real, x2: real, y2: real)

  /** The curve used when a descriptor has no Bézier form. */
  const Fallback: Bezier := Bezier(0.42, 0.0, 0.58, 1.0)

  /** The names of the overshoot and anticipation family, which are not cubic Béziers. */
  predicate IsOvershoot(n: EasingName)
  {
    n == BackIn || n == BackOut || n == BackInOut || n == Anticipate
  }

  /** The control numbers inside the unit square. */
  predicate InUnitSquare(b: Bezier)
  {
    0.0 <= b.x1 <= 1.0 && 0.0 <= b.y1 <= 1.0 && 0.0 <= b.x2 <= 1.0 && 0.0 <= b.y2 <= 1.0
  }

  /**
   * The `NAMED_EASING_BEZIERS` table: an approximate Bézier for every name
   * outside the overshoot family, and none for that family.
   */
  function BezierFor(n: EasingName): (r: Option<Bezier>)
    ensures r.None? <==> IsOvershoot(n)
    ensures r.Some? ==> InUnitSquare(r.value)
  {
    match n
    case Linear => Some(Bezier(0.0, 0.0, 1.0, 1.0))
    case EaseIn => Some(Bezier(0.42, 0.0, 1.0, 1.0))
    case EaseOut => Some(Bezier(0.0, 0.0, 0.58, 1.0))
    case EaseInOut => Some(Bezier(0.42, 0.0, 0.58, 1.0))
    case CircIn => Some(Bezier(0.55, 0.0, 1.0, 0.45))
    case CircOut => Some(Bezier(0.0, 0.55, 0.45, 1.0))
    case CircInOut => Some(Bezier(0.85, 0.0, 0.15, 1.0))
    case BackIn => None
    case BackOut => None
    case BackInOut => None
    case Anticipate => None
  }

  /**
   * An easing as framer-motion accepts it: a name (any string), an array of
   * numbers (a Bézier when it has four), or an easing function.
   */
  datatype Descriptor =
    | Named(name: string)
    | BezierArray(values: seq<real>)
    | EasingFunction

  /** Whether the descriptor is an array of exactly four numbers. */
  predicate IsFourNumbers(e: Descriptor)
  {
    e.BezierArray? && |e.values| == 4
  }

  /** The four numbers of an array descriptor, as a Bézier. */
  function ArrayBezier(values: seq<real>): Bezier
    requires |values| == 4
  {
    Bezier(values[0], values[1], values[2], values[3])
  }

  /** The array descriptor that spells a Bézier out. */
  function AsArray(b: Bezier): (e: Descriptor)
    ensures IsFourNumbers(e) && ArrayBezier(e.values) == b
  {
    BezierArray([b.x1, b.y1, b.x2, b.y2])
  }

  /**
   * The control numbers `generateEasingPath` draws: a four-number array as
   * it is, a name with a table entry by that entry, anything else the fallback.
   */
  function ResolveBezier(e: Descriptor): (b: Bezier)
    ensures IsFourNumbers(e) ==> b == ArrayBezier(e.values)
    ensures !IsFourNumbers(e) ==> b == Fallback || exists n: EasingName :: BezierFor(n) == Some(b)
  {
    match e
    case Named(s) =>
      (match ParseName(s)
       case Some(n) => BezierFor(n).GetOr(Fallback)
       case None => Fallback)
    case BezierArray(vs) =>
      if |vs| == 4 then ArrayBezier(vs) else Fallback
    case EasingFunction => Fallback
  }

  /** A name resolves to its table entry, or to the fallback when it has none. */
  lemma ResolveName(n: EasingName)
    ensures ResolveBezier(Named(NameText(n))) == BezierFor(n).GetOr(Fallback)
  {
  }

  /** A name and the array of its table entry resolve alike. */
  lemma NamedEqualsItsArray(n: EasingName)
    requires BezierFor(n).Some?
    ensures ResolveBezier(Named(NameText(n))) == ResolveBezier(AsArray(BezierFor(n).value))
  {
  }

  /**
   * The fallback is drawn exactly for the overshoot family, unknown strings,
   * arrays of any length but four and easing functions.
   */
  lemma FallbackCases(e: Descriptor)
    ensures (e.Named? && ParseName(e.name).Some? && IsOvershoot(ParseName(e.name).value)) ==> ResolveBezier(e) == Fallback
    ensures (e.Named? && ParseName(e.name).None?) ==> ResolveBezier(e) == Fallback
    ensures (e.BezierArray? && |e.values| != 4) ==> ResolveBezier(e) == Fallback
    ensures e.EasingFunction? ==> ResolveBezier(e) == Fallback
  {
  }

  /** A point of the drawing, in pixels; y grows downward as in SVG. */
  datatype Point = Point(x: real, y: real)

  /**
   * The graph's coordinate transform: normalized time `u` to `u * width`,
   * normalized progress `v` to `height - v * height`.
   */
  function ToPixel(u: real, v: real, width: real, height: real): (p: Point)
    ensures u == 0.0 ==> p.x == 0.0
    ensures u == 1.0 ==> p.x == width
    ensures v == 0.0 ==> p.y == height
    ensures v == 1.0 ==> p.y == 0.0
  {
    Point(u * width, height - v * height)
  }

  /** The inverse of `ToPixel` for a drawing of non-zero size. */
  function FromPixel(p: Point, width: real, height: real): (uv: (real, real))
    requires width != 0.0 && height != 0.0
  {
    (p.x / width, (height - p.y) / height)
  }

  /** `FromPixel` undoes `ToPixel`: the transform loses nothing. */
  lemma FromToPixel(u: real, v: real, width: real, height: real)
    requires width != 0.0 && height != 0.0
    ensures FromPixel(ToPixel(u, v, width, height), width, height) == (u, v)
  {
    var p := ToPixel(u, v, width, height);
    assert p.x / width == u by {
      assert p.x == u * width;
    }
    assert (height - p.y) / height == v by {
      assert height - p.y == v * height;
    }
  }

  /** `ToPixel` undoes `FromPixel`: every pixel is the image of one normalized point. */
  lemma ToFromPixel(p: Point, width: real, height: real)
    requires width != 0.0 && height != 0.0
    ensures ToPixel(FromPixel(p, width, height).0, FromPixel(p, width, height).1, width, height) == p
  {
  }

  /** A point inside the drawing area [0, width] x [0, height]. */
  predicate InFrame(p: Point, width: real, height: real)
  {
    0.0 <= p.x <= width && 0.0 <= p.y <= height
  }

  /**
   * No clamping: for a drawing of positive size a normalized point lands in the
   * frame exactly when both its coordinates lie in [0, 1].
   */
  lemma InFrameIff(u: real, v: real, width: real, height: real)
    requires width > 0.0 && height > 0.0
    ensures InFrame(ToPixel(u, v, width, height), width, height) <==> 0.0 <= u <= 1.0 && 0.0 <= v <= 1.0
  {
    var p := ToPixel(u, v, width, height);
    assert p.x == u * width && p.y == height - v * height;
    assert 0.0 <= p.x <==> 0.0 <= u;
    assert p.x - width == (u - 1.0) * width;
    if u > 1.0 {
      assert (u - 1.0) * width > 0.0;
    } else {
      assert (u - 1.0) * width <= 0.0;
    }
    assert p.x <= width <==> u <= 1.0;
    assert 0.0 <= p.y <==> v <= 1.0;
    assert p.y == (1.0 - v) * height;
    if v > 1.0 {
      assert (1.0 - v) * height < 0.0;
    } else {
      assert (1.0 - v) * height >= 0.0;
    }
    if v < 0.0 {
      assert v * height < 0.0;
    } else {
      assert v * height >= 0.0;
    }
    assert p.y <= height <==> 0.0 <= v;
  }

  /**
   * The drawn easing path: one move to `start` followed by one cubic segment
   * through `cp1` and `cp2` to `end`.
   */
  datatype Path = Path(start: Point, cp1: Point, cp2: Point, end: Point)

  /**
   * `getCubicBezierPath`: the cubic from normalized (0, 0) to (1, 1) with the
   * given control points, in pixels. The endpoints do not depend on the
   * control numbers, and the control points give those numbers back.
   */
  function CubicBezierPath(x1: real, y1: real, x2: real, y2: real, width: real, height: real): (p: Path)
    ensures p.start == Point(0.0, height) && p.end == Point(width, 0.0)
    ensures width != 0.0 && height != 0.0 ==>
      FromPixel(p.cp1, width, height) == (x1, y1) && FromPixel(p.cp2, width, height) == (x2, y2)
  {
    var p := Path(ToPixel(0.0, 0.0, width, height), ToPixel(x1, y1, width, height),
                  ToPixel(x2, y2, width, height), ToPixel(1.0, 1.0, width, height));
    if width != 0.0 && height != 0.0 then
      FromToPixel(x1, y1, width, height);
      FromToPixel(x2, y2, width, height);
      p
    else
      p
  }

  /**
   * `generateEasingPath`: the path of the resolved control numbers. The
   * `samples` argument is accepted and unused, as in the source.
   */
  function GenerateEasingPath(e: Descriptor, width: real, height: real, samples: int := 100): (p: Path)
    ensures p.start == Point(0.0, height) && p.end == Point(width, 0.0)
    ensures width != 0.0 && height != 0.0 ==>
      var b := ResolveBezier(e);
      FromPixel(p.cp1, width, height) == (b.x1, b.y1) && FromPixel(p.cp2, width, height) == (b.x2, b.y2)
  {
    var b := ResolveBezier(e);
    CubicBezierPath(b.x1, b.y1, b.x2, b.y2, width, height)
  }

  /** The control points of a four-number array are its numbers, transformed. */
  lemma ArrayPathControlPoints(vs: seq<real>, width: real, height: real)
    requires |vs| == 4
    ensures GenerateEasingPath(BezierArray(vs), width, height).cp1 == ToPixel(vs[0], vs[1], width, height)
    ensures GenerateEasingPath(BezierArray(vs), width, height).cp2 == ToPixel(vs[2], vs[3], width, height)
  {
  }

  /** Two descriptors that resolve alike draw the same path, whatever the size. */
  lemma SameBezierSamePath(e1: Descriptor, e2: Descriptor, width: real, height: real)
    requires ResolveBezier(e1) == ResolveBezier(e2)
    ensures GenerateEasingPath(e1, width, height) == GenerateEasingPath(e2, width, height)
  {
  }

  /** The path does not depend on the sample count. */
  lemma SamplesIgnored(e: Descriptor, width: real, height: real, s1: int, s2: int)
    ensures GenerateEasingPath(e, width, height, s1) == GenerateEasingPath(e, width, height, s2)
  {
  }

  /** A zero-size drawing gives a path whose every coordinate is 0. */
  lemma ZeroSizePath(e: Descriptor)
    ensures var p := GenerateEasingPath(e, 0.0, 0.0);
      p.start == p.cp1 == p.cp2 == p.end == Point(0.0, 0.0)
  {
  }

  /** The name `easeInOut` draws the same 300 x 300 path as its four numbers. */
  lemma ExampleEaseInOut()
    ensures GenerateEasingPath(Named("easeInOut"), 300.0, 300.0)
         == GenerateEasingPath(BezierArray([0.42, 0.0, 0.58, 1.0]), 300.0, 300.0)
    ensures GenerateEasingPath(Named("easeInOut"), 300.0, 300.0).cp1 == Point(126.0, 300.0)
  {
    ResolveName(EaseInOut);
    var b := Bezier(0.42, 0.0, 0.58, 1.0);
    assert ResolveBezier(Named("easeInOut")) == b;
    assert ResolveBezier(BezierArray([0.42, 0.0, 0.58, 1.0])) == b;
    SameBezierSamePath(Named("easeInOut"), BezierArray([0.42, 0.0, 0.58, 1.0]), 300.0, 300.0);
    assert ToPixel(0.42, 0.0, 300.0, 300.0) == Point(126.0, 300.0);
  }

  /** `backIn` has no table entry and draws the fallback, as an unknown name does. */
  lemma ExampleBackIn()
    ensures GenerateEasingPath(Named("backIn"), 300.0, 300.0)
         == GenerateEasingPath(BezierArray([0.42, 0.0, 0.58, 1.0]), 300.0, 300.0)
    ensures GenerateEasingPath(Named("bounce"), 300.0, 300.0)
         == GenerateEasingPath(Named("backIn"), 300.0, 300.0)
  {
    ResolveName(BackIn);
    var arr := BezierArray([0.42, 0.0, 0.58, 1.0]);
    assert ResolveBezier(Named("backIn")) == Fallback;
    assert ResolveBezier(arr) == Fallback;
    assert ParseName("bounce") == None;
    assert ResolveBezier(Named("bounce")) == Fallback;
    SameBezierSamePath(Named("backIn"), arr, 300.0, 300.0);
    SameBezierSamePath(Named("bounce"), Named("backIn"), 300.0, 300.0);
  }

  /** One coordinate pair of the path text, `x,y`. */
  function CoordText(p: Point, fmt: real -> string): (r: string)
    ensures r == fmt(p.x) + "," + fmt(p.y)
  {
    Text.JoinCons(fmt(p.x), [fmt(p.y)], ",");
    Text.Join([fmt(p.x), fmt(p.y)], ",")
  }

  /**
   * The SVG path text `M sx,sy C c1x,c1y c2x,c2y ex,ey` of a path, with
   * `fmt` standing for JavaScript's number-to-text conversion.
   */
  function PathData(p: Path, fmt: real -> string): (r: string)
    ensures r == "M " + CoordText(p.start, fmt) + " C " + CoordText(p.cp1, fmt)
      + " " + CoordText(p.cp2, fmt) + " " + CoordText(p.end, fmt)
  {
    var a, b, c, d := CoordText(p.start, fmt), CoordText(p.cp1, fmt), CoordText(p.cp2, fmt), CoordText(p.end, fmt);
    Text.JoinCons(c, [d], " ");
    Text.JoinCons(b, [c, d], " ");
    Text.JoinCons("C", [b, c, d], " ");
    Text.JoinCons(a, ["C", b, c, d], " ");
    Text.JoinCons("M", [a, "C", b, c, d], " ");
    Text.Join(["M", a, "C", b, c, d], " ")
  }

  /**
   * When numbers print without spaces or commas, the path text reads back as
   * one move and one cubic command with the points in the order start, cp1,
   * cp2, end, each as its two printed coordinates.
   */
  lemma {:induction false} PathDataReadsBack(p: Path, fmt: real -> string)
    requires forall r :: ' ' !in fmt(r) && ',' !in fmt(r)
    ensures var tokens := Text.Split(PathData(p, fmt), ' ');
      && |tokens| == 6 && tokens[0] == "M" && tokens[2] == "C"
      && Text.Split(tokens[1], ',') == [fmt(p.start.x), fmt(p.start.y)]
      && Text.Split(tokens[3], ',') == [fmt(p.cp1.x), fmt(p.cp1.y)]
      && Text.Split(tokens[4], ',') == [fmt(p.cp2.x), fmt(p.cp2.y)]
      && Text.Split(tokens[5], ',') == [fmt(p.end.x), fmt(p.end.y)]
  {
    var pts := [p.start, p.cp1, p.cp2, p.end];
    forall q | q in pts
      ensures ' ' !in CoordText(q, fmt)
      ensures Text.Split(CoordText(q, fmt), ',') == [fmt(q.x), fmt(q.y)]
    {
      Text.SplitJoin([fmt(q.x), fmt(q.y)], ',');
      assert CoordText(q, fmt) == fmt(q.x) + [','] + fmt(q.y);
    }
    var parts := ["M", CoordText(p.start, fmt), "C", CoordText(p.cp1, fmt),
                  CoordText(p.cp2, fmt), CoordText(p.end, fmt)];
    assert p.start in pts && p.cp1 in pts && p.cp2 in pts && p.end in pts;
    Text.SplitJoin(parts, ' ');
  }
}
