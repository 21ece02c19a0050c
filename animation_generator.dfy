/**
 * The animation code generator (components/AnimationGeneratorModal.tsx): the
 * state the modal keeps, the edits of the custom Bézier numbers and the play
 * counter, and the settings of the code snippet it generates for GSAP or for
 * Framer Motion: the ease value, the repeat value and the repeat type.
 */
module AnimationGenerator {
  import opened Options
  import opened Easing
  import Text

  /** The easing selected in the modal: a named easing or the custom Bézier. */
  datatype EaseChoice = Custom | Preset(name: EasingName)

  /** The ease strings GSAP uses for the eleven names. */
  const GsapEaseTable: map<string, string> := map[
    "linear" := "none",
    "easeIn" := "power1.in",
    "easeOut" := "power1.out",
    "easeInOut" := "power1.inOut",
    "circIn" := "circ.in",
    "circOut" := "circ.out",
    "circInOut" := "circ.inOut",
    "backIn" := "back.in",
    "backOut" := "back.out",
    "backInOut" := "back.inOut",
    "anticipate" := "back.in(1.7)"
  ]

  /** The GSAP ease used for a name the table does not give a non-empty ease for. */
  const GsapDefaultEase: string := "power1.inOut"

  /**
   * `map[easing] || "power1.inOut"`: the table's ease for a name in it, the
   * default otherwise. The result is always one of the table's eases.
   */
  function GsapEase(name: string): (r: string)
    ensures name in GsapEaseTable ==> r == GsapEaseTable[name]
    ensures name !in GsapEaseTable ==> r == GsapDefaultEase
    ensures r in GsapEaseTable.Values
  {
    assert GsapEaseTable["easeInOut"] == GsapDefaultEase;
    if name in GsapEaseTable && GsapEaseTable[name] != "" then GsapEaseTable[name]
    else GsapDefaultEase
  }

  /** Every one of the eleven names has its own GSAP ease. */
  lemma GsapEaseOfName(n: EasingName)
    ensures NameText(n) in GsapEaseTable
  {
  }

  /** No two names share a GSAP ease. */
  lemma GsapEaseDistinct(a: EasingName, b: EasingName)
    requires a != b
    ensures GsapEase(NameText(a)) != GsapEase(NameText(b))
  {
  }

  /** Sample entries of the GSAP table and its default. */
  lemma GsapEaseExamples()
    ensures GsapEase("linear") == "none"
    ensures GsapEase("easeInOut") == "power1.inOut"
    ensures GsapEase("anticipate") == "back.in(1.7)"
    ensures GsapEase("spring") == "power1.inOut"
  {
  }

  /** A text in double quotes, as the snippet writes string literals. */
  function Quote(s: string): (r: string)
    ensures |r| == |s| + 2 && r[0] == '"' && r[|r| - 1] == '"' && r[1..|r| - 1] == s
  {
    "\"" + s + "\""
  }

  /** The custom numbers each turned into text. */
  function Formatted(values: seq<real>, fmt: real -> string): (r: seq<string>)
    ensures |r| == |values| && forall i :: 0 <= i < |values| ==> r[i] == fmt(values[i])
  {
    seq(|values|, i requires 0 <= i < |values| => fmt(values[i]))
  }

  /** A formatter that prints no commas prints every custom number without one. */
  lemma NoCommaInFormatted(values: seq<real>, fmt: real -> string)
    requires forall r :: ',' !in fmt(r)
    ensures forall i :: 0 <= i < |values| ==> ',' !in Formatted(values, fmt)[i]
  {
    forall i | 0 <= i < |values|
      ensures ',' !in Formatted(values, fmt)[i]
    {
      var r := values[i];
      assert Formatted(values, fmt)[i] == fmt(r);
      assert ',' !in fmt(r);
    }
  }

  /** The opening of the GSAP custom ease, up to the first control number. */
  const CustomEaseOpen: string := "CustomEase.create(\"custom\", \"M0,0 C"

  /** The closing of the GSAP custom ease, after the last control number. */
  const CustomEaseClose: string := ", 1,1\")"

  /**
   * The ease value of the GSAP snippet: the custom Bézier as a `CustomEase`
   * path from (0,0) to (1,1), or the name's GSAP ease in quotes. The value
   * says which kind it is by its first character.
   */
  function GsapEaseValue(easing: EaseChoice, bezier: seq<real>, fmt: real -> string): (r: string)
    ensures |r| > 0 && (r[0] == '"' <==> easing.Preset?)
    ensures easing.Preset? ==> |r| >= 2 && r[|r| - 1] == '"' && r[1..|r| - 1] == GsapEase(NameText(easing.name))
    ensures easing.Custom? ==>
      && |r| >= |CustomEaseOpen| + |CustomEaseClose|
      && r[..|CustomEaseOpen|] == CustomEaseOpen
      && r[|r| - |CustomEaseClose|..] == CustomEaseClose
  {
    match easing
    case Custom => CustomEaseOpen + Text.Join(Formatted(bezier, fmt), ",") + CustomEaseClose
    case Preset(n) => Quote(GsapEase(NameText(n)))
  }

  /**
   * The ease value of the Framer Motion snippet: the custom Bézier as an
   * array literal, or the name in quotes.
   */
  function FramerEaseValue(easing: EaseChoice, bezier: seq<real>, fmt: real -> string): (r: string)
    ensures |r| > 0 && (r[0] == '"' <==> easing.Preset?) && (r[0] == '[' <==> easing.Custom?)
    ensures easing.Preset? ==> |r| >= 2 && r[|r| - 1] == '"' && r[1..|r| - 1] == NameText(easing.name)
    ensures easing.Custom? ==> r[|r| - 1] == ']'
  {
    match easing
    case Custom => "[" + Text.Join(Formatted(bezier, fmt), ", ") + "]"
    case Preset(n) => Quote(NameText(n))
  }

  /** Each snippet's ease value tells which easing was chosen. */
  lemma EaseValueDeterminesChoice(c1: EaseChoice, c2: EaseChoice, b1: seq<real>, b2: seq<real>, fmt: real -> string)
    ensures GsapEaseValue(c1, b1, fmt) == GsapEaseValue(c2, b2, fmt) ==> c1 == c2
    ensures FramerEaseValue(c1, b1, fmt) == FramerEaseValue(c2, b2, fmt) ==> c1 == c2
  {
    if c1.Preset? && c2.Preset? && c1 != c2 {
      GsapEaseDistinct(c1.name, c2.name);
      var g1, g2 := GsapEase(NameText(c1.name)), GsapEase(NameText(c2.name));
      assert Quote(g1)[1..|Quote(g1)| - 1] == g1;
      assert Quote(g2)[1..|Quote(g2)| - 1] == g2;
      ParseNameText(c1.name);
      ParseNameText(c2.name);
      var t1, t2 := NameText(c1.name), NameText(c2.name);
      assert Quote(t1)[1..|Quote(t1)| - 1] == t1;
      assert Quote(t2)[1..|Quote(t2)| - 1] == t2;
    }
  }

  /**
   * When numbers print without commas, the Framer custom ease is a bracketed
   * list whose comma-separated items are the printed numbers in order, each
   * after the first behind one space.
   */
  lemma FramerCustomReadsBack(bezier: seq<real>, fmt: real -> string)
    requires |bezier| >= 1
    requires forall r :: ',' !in fmt(r)
    ensures var v := FramerEaseValue(Custom, bezier, fmt);
      var texts := Formatted(bezier, fmt);
      && v[0] == '[' && v[|v| - 1] == ']'
      && Text.Split(v[1..|v| - 1], ',') == [texts[0]] + Text.PrefixEach(" ", texts[1..])
  {
    var texts := Formatted(bezier, fmt);
    var inner := Text.Join(texts, ", ");
    var v := FramerEaseValue(Custom, bezier, fmt);
    assert v == "[" + inner + "]";
    assert v[1..|v| - 1] == inner;
    assert ", " == [','] + " ";
    NoCommaInFormatted(bezier, fmt);
    Text.SplitJoinFrom("", texts, ',', " ");
    assert "" + inner == inner;
    assert "" + texts[0] == texts[0];
  }

  /**
   * When numbers print without commas, the comma-separated fields of the GSAP
   * custom ease are the call's opening, the start point `M0,0`, the four
   * printed numbers (the first behind `C`), and the end point `1,1`.
   */
  lemma {:induction false} GsapCustomReadsBack(bezier: seq<real>, fmt: real -> string)
    requires |bezier| == 4
    requires forall r :: ',' !in fmt(r)
    ensures var t := Formatted(bezier, fmt);
      Text.Split(GsapEaseValue(Custom, bezier, fmt), ',')
      == ["CustomEase.create(\"custom\"", " \"M0", "0 C" + t[0], t[1], t[2], t[3], " 1", "1\")"]
  {
    var t := Formatted(bezier, fmt);
    var inner := Text.Join(t, ",");
    NoCommaInFormatted(bezier, fmt);
    Text.SplitJoin(t, ',');
    CustomEaseOpenFields();
    CustomEaseCloseFields();
    Text.SplitConcat(CustomEaseOpen, inner, ',');
    Text.SplitConcat(CustomEaseOpen + inner, CustomEaseClose, ',');
    GlueAroundFour("CustomEase.create(\"custom\"", " \"M0", "0 C", t, " 1", "1\")");
    assert GsapEaseValue(Custom, bezier, fmt) == CustomEaseOpen + inner + CustomEaseClose;
  }

  /** Gluing three opening fields, four numbers and an empty-led closing. */
  lemma GlueAroundFour(a: string, b: string, d: string, t: seq<string>, e1: string, e2: string)
    requires |t| == 4
    ensures Text.Glue(Text.Glue([a, b, d], t), ["", e1, e2]) == [a, b, d + t[0], t[1], t[2], t[3], e1, e2]
  {
    var head := Text.Glue([a, b, d], t);
    assert head == [a, b, d + t[0], t[1], t[2], t[3]];
    assert t[3] + "" == t[3];
  }

  /** The comma-separated fields of the fixed opening of the GSAP custom ease. */
  lemma CustomEaseOpenFields()
    ensures Text.Split(CustomEaseOpen, ',') == ["CustomEase.create(\"custom\"", " \"M0", "0 C"]
  {
    var call, start, curve := "CustomEase.create(\"custom\"", " \"M0", "0 C";
    assert CustomEaseOpen == call + [','] + (start + [','] + curve);
    Text.SplitThree(call, start, curve, ',');
  }

  /** The comma-separated fields of the fixed closing of the GSAP custom ease. */
  lemma CustomEaseCloseFields()
    ensures Text.Split(CustomEaseClose, ',') == ["", " 1", "1\")"]
  {
    var empty, endX, endY := "", " 1", "1\")";
    assert CustomEaseClose == empty + [','] + (endX + [','] + endY);
    Text.SplitThree(empty, endX, endY, ',');
  }

  /** GSAP's repeat count: -1 (forever) when looping, else 0. */
  function GsapRepeat(loop: bool): (r: string)
    ensures r == "-1" <==> loop
    ensures r == "0" <==> !loop
  {
    if loop then "-1" else "0"
  }

  /** Framer Motion's repeat count: `Infinity` when looping, else 0. */
  function FramerRepeat(loop: bool): (r: string)
    ensures r == "Infinity" <==> loop
    ensures r == "0" <==> !loop
  {
    if loop then "Infinity" else "0"
  }

  /** Framer Motion's repeat type: "reverse" for yoyo, else "loop". */
  function FramerRepeatType(yoyo: bool): (r: string)
    ensures r == Quote("reverse") <==> yoyo
    ensures r == Quote("loop") <==> !yoyo
  {
    if yoyo then "\"reverse\"" else "\"loop\""
  }

  /**
   * The custom numbers after an edit of one of them: the parsed number at
   * `index` and every other number kept; a text that does not parse (NaN)
   * changes nothing.
   */
  function WithControlValue(bezier: seq<real>, index: nat, parsed: Option<real>): (r: seq<real>)
    requires index < |bezier|
    ensures |r| == |bezier|
    ensures forall j :: 0 <= j < |bezier| && j != index ==> r[j] == bezier[j]
    ensures parsed.Some? ==> r[index] == parsed.value
    ensures parsed.None? ==> r == bezier
  {
    if parsed.Some? then bezier[index := parsed.value] else bezier
  }

  /** The settings a generated snippet fills in, one constructor per library. */
  datatype Snippet =
    | GsapSnippet(x: real, y: real, scale: real, opacity: real, rotation: real,
                  duration: real, delay: real, ease: string, repeat: string, yoyo: bool)
    | FramerSnippet(x: real, y: real, scale: real, opacity: real, rotate: real,
                    duration: real, delay: real, ease: string, repeat: string, repeatType: string)

  /** The state of the animation generator modal. */
  class Generator {
    var isGsap: bool
    var x: real
    var y: real
    var scale: real
    var opacity: real
    var rotate: real
    var duration: real
    var delay: real
    var easing: EaseChoice
    var customBezier: seq<real>
    var loop: bool
    var yoyo: bool
    var playTrigger: int

    /** The custom Bézier always holds four numbers. */
    ghost predicate Valid()
      reads this
    {
      |customBezier| == 4
    }

    /** The modal's initial state. */
    constructor ()
      ensures Valid()
      ensures !isGsap && x == 100.0 && y == 0.0 && scale == 1.0 && opacity == 1.0
      ensures rotate == 0.0 && duration == 0.5 && delay == 0.0
      ensures easing == Preset(EaseInOut) && customBezier == [0.42, 0.0, 0.58, 1.0]
      ensures !loop && !yoyo && playTrigger == 0
    {
      isGsap := false;
      x, y, scale, opacity, rotate := 100.0, 0.0, 1.0, 1.0, 0.0;
      duration, delay := 0.5, 0.0;
      easing := Preset(EaseInOut);
      customBezier := [0.42, 0.0, 0.58, 1.0];
      loop, yoyo := false, false;
      playTrigger := 0;
    }

    /**
     * `handleCustomChange`: parses the text and, when it is a number, stores
     * a copy of the custom numbers with that number at `index`.
     */
    method HandleCustomChange(index: nat, value: string, parse: string -> Option<real>)
      requires Valid() && index < 4
      modifies this`customBezier
      ensures Valid()
      ensures customBezier == WithControlValue(old(customBezier), index, parse(value))
    {
      var num := parse(value);
      if num.Some? {
        var newBezier := new real[|customBezier|];
        forall i | 0 <= i < newBezier.Length {
          newBezier[i] := customBezier[i];
        }
        newBezier[index] := num.value;
        customBezier := newBezier[..];
      }
    }

    /** `handlePlay`: one more play request. */
    method HandlePlay()
      requires Valid()
      modifies this`playTrigger
      ensures Valid()
      ensures playTrigger == old(playTrigger) + 1
    {
      playTrigger := playTrigger + 1;
    }

    /**
     * `generateCode`: the settings of the GSAP snippet or of the Framer Motion
     * snippet, depending on the selected library. Both carry the modal's
     * transform and timing as they are; GSAP repeats forever (-1) exactly when
     * looping and passes yoyo through, Framer Motion repeats `Infinity` times
     * exactly when looping and reverses exactly for yoyo.
     */
    function GenerateCode(fmt: real -> string): (s: Snippet)
      reads this
      ensures s.GsapSnippet? <==> isGsap
      ensures s.x == x && s.y == y && s.scale == scale && s.opacity == opacity
      ensures s.duration == duration && s.delay == delay
      ensures s.GsapSnippet? ==>
        && s.rotation == rotate
        && s.ease == GsapEaseValue(easing, customBezier, fmt)
        && (s.repeat == "-1" <==> loop) && (s.repeat == "0" <==> !loop)
        && s.yoyo == yoyo
      ensures s.FramerSnippet? ==>
        && s.rotate == rotate
        && s.ease == FramerEaseValue(easing, customBezier, fmt)
        && (s.repeat == "Infinity" <==> loop) && (s.repeat == "0" <==> !loop)
        && (s.repeatType == Quote("reverse") <==> yoyo) && (s.repeatType == Quote("loop") <==> !yoyo)
    {
      if isGsap then
        GsapSnippet(x, y, scale, opacity, rotate, duration, delay,
                    GsapEaseValue(easing, customBezier, fmt), GsapRepeat(loop), yoyo)
      else
        FramerSnippet(x, y, scale, opacity, rotate, duration, delay,
                      FramerEaseValue(easing, customBezier, fmt), FramerRepeat(loop),
                      FramerRepeatType(yoyo))
    }
  }

  /**
   * Two generator states with the same library and the same snippet chose the
   * same easing and the same loop setting (and, for Framer Motion, yoyo).
   */
  lemma SnippetDeterminesChoices(g1: Generator, g2: Generator, fmt: real -> string)
    requires g1.isGsap == g2.isGsap
    requires g1.GenerateCode(fmt) == g2.GenerateCode(fmt)
    ensures g1.easing == g2.easing && g1.loop == g2.loop && g1.yoyo == g2.yoyo
  {
    EaseValueDeterminesChoice(g1.easing, g2.easing, g1.customBezier, g2.customBezier, fmt);
  }
}
