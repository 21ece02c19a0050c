# Easing playground core, modelled in Dafny

This project models the logic of an interactive easing playground that
compares motion-easing curves between Framer Motion and GSAP. The model covers three parts:

- **The easing registry and path builder** (`utils/easing.ts`, module `Easing`).
  The registry holds the eleven easing names, a description for each, and
  approximate cubic Bézier control numbers for the names that have them.
  `generateEasingPath` resolves an easing descriptor to four control numbers:
  - a four-number array is used as it is;
  - a name with a table entry uses that entry;
  - anything else gets the fallback `(0.42, 0, 0.58, 1)`.

  `getCubicBezierPath` then places the curve in pixel space with
  `x = u * width`, `y = height - v * height`. The path is one move from (0,0)
  followed by one cubic segment to (1,1). It is modelled as a structured
  four-point `Path`. Its SVG text is `PathData`.
- **The easing graph** (`components/EasingGraph.tsx`, module `EasingGraph`).
  It draws the axes and the curve. For a four-number array it also draws
  dashed handles from the curve's endpoints to the control points, with a
  circle on each control point. It is modelled as a pure function of the
  easing and the optional width and height, which default to 300.
- **The animation code generator** (`components/AnimationGeneratorModal.tsx`,
  module `AnimationGenerator`). This part has four pieces:
  - the GSAP ease table and its `"power1.inOut"` fallback;
  - the ease, repeat and repeat-type values written into the GSAP or the
    Framer Motion snippet;
  - the modal's state as a class `Generator`;
  - the class's state-changing handlers `HandleCustomChange` (replace one
    custom Bézier number when the input parses) and `HandlePlay` (bump the
    play counter).

Two helper modules support these parts. `Options` holds the optional-value
datatype. `Text` holds `Join`, which is JavaScript's `Array.prototype.join`
and the template strings built from it. It also holds `Split`, which reads
such text back, with the round-trip lemmas that tie the two together.

Numbers are `real`. Converting a number to text, which JavaScript does in
template strings and `join`, is a function parameter `fmt: real -> string`.
`parseFloat` is a function parameter `parse: string -> Option<real>`, where
`None` stands for NaN.

Three details of the code shape the model:
- `generateEasingPath` returns only the path text.
  `EasingGraph.tsx` recomputes the handle coordinates from the easing array
  instead of receiving them from the path builder. The model does the same and
  proves that both give the same points (`EasingGraph.RenderGraph`).
- `generateEasingPath` accepts any framer-motion easing. An array whose length is not four
  and an easing function both get the fallback, like an unknown name
  (`Easing.Descriptor`, `Easing.FallbackCases`).
- An unknown name gets the fallback silently; it is not rejected.

## Model

| member | source | states |
|---|---|---|
| `Easing.ParseName` | utils/easing.ts:3-14 | a string is read as a name exactly when it is one of the eleven spellings, and the name read spells the string back |
| `Easing.ParseNameText` | utils/easing.ts:3-14 | reading a name's spelling gives that name back, so the eleven spellings are distinct |
| `Easing.AllNamesEnumerates` | utils/easing.ts:3-14 | the list of names has eleven entries, contains every name, and repeats none |
| `Easing.NamedEasingsIdentity` | utils/easing.ts:16-28 | `NAMED_EASINGS` has an entry for every name, maps it to itself, and has no key that is not a name |
| `Easing.Description` | utils/easing.ts:30-42 | every name has a non-empty description |
| `Easing.DescriptionsDistinct` | utils/easing.ts:30-42 | two different names never share a description |
| `Easing.BezierFor` | utils/easing.ts:44-53 | a name has no Bézier entry exactly when it is `backIn`, `backOut`, `backInOut` or `anticipate`; every entry lies in the unit square |
| `Easing.ResolveBezier` | utils/easing.ts:56-75 | a four-number array is used as it is; any other descriptor resolves to the fallback or to some table entry |
| `Easing.ResolveName` | utils/easing.ts:58-74 | a name resolves to its table entry, or to the fallback `(0.42, 0, 0.58, 1)` when it has none |
| `Easing.NamedEqualsItsArray` | utils/easing.ts:60-68 | a name with an entry resolves like the four-number array of that entry |
| `Easing.FallbackCases` | utils/easing.ts:58-74 | the back/anticipate names, unknown strings, arrays whose length is not four, and easing functions all resolve to the fallback |
| `Easing.ToPixel` | utils/easing.ts:78-81 | normalized time 0 and 1 land on x = 0 and x = width; progress 0 lands on the bottom edge y = height and progress 1 on the top edge y = 0 (SVG's y axis points down) |
| `Easing.FromToPixel` | utils/easing.ts:80-81 | for a non-zero size, the inverse transform recovers the normalized point, so the pixel transform loses nothing |
| `Easing.ToFromPixel` | utils/easing.ts:80-81 | for a non-zero size, every pixel is the image of the normalized point the inverse gives |
| `Easing.InFrameIff` | utils/easing.ts:80-81 | no clamping: for a positive size, a point lands inside the frame exactly when both its normalized coordinates lie in [0, 1] |
| `Easing.CubicBezierPath` | utils/easing.ts:77-94 | the path starts at (0, height) and ends at (width, 0) whatever the control numbers; for a non-zero size its two control points decode back to (x1, y1) and (x2, y2) |
| `Easing.GenerateEasingPath` | utils/easing.ts:56-75 | fixed endpoints, and control points that decode to the numbers the descriptor resolves to |
| `Easing.ArrayPathControlPoints` | utils/easing.ts:66-68 | a four-number array's control points are its numbers put through the pixel transform |
| `Easing.SameBezierSamePath` | utils/easing.ts:56-75 | descriptors that resolve to the same numbers draw the same path at every size |
| `Easing.SamplesIgnored` | utils/easing.ts:56-75 | the path does not depend on the `samples` argument |
| `Easing.ZeroSizePath` | utils/easing.ts:77-93 | at width = height = 0 every coordinate of the path is 0 |
| `Easing.ExampleEaseInOut` | utils/easing.ts:47-68 | at 300 x 300 the name `easeInOut` draws the same path as `[0.42, 0, 0.58, 1]`, with its first control point at (126, 300) |
| `Easing.ExampleBackIn` | utils/easing.ts:52-74 | at 300 x 300 `backIn` draws the fallback path, and so does the unknown name `bounce` |
| `Easing.PathData` | utils/easing.ts:93 | the path text is `M `, the start, ` C `, cp1, a space, cp2, a space and the end, each point written as its two printed coordinates around a comma (`Easing.CoordText`) |
| `Easing.PathDataReadsBack` | utils/easing.ts:93 | if numbers print without spaces or commas, the path text splits into `M`, the start, `C`, cp1, cp2 and the end, and each point splits into its two printed coordinates |
| `EasingGraph.SizeOr300` | components/EasingGraph.tsx:15 | an omitted width or height is 300, and a given one is used as it is |
| `EasingGraph.RenderGraph` | components/EasingGraph.tsx:15-78 | the curve is `generateEasingPath`'s path; the x-axis runs from the curve's start (0, height) to (width, height) and the y-axis from (0, 0) to that start; handles exist exactly for a four-number array; they join the start to cp1 and the end to cp2; the circles sit on cp1 and cp2 |
| `EasingGraph.CirclesInFrameIff` | components/EasingGraph.tsx:75-76 | for a positive size, both circles lie inside the frame exactly when all four numbers lie in [0, 1] |
| `EasingGraph.NamedCurveInFrame` | components/EasingGraph.tsx:16-50 | a named easing draws no handles, and its curve's control points lie inside the frame |
| `EasingGraph.DefaultSizeIs300` | components/EasingGraph.tsx:15 | omitting the width or the height draws exactly as 300 does |
| `Text.Join` | components/AnimationGeneratorModal.tsx:59 | `Array.prototype.join`: an empty list gives the empty text, and otherwise the text begins with the first piece |
| `Text.SplitJoin` | components/AnimationGeneratorModal.tsx:59 | for a non-empty list in which no piece contains the one-character separator, splitting the joined text at that character gives the pieces back |
| `AnimationGenerator.GsapEase` | components/AnimationGeneratorModal.tsx:61-74 | a name in the GSAP table gets its table ease and any other string gets `power1.inOut`; the result is always one of the table's eases |
| `AnimationGenerator.GsapEaseOfName` | components/AnimationGeneratorModal.tsx:61-73 | each of the eleven names is a key of the GSAP table, so none of them falls back |
| `AnimationGenerator.GsapEaseDistinct` | components/AnimationGeneratorModal.tsx:61-73 | two different names never get the same GSAP ease |
| `AnimationGenerator.GsapEaseExamples` | components/AnimationGeneratorModal.tsx:61-74 | `linear` gives `none`, `easeInOut` gives `power1.inOut`, `anticipate` gives `back.in(1.7)`, and an unknown name gives `power1.inOut` |
| `AnimationGenerator.GsapEaseValue` | components/AnimationGeneratorModal.tsx:56-75 | the GSAP ease value starts with a quote exactly for a named easing; for a name it is the name's GSAP ease (`GsapEase`) between double quotes; for the custom curve it opens with `CustomEase.create("custom", "M0,0 C` and closes with `, 1,1")` |
| `AnimationGenerator.FramerEaseValue` | components/AnimationGeneratorModal.tsx:93-95 | the Framer ease value starts with a quote exactly for a named easing and with `[` exactly for the custom one; for a name it is the name itself between double quotes; the custom list ends with `]` |
| `AnimationGenerator.EaseValueDeterminesChoice` | components/AnimationGeneratorModal.tsx:56-95 | in either library, equal ease values mean the same easing was chosen |
| `AnimationGenerator.FramerCustomReadsBack` | components/AnimationGeneratorModal.tsx:93-95 | if numbers print without commas, the Framer custom ease is a bracketed list whose comma-separated items are the printed numbers in order, each after the first behind one space |
| `AnimationGenerator.GsapCustomReadsBack` | components/AnimationGeneratorModal.tsx:59 | if numbers print without commas, the GSAP custom ease splits at commas into the call's opening, `"M0`, `0 C` with the first number, the other three numbers, ` 1` and `1")` |
| `AnimationGenerator.GsapRepeat` | components/AnimationGeneratorModal.tsx:88 | GSAP's repeat is `-1` exactly when looping and `0` exactly when not |
| `AnimationGenerator.FramerRepeat` | components/AnimationGeneratorModal.tsx:110 | Framer's repeat is `Infinity` exactly when looping and `0` exactly when not |
| `AnimationGenerator.FramerRepeatType` | components/AnimationGeneratorModal.tsx:111 | Framer's repeat type is `"reverse"` exactly for yoyo and `"loop"` exactly without it |
| `AnimationGenerator.WithControlValue` | components/AnimationGeneratorModal.tsx:41-48 | after an edit the numbers keep their length and every index other than the edited one; the edited index holds the parsed number; a text that is not a number changes nothing |
| `AnimationGenerator.Generator.constructor` | components/AnimationGeneratorModal.tsx:25-39 | the initial state is GSAP off, x 100, y 0, scale 1, opacity 1, rotate 0, duration 0.5, delay 0, easing `easeInOut`, custom numbers `[0.42, 0, 0.58, 1]`, no loop, no yoyo, play counter 0 |
| `AnimationGenerator.Generator.HandleCustomChange` | components/AnimationGeneratorModal.tsx:41-48 | the custom numbers become `WithControlValue` of the old ones, the parsed input and the index; nothing else in the state changes |
| `AnimationGenerator.Generator.HandlePlay` | components/AnimationGeneratorModal.tsx:50-52 | the play counter goes up by exactly 1, the four custom numbers stay four, and nothing else changes |
| `AnimationGenerator.Generator.GenerateCode` | components/AnimationGeneratorModal.tsx:55-115 | the snippet is the GSAP one exactly when GSAP is selected; it carries x, y, scale, opacity, rotation, duration and delay unchanged and the selected library's ease value; GSAP's repeat is `-1` exactly when looping (else `0`) and its yoyo is the modal's; Framer's repeat is `Infinity` exactly when looping (else `0`) and its repeat type is `"reverse"` exactly for yoyo (else `"loop"`) |
| `AnimationGenerator.SnippetDeterminesChoices` | components/AnimationGeneratorModal.tsx:55-115 | two states with the same library and the same snippet chose the same easing, the same loop and the same yoyo |

## Left out

- React rendering, hooks, dialogs, sliders, selects and switches are not modelled. The setters that copy widget values into the modal's state (`setX`, `setLoop`, `setEasing` and the rest) are plain assignments.
- `useMemo` in the graph (components/EasingGraph.tsx:16-18) is caching only. The model recomputes the path, which gives the same value.
- The graph's grid pattern, stroke styles, the curve's draw-in animation and the `className` prop are not modelled. They are fixed decoration with no geometry beyond the drawing size.
- Animation-engine calls (`gsap.to`, `CustomEase.create` at runtime, `motion.div`) are not modelled. They are foreign libraries, and their point is timed playback.
- The clipboard and toasts (components/CodeBlock.tsx) are browser I/O and are not modelled.
- components/GsapPlayground.tsx, components/AnimationPreview.tsx, components/Playground.tsx, components/Header.tsx and the pages are not part of this model. Beyond engine calls and markup, the first two repeat the GSAP ease table that `AnimationGenerator.GsapEase` covers.
- IEEE-754 arithmetic is not modelled. Coordinates are exact `real`s, so rounding in `u * width` or `height - v * height` is not captured.
- JavaScript's number-to-text conversion is the parameter `fmt`, and `parseFloat` is the parameter `parse`; their own behaviour is not modelled.
- Easing.ResolveBezier: the prototype-chain behaviour of `easing in NAMED_EASING_BEZIERS` is not modelled, because the table is keyed only by the eleven names. A name inherited from `Object.prototype`, such as `"toString"`, passes that test and its looked-up value (a function) is truthy, so the source reads its four numbers as `undefined` and draws NaN control points (`M 0,300 C NaN,NaN NaN,NaN 300,0` at 300 x 300); the model gives such a string the fallback instead. The only callers are `<EasingGraph>` at components/Playground.tsx:198 and components/GsapPlayground.tsx:239, whose easing values (built at components/Playground.tsx:27 and components/GsapPlayground.tsx:35) are the custom four-number array or a selected name; the only strings they pass are the eleven names.
- AnimationGenerator.GsapEase: the prototype-chain behaviour of `map[easing]` is not modelled, because the table is keyed only by the eleven names. In the source the select offers only those names and `"custom"`, so no inherited key is ever looked up.
- AnimationGenerator.Generator.GenerateCode: returns the settings that fill the snippet's template rather than the template text. The fixed lines around those settings, and the printing of x, y, scale, opacity, rotation, duration, delay and yoyo, are not modelled.
- AnimationGenerator.Generator.HandleCustomChange: requires the index to be below 4, which is what its only caller passes (the four inputs). Assigning past the end of a JavaScript array is not modelled.
