# Fractal Trees — a Dafny model

Fractal Trees is a p5.js sketch. It draws a binary fractal tree from a row of
controls: depth, branch angle, root length and weight, root colour, scale, and
three toggles (shorter children, thinner children, multi-coloured). This
project models the sketch's computational core and proves its properties:

- **`Tree`** (`tree.dfy`): the recursive `branch` generator, written as a pure
  function `Branch`. It returns the segments the sketch strokes, in drawing
  order. Each segment records its recursion level, length, weight, hue,
  saturation, lightness and accumulated heading (the sum of the `+angle` /
  `-angle` rotations above it). Lemmas prove:
  - the exact segment count;
  - the pre-order emission order;
  - the per-level scaling law (0.75 / 0.9 / 0.75 per level, each only when
    its toggle is on);
  - the number of segments on each level;
  - sibling independence: a subtree drawn after a rotation is the same
    subtree turned;
  - a bound on headings.
- **`Drawing`** (`drawing.dfy`): the same recursion written the way the
  sketch runs it. A `Canvas` object has a pen (heading and stroke), a
  push/pop stack and a list of drawn segments. `Canvas.DrawBranch` performs
  `strokeWeight`, `stroke`, `line`, `push`, `rotate` and `pop` in the
  source's order. It is proved to append exactly `Tree.Branch`'s segments and
  to hand the stack and heading back unchanged. `Canvas.DrawTree` is one
  redraw: the controls are parsed with `parseInt` and the colour is converted
  to HSL.
- **`Parameters`** (`parameters.dfy`): the control panel as a `Controls`
  class. Its fields are updated in place by the clamping setters
  (`UpdateDepth`, `UpdateAngle`, `UpdateRootLength`, `UpdateRootWeight`,
  `UpdateScale`, `UpdateRootColour`) and by `Reset`, together with the
  defaults and bounds.
- **`Colour`** (`colour.dfy`): the `#rrggbb` validity test and `hexToHsl`.
  `HexToHsl` parses two hex digits per channel, divides by 255, and applies
  the max/min HSL formula with its achromatic guard and hue-sector switch.
  All arithmetic is exact `real` arithmetic. The conversion is shown to be
  correct by proving that the standard HSL-to-RGB conversion inverts it.

The model follows main.js. A depth of 1 or less still draws the root
segment, because the tree's own `line` (main.js:127) runs before the depth
test (main.js:129). So the count for `maxDepth <= 1` is one segment, not
zero. The setters never
leave the depth below 1, so this only matters for `Tree.Branch` on its own.

## Model

| member | source | states |
|---|---|---|
| Tree.Branch | main.js:123-151 | The generator's definition. A call draws its own line at its level in the current stroke and heading. Below the last level it then draws the +angle call and the -angle call, whose length, weight and hue are shrunk by 0.75, 0.9 and 0.75 when the matching toggle is on. Its properties are the lemmas below |
| Tree.Generate | main.js:61-71 | The whole tree is `Branch` from level 0 with the root's values. Its first segment is the root segment: level 0, the root length, weight and hue, and the starting heading |
| Tree.Pow2 | main.js:129-149 | The size unit of a full binary subtree, 2^n, is at least 1 |
| Tree.BranchSize | main.js:123-151 | A call at depth `d` below `maxDepth` emits 2^(maxDepth-d) - 1 segments; a call at or past `maxDepth` still emits its own one |
| Tree.GenerateSize | main.js:61-71 | The whole tree has 2^maxDepth - 1 segments when maxDepth >= 1 and exactly one segment otherwise |
| Tree.SingleSegment | main.js:125-129 | With maxDepth 1 the tree is exactly one segment: level 0, the root length, weight and hue, heading 0 |
| Tree.BranchPreOrder | main.js:127-149 | Below the last level the output is: the call's own segment first, then the whole +angle subtree, then the whole -angle subtree. Both subtrees have 2^(levels left - 1) - 1 segments and are started with the same shortened length, weight and hue |
| Tree.BranchUnfold | main.js:127-149 | Below the last level, a call's segments are its own segment followed by the +angle child's and then the -angle child's |
| Tree.BranchLeaf | main.js:125-129 | On or past the last level, a call emits exactly its own segment |
| Tree.TaperStep | main.js:131-139 | Shortening once and then tapering k-1 levels equals tapering the parent's value k levels |
| Tree.ScaledChild | main.js:131-143 | A segment with the scaling law relative to a shortened child start also has the law relative to the parent start, one level higher |
| Tree.BranchScaling | main.js:125-149 | Every segment is at a level from the call's own to maxDepth-1. Its length is the start length times 0.75^k when shorterChild is on (k levels down), its weight times 0.9^k when thinnerChild is on, and its hue times 0.75^k when multiColoured is on, each unchanged when its toggle is off. Saturation and lightness are the tree's own on every segment |
| Tree.CountAtAppend | main.js:140-149 | Counting the segments on a level distributes over concatenation |
| Tree.CountSingle | main.js:127 | A lone segment counts once on its own level and nowhere else |
| Tree.NoneAtLevel | main.js:129-130 | A list whose segments all lie below level k has none on level k |
| Tree.BranchNoneAbove | main.js:129-130 | A call has no segment on any level above its own |
| Tree.BranchLevelCount | main.js:129-149 | Perfect tree: k levels below a call there are exactly 2^k segments while that level is above maxDepth, and none past it; the call's own level holds exactly one |
| Tree.TurnedAppend | main.js:140-149 | Turning every segment's heading distributes over concatenation |
| Tree.BranchTurned | main.js:140-149 | A subtree started from a heading rotated by delta equals the unrotated subtree with every heading shifted by delta. Each sibling depends only on its parent's heading ± angle, not on the other sibling |
| Tree.ChildWithinTurn | main.js:141-146 | A segment within (level - (d+1))·abs(angle) of a child heading (parent ± angle) is within (level - d)·abs(angle) of the parent heading |
| Tree.CombineWithinTurn | main.js:127-149 | The heading bound holds for own + left + right when it holds for the own segment and for both children at parent ± angle |
| Tree.BranchHeadingBound | main.js:140-149 | Every segment k levels below a call has a heading within k·abs(angle) of the call's heading |
| Tree.ThreeLevels | main.js:123-151 | With depth 3 and shorterChild on, the seven segments come in pre-order: levels 0, 1, 2, 2, 1, 2, 2; lengths L, .75L, .5625L, .5625L, .75L, .5625L, .5625L; headings 0, a, 2a, 0, -a, 0, -2a |
| Colour.IsValidColour | main.js:198 | The validity test `/^#[0-9A-F]{6}$/i`: exactly seven characters, a `#`, then six hex digits of either case. Its partners are `ColourRoundTrip` (every `#rrggbb` rendering passes it) and `NormalColour` |
| Colour.DigitValue | main.js:96-98 | A hex digit's value is below 16 |
| Colour.HexDigit | main.js:96-98 | The digit written for a value below 16 is a hex digit that reads back as that value |
| Colour.ParsePair | main.js:96-98 | A channel parsed from two hex digits lies in 0..255 |
| Colour.PairRoundTrip | main.js:96-98 | A channel value formatted as two hex digits parses back to itself |
| Colour.Channels | main.js:95-98 | A valid colour's three channels lie in [0, 1], and each one times 255 is the value of its pair of digits (characters 1-2, 3-4 and 5-6, after the `#`) |
| Colour.ColourRoundTrip | main.js:95-98 | Any three channel values written as `#rrggbb` form a valid colour whose channels read back as value/255 |
| Colour.Max3 | main.js:99 | The maximum is one of the three channels and at least each of them |
| Colour.Min3 | main.js:100 | The minimum is one of the three channels and at most each of them |
| Colour.RgbToHsl | main.js:99-120 | The max/min conversion. An achromatic colour (max = min) gives hue 0, saturation 0 and lightness (max+min)/2·100. Otherwise saturation is d/(2-max-min) or d/(max+min), depending on whether lightness exceeds 0.5, and the hue comes from `HueSector`, /6·360. Its properties are `RgbToHslRanges` and `RgbToHslRoundTrip` |
| Colour.HueSector | main.js:107-118 | The switch on the maximum channel, in sixths of a turn. Red is tried first (adding 6 when green < blue), then green (+2), then blue (+4) |
| Colour.HexToHsl | main.js:94-121 | A valid colour's channels converted to HSL: hue in [0, 360), saturation and lightness in [0, 100] |
| Colour.FromSector | main.js:107-118 | Reference inverse of the sector switch: a sector position in [0, 6), a chroma and a minimum determine which channel is largest, which smallest, and where the third lies |
| Colour.HslToRgb | main.js:94-121 | Reference inverse of the whole conversion: the standard HSL-to-RGB formula, with chroma (1 - abs(2l - 1))·s and minimum l - chroma/2, independent of `hexToHsl`'s code |
| Colour.RatioBounds | main.js:108-116 | A channel difference divided by the spread lies in [-1, 1], and the quotient is below 1, non-negative or above -1 exactly when the difference is below the spread, non-negative or above minus the spread |
| Colour.ChromaIsSpread | main.js:103-106 | When max ≠ min, both saturation formulas are in (0, 1], whichever side of 0.5 the lightness is. The chroma (1 - abs(2l - 1))·s equals the spread max - min |
| Colour.RgbToHslRanges | main.js:99-120 | Hue lies in [0, 360); saturation and lightness lie in [0, 100]; lightness is (max + min)/2·100; saturation is 0 exactly when max = min; an achromatic colour has hue 0 |
| Colour.SectorRed | main.js:107-110 | When red is the maximum, the sector formula (adding 6 when green < blue) selects channels that rebuild the original colour |
| Colour.SectorGreen | main.js:111-113 | When green is the maximum and red is not, the sector (b - r)/d + 2 rebuilds the original colour |
| Colour.SectorBlue | main.js:114-116 | When blue is the only maximum, the sector (r - g)/d + 4 rebuilds the original colour |
| Colour.InverseOfChromatic | main.js:118-120 | HSL-to-RGB applied to the output (h/6·360, s·100, l·100) is the sector reconstruction with chroma d and minimum l - d/2 |
| Colour.ChromaticInverse | main.js:104-120 | For a chromatic colour, converting to HSL and back is the sector reconstruction of the switch's hue with chroma max - min and minimum min |
| Colour.RgbToHslRoundTrip | main.js:99-120 | Converting any channel triple in [0, 1] to HSL and back with the standard inverse gives the same triple |
| Colour.HexToHslRoundTrip | main.js:94-121 | The reference inverse of a valid colour's HSL triple is exactly the colour's parsed channels |
| Colour.PureRed | main.js:94-121 | `#FF0000` is valid and converts to (0, 100, 50) |
| Colour.White | main.js:101-104 | `#FFFFFF` converts to (0, 0, 100): achromatic |
| Colour.Black | main.js:101-104 | `#000000` converts to (0, 0, 0): achromatic |
| Colour.DefaultColourValid | main.js:38 | The default root colour `#ff81e6` passes the validity test |
| Parameters.Round | main.js:159 | Math.round's result is within half of its argument, with halves rounded up: x - 0.5 < n <= x + 0.5 |
| Parameters.ClampRound | main.js:153-160 | The rule for a whole-number control. The result is a whole number in [lo, hi]: values below lo give lo, values above hi give hi, in-range values give their nearest integer |
| Parameters.ClampRoundIdempotent | main.js:153-160 | Applying the whole-number rule twice equals applying it once |
| Parameters.ClampScale | main.js:205-210 | The scale rule: the result lies in [0.1, 2]; in-range values are kept unrounded; values below give 0.1 and values above give 2 |
| Parameters.ClampScaleIdempotent | main.js:205-210 | Applying the scale rule twice equals applying it once |
| Parameters.NormalColour | main.js:197-201 | The result is always valid; a valid colour is kept exactly; anything else becomes `#ff81e6` |
| Parameters.NormalColourIdempotent | main.js:197-201 | Applying the colour rule twice equals applying it once |
| Parameters.Controls.constructor | main.js:22-44 | A panel holding every default (depth 11, angle 30, length 170, weight 1, colour `#ff81e6`, scale 1, all toggles on), within range, and open. The page's initial control values are assumed to equal these defaults |
| Parameters.Controls.UpdateDepth | main.js:153-162 | Depth becomes the whole-number rule applied to its old value over [1, 15]. It is then a whole number in [1, 15]; no other field changes; a valid panel stays valid |
| Parameters.Controls.UpdateAngle | main.js:164-173 | Angle becomes the whole-number rule applied to its old value over [0, 360]; only the angle changes; a valid panel stays valid |
| Parameters.Controls.UpdateRootLength | main.js:175-184 | Root length becomes the whole-number rule applied to its old value over [1, 200]; only that field changes; a valid panel stays valid |
| Parameters.Controls.UpdateRootWeight | main.js:186-195 | Root weight becomes the whole-number rule applied to its old value over [1, 30]; only that field changes; a valid panel stays valid |
| Parameters.Controls.UpdateRootColour | main.js:197-203 | The colour becomes the colour rule applied to its old value, so it is always valid; only the colour changes |
| Parameters.Controls.UpdateScale | main.js:205-212 | Scale becomes the scale rule applied to its old value, in [0.1, 2]; only the scale changes |
| Parameters.Controls.Reset | main.js:214-225 | Every generation parameter is back at its default and the panel is valid, whatever it held before. The open/closed state of the panel is untouched |
| Drawing.ParseInt | main.js:62-66 | parseInt of a number truncates toward zero: the integer part for non-negative values, rounded up for negative ones |
| Drawing.ParseIntWhole | main.js:62-66 | parseInt leaves a whole number, as every setter produces, unchanged |
| Drawing.Sketch | main.js:57-72 | The tree a redraw draws for parsed control values: `Generate` from level 0 at heading 0 with the colour's HSL. Its first segment has the root length, weight and hue and the colour's saturation and lightness |
| Drawing.SketchShape | main.js:57-72 | A redraw draws 2^depth - 1 segments (one when depth < 1). The colour's saturation and lightness lie in [0, 100], and every segment follows the scaling law from the root values |
| Drawing.RedrawSize | main.js:57-72 | With the controls as the setters leave them, the parsed depth lies in [1, 15] and a redraw draws exactly 2^depth - 1 segments |
| Drawing.Canvas.constructor | main.js:50-55 | A fresh canvas has nothing drawn, an empty stack, heading 0 and scale 1 |
| Drawing.Canvas.Background | main.js:58 | Clearing the background removes all drawn segments |
| Drawing.Canvas.StrokeWeight | main.js:125 | Only the pen's weight changes |
| Drawing.Canvas.Stroke | main.js:126 | Only the pen's hue, saturation and lightness change |
| Drawing.Canvas.Line | main.js:127 | Exactly one segment, in the current pen along the current heading, is appended |
| Drawing.Canvas.Rotate | main.js:141 | Only the heading changes, by the given degrees |
| Drawing.Canvas.Push | main.js:140 | The current pen is pushed on the stack |
| Drawing.Canvas.Pop | main.js:144 | The pen becomes the top of the stack, which is removed |
| Drawing.Canvas.DrawBranch | main.js:123-151 | The recursive drawing call appends exactly `Tree.Branch`'s segments for the current heading. It returns the stack as it found it and the heading unchanged, leaving only its own stroke set |
| Drawing.Canvas.DrawTree | main.js:57-72 | A redraw clears the canvas and sets the zoom to the scale control. The canvas then holds exactly the tree for the parsed depth, angle, length and weight, the colour's HSL, and heading 0; stack and heading are back at rest, and the stroke left is the root's weight and the colour's HSL |

## Left out

- Absolute positions are not modelled: `translate` (main.js:59, 128), the canvas size, `createCanvas` / `resizeCanvas` and `windowResized`. The trigonometry of p5's rotated coordinate frames is also out. A segment records its length and accumulated heading instead of its end points.
- The p5 modes and the background colour value are not modelled. `colorMode(HSL)`, `angleMode(DEGREES)` and the background triple (main.js:21, 51-53, 58) only configure the library. `Canvas.Background` clears the drawn segments and nothing else.
- `debounce` (main.js:74-92) is out: it is timer scheduling through `setTimeout`. Every setter in the source ends by requesting a redraw. In the model, a redraw is the separate `Canvas.DrawTree`, called on the controls as the setters leave them.
- `closeControls`, the DOM queries and the event listener wiring are out (main.js:5-16, 227-258). They are user-interface plumbing; `controlsOpen` is kept only as a field that `Reset` must not touch.
- JavaScript's string-to-number coercion in the setters' comparisons is out. An empty field compares as 0 and a non-numeric one as NaN. The model's control values are already numbers (`real`).
- Drawing.ParseInt: works on numbers, so parsing a string with trailing text is not modelled.
- Floating point is not modelled. The hue/saturation/lightness computation and the 0.75 / 0.9 multipliers use exact `real` arithmetic, so only algebraic facts are stated, not IEEE rounding.
- Colour.HexToHsl: requires a valid colour, so the behaviour on an invalid one is not modelled. There `parseInt(…, 16)` reads the longest hex prefix of each pair (`#12345` gives 0x12, 0x34 and 5; `#1g2g3g` gives 1, 2 and 3). An empty or non-hex pair gives NaN: no `case` of the switch then matches, so the hue stays 0 and only saturation and lightness are NaN. Every redraw after `updateRootColour` or `Reset` receives a valid colour.
- Drawing.Canvas.DrawTree: requires a canvas at rest (empty stack, heading 0) and sets the zoom to the scale control outright. Both are the model's own assumptions. main.js defines no `draw`: `drawTree` runs from `setup` (main.js:54) and from the debounce timer (main.js:87), and nothing resets the transform before its `translate` and `scale` (main.js:59-60). How the transform compounds across redraws is not modelled.
- Parameters.Controls.constructor: the controls' starting values come from the page, not from main.js; the constructor assumes they are the defaults at main.js:22-43.
- Tree.BranchHeadingBound: bounds headings by whole multiples of the angle only. Headings are not reduced modulo 360, because p5 rotates by any amount.
