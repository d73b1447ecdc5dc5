# klim-gl-tools in Dafny

klim-gl-tools is a small helper library for drawing 2D shapes with PyOpenGL.
This project models the parts of it that do not call OpenGL, and proves
properties of them:

- **Colour codec** (`colors.dfy`). `useHex` turns `#RRGGBB` into three
  channels `k/255`. `useRgb` writes a channel triple back as lowercase hex.
  `interpolate_color` blends two colours channel by channel.
- **Gradient ramp** (`gradients.dfy`). `apply_gradient` gives every vertex a
  colour:
  1. it normalises the vertices into their bounding box;
  2. it projects them onto a direction;
  3. it rescales the projections to [0,1];
  4. it blends the two neighbouring stops of an equally spaced ramp.

  The direction `(cos a, sin a)` is a parameter.
- **SVG path reader** (`svg_path.dfy`). `useSvgPath` reads the `d="..."`
  attribute of a `<path>` tag:
  1. it cuts the text into command chunks, starting a new chunk at every letter;
  2. it reads each chunk's numbers;
  3. it turns `M`, `L`, `H` and `V` commands into points, carrying a current
     position that starts at the origin.

  This is the move/line subset of the SVG 1.1 path grammar, sections 8.3.2
  to 8.3.4.
- **Shape builder** (`shapes.dfy`). `Shape` is a mutable record. It holds
  the vertices, one colour per vertex, a position, a stroke, a mask and an
  append-only list of render passes. Its fluent setters update it in place.
  - The subclasses `Polygon`, `Rectangle` and `Ellipse` add outline builders.
  - The two mixins, `useVertexArray` and `useSvgPath`, replace the outline.
- **Legacy API** (`legacy.dfy`). The first version's `Rectangle` and `Tree`
  classes, modelled as their setters and the colour choices their `draw`
  methods make.

Python exceptions become `Err` values of the `Result` type in
`results.dfy`, and each keeps the exception's name. The string helpers of
Python's `str` that the code relies on are in `chars.dfy`. Floating point is
modelled by Dafny's `real`.

Each loop of the source is a Dafny method. Its `ensures` ties the result to a
specification function, and the properties are proved as lemmas about that
function. The methods are:

- `SvgPath.SplitCommands`, `SvgPath.ParseSvgPath`, `SvgPath.RunPairs`,
  `SvgPath.RunHorizontal` and `SvgPath.RunVertical`;
- `Gradients.ProjectVertices` and `Gradients.RampVertices`;
- `Shapes.Ellipse.Size`.

The mixins are not inherited by any class in the package. They are
therefore modelled as methods of `Shapes.Shape`, the only class with the
`_vertices` field they assign. The subclasses of `Shape` hold their `Shape`
as a field.

Where the code and its documentation disagree, the model follows the code:

- `useRgb` does not clamp. A channel outside [0,1] writes a minus sign or
  more than two digits (`Colors.UseRgbShape`).
- `useHex` hands each group to `int(g, 16)`, which accepts a sign and
  surrounding whitespace. So `"#-10000"` decodes to a negative red channel
  (`Colors.UseHexAcceptsSign`), and the [0,1] range holds only for hex
  digits.
- `apply_gradient` has no guard for vertices that all project to the same
  value. NumPy then yields NaN, and `int(np.floor(nan))` raises ValueError.
  The model returns `Err(ValueError)` (`Gradients.GradientOutcome`,
  `Gradients.SingleVertexRaises`).
- `Shape.gradient` appends its `fill` pass before anything that can raise.
  An exception therefore leaves the pass recorded (`Shapes.Shape.Gradient`).
- `useSvgPath` reads the numbers of every chunk, including `C`, `Z` and the
  other letters it otherwise ignores. A malformed number in such a chunk
  still raises ValueError (`SvgPath.OtherCommandInert`).
- `Ellipse.size` computes `2 * pi / quality` before it clears the outline.
  Quality 0 raises ZeroDivisionError and keeps the old vertices. A negative
  quality gives an empty outline (`Shapes.Ellipse.Size`).

## Model

| member | source | states |
|---|---|---|
| Colors.ParseHexGroupIsInt | klim_gl_tools/utils.py:12 | reading a group of at most two characters case by case agrees with `int(g, 16)`: optional whitespace, an optional sign, then hex digits |
| Colors.ParseHexGroup | klim_gl_tools/utils.py:12 | definition of `int(g, 16)` on a group of at most two characters, `None` where Python raises; ParseHexGroupIsInt proves it equal to a reference reading of `int` with whitespace, sign and digits |
| Colors.Channel | klim_gl_tools/utils.py:12 | definition of one channel: the slice `[i:i+2]` of the stripped text, read by `int(g, 16)` and divided by 255, ValueError where `int` raises; its properties are stated by ChannelOfDigits, SignedGroup and ByteLevel |
| Colors.UseHex | klim_gl_tools/utils.py:12 | definition of `useHex`: strip every leading '#', then the channels at 0, 2 and 4, the first group that fails raising ValueError; its properties are stated by UseHexChannels, UseHexShortRaises, UseHexInUnitRange, UseHexAcceptsSign, DecodeSixDigits, HexRoundTrip and RgbRoundTrip |
| Colors.RoundHalfEven | klim_gl_tools/utils.py:21 | `round` gives an integer within 0.5 of its argument, and a tie goes to the even integer |
| Colors.HexDigits | klim_gl_tools/utils.py:21 | the hex numeral of n has only lowercase hex digits, reads back as n, and has one digit exactly when n < 16 |
| Colors.Format02x | klim_gl_tools/utils.py:21 | `02x` writes a byte as two lowercase hex digits that read back as it; a negative number starts with '-'; a number above 255 takes more than two characters |
| Colors.Lerp | klim_gl_tools/utils.py:25 | the blend `a + (b - a) * t` is a at t = 0, b at t = 1, and between a and b for t in [0,1] |
| Colors.Interpolate | klim_gl_tools/utils.py:23-25 | `interpolate_color` gives color1 at fraction 0 and color2 at fraction 1; for a fraction in [0,1] every channel lies between the two input channels |
| Colors.ByteLevel | klim_gl_tools/utils.py:12 | the channel decoded from two hex digits lies in [0,1] |
| Colors.ChannelOfDigits | klim_gl_tools/utils.py:12 | a group of two hex digits decodes to its value over 255 |
| Colors.LStripHexText | klim_gl_tools/utils.py:12 | `lstrip('#')` keeps text that starts with a hex digit whole, and removes one leading '#' in front of it |
| Colors.UseHexChannels | klim_gl_tools/utils.py:12 | after every leading '#' is stripped, three groups of two hex digits give the three channels; characters after the sixth are ignored |
| Colors.UseHexShortRaises | klim_gl_tools/utils.py:12 | with at most four characters after the '#'s the third group is empty and `int('', 16)` raises ValueError |
| Colors.UseHexInUnitRange | klim_gl_tools/utils.py:12 | six hex digits decode to a colour whose channels all lie in [0,1] |
| Colors.SignedGroup | klim_gl_tools/utils.py:12 | a group "+d" or "-d" decodes to plus or minus the digit's value over 255 |
| Colors.UseHexAcceptsSign | klim_gl_tools/utils.py:12 | text whose first group is '-' and a non-zero digit decodes to a negative red channel |
| Colors.DecodeSixDigits | klim_gl_tools.py:12 | the legacy `useHex` (the same expression over `255.0`) decodes six hex digits, with or without a leading '#', to their byte levels |
| Colors.DecodeGroups | klim_gl_tools/utils.py:12 | '#' and three groups of two hex digits decode to the three byte levels |
| Colors.UseRgb | klim_gl_tools/utils.py:21 | definition of `useRgb`: '#' and, per channel, `int(round(c * 255))` formatted `02x`; its properties are stated by UseRgbShape, EncodeQuantized, EncodeByteLevels, HexRoundTrip and RgbRoundTrip |
| Colors.UseRgbShape | klim_gl_tools/utils.py:21 | no clamping: channels that round into 0..255 give '#' and six lowercase hex digits; a channel above 255 lengthens the text; a red channel below 0 puts '-' after the '#' |
| Colors.EncodeQuantized | klim_gl_tools/utils.py:21 | a colour of byte levels k/255 is written as '#' and the `02x` text of each byte |
| Colors.FormatByteDigits | klim_gl_tools/utils.py:21 | `02x` of the byte spelled by two hex digits is those digits in lowercase |
| Colors.ByteLevelText | klim_gl_tools/utils.py:12-21 | re-encoding the channel decoded from two hex digits writes those digits in lowercase |
| Colors.FormatByteLevel | klim_gl_tools/utils.py:12-21 | decoding the two digits written for byte k gives k/255 |
| Colors.EncodeByteLevels | klim_gl_tools/utils.py:21 | the colour decoded from six hex digits is written back as '#' and the digits in lowercase |
| Colors.DecodeFormatted | klim_gl_tools/utils.py:12 | the text `useRgb` writes for byte levels decodes back to those levels |
| Colors.HexRoundTrip | klim_gl_tools/utils.py:12-21 | for six hex digits h, `useRgb(useHex(h))` is '#' and h in lowercase, with or without a leading '#' |
| Colors.RgbRoundTrip | klim_gl_tools/utils.py:12-21 | a colour with 8-bit channels survives `useHex(useRgb(c))` exactly |
| Gradients.Min | klim_gl_tools/utils.py:33-35 | `min` of a non-empty list is one of its elements and no element is smaller |
| Gradients.Max | klim_gl_tools/utils.py:34-36 | `max` of a non-empty list is one of its elements and no element is larger |
| Gradients.ScaledWithinBox | klim_gl_tools/utils.py:46-47 | a coordinate between the box's edges scales into [0,1], the low edge to 0 and the high edge to 1; an axis of zero extent scales to 0 |
| Gradients.NormalizedInUnitSquare | klim_gl_tools/utils.py:33-47 | normalised into the vertices' bounding box, every vertex lies in the unit square; an axis of zero extent normalises every vertex to 0 on that axis |
| Gradients.Projections | klim_gl_tools/utils.py:44-49 | there is one projection per vertex |
| Gradients.ProjectVertex | klim_gl_tools/utils.py:46-48 | one pass of the projection loop: the vertex is normalised into the bounding box, with 0 on an axis of zero extent, and projected onto the direction |
| Gradients.ProjectVertices | klim_gl_tools/utils.py:44-49 | the projection loop builds the projections of all vertices, in vertex order |
| Gradients.Renormalize | klim_gl_tools/utils.py:54 | for lo < hi the rescaling sends lo to 0, hi to 1 and [lo, hi] into [0,1] |
| Gradients.Renormalized | klim_gl_tools/utils.py:52-54 | every rescaled projection lies in [0,1], one per projection |
| Gradients.Ceil | klim_gl_tools/utils.py:62 | `np.ceil` is the least integer not below its argument |
| Gradients.StopIndicesInRange | klim_gl_tools/utils.py:60-64 | for a position in [0,1]: 0 <= left stop <= clamped right stop <= n-1, and the blend fraction lies in [0,1) |
| Gradients.RampColors | klim_gl_tools/utils.py:57-65 | the ramp yields one colour per position |
| Gradients.RampColor | klim_gl_tools/utils.py:60-64 | definition of one ramp colour: the blend of the stops at `floor` and at `ceil` (capped at the last stop) of `p * (n - 1)`, by its fractional part; its properties are stated by StopIndicesInRange, RampEnds, RampAtStop and RampInUnitRange |
| Gradients.GradientColors | klim_gl_tools/utils.py:27-67 | definition of `apply_gradient`: decode the stops, project the box-normalised vertices, rescale to [0,1] and write the ramp colour of each vertex, with the source's errors; its properties are stated by GradientOutcome, SingleVertexRaises, GradientAt, GradientEnds, GradientCanonicalEnds and RectangleGradient, and ApplyGradient is proved to compute it |
| Gradients.DecodeStops | klim_gl_tools/utils.py:30 | decoding the stops succeeds exactly when every stop decodes; each decoded stop is `useHex` of its text; otherwise ValueError is raised |
| Gradients.BlendAt | klim_gl_tools/utils.py:60-64 | one step of the colouring loop blends the two neighbouring stops at the position |
| Gradients.RampVertex | klim_gl_tools/utils.py:60-65 | one pass of the colouring loop writes the ramp colour of vertex i |
| Gradients.RampVertices | klim_gl_tools/utils.py:57-65 | the colouring loop writes the ramp colour of every position, in order |
| Gradients.ApplyGradient | klim_gl_tools/utils.py:27-67 | the step-by-step computation matches the specification of `apply_gradient`, including the order in which its errors arise |
| Gradients.GradientOutcome | klim_gl_tools/utils.py:30-67 | the gradient succeeds exactly when every stop decodes, there is a stop and a vertex, and the projections are not all equal; it then gives exactly one colour per vertex |
| Gradients.SingleVertexRaises | klim_gl_tools/utils.py:52-54 | a single vertex has a degenerate projection range, so the gradient raises ValueError |
| Gradients.RampEnds | klim_gl_tools/utils.py:60-64 | position 0 takes exactly the first stop and position 1 exactly the last |
| Gradients.RampAtStop | klim_gl_tools/utils.py:60-64 | the stops are equally spaced: position k/(n-1) takes stop k exactly |
| Gradients.RampInUnitRange | klim_gl_tools/utils.py:64 | stops inside [0,1] give ramp colours inside [0,1] |
| Gradients.CanonicalStopRoundTrip | klim_gl_tools/utils.py:12-21 | a stop written as '#' and six lowercase hex digits survives decoding and re-encoding unchanged |
| Gradients.GradientAt | klim_gl_tools/utils.py:44-65 | each vertex's colour is the ramp at its rescaled projection |
| Gradients.GradientEnds | klim_gl_tools/utils.py:52-65 | a vertex with the smallest projection gets the first stop and one with the largest gets the last |
| Gradients.GradientCanonicalEnds | klim_gl_tools/utils.py:52-65 | end stops written canonically come back as their own text at the extreme vertices |
| Gradients.CornerProjection | klim_gl_tools/utils.py:46-48 | a corner on the left or right edge of a box starting at x = 0 projects to 0 or 1 along the x axis |
| Gradients.RectangleProjections | klim_gl_tools/utils.py:33-49 | along the x axis the corners of a rectangle of positive width project to 0, 1, 1, 0 |
| Gradients.RectangleGradient | klim_gl_tools/utils.py:27-67 | a gradient at angle 0 across a rectangle of positive width gives the left corners the first stop and the right corners the last |
| SvgPath.PathDataRaises | klim_gl_tools.py:22 | `path.split('"')[1]` raises IndexError exactly when the tag has no double quote |
| SvgPath.SplitHead | klim_gl_tools.py:22 | the first part of a split is the text before the first separator, and holds no separator |
| SvgPath.PathDataBetweenQuotes | klim_gl_tools.py:22 | the path data is the quote-free text after the first double quote, up to the next one or the end |
| SvgPath.PathData | klim_gl_tools.py:22 | definition of `path.split('"')[1]`; its properties are stated by PathDataRaises and PathDataBetweenQuotes |
| SvgPath.ScannedConcat | klim_gl_tools.py:26-34 | the chunks the tokenising loop has finished, followed by the open chunk, join back to the text it has read; the open chunk is empty only before the first character |
| SvgPath.ScannedChunks | klim_gl_tools.py:26-34 | every finished chunk is non-empty and may hold a letter only at its start; every chunk after the first starts with a letter |
| SvgPath.SplitCommands | klim_gl_tools.py:26-35 | the tokenising loop produces exactly the chunks of the path data |
| SvgPath.ChunksShape | klim_gl_tools.py:26-35 | joining the chunks gives back the path data; every chunk after the first starts with a letter and holds no other; non-empty data gives no empty chunk |
| SvgPath.ChunksOfEmpty | klim_gl_tools.py:35 | empty path data gives a single empty chunk |
| SvgPath.SingleChunk | klim_gl_tools.py:28-34 | a letter followed only by non-letters is one chunk |
| SvgPath.ChunksAppend | klim_gl_tools.py:28-35 | data that continues with a letter keeps the chunks read so far and chunks the rest on its own |
| SvgPath.Chunks | klim_gl_tools.py:26-35 | definition of the chunks the tokenising loop collects, with the last open chunk appended; its properties are stated by ChunksShape, ChunksOfEmpty, SingleChunk, ChunksAppend and ThreeChunks, and SplitCommands is proved to compute it |
| SvgPath.ParseUnsigned | klim_gl_tools.py:39 | `float` of an unsigned token is not negative, and a malformed token raises ValueError |
| SvgPath.ParseNumber | klim_gl_tools.py:39 | `float` of a token fails only with ValueError |
| SvgPath.NatTextValue | klim_gl_tools.py:39 | the decimal numeral of n is a run of digits that spells n |
| SvgPath.UnsignedDigits | klim_gl_tools.py:39 | a plain run of digits reads as the number it spells |
| SvgPath.ParseNatText | klim_gl_tools.py:39 | `float(str(n))` is n, and a leading minus negates it |
| SvgPath.ParseNumberRejects | klim_gl_tools.py:39 | a token with a character other than a digit, '.', '_' or a sign raises ValueError |
| SvgPath.ParseNumbers | klim_gl_tools.py:39 | `list(map(float, tokens))` succeeds exactly when every token parses, gives each token's value at its index, and otherwise raises ValueError |
| SvgPath.ArgsOfOne | klim_gl_tools.py:39 | a chunk whose rest is one numeral has that number as its only argument |
| SvgPath.ArgsOfTwo | klim_gl_tools.py:39 | a chunk whose rest is two numerals separated by a space has those two arguments |
| SvgPath.PairsOutcome | klim_gl_tools.py:41-48 | `M`/`L` succeed exactly for an even argument count and then add one point per consecutive pair, in order, ending at the last; an odd count raises IndexError |
| SvgPath.HorizontalPoints | klim_gl_tools.py:49-52 | `H` adds one point per argument, keeping the current y, and ends at the last |
| SvgPath.VerticalPoints | klim_gl_tools.py:53-56 | `V` adds one point per argument, keeping the current x, and ends at the last |
| SvgPath.Pairs | klim_gl_tools.py:41-48 | definition of the `M`/`L` loop on values: one point per consecutive pair, IndexError on a missing second coordinate; its properties are stated by PairsOutcome and MoveStep, and RunPairs is proved to compute it |
| SvgPath.Horizontal | klim_gl_tools.py:49-52 | definition of the `H` loop on values; its properties are stated by HorizontalPoints and HorizontalStep, and RunHorizontal is proved to compute it |
| SvgPath.Vertical | klim_gl_tools.py:53-56 | definition of the `V` loop on values; its properties are stated by VerticalPoints and VerticalStep, and RunVertical is proved to compute it |
| SvgPath.RunCommand | klim_gl_tools.py:38-56 | definition of one command: `command[0]` raises IndexError on an empty chunk, the arguments are read, then the letter dispatches; its properties are stated by OtherCommandInert and EmptyPathRaises, and RunChunk is proved to compute it |
| SvgPath.OtherCommandInert | klim_gl_tools.py:37-57 | a chunk whose letter is not M, L, H or V adds no point and keeps the position, but raises ValueError when one of its arguments is no number |
| SvgPath.MoveStep | klim_gl_tools.py:41-44 | a move with one pair of arguments goes to that point |
| SvgPath.HorizontalStep | klim_gl_tools.py:49-52 | a horizontal line with one argument keeps the y of the position |
| SvgPath.VerticalStep | klim_gl_tools.py:53-56 | a vertical line with one argument keeps the x of the position |
| SvgPath.Interpret | klim_gl_tools.py:37-57 | definition of the command loop: each chunk runs from the position the previous one left, its points appended in order, and the first chunk that raises ends the loop; its properties are stated by InterpretAppend, ThreeSteps and MoveThenAxes |
| SvgPath.InterpretAppend | klim_gl_tools.py:37-57 | output follows chunk order: interpreting a + b is interpreting a, then b from where a left the position |
| SvgPath.EmptyPathRaises | klim_gl_tools.py:35-38 | with empty path data (`d=""`) the only chunk is empty and `command[0]` raises IndexError |
| SvgPath.ThreeChunks | klim_gl_tools.py:26-35 | the data `M a b H c V d` is cut into the three chunks `M a b`, `H c` and `V d` |
| SvgPath.ThreeSteps | klim_gl_tools.py:37-57 | three commands that each add one point give those three points in order |
| SvgPath.MoveThenAxes | klim_gl_tools.py:14-59 | `M a b H c V d` traces (a, b), (c, b), (c, d) from the origin |
| SvgPath.SquareCornerPath | klim_gl_tools.py:14-59 | the path `M5 5H15V15` traces (5,5), (15,5), (15,15) |
| SvgPath.RunPairs | klim_gl_tools.py:42-44 | the pair loop of `M` and `L` computes the pair command's points and final position, or its IndexError |
| SvgPath.RunHorizontal | klim_gl_tools.py:50-52 | the `H` loop computes the horizontal command's points and final position |
| SvgPath.RunVertical | klim_gl_tools.py:54-56 | the `V` loop computes the vertical command's points and final position |
| SvgPath.RunChunk | klim_gl_tools.py:38-56 | one pass of the command loop reads the arguments, then dispatches on the letter |
| SvgPath.ParseSvgPath | klim_gl_tools.py:14-59 | the standalone `useSvgPath` computes the points of the path, or the error that the path raises |
| SvgPath.SvgPoints | klim_gl_tools.py:14-59 | definition of `useSvgPath` on values: path data, chunks, then the command loop from the origin; its properties are stated by MoveThenAxes and SquareCornerPath, ParseSvgPath is proved to compute it, and Shapes.Shape.UseSvgPath assigns it |
| Shapes.Repeat | klim_gl_tools/core.py:32 | `[color for _ in vertices]` holds the colour once per vertex |
| Shapes.Repaired | klim_gl_tools/core.py:58-61 | definition of `_validate_vertex_colors` on values; its properties are stated by RepairedOutcome, RepairedIdempotent and FreshShapeRepair, and Shapes.Shape.ValidateVertexColors is proved to compute it |
| Shapes.RepairedOutcome | klim_gl_tools/core.py:58-61 | the repair raises IndexError exactly when there are vertices but no colours; otherwise it leaves one colour per vertex, keeps colours that already match, and else copies the first colour |
| Shapes.RepairedIdempotent | klim_gl_tools/core.py:58-61 | repairing a second time changes nothing |
| Shapes.FreshShapeRepair | klim_gl_tools/core.py:58-61 | a fresh shape, with no vertices and the one default colour, has its colour list emptied by the repair |
| Shapes.GradientFillOutcome | klim_gl_tools/core.py:35-43 | `gradient` raises IndexError, keeping the colours, exactly when there are vertices but no colours; otherwise it raises what the ramp raises, keeping the repaired colours, or ends with the ramp's colour per vertex |
| Shapes.GradientFill | klim_gl_tools/core.py:39-43 | definition of what `gradient` leaves behind: repair, then `apply_gradient`, keeping the colours reached when a step raises; its properties are stated by GradientFillOutcome, and Shapes.Shape.Gradient is proved to leave exactly it |
| Shapes.Shape.constructor | klim_gl_tools/core.py:10-17 | a new shape has no vertices, colours `['#000000']`, position (0,0), rotation 0, stroke (1, black), an empty black mask and no passes |
| Shapes.Shape.Position | klim_gl_tools/core.py:19-25 | the position becomes (x, y), with y defaulting to x; nothing else changes |
| Shapes.Shape.Fill | klim_gl_tools/core.py:27-33 | one fill pass is appended and every vertex gets the colour; vertices, position, stroke and mask are unchanged |
| Shapes.Shape.Gradient | klim_gl_tools/core.py:35-43 | the fill pass is appended first; the colours are repaired, then replaced by one gradient colour per vertex; an exception keeps what was done before it; the angle defaults to 0 |
| Shapes.Shape.AssignGradient | klim_gl_tools/core.py:42 | the colours become the gradient's colours when it succeeds; when it raises, the colours are kept and the error is returned |
| Shapes.Shape.SetStroke | klim_gl_tools/core.py:45-51 | one stroke pass is appended and only the stroke is overwritten, with defaults 1 and black |
| Shapes.Shape.SetMask | klim_gl_tools/core.py:53-56 | one mask pass is appended and only the mask is overwritten, with the colour defaulting to black |
| Shapes.Shape.ValidateVertexColors | klim_gl_tools/core.py:58-61 | the colours become the repaired list, or IndexError is raised with the colours unchanged; nothing else changes |
| Shapes.Shape.UseVertexArray | klim_gl_tools/mixins.py:2-7 | the vertices become the given array as it is, and the same shape is returned |
| Shapes.Shape.UseSvgPath | klim_gl_tools/mixins.py:10-52 | the vertices become the points of the path, the same points as the standalone `useSvgPath`; a path that raises leaves the shape as it was |
| Shapes.Polygon.constructor | klim_gl_tools/core.py:67-69 | a new polygon has tessellation off and a fresh shape: no vertices, colours `['#000000']`, position (0,0), rotation 0, stroke (1, black), an empty black mask and no passes |
| Shapes.Polygon.Path | klim_gl_tools/core.py:71-76 | only the vertices are replaced |
| Shapes.Polygon.Tessellate | klim_gl_tools/core.py:78-83 | tessellation is switched on |
| Shapes.Rectangle.constructor | klim_gl_tools/core.py:123-126 | a new rectangle holds a fresh shape: no vertices, colours `['#000000']`, position (0,0), rotation 0, stroke (1, black), an empty black mask and no passes |
| Shapes.Rectangle.Size | klim_gl_tools/core.py:127-133 | the vertices become (0,0), (w,0), (w,h), (0,h), with h defaulting to w; nothing else changes |
| Shapes.EllipseVertexCount | klim_gl_tools/core.py:167-175 | quality 0 raises ZeroDivisionError; otherwise the outline has `quality` vertices, or none for a negative quality, and vertex k is placed from the k-th point of the circle |
| Shapes.EllipseVertexOnEllipse | klim_gl_tools/core.py:162-174 | a vertex placed from a point of the unit circle lies on the ellipse inscribed in the box from the origin to (width, height) |
| Shapes.EllipseOutline | klim_gl_tools/core.py:157-177 | definition of the outline `Ellipse.size` builds, ZeroDivisionError at quality 0; its properties are stated by EllipseVertexCount and EllipseVertexOnEllipse, and Shapes.Ellipse.Size is proved to compute it |
| Shapes.Ellipse.constructor | klim_gl_tools/core.py:146-148 | a new ellipse has quality 100 and a fresh shape: no vertices, colours `['#000000']`, position (0,0), rotation 0, stroke (1, black), an empty black mask and no passes |
| Shapes.Ellipse.Quality | klim_gl_tools/core.py:150-155 | the quality is set to the given segment count |
| Shapes.Ellipse.Size | klim_gl_tools/core.py:157-177 | the vertices become the outline of the given quality; quality 0 raises ZeroDivisionError and keeps the old vertices; nothing else changes |
| Legacy.EdgeColors | klim_gl_tools.py:120-125 | `draw` uses colors[0] at both edges when there is one colour, else colors[0] and colors[1]: the first and the last colour for the one or two colours the setters leave; no colour raises IndexError |
| Legacy.Rectangle.constructor | klim_gl_tools.py:67-70 | a new rectangle is at (0,0), of size (0,0), coloured black |
| Legacy.Rectangle.Position | klim_gl_tools.py:85-90 | only the position changes |
| Legacy.Rectangle.Size | klim_gl_tools.py:92-98 | only the size changes; an omitted height equals the width |
| Legacy.Rectangle.Fill | klim_gl_tools.py:100-105 | exactly one colour is left |
| Legacy.Rectangle.Gradient | klim_gl_tools.py:107-112 | exactly the two colours are left, in order |
| Legacy.Rectangle.DrawColors | klim_gl_tools.py:120-125 | `draw` picks the start and end colours as `EdgeColors` says; with the one or two colours every setter leaves, it does not raise and uses the first and the last colour |
| Legacy.TrunkColors | klim_gl_tools.py:376-378 | the trunk gets the tree's colours reversed, or its one colour twice, and so always ends in the foliage colour |
| Legacy.TrunkEdges | klim_gl_tools.py:376-384 | drawn as a legacy rectangle, the trunk runs from the tree's last colour to its first |
| Legacy.Tree.constructor | klim_gl_tools.py:309-312 | a new tree is at (0,0), of size (0,0), coloured black |
| Legacy.Tree.Position | klim_gl_tools.py:327-332 | only the position changes |
| Legacy.Tree.Size | klim_gl_tools.py:334-339 | the size becomes width 0 and the given height |
| Legacy.Tree.Fill | klim_gl_tools.py:341-346 | exactly one colour is left |
| Legacy.Tree.Gradient | klim_gl_tools.py:348-353 | exactly the two colours are left, in order |
| Legacy.Tree.DrawColors | klim_gl_tools.py:373-378 | the foliage takes the first colour and the trunk the colours of `TrunkColors`; no colour raises IndexError; with the one or two colours every setter leaves, it does not raise and the trunk runs from the last colour to the first |

## Left out

- OpenGL and GLU calls are foreign calls into the renderer. This covers every `draw` method, the GLU tessellator callbacks and the undefined `draw_polyon_boject`. From the legacy `draw` methods only the choice of colours is modelled.
- Trigonometry is a caller-supplied input. `apply_gradient` takes its direction as a point instead of an angle. `Ellipse.size` takes the unit-circle point of step k as the function `circle`, instead of cos and sin of `k * 2 * pi / quality`.
- IEEE-754 arithmetic is not modelled. Channels, positions and projections are exact reals. The model has no rounding error, no NaN and no infinity, except where NaN decides an outcome, as in the equal-projections case.
- `int(g, 16)` in `useHex` is modelled for ASCII text only. Unicode digits and Unicode whitespace are not modelled.
- `float` in `useSvgPath` is modelled for the decimal forms only: sign, digits with `_` separators, and a point. Exponents cannot occur, because a letter such as `e` starts a new chunk. `inf`, `nan` and non-ASCII digits are left out for the same reason or because they are rare.
- `str.isalpha` and `str.split` are modelled for ASCII letters and ASCII whitespace.
- Shapes.Shape.UseVertexArray: stores a copy of the caller's vertex list. The source keeps a reference to it, so a later change the caller makes to that list also changes the shape's outline, and can leave it with a different number of vertices than colours (the mismatch `_validate_vertex_colors` repairs at draw time). The model's shape never sees such a change.
- Shapes.Polygon.Path: stores a copy of the caller's vertex list, where the source keeps a reference; later changes to that list are not seen by the model's shape, for the same reason.
- Shapes.Shape.SetMask: stores a copy of the caller's pattern list, where the source keeps a reference; later changes to that list are not seen by the model's shape.
- `_rotation` is stored by the constructor and never read; the model keeps the field and nothing else.
- The `warn` flag of `_validate_vertex_colors` only prints a warning, so it is not modelled.
- The `Tree` class of klim_gl_tools/core.py is left out. It adds a `height` setter over a `_height` field that starts at 100, `fill` and `gradient` overrides that write `val_colors` while `__init__` writes `_colors`, and drawing.
- The legacy `Ellipse` and `Polygon` classes of klim_gl_tools.py are not part of this model. template.py (a GLUT window host) and setup.py (packaging) are not part of this model either.
