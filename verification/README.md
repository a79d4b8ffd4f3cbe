# String art nail board — a Dafny model

The string art creator lets a user set a rectangular frame and a number of nails
per side. "Generate Nails" places the nails evenly around the frame. The nails
sit a fixed border inside the frame edge, and the list is built as four runs:
top left→right, right top→bottom, bottom right→left, left bottom→top.
"Generate Strings" then joins nails in pairs by fixed index offsets. This
project models that geometry and index arithmetic of the main window:

- `Scale`: the meters↔pixels conversions at 400 pixels per meter. Python's
  `int()` truncates toward zero, and the model writes that out.
- `Geometry`: the frame rectangle given by its pixel edges, the four inset
  corners, the pitch per side, and the nail layout.
  - The layout is the specification function `Layout`, built from four `Run`s
    that append one point at a time, as the source's loops do.
  - Lemmas prove what the layout looks like: each nail's formula, where the
    runs meet, the constant step inside a run, and that every nail lies on the
    perimeter of the inset rectangle.
- `Pairing`: the index pairs that "Generate Strings" visits. `StringPairs` is
  the specification, and lemmas give its length, its index bounds, the absence
  of self-pairs, and which run each partner lands in.
- `Board`: the class `MainWindow` with the fields the handlers set
  (`nailsPx`, `nNailsX`, `nNailsY`, `nNails`).
  - `GenerateNails` resets `nailsPx` and appends in four loops. When no
    count is 1 it is proved to leave exactly `Layout(...)`; otherwise it
    raises `ZeroDivisionError` with the list empty.
  - `GenerateStrings` runs the two index loops. After a completed nail
    generation it is proved to return exactly `StringPairs(...)`, with every
    index inside the nail list; otherwise it raises `IndexError`.

Coordinates are exact `real`s, and pixel y grows downwards. `QVector2D.length()`
is applied only to axis-aligned side differences, so it equals the absolute
value of the nonzero component. `Geometry.AxisLengthIsEuclidean` checks this against the Euclidean
formula `l² = x² + y²`.

Three behaviours of the code that are easy to misread:

- **Every inset corner appears twice.** Each run ends on the corner where the
  next run starts, and nothing removes the repeat (`Geometry.RunsMeet`,
  `Geometry.CornerRepeated`).
- **Pairing by fixed offsets.** Strings join `(i, i + n_nails_x)` for the top
  run, then `(i, i + n_nails_y)` for the right run. When `n_nails_x <= n_nails_y`,
  top nail m goes to right nail m. When `n_nails_y <= n_nails_x`, right nail m
  goes to bottom nail m (`Board.StringEnds`).
- **A count of 1.** The pitch divides by zero at string_art_creator_app.py:193-196.
  This happens after the nail list was emptied (line 177) and the counts stored
  (lines 190-191). `GenerateNails` returns `ZeroDivisionError` and leaves that
  state. A later `GenerateStrings` then reads index 0 of the empty list and
  returns `IndexError`. A count of 0 is accepted and gives empty runs.

## Model

| member | source | states |
|---|---|---|
| `Scale.TruncateToInt` | string_art_creator_app.py:15 | Python's `int()` of a float truncates toward zero: the result is within one of the value, on the zero side |
| `Scale.MetersToPixels` | string_art_creator_app.py:14-15 | meters times 400, truncated toward zero; non-negative lengths give non-negative pixels that lose less than one pixel |
| `Scale.PixelsToMeters` | string_art_creator_app.py:18-19 | the result times 400 is the pixel count; it keeps the sign |
| `Scale.PixelsRoundTrip` | string_art_creator_app.py:14-19 | pixels → meters → pixels returns the same whole number |
| `Scale.MetersRoundTrip` | string_art_creator_app.py:14-19 | meters → pixels → meters undershoots a non-negative length by less than 1/400 m |
| `Board.NailBorderPixels` | string_art_creator_app.py:178-179 | the fixed 0.05 m nail border is 20 pixels |
| `Geometry.AxisLength` | string_art_creator_app.py:193-196 | `QVector2D.length()` of an axis-aligned side difference: non-negative, and zero only for the zero vector; `Geometry.AxisLengthIsEuclidean` ties it to x² + y² |
| `Geometry.AxisLengthIsEuclidean` | string_art_creator_app.py:193-196 | the length taken of an axis-aligned side difference is non-negative and its square is x² + y², i.e. it is `QVector2D.length()` |
| `Geometry.InsetCorners` | string_art_creator_app.py:180-188 | top-left moves +x/+y, top-right −x/+y, bottom-left +x/−y, bottom-right −x/−y by the border; the result is an axis-aligned rectangle 2·border narrower and shorter |
| `Geometry.InsetCornersInside` | string_art_creator_app.py:180-188 | with a border that fits, all four inset corners lie inside the frame rectangle |
| `Geometry.Pitch` | string_art_creator_app.py:193-196 | side length over n − 1: for n = 0 it is the negated side, for n ≥ 2 it has the side's sign; n = 1 divides by zero and is excluded here (the handler's error path is in `GenerateNails`); `Geometry.PitchSpan` states that n − 1 pitches make up the side |
| `Geometry.PitchSpan` | string_art_creator_app.py:193-196 | for n ≥ 2, (n − 1) pitches make up the side length; for n = 0 the divisor −1 negates it; n = 1 is excluded (division by zero) |
| `Geometry.PitchesSpan` | string_art_creator_app.py:193-196 | the horizontal pitch is measured on the bottom side and the vertical one on the right side: (n_x − 1)·pitch_x = abs(right − left − 2·border) and (n_y − 1)·pitch_y = abs(bottom − top − 2·border), both non-negative |
| `Geometry.PitchX` | string_art_creator_app.py:193-194 | the horizontal pitch, measured on the bottom inset side, is non-negative for n_x ≥ 2 and minus the side's length for n_x = 0; `Geometry.PitchesSpan` gives (n_x − 1)·pitch_x |
| `Geometry.PitchY` | string_art_creator_app.py:195-196 | the vertical pitch, measured on the right inset side, is non-negative for n_y ≥ 2 and minus the side's length for n_y = 0; `Geometry.PitchesSpan` gives (n_y − 1)·pitch_y |
| `Geometry.Run` | string_art_creator_app.py:197-208 | one `for` loop of appends yields exactly n points |
| `Geometry.RunAt` | string_art_creator_app.py:197-208 | point k of a run is start + k·step |
| `Geometry.RunStep` | string_art_creator_app.py:197-208 | consecutive points of a run differ by exactly the step |
| `Geometry.Layout` | string_art_creator_app.py:197-209 | the nail list has 2·n_x + 2·n_y entries |
| `Geometry.LayoutRuns` | string_art_creator_app.py:197-208 | the list is the top, right, bottom and left runs concatenated in that order, with lengths n_x, n_y, n_x, n_y |
| `Geometry.NailAt` | string_art_creator_app.py:197-208 | nail k is TL + k·(pitch_x, 0), TR + m·(0, pitch_y), BR + m·(−pitch_x, 0) or BL + m·(0, −pitch_y), by the run it falls in, m its offset in that run |
| `Geometry.TopMeetsRight` | string_art_creator_app.py:193-202 | the last top-run nail and the first right-run nail are both the top-right inset corner |
| `Geometry.RightMeetsBottom` | string_art_creator_app.py:193-205 | the last right-run nail and the first bottom-run nail are both the bottom-right inset corner |
| `Geometry.BottomMeetsLeft` | string_art_creator_app.py:193-208 | the last bottom-run nail and the first left-run nail are both the bottom-left inset corner |
| `Geometry.LeftMeetsTop` | string_art_creator_app.py:193-208 | the last left-run nail and the first top-run nail are both the top-left inset corner |
| `Geometry.RunsMeet` | string_art_creator_app.py:193-208 | with ≥ 2 nails per side and a border that fits, the top run ends at TR where the right run starts, the right run ends at BR, the bottom run ends at BL, and the left run ends at TL, the first nail |
| `Geometry.CornerRepeated` | string_art_creator_app.py:197-208 | under the same conditions the list holds the same point at two different indices (no de-duplication) |
| `Geometry.ConsecutiveNails` | string_art_creator_app.py:193-208 | inside each run the next nail is the previous one plus that run's step, so consecutive nails are exactly abs(pitch) apart |
| `Geometry.NailsOnPerimeter` | string_art_creator_app.py:180-208 | with a border that fits, every nail lies on the perimeter of the inset rectangle |
| `Pairing.PairRange` | string_art_creator_app.py:229-247 | a `for i in range(lo, hi)` loop pairing i with i + offset yields hi − lo pairs |
| `Pairing.PairRangeAt` | string_art_creator_app.py:229-247 | pair k of that loop is (lo + k, lo + k + offset) |
| `Pairing.StringPairs` | string_art_creator_app.py:229-247 | the whole string pattern, the two loops' pairs in order: n_x + n_y pairs; `Pairing.StringPairsAt` and `Pairing.StringPairsValid` give each pair and its bounds |
| `Pairing.StringPairsAt` | string_art_creator_app.py:229-247 | there are n_x + n_y pairs: (i, i + n_x) for i < n_x, then (i, i + n_y) for n_x ≤ i < n_x + n_y |
| `Pairing.StringPairsValid` | string_art_creator_app.py:229-247 | every index lies in [0, 2·n_x + 2·n_y), and no pair joins a nail to itself |
| `Pairing.PartnerRuns` | string_art_creator_app.py:229-245 | top-run nails are paired into [n_x, 2·n_x), which lies in the right run iff n_x ≤ n_y (or the nail is early enough); right-run nails are paired into [n_x + n_y, n_x + 2·n_y), which lies in the bottom run iff n_y ≤ n_x (or early enough) |
| `Board.StringEnds` | string_art_creator_app.py:229-245 | both ends of every string are nails of the layout; with n_x ≤ n_y top nail m meets right nail m, with n_y ≤ n_x right nail m meets bottom nail m |
| `Board.MainWindow.constructor` | string_art_creator_app.py:69-154 | a new window has not generated nails, so the nail fields do not exist yet (`nailsGenerated` is false) |
| `Board.MainWindow.GenerateNails` | string_art_creator_app.py:169-209 | always empties the list and stores both counts; a count of 1 raises `ZeroDivisionError` (iff), leaving the list empty and `nNails` unchanged; otherwise `nailsPx` is exactly `Layout` of the frame, the 20-pixel border and the counts, and `nNails` = 2·n_x + 2·n_y |
| `Board.MainWindow.GenerateStrings` | string_art_creator_app.py:229-247 | after a completed nail generation, returns exactly `StringPairs` of the stored counts; after one that raised, raises `IndexError` (iff a stored count is 1) with no pair drawn; every index it pairs lies within the stored nail list |
| `Board.RegenerateNails` | string_art_creator_app.py:177-209 | pressing "Generate Nails" twice with the same inputs ends the same way and leaves the same nail list (rebuilt from empty): 2·n_x + 2·n_y nails, or none when it raised |

## Left out

- Qt widgets, layouts, validators, the window and the event loop (string_art_creator_app.py:22-154, 256-263). The counts are taken as `nat`, because the integer validators admit no sign.
- All drawing: `QPainter`, pens, `eraseRect`, `drawRect`, `drawPoints`, `drawLine` and `update`. `GenerateStrings` returns the index pairs it visits. It reads the two nails of each pair, but the segment drawn between them is not returned; `Board.StringEnds` states which layout points each pair joins.
- Board.MainWindow.GenerateNails: builds the list in a local sequence and stores it in `nailsPx` once complete, where the source appends to the attribute directly. Nothing can observe the difference, because the only failure (the division by zero) comes before the loops, when the list is already empty.
- Board.MainWindow.GenerateStrings: an exception is modelled as the handler returning a `Status` and leaving the window's state as it was at the raise. PySide2 reports an exception raised in a slot and keeps the event loop running, so the next button press sees that state. The report itself is not modelled. The red and blue lines drawn before an `IndexError` are not modelled either; after a failed "Generate Nails" none are drawn.
- Parsing the text fields with `float(...)`/`int(...)`. Dimensions and counts are typed parameters, and an unparsable field is not modelled.
- Building the `QRect` from the frame size in meters and `canvasCenter` (string_art_creator_app.py:169-174, 133-136). Qt's corner convention (`right = left + width − 1`) is library behaviour. `GenerateNails` takes the four edge coordinates of the rectangle instead, and the `frame_width`/`frame_width_px` attributes are not modelled.
- IEEE floating point: products, the pitch division, `length()` and the float→int `QPoint` conversion are exact here. The lemmas are about exact arithmetic, not float-exact behaviour.
- Geometry.RunsMeet: holds only when the border fits (2·border ≤ width and height). Otherwise the pitch, an absolute length, steps away from the far corner, and the model makes no claim about where the runs end.
- The attributes not existing before the first "Generate Nails" is modelled by the ghost flag `nailsGenerated`. The Python `AttributeError` path is a precondition of `GenerateStrings`.
