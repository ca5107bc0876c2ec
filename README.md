# Glucose display sketch, modelled in Dafny

This project models the Arduino sketch `displayGraphs.cpp` of the
GlucoseMonitoringDisplay repository. The sketch shows glucose readings on an
LCD in two screens:

- a vertical scale and a line plot of ten readings, each segment coloured
  green, yellow or red by a band rule around a threshold of 120;
- a summary box with the last reading, the unit "mg/dl" and a qualifier
  ("Normal" or "High"), drawn in green or red.

The LCD library (UTFTGLUE) and the serial port are foreign code. The model
replaces each with a recorder class in module `Devices`. `Devices.Lcd` holds
the current drawing colour, which `SetColor` replaces, and the sequence of
commands drawn so far. Each line, number or text records the colour that was
current when it was drawn. `Devices.SerialPort` records what was written to
the serial port. The sketch's methods are proved against specification
functions of module `DisplayGraphs`: `ScaleCommands`, `PlotLines`,
`BoxCommands` and `DataLog`. The lemmas then state what those functions
promise. Module `CStrings` models the `strcmp` that `drawBox` uses.

The readings are a parameter (an `array<int>` of length 10, as `int
data[numPoints]` is). Arithmetic is on unbounded integers. On AVR boards such
as the Uno (which the shield's A0–A4 pins suggest) `int` is 16 bits wide.
`SegmentArithmeticFits` shows that readings in the range `random(80, 150)`
produces keep every computed value within 16 bits. So for those readings the
unbounded model computes what such a board computes; a wider `int` only makes
that easier to meet. The C division in the band rule truncates toward zero, and
`Average` writes that out.

The repository also holds a Python script (`dataPlotting .py`) that filters
a CSV export and plots it. This model follows the sketch's code, and the
Python script is not part of this model.

## Model

| member | source | states |
|---|---|---|
| `CStrings.StrCmp` | displayGraphs.cpp:26 | on C strings (no NUL inside), `strcmp` returns zero exactly when the two strings are equal |
| `CStrings.StrCmpAntisymmetric` | displayGraphs.cpp:26 | for the modelled `StrCmp` (the difference of the first differing characters), swapping the arguments negates the result; C itself promises only the sign, and the sketch uses only the zero test |
| `DisplayGraphs.Average` | displayGraphs.cpp:76 | `(a + b) / 2` truncates toward zero (floor for a non-negative sum, ceiling for a negative one) and lies between the two readings |
| `DisplayGraphs.SegmentColour` | displayGraphs.cpp:76-87 | each segment gets exactly one of green, yellow or red: green iff the average < threshold − 5, yellow iff threshold − 5 ≤ average ≤ threshold + 5, red iff the average > threshold + 5 |
| `DisplayGraphs.BandMonotone` | displayGraphs.cpp:76-87 | a higher average never gets a lower band (green < yellow < red) |
| `DisplayGraphs.FlatSegmentColour` | displayGraphs.cpp:76-87 | a segment between two equal readings v is green iff v < 115, yellow iff 115 ≤ v ≤ 125, red iff v > 125 |
| `DisplayGraphs.PointX` | displayGraphs.cpp:72-74 | the x of reading i is `26 + i * xScale`, from which i can be read back |
| `DisplayGraphs.PointY` | displayGraphs.cpp:73-75 | the y of reading v is `120 - (v - 100) * yScale`, which with yScale = 1 is 220 − v, the height of the scale's label v |
| `DisplayGraphs.PointXAdvances` | displayGraphs.cpp:72-74 | the x map puts consecutive readings xScale = 35 pixels apart, strictly increasing |
| `DisplayGraphs.PointYProperties` | displayGraphs.cpp:73-75 | the y map sends 100 to y = 120, equals 220 − v with yScale = 1, and is strictly decreasing in the reading |
| `DisplayGraphs.PlotLinesLength` | displayGraphs.cpp:70 | n readings give max(n − 1, 0) segments |
| `DisplayGraphs.PlotLinesAt` | displayGraphs.cpp:70-90 | the i-th line drawn is the segment from reading i to reading i + 1 |
| `DisplayGraphs.PlotLinesExtend` | displayGraphs.cpp:70-90 | one more reading adds exactly the segment that ends at it |
| `DisplayGraphs.SegmentGeometry` | displayGraphs.cpp:70-90 | segment i runs from x = 26 + 35i to x = 26 + 35(i + 1), left to right, between the y's of readings i and i + 1, in the band colour of those two readings |
| `DisplayGraphs.SegmentsJoin` | displayGraphs.cpp:72-75 | the end point of segment i is the start point of segment i + 1 |
| `DisplayGraphs.SketchPlotExtent` | displayGraphs.cpp:50-75 | with ten readings the plot has nine segments, from x = 26 to x = 341 |
| `DisplayGraphs.DataLogExtend` | displayGraphs.cpp:92-93 | logging one more reading appends "data " and that reading's line |
| `DisplayGraphs.DataLogRoundTrip` | displayGraphs.cpp:92-93 | the numbers in the serial log are exactly the logged readings, in order |
| `DisplayGraphs.Qualifier` | displayGraphs.cpp:101 | the qualifier is "Normal" iff the reading is < threshold + 5, and "High" iff it is ≥ threshold + 5 |
| `DisplayGraphs.SummaryQualifier` | displayGraphs.cpp:100-101 | the summary says "High" iff the last reading is ≥ threshold + 5 |
| `DisplayGraphs.QualifierReadsOnlyLast` | displayGraphs.cpp:100-101 | two runs of readings with the same last reading get the same qualifier |
| `DisplayGraphs.BoxColour` | displayGraphs.cpp:26-31 | the box is red iff the qualifier equals "High" (strcmp is zero), green otherwise |
| `DisplayGraphs.SummaryBoxColour` | displayGraphs.cpp:100-104 | the summary box is red iff the last reading is ≥ threshold + 5, green iff it is below |
| `DisplayGraphs.BoxAndBandDifferOnlyAtLimit` | displayGraphs.cpp:76-101 | the box rule and the band rule agree on "red" for a flat reading except at exactly 125, where the box is red and the segment yellow |
| `DisplayGraphs.TickY` | displayGraphs.cpp:19 | tick i sits at y = 220 − 10i, where the plot draws a reading of 10i |
| `DisplayGraphs.Tick` | displayGraphs.cpp:19-21 | tick i is the white line (20, y)–(25, y), left of the axis at x = 27, then the white label 10i at (5, y − 4), with y the height of a reading of 10i |
| `DisplayGraphs.TicksAt` | displayGraphs.cpp:17-22 | n ticks issue 2n commands, and tick i is the pair at positions 2i and 2i + 1 |
| `DisplayGraphs.TicksExtend` | displayGraphs.cpp:17-22 | one more loop turn appends exactly that tick's line and label |
| `DisplayGraphs.ScaleLayout` | displayGraphs.cpp:11-22 | the scale is the axis line (27, 220)–(27, 20) followed by 21 ticks; tick i is the line (20, 220 − 10i)–(25, 220 − 10i) and the label 10i at (5, 216 − 10i) |
| `DisplayGraphs.ScaleSpansAxis` | displayGraphs.cpp:14-22 | the first tick is at the axis bottom (220), the last at its top (20), all lie within it, and the tick labelled L sits at the y where the plot draws a reading of L |
| `DisplayGraphs.SegmentArithmeticFits` | displayGraphs.cpp:60-76 | for readings in [80, 150) every sum and coordinate fits a 16-bit int, the truncating average is plain halving, and every plotted y lies on the axis |
| `DisplayGraphs.DrawScale` | displayGraphs.cpp:11-23 | leaves the colour white and appends exactly the axis and the 21 ticks |
| `DisplayGraphs.DrawBox` | displayGraphs.cpp:24-45 | sets the box colour from the qualifier and appends the value at (x + 60, y + 40), "mg/dl" at (x + 110, y + 40) and the qualifier at (x + 100, y + 80); width and height have no effect |
| `DisplayGraphs.PlotSegment` | displayGraphs.cpp:71-93 | one loop turn leaves the segment's band colour current, appends exactly segment i, and writes "data " and reading i to the serial port |
| `DisplayGraphs.PlotSegments` | displayGraphs.cpp:70-95 | appends exactly the plot's segments in order, leaves the last segment's colour current, and writes readings 0 to 8 (never the last) to the serial port |
| `DisplayGraphs.Loop` | displayGraphs.cpp:47-108 | one pass draws clear, scale, plot, clear, summary box with the qualifier of the last reading (`SummaryQualifier`), clear, and logs readings 0 to 8 |

## Left out

- `setup` (`randomSeed`, `analogRead`, `InitLCD`, `Serial.begin`): hardware start-up with no logic. A recorder's starting state is a constructor argument instead.
- The loop that fills `data` with `random(80, 150)` (lines 58-61): randomness from a library. The readings are a parameter of `Loop`. Their range matters only for `SegmentArithmeticFits`, which takes it as a precondition.
- `delay`: timing with no logic.
- `setFont`, the commented-out `fillRect` and the commented-out axis lines: rendering details. Fonts are not recorded.
- The UTFTGLUE library's pixels, screen size and `clrScr` internals: foreign code. The LCD is a recorder of commands plus a current colour, and `clrScr` is recorded as a `Clear` command that keeps the colour.
- The decimal formatting that `Serial.println` applies: the serial recorder keeps the integer written, not its digits.
- 16-bit wrap-around of `int`: arithmetic is unbounded. `SegmentArithmeticFits` shows no wrap-around happens for readings `random(80, 150)` can produce.
- `dataPlotting .py` (CSV loading, the 24-hour window, the latest-reading fallback and the matplotlib chart) is not part of this model.
