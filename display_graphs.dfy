/** The glucose display sketch: a vertical scale, a line plot of the readings
    whose segments are coloured by a three-band threshold rule, and a summary
    box with the latest reading and its qualifier. The LCD and the serial port
    are the recorders of module Devices; the readings are a parameter. */
module DisplayGraphs {
  import opened Devices
  import opened CStrings

  // The sketch's fixed parameters.
  const NumPoints := 10
  const XScale := 35
  const YScale := 1
  const Threshold := 120

  // The vertical axis drawn by the scale, at x = 27 from y = 220 up to y = 20.
  const AxisX := 27
  const AxisBottom := 220
  const AxisTop := 20
  const TickCount := 21

  function Min(a: int, b: int): int { if a <= b then a else b }
  function Max(a: int, b: int): int { if a <= b then b else a }

  /* ---------------------------------------------------------------------- */
  /* Segment colour                                                          */
  /* ---------------------------------------------------------------------- */

  /** `(a + b) / 2` on C integers: the division truncates toward zero. */
  function Average(a: int, b: int): (avg: int)
    ensures a + b >= 0 ==> 2 * avg <= a + b <= 2 * avg + 1
    ensures a + b < 0 ==> 2 * avg - 1 <= a + b <= 2 * avg
    ensures Min(a, b) <= avg <= Max(a, b)
  {
    var sum := a + b;
    if sum >= 0 then sum / 2 else -((-sum) / 2)
  }

  /** The colour of the segment between two neighbouring readings: green
      below the band, yellow inside it, red above it; the band is
      [Threshold - 5, Threshold + 5] and is tested on the truncated average. */
  function SegmentColour(a: int, b: int): (c: Colour)
    ensures c == Green || c == Yellow || c == Red
    ensures c == Green <==> Average(a, b) < Threshold - 5
    ensures c == Yellow <==> Threshold - 5 <= Average(a, b) <= Threshold + 5
    ensures c == Red <==> Average(a, b) > Threshold + 5
  {
    var avg := Average(a, b);
    if avg < Threshold - 5 then Green
    else if avg <= Threshold + 5 && Threshold - 5 <= avg then Yellow
    else Red
  }

  /** Orders the three band colours from low to high. */
  function BandRank(c: Colour): nat
  {
    if c == Green then 0 else if c == Yellow then 1 else 2
  }

  /** A higher average never gets a lower band. */
  lemma BandMonotone(a: int, b: int, c: int, d: int)
    requires Average(a, b) <= Average(c, d)
    ensures BandRank(SegmentColour(a, b)) <= BandRank(SegmentColour(c, d))
  {
  }

  /** A flat stretch at reading v is coloured by v itself. */
  lemma FlatSegmentColour(v: int)
    ensures Average(v, v) == v
    ensures SegmentColour(v, v) == Green <==> v < Threshold - 5
    ensures SegmentColour(v, v) == Yellow <==> Threshold - 5 <= v <= Threshold + 5
    ensures SegmentColour(v, v) == Red <==> v > Threshold + 5
  {
  }

  /* ---------------------------------------------------------------------- */
  /* Coordinates                                                             */
  /* ---------------------------------------------------------------------- */

  /** The x coordinate of the i-th reading; the reading's index can be read
      back from it. */
  function PointX(i: int): (x: int)
    ensures (x - 26) % XScale == 0 && (x - 26) / XScale == i
  {
    26 + i * XScale
  }

  /** The y coordinate of a reading; y grows downwards on the screen. It is
      the height at which the scale carries the label v. */
  function PointY(v: int): (y: int)
    ensures y + v == AxisBottom
  {
    120 - (v - 100) * YScale
  }

  /** Consecutive readings are XScale pixels apart, left to right. */
  lemma PointXAdvances(i: int)
    ensures PointX(i + 1) == PointX(i) + XScale
    ensures PointX(i) < PointX(i + 1)
  {
  }

  /** A higher reading is drawn higher up, 100 sits at y = 120, and the map
      is the one the scale is labelled with (label L at y = 220 - L). */
  lemma PointYProperties(v: int, w: int)
    ensures PointY(100) == 120
    ensures PointY(v) == AxisBottom - v
    ensures v < w ==> PointY(w) < PointY(v)
  {
  }

  /* ---------------------------------------------------------------------- */
  /* The line plot                                                           */
  /* ---------------------------------------------------------------------- */

  /** The number of segments between n readings. */
  function SegmentCount(n: int): nat
  {
    if n > 0 then n - 1 else 0
  }

  /** The segment from reading i to reading i + 1. */
  function SegmentLine(data: seq<int>, i: int): Command
    requires 0 <= i < |data| - 1
  {
    Line(SegmentColour(data[i], data[i + 1]),
         PointX(i), PointY(data[i]), PointX(i + 1), PointY(data[i + 1]))
  }

  /** The lines the plot draws, in order. */
  function PlotLines(data: seq<int>): seq<Command>
    decreases |data|
  {
    if |data| <= 1 then []
    else PlotLines(data[..|data| - 1]) + [SegmentLine(data, |data| - 2)]
  }

  lemma {:induction false} PlotLinesLength(data: seq<int>)
    ensures |PlotLines(data)| == SegmentCount(|data|)
    decreases |data|
  {
    if |data| > 1 {
      PlotLinesLength(data[..|data| - 1]);
    }
  }

  /** The i-th line drawn is the segment from reading i to reading i + 1. */
  lemma {:induction false} PlotLinesAt(data: seq<int>, i: int)
    requires 0 <= i < |data| - 1
    ensures |PlotLines(data)| == |data| - 1
    ensures PlotLines(data)[i] == SegmentLine(data, i)
    decreases |data|
  {
    PlotLinesLength(data);
    var front := data[..|data| - 1];
    if i < |data| - 2 {
      PlotLinesAt(front, i);
      assert SegmentLine(front, i) == SegmentLine(data, i);
    }
  }

  /** Segment i runs from (26 + 35i, y of reading i) to (26 + 35(i+1), y of
      reading i + 1), left to right, in the colour of its two readings. */
  lemma SegmentGeometry(data: seq<int>, i: int)
    requires 0 <= i < |data| - 1
    ensures |PlotLines(data)| == |data| - 1
    ensures PlotLines(data)[i].Line?
    ensures PlotLines(data)[i].x1 == 26 + 35 * i
    ensures PlotLines(data)[i].x2 == 26 + 35 * (i + 1)
    ensures PlotLines(data)[i].x1 < PlotLines(data)[i].x2
    ensures PlotLines(data)[i].y1 == PointY(data[i])
    ensures PlotLines(data)[i].y2 == PointY(data[i + 1])
    ensures PlotLines(data)[i].colour == SegmentColour(data[i], data[i + 1])
  {
    PlotLinesAt(data, i);
  }

  /** Consecutive segments join up: each ends where the next one starts. */
  lemma SegmentsJoin(data: seq<int>, i: int)
    requires 0 <= i && i + 2 < |data|
    ensures |PlotLines(data)| == |data| - 1
    ensures PlotLines(data)[i].Line? && PlotLines(data)[i + 1].Line?
    ensures PlotLines(data)[i].x2 == PlotLines(data)[i + 1].x1
    ensures PlotLines(data)[i].y2 == PlotLines(data)[i + 1].y1
  {
    PlotLinesAt(data, i);
    PlotLinesAt(data, i + 1);
  }

  /** Extending the readings by one adds the segment that reaches it. */
  lemma PlotLinesExtend(data: seq<int>, k: int)
    requires 1 <= k < |data|
    ensures PlotLines(data[..k + 1]) == PlotLines(data[..k]) + [SegmentLine(data, k - 1)]
  {
    assert data[..k + 1][..k] == data[..k];
  }

  /** With the sketch's ten readings the plot has nine segments, spanning
      x = 26 to x = 341. */
  lemma SketchPlotExtent(data: seq<int>)
    requires |data| == NumPoints
    ensures |PlotLines(data)| == NumPoints - 1
    ensures PlotLines(data)[0].Line? && PlotLines(data)[0].x1 == 26
    ensures PlotLines(data)[NumPoints - 2].Line? && PlotLines(data)[NumPoints - 2].x2 == 341
  {
    PlotLinesAt(data, 0);
    PlotLinesAt(data, NumPoints - 2);
  }

  /* ---------------------------------------------------------------------- */
  /* The serial log                                                          */
  /* ---------------------------------------------------------------------- */

  /** The serial output for a run of readings: "data " and then the reading
      on its own line, for each reading in order. */
  function DataLog(s: seq<int>): seq<SerialOut>
    decreases |s|
  {
    if s == [] then [] else DataLog(s[..|s| - 1]) + [Str("data "), IntLn(s[|s| - 1])]
  }

  /** The numbers a reader of the serial output sees, in order. */
  function LoggedNumbers(out: seq<SerialOut>): seq<int>
    decreases |out|
  {
    if out == [] then []
    else
      var last := out[|out| - 1];
      LoggedNumbers(out[..|out| - 1]) + (if last.IntLn? then [last.n] else [])
  }

  /** Logging one more reading appends its two writes. */
  lemma DataLogExtend(s: seq<int>, k: int)
    requires 0 <= k < |s|
    ensures DataLog(s[..k + 1]) == DataLog(s[..k]) + [Str("data "), IntLn(s[k])]
  {
    assert s[..k + 1][..k] == s[..k];
  }

  /** Reading the log back yields exactly the readings that were logged. */
  lemma {:induction false} DataLogRoundTrip(s: seq<int>)
    ensures LoggedNumbers(DataLog(s)) == s
    decreases |s|
  {
    if s != [] {
      var front := s[..|s| - 1];
      DataLogRoundTrip(front);
      var log := DataLog(s);
      assert log[..|log| - 1] == DataLog(front) + [Str("data ")];
      assert (DataLog(front) + [Str("data ")])[..|log| - 2] == DataLog(front);
      assert s == front + [s[|s| - 1]];
    }
  }

  /* ---------------------------------------------------------------------- */
  /* Summary qualifier and box                                               */
  /* ---------------------------------------------------------------------- */

  /** "Normal" below Threshold + 5, "High" from there on. */
  function Qualifier(current: int): (q: string)
    ensures q == "Normal" || q == "High"
    ensures q == "Normal" <==> current < Threshold + 5
    ensures q == "High" <==> current >= Threshold + 5
  {
    if current < Threshold + 5 then "Normal" else "High"
  }

  /** The qualifier shown for a run of readings: that of its last reading. */
  function SummaryQualifier(data: seq<int>): (q: string)
    requires |data| > 0
    ensures q == "High" <==> data[|data| - 1] >= Threshold + 5
  {
    Qualifier(data[|data| - 1])
  }

  /** No reading but the last affects the qualifier. */
  lemma QualifierReadsOnlyLast(d: seq<int>, e: seq<int>)
    requires |d| > 0 && |e| > 0 && d[|d| - 1] == e[|e| - 1]
    ensures SummaryQualifier(d) == SummaryQualifier(e)
  {
  }

  /** The box colour: green when `strcmp(qualifier, "High")` is non-zero,
      red otherwise. */
  function BoxColour(qualifier: string): (c: Colour)
    requires IsCString(qualifier)
    ensures c == Red <==> qualifier == "High"
    ensures c == Green <==> qualifier != "High"
  {
    if StrCmp(qualifier, "High") != 0 then Green else Red
  }

  /** What the box shows, all in colour c: the value at (x + 60, y + 40), the
      unit at (x + 110, y + 40) and the qualifier at (x + 100, y + 80). */
  function BoxCommands(x: int, y: int, value: int, qualifier: string, c: Colour): seq<Command>
  {
    [Number(c, value, x + 60, y + 40),
     Text(c, "mg/dl", x + 110, y + 40),
     Text(c, qualifier, x + 100, y + 80)]
  }

  /** The summary box of a reading is red exactly when the reading is at
      least Threshold + 5. */
  lemma SummaryBoxColour(v: int)
    ensures IsCString(Qualifier(v))
    ensures BoxColour(Qualifier(v)) == Red <==> v >= Threshold + 5
    ensures BoxColour(Qualifier(v)) == Green <==> v < Threshold + 5
  {
  }

  /** The summary box and the plot's band rule call a flat reading "red" alike
      except at exactly Threshold + 5, where the box is red and the segment
      yellow. */
  lemma BoxAndBandDifferOnlyAtLimit(v: int)
    ensures IsCString(Qualifier(v))
    ensures (BoxColour(Qualifier(v)) == Red <==> SegmentColour(v, v) == Red) <==> v != Threshold + 5
    ensures v == Threshold + 5 ==> BoxColour(Qualifier(v)) == Red && SegmentColour(v, v) == Yellow
  {
    FlatSegmentColour(v);
    SummaryBoxColour(v);
  }

  /* ---------------------------------------------------------------------- */
  /* The scale                                                               */
  /* ---------------------------------------------------------------------- */

  /** The height of tick i. */
  function TickY(i: int): (y: int)
    ensures y == PointY(10 * i)
  {
    AxisBottom - i * 10
  }

  /** Tick i: a short horizontal line ending left of the axis, and its
      label 10i, four pixels above it, naming the reading drawn at that
      height. */
  function Tick(i: int): (t: seq<Command>)
    ensures |t| == 2 && t[0].Line? && t[1].Number?
    ensures t[0].y1 == t[0].y2 == TickY(i) && t[0].x1 < t[0].x2 < AxisX
    ensures t[0].x1 == 20 && t[0].x2 == 25 && t[1].x == 5
    ensures t[0].colour == White && t[1].colour == White
    ensures t[1].n == 10 * i && PointY(t[1].n) == t[0].y1 && t[1].y == t[0].y1 - 4
  {
    [Line(White, 20, TickY(i), 25, TickY(i)), Number(White, i * 10, 5, TickY(i) - 4)]
  }

  /** The first n ticks, in order: command k belongs to tick k / 2. */
  function Ticks(n: nat): seq<Command>
  {
    seq(2 * n, k requires 0 <= k < 2 * n => Tick(k / 2)[k % 2])
  }

  /** Everything the scale draws: the axis, then the ticks. */
  function ScaleCommands(): seq<Command>
  {
    [Line(White, AxisX, AxisBottom, AxisX, AxisTop)] + Ticks(TickCount)
  }

  /** Tick i occupies positions 2i and 2i + 1 of the first n ticks. */
  lemma TicksAt(n: nat, i: nat)
    requires i < n
    ensures |Ticks(n)| == 2 * n
    ensures Ticks(n)[2 * i..2 * i + 2] == Tick(i)
  {
    assert (2 * i) / 2 == i && (2 * i + 1) / 2 == i;
  }

  /** One more tick appends that tick's two commands. */
  lemma TicksExtend(n: nat)
    ensures Ticks(n + 1) == Ticks(n) + Tick(n)
  {
    TicksAt(n + 1, n);
    assert Ticks(n + 1)[..2 * n] == Ticks(n);
  }

  /** The scale is the axis followed by 21 ticks; tick i is the line from
      (20, 220 - 10i) to (25, 220 - 10i) and the label 10i at (5, 216 - 10i). */
  lemma ScaleLayout()
    ensures |ScaleCommands()| == 1 + 2 * TickCount
    ensures ScaleCommands()[0] == Line(White, 27, 220, 27, 20)
    ensures forall i :: 0 <= i < TickCount ==>
      ScaleCommands()[1 + 2 * i..3 + 2 * i] ==
        [Line(White, 20, 220 - 10 * i, 25, 220 - 10 * i), Number(White, 10 * i, 5, 216 - 10 * i)]
  {
    forall i | 0 <= i < TickCount
      ensures ScaleCommands()[1 + 2 * i..3 + 2 * i] ==
        [Line(White, 20, 220 - 10 * i, 25, 220 - 10 * i), Number(White, 10 * i, 5, 216 - 10 * i)]
    {
      TicksAt(TickCount, i);
      assert ScaleCommands()[1 + 2 * i..3 + 2 * i] == Ticks(TickCount)[2 * i..2 * i + 2];
    }
  }

  /** The ticks cover exactly the axis: the first at its bottom, the last at
      its top, every one within it and ending left of it; and the tick
      labelled L sits where the plot draws a reading of L. */
  lemma ScaleSpansAxis()
    ensures TickY(0) == AxisBottom && TickY(TickCount - 1) == AxisTop
    ensures forall i :: 0 <= i < TickCount ==> AxisTop <= TickY(i) <= AxisBottom
    ensures forall i :: 0 <= i < TickCount ==> TickY(i) == PointY(10 * i)
  {
  }

  /* ---------------------------------------------------------------------- */
  /* Integer width                                                           */
  /* ---------------------------------------------------------------------- */

  /** What `random(80, 150)` returns: 80 up to and excluding 150. */
  predicate InRandomRange(v: int)
  {
    80 <= v < 150
  }

  /** The range of a 16-bit `int`, the width of `int` on 8-bit AVR boards
      such as the Uno. */
  predicate FitsInt16(n: int)
  {
    -32768 <= n < 32768
  }

  /** For readings `random(80, 150)` can produce, every value the segment
      loop computes fits a 16-bit int (so unbounded arithmetic is faithful),
      the sum is non-negative (so truncation is plain halving), and every
      point lies on the axis's span. */
  lemma SegmentArithmeticFits(a: int, b: int, i: int)
    requires InRandomRange(a) && InRandomRange(b)
    requires 0 <= i < NumPoints - 1
    ensures a + b >= 0 && FitsInt16(a + b) && Average(a, b) == (a + b) / 2
    ensures FitsInt16(PointX(i)) && FitsInt16(PointX(i + 1))
    ensures FitsInt16(PointY(a)) && AxisTop <= PointY(a) <= AxisBottom
  {
  }

  /* ---------------------------------------------------------------------- */
  /* The sketch                                                              */
  /* ---------------------------------------------------------------------- */

  /** `drawScale`: the white axis and its 21 labelled ticks. */
  method DrawScale(lcd: Lcd)
    modifies lcd
    ensures lcd.colour == White
    ensures lcd.commands == old(lcd.commands) + ScaleCommands()
  {
    lcd.SetColor(255, 255, 255);
    lcd.DrawLine(27, 220, 27, 20);
    for i := 0 to 21
      invariant lcd.colour == White
      invariant lcd.commands == old(lcd.commands) + [Line(White, AxisX, AxisBottom, AxisX, AxisTop)] + Ticks(i)
    {
      ghost var before := lcd.commands;
      var y := 220 - i * 10;
      lcd.DrawLine(20, y, 25, y);
      lcd.PrintNumI(i * 10, 5, y - 4);
      assert lcd.commands == before + Tick(i);
      TicksExtend(i);
    }
  }

  /** `drawBox`: picks the colour from the qualifier, then shows the value,
      the unit and the qualifier. Width and height are unused. */
  method DrawBox(lcd: Lcd, x: int, y: int, width: int, height: int, value: int, qualifier: string)
    requires IsCString(qualifier)
    modifies lcd
    ensures lcd.colour == BoxColour(qualifier)
    ensures lcd.commands == old(lcd.commands) + BoxCommands(x, y, value, qualifier, BoxColour(qualifier))
  {
    if StrCmp(qualifier, "High") != 0 {
      lcd.SetColor(0, 255, 0);
    } else {
      lcd.SetColor(255, 0, 0);
    }
    lcd.PrintNumI(value, x + 60, y + 40);
    lcd.Print("mg/dl", x + 110, y + 40);
    lcd.Print(qualifier, x + 100, y + 80);
  }

  /** One turn of the segment loop of `loop`: the colour of segment i chosen
      from the average of its two readings, the segment drawn, and reading i
      written to the serial port. */
  method PlotSegment(lcd: Lcd, serial: SerialPort, data: array<int>, i: int)
    requires 0 <= i < data.Length - 1
    modifies lcd, serial
    ensures lcd.colour == SegmentColour(data[i], data[i + 1])
    ensures lcd.commands == old(lcd.commands) + [SegmentLine(data[..], i)]
    ensures serial.output == old(serial.output) + [Str("data "), IntLn(data[i])]
  {
    var xScale, yScale, threshold := XScale, YScale, Threshold;
    var x1 := 26 + i * xScale;
    var y1 := 120 - (data[i] - 100) * yScale;
    var x2 := 26 + (i + 1) * xScale;
    var y2 := 120 - (data[i + 1] - 100) * yScale;
    var avg := Average(data[i], data[i + 1]);
    if avg < threshold - 5 {
      lcd.SetColor(0, 255, 0);
    } else if avg <= threshold + 5 && threshold - 5 <= avg {
      lcd.SetColor(255, 255, 0);
    } else {
      lcd.SetColor(255, 0, 0);
    }
    lcd.DrawLine(x1, y1, x2, y2);
    serial.Print("data ");
    serial.PrintlnInt(data[i]);
  }

  /** The segment loop of `loop`: one coloured line per pair of neighbouring
      readings, and every reading but the last written to the serial port. */
  method PlotSegments(lcd: Lcd, serial: SerialPort, data: array<int>)
    requires data.Length == NumPoints
    modifies lcd, serial
    ensures lcd.colour == SegmentColour(data[NumPoints - 2], data[NumPoints - 1])
    ensures lcd.commands == old(lcd.commands) + PlotLines(data[..])
    ensures serial.output == old(serial.output) + DataLog(data[..NumPoints - 1])
  {
    ghost var readings := data[..];
    var numPoints := NumPoints;
    for i := 0 to numPoints - 1
      invariant i > 0 ==> lcd.colour == SegmentColour(readings[i - 1], readings[i])
      invariant lcd.commands == old(lcd.commands) + PlotLines(readings[..i + 1])
      invariant serial.output == old(serial.output) + DataLog(readings[..i])
    {
      PlotSegment(lcd, serial, data, i);
      PlotLinesExtend(readings, i + 1);
      DataLogExtend(readings, i);
    }
    assert readings[..NumPoints] == readings;
  }

  /** One pass of `loop`: the scale and the plot on a cleared screen, then
      the summary box for the last reading on a cleared screen, then a clear.
      The pauses between the screens are not modelled. */
  method Loop(lcd: Lcd, serial: SerialPort, data: array<int>)
    requires data.Length == NumPoints
    modifies lcd, serial
    ensures var q := SummaryQualifier(data[..]);
      && IsCString(q)
      && lcd.colour == BoxColour(q)
      && lcd.commands == old(lcd.commands) + [Clear] + ScaleCommands() + PlotLines(data[..])
                         + [Clear] + BoxCommands(40, 40, data[NumPoints - 1], q, BoxColour(q)) + [Clear]
    ensures serial.output == old(serial.output) + DataLog(data[..NumPoints - 1])
  {
    lcd.ClrScr();
    lcd.SetColor(255, 255, 255);
    DrawScale(lcd);
    PlotSegments(lcd, serial, data);
    lcd.ClrScr();
    lcd.SetColor(255, 255, 255);
    var currentValue := data[NumPoints - 1];
    var qualifier := Qualifier(currentValue);
    DrawBox(lcd, 40, 40, 240, 160, currentValue, qualifier);
    lcd.ClrScr();
  }
}
