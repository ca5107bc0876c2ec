/** Stand-ins for the two devices the sketch drives: the LCD behind the
    UTFTGLUE library and the serial port. Neither library's source is part of
    this model, so each device is a recorder: it keeps the state the sketch
    changes (the LCD's current drawing colour) and the sequence of outputs it
    was asked to produce. Fonts are not recorded. */
module Devices {

  /** A colour as passed to `setColor(r, g, b)`. */
  datatype Colour = Rgb(r: int, g: int, b: int)

  const White := Rgb(255, 255, 255)
  const Green := Rgb(0, 255, 0)
  const Yellow := Rgb(255, 255, 0)
  const Red := Rgb(255, 0, 0)

  /** One drawing request sent to the LCD. Every drawing request carries the
      colour that was current when it was issued. */
  datatype Command =
    | Clear
    | Line(colour: Colour, x1: int, y1: int, x2: int, y2: int)
    | Number(colour: Colour, n: int, x: int, y: int)
    | Text(colour: Colour, s: string, x: int, y: int)

  /** The LCD: a current colour that `SetColor` replaces, and the commands
      drawn so far. */
  class Lcd {
    var colour: Colour
    var commands: seq<Command>

    constructor (initial: Colour)
      ensures colour == initial && commands == []
    {
      colour := initial;
      commands := [];
    }

    method ClrScr()
      modifies this
      ensures colour == old(colour)
      ensures commands == old(commands) + [Clear]
    {
      commands := commands + [Clear];
    }

    method SetColor(r: int, g: int, b: int)
      modifies this
      ensures colour == Rgb(r, g, b)
      ensures commands == old(commands)
    {
      colour := Rgb(r, g, b);
    }

    method DrawLine(x1: int, y1: int, x2: int, y2: int)
      modifies this
      ensures colour == old(colour)
      ensures commands == old(commands) + [Line(colour, x1, y1, x2, y2)]
    {
      commands := commands + [Line(colour, x1, y1, x2, y2)];
    }

    method PrintNumI(n: int, x: int, y: int)
      modifies this
      ensures colour == old(colour)
      ensures commands == old(commands) + [Number(colour, n, x, y)]
    {
      commands := commands + [Number(colour, n, x, y)];
    }

    method Print(s: string, x: int, y: int)
      modifies this
      ensures colour == old(colour)
      ensures commands == old(commands) + [Text(colour, s, x, y)]
    {
      commands := commands + [Text(colour, s, x, y)];
    }
  }

  /** One write to the serial port: `print` of a string, or `println` of an
      integer (its decimal digits followed by a line break). */
  datatype SerialOut = Str(s: string) | IntLn(n: int)

  class SerialPort {
    var output: seq<SerialOut>

    constructor ()
      ensures output == []
    {
      output := [];
    }

    method Print(s: string)
      modifies this
      ensures output == old(output) + [Str(s)]
    {
      output := output + [Str(s)];
    }

    method PrintlnInt(n: int)
      modifies this
      ensures output == old(output) + [IntLn(n)]
    {
      output := output + [IntLn(n)];
    }
  }
}
