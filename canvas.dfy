/**
 * The drawing vocabulary shared by the screen and the content providers:
 * layout options, colours, fonts, text and the shapes drawn into the image.
 * The image itself is represented by the ordered list of primitives drawn
 * into it; pixels, fonts and their metrics stay abstract.
 */
module Canvas {

  /** A concrete pixel value: a grey level or palette index, as the colour
      maps of the active display resolve it. */
  type Color = int

  /** The four margins in the order of the `MARGINS` option.  The code uses
      them by position: `MARGINS[0]` horizontally in the day box and
      `MARGINS[3]` vertically, whatever their intended names. */
  datatype Margins = Margins(m0: int, m1: int, m2: int, m3: int)

  /** The layout options of the screen (the `WIDTH`, `HEIGHT`, ... keys). */
  datatype Options = Options(
    width: int,          // WIDTH: screen width
    height: int,         // HEIGHT: screen height
    heightE: int,        // HEIGHT_E: height of one agenda entry
    heightS: int,        // HEIGHT_S: offset of the status line from the bottom
    margins: Margins,    // MARGINS
    title: string,       // TITLE
    titleColor: Color,   // TITLE_COLOR
    dayColor: Color,     // DAY_COLOR
    dayColorBg: Color,   // DAY_COLOR_BG
    textColor: Color,    // TEXT_COLOR
    textColorI: Color,   // TEXT_COLOR_I
    textColorBg: Color,  // TEXT_COLOR_BG
    lineColor: Color     // LINE_COLOR
  )

  /** The built-in defaults of the application class. */
  function DefaultOptions(): (o: Options)
    ensures ValidOptions(o)
    ensures o.height - o.heightS == 281
  {
    Options(400, 300, 40, 19, Margins(5, 5, 5, 5), "Daily Agenda",
            0, 255, 128, 0, 255, 192, 64)
  }

  /** What the arithmetic of the layout needs: entry rows have a height to
      divide by. */
  predicate ValidOptions(o: Options)
  {
    o.heightE > 0
  }

  /** The fonts the screen and the weather provider load. */
  datatype Font = TitleFont | DayFont | TimeFont | TextFont | DsegFont | BigFont

  /** A text extent as the font metrics report it. */
  datatype Size = Size(w: int, h: int)

  /** What a text primitive shows.  Strings are kept as they are; the
      formatted labels of the weather tiles (floating-point temperatures,
      `strftime` dates) are kept as the values they format. */
  datatype TextContent =
    | Literal(s: string)
    | TempLabel(temp: real)                  // "{0:3.1f}°"
    | HourLabel(dt: int)                     // "%H:%M" of a local time
    | DayLabel(dt: int)                      // "%a %d.%m." of a local time
    | MinMaxLabel(tmin: real, tmax: real)    // "{0:d}°/{1:d}°" of the rounded values
    | Glyph(c: char)                         // one character of the weather font

  /** The static placeholder images. */
  datatype Placeholder = NoConnect | NoEvents

  /** One drawing primitive, in image coordinates. */
  datatype Shape =
    | Line(x0: int, y0: int, x1: int, y1: int, color: Color)
    | Rect(rx0: int, ry0: int, rx1: int, ry1: int, fill: Color)
    | Text(tx: int, ty: int, content: TextContent, font: Font, tcolor: Color)
    | Image(placeholder: Placeholder)

  /** The extent of a text in a font (`textsize`), as the font metrics
      `measure` give it. */
  function TextSize(measure: (Font, TextContent) -> Size, f: Font, t: TextContent): Size
  {
    measure(f, t)
  }

  /** A horizontal rule across the whole width at height `y`. */
  function HLine(o: Options, y: int): Shape
  {
    Line(0, y, o.width, y, o.lineColor)
  }

  /** A vertical rule at `x` from `y` down to `y + h`. */
  function VLine(o: Options, x: int, y: int, h: int): Shape
  {
    Line(x, y, x, y + h, o.lineColor)
  }

  predicate IsHLineAt(s: Shape, y: int)
  {
    s.Line? && s.y0 == y && s.y1 == y
  }

  // --- the drawing log ---------------------------------------------------------

  /** Appending pieces to the log one after the other appends their
      concatenation. */
  lemma AppendThree<T>(d: seq<T>, a: seq<T>, b: seq<T>)
    ensures d + a + b == d + (a + b)
  {
  }

  /** The same for three pieces. */
  lemma AppendFour<T>(d: seq<T>, a: seq<T>, b: seq<T>, c: seq<T>)
    ensures d + a + b + c == d + (a + b + c)
  {
  }

  /** The same for five pieces. */
  lemma AppendSix<T>(d: seq<T>, a: seq<T>, b: seq<T>, c: seq<T>, e: seq<T>, f: seq<T>)
    ensures d + a + b + c + e + f == d + (a + b + c + e + f)
  {
  }
}
