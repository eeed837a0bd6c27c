/**
 * The screen compositor: the canvas, the shared vertical cursor `yOff`
 * and the static framing (title, day box, status line).  It is also the
 * drawing context the content providers receive, so it carries the
 * provider-facing attributes too: the status code `rc`, the colour maps,
 * the font metrics and the placeholder-image primitive.
 */
module DailyAgendaScreen {
  import opened Canvas
  import PyNum

  class DailyAgenda {
    const opts: Options
    /** Font metrics of the loaded fonts (`textsize`). */
    const measure: (Font, TextContent) -> Size
    /** Configured colour name to pixel value (`_cmap`). */
    const cmap: map<string, Color>
    /** Fill colour to legible text colour (`_bg_map`). */
    const bgMap: map<Color, Color>
    /** The image is WIDTH x HEIGHT, filled with 255. */
    const imageWidth: int
    const imageHeight: int
    const imageFill: Color

    /** The vertical cursor: top of the free canvas area. */
    var yOff: int
    /** Status code; non-zero after a failed fetch. */
    var rc: int
    /** Everything drawn into the image so far, in drawing order. */
    var drawing: seq<Shape>

    constructor (opts: Options, measure: (Font, TextContent) -> Size,
                 cmap: map<string, Color>, bgMap: map<Color, Color>)
      ensures this.opts == opts && this.measure == measure
      ensures this.cmap == cmap && this.bgMap == bgMap
      ensures imageWidth == opts.width && imageHeight == opts.height && imageFill == 255
      ensures yOff == 0 && rc == 0 && drawing == []
    {
      this.opts := opts;
      this.measure := measure;
      this.cmap := cmap;
      this.bgMap := bgMap;
      imageWidth := opts.width;
      imageHeight := opts.height;
      imageFill := 255;
      yOff := 0;
      rc := 0;
      drawing := [];
    }

    /** A horizontal rule across the full width at `y`; the cursor stays. */
    method DrawHLine(y: int)
      modifies this`drawing
      ensures drawing == old(drawing) + [HLine(opts, y)]
      ensures IsHLineAt(drawing[|drawing| - 1], y)
      ensures drawing[|drawing| - 1].x0 == 0 && drawing[|drawing| - 1].x1 == opts.width
    {
      drawing := drawing + [Line(0, y, opts.width, y, opts.lineColor)];
    }

    /** The title text at (20, 20). */
    method DrawTitle()
      modifies this`drawing
      ensures drawing == old(drawing) + [Text(20, 20, Literal(opts.title), TitleFont, opts.titleColor)]
    {
      drawing := drawing + [Text(20, 20, Literal(opts.title), TitleFont, opts.titleColor)];
    }

    /** The height of the day box for a day label of the given size. */
    function DayBoxBottom(daySize: Size): int
    {
      daySize.h + 2 * opts.margins.m3 + 1
    }

    /** The shapes of the day box in the upper right corner. */
    function DayBoxShapes(day: string): (r: seq<Shape>)
      ensures |r| == 3
      ensures r[0].Rect? && r[0].ry0 == 0 && r[0].ry1 == DayBoxBottom(measure(DayFont, Literal(day)))
      ensures r[0].rx0 == opts.width - measure(DayFont, Literal(day)).w - 2 * opts.margins.m0
      ensures r[0].rx1 == opts.width + 1
      ensures IsHLineAt(r[2], DayBoxBottom(measure(DayFont, Literal(day))))
    {
      var size := measure(DayFont, Literal(day));
      var left := opts.width - size.w - opts.margins.m0;
      var bottom := DayBoxBottom(size);
      [Rect(left - opts.margins.m0, 0, opts.width + 1, bottom, opts.dayColorBg),
       Text(left, 0, Literal(day), DayFont, opts.dayColor),
       HLine(opts, bottom)]
    }

    /** The box with the current day of the month; it sets the cursor two
        pixels below the box's rule.  `dayOfMonth` is today's date. */
    method DrawDay(dayOfMonth: int)
      modifies this`drawing, this`yOff
      ensures drawing == old(drawing) + DayBoxShapes(PyNum.PyStr(dayOfMonth))
      ensures yOff == measure(DayFont, Literal(PyNum.PyStr(dayOfMonth))).h + 2 * opts.margins.m3 + 1 + 2
    {
      var day := PyNum.PyStr(dayOfMonth);
      var daySize := measure(DayFont, Literal(day));
      var topLeftX := opts.width - daySize.w - opts.margins.m0;
      var dayBoxY := daySize.h + 2 * opts.margins.m3 + 1;
      drawing := drawing + [Rect(topLeftX - opts.margins.m0, 0, opts.width + 1, dayBoxY, opts.dayColorBg)];
      drawing := drawing + [Text(topLeftX, 0, Literal(day), DayFont, opts.dayColor)];
      DrawHLine(dayBoxY);
      yOff := dayBoxY + 2;
    }

    /** The shapes of one demo agenda row drawn with its top at `y`. */
    function EntryShapes(y: int, eTime: string, eText: (string, string), shade: bool): (r: seq<Shape>)
      // every text is drawn in TEXT_COLOR: the inverted colour chosen for
      // shaded rows is never used
      ensures forall k :: 0 <= k < |r| && r[k].Text? ==> r[k].tcolor == opts.textColor
      // a background exactly when shaded, spanning y + 1 .. y + HEIGHT_E + 1
      ensures shade <==> (exists k :: 0 <= k < |r| && r[k].Rect?)
      ensures shade ==> r[0] == Rect(0, y + 1, opts.width, y + opts.heightE + 1, opts.textColorBg)
      // the row ends with a full-width rule at the advanced cursor
      ensures |r| >= 1 && r[|r| - 1] == HLine(opts, y + opts.heightE + 2)
    {
      var timeSize := measure(TimeFont, Literal(eTime));
      var txtX := opts.margins.m2 + timeSize.w + 4;
      var textSize := measure(TextFont, Literal(eText.0));
      var r := (if shade then [Rect(0, y + 1, opts.width, y + opts.heightE + 1, opts.textColorBg)] else [])
        + [Text(opts.margins.m2, y, Literal(eTime), TimeFont, opts.textColor),
           Text(txtX, y + 2, Literal(eText.0), TextFont, opts.textColor),
           Text(txtX, y + 2 + textSize.h, Literal(eText.1), TextFont, opts.textColor),
           HLine(opts, y + opts.heightE + 2)];
      assert shade ==> r[0].Rect?;
      r
    }

    /** A demo agenda row: optional shaded background, the time, two text
        lines, and a rule; the cursor advances by `HEIGHT_E + 2`. */
    method DrawEntry(eTime: string, eText: (string, string), shade: bool)
      modifies this`drawing, this`yOff
      ensures yOff == old(yOff) + opts.heightE + 2
      ensures drawing == old(drawing) + EntryShapes(old(yOff), eTime, eText, shade)
    {
      var textColor := opts.textColor;
      if shade {
        drawing := drawing + [Rect(0, yOff + 1, opts.width, yOff + opts.heightE + 1, opts.textColorBg)];
        textColor := opts.textColorI;
      }
      var timeSize := measure(TimeFont, Literal(eTime));
      drawing := drawing + [Text(opts.margins.m2, yOff, Literal(eTime), TimeFont, opts.textColor)];
      var txtX := opts.margins.m2 + timeSize.w + 4;
      var txtY := yOff + 2;
      var textSize := measure(TextFont, Literal(eText.0));
      drawing := drawing + [Text(txtX, txtY, Literal(eText.0), TextFont, opts.textColor)];
      txtY := txtY + textSize.h;
      drawing := drawing + [Text(txtX, txtY, Literal(eText.1), TextFont, opts.textColor)];
      yOff := yOff + opts.heightE + 2;
      DrawHLine(yOff);
    }

    /** The status rule and the "Updated: ..." text; `stamp` is the formatted
        current time.  The cursor is not moved. */
    method DrawStatus(stamp: string)
      modifies this`drawing
      ensures yOff == old(yOff)
      ensures drawing == old(drawing)
                         + [HLine(opts, opts.height - opts.heightS),
                            Text(opts.margins.m2, opts.height - opts.heightS + 2,
                                 Literal("Updated: " + stamp), TextFont, opts.textColor)]
    {
      var statusY := opts.height - opts.heightS;
      DrawHLine(statusY);
      drawing := drawing + [Text(opts.margins.m2, statusY + 2, Literal("Updated: " + stamp), TextFont, opts.textColor)];
    }

    /** Pastes a placeholder image; the cursor is not moved. */
    method DrawImage(p: Placeholder)
      modifies this`drawing
      ensures drawing == old(drawing) + [Image(p)]
    {
      drawing := drawing + [Image(p)];
    }
  }
}
