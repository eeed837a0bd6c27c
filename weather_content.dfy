/**
 * The weather content provider: two rows of four tiles below the cursor,
 * the first with the current temperature and three hours of the day, the
 * second with the next four days, and the mapping from weather condition
 * codes to glyphs of the weather font.
 */
module WeatherContent {
  import opened PyNum
  import opened Optional
  import opened Canvas
  import opened DailyAgendaScreen
  import opened OWM

  // --- condition code to glyph -----------------------------------------------

  /** Exact condition codes (keys are the codes as strings). */
  const IdMap1: map<string, char> := map[
    "201" := '6', "202" := '7', "502" := '4', "503" := '4', "504" := '4', "522" := '4',
    "800" := '1', "801" := '9', "802" := '9', "803" := '9', "804" := '2']

  /** Condition categories by the first character of the code. */
  const IdMap2: map<string, char> := map["2" := '8', "3" := '3', "5" := '3', "6" := '5']

  /** The glyph of a condition code as the source computes it: the exact
      table first, then the first character of `str(id)`.  The default
      glyph ':' sits in the unreachable part of the last branch, so every
      other code (701, 900, 0, negative codes) has no glyph. */
  function MapId(id: int): Option<char>
  {
    var code := PyStr(id);
    if code in IdMap1 then Some(IdMap1[code])
    else if [code[0]] in IdMap2 then Some(IdMap2[[code[0]]])
    else None
  }

  /** The category table keyed by the leading decimal digit. */
  const CategoryGlyphs: map<nat, char> := map[2 := '8', 3 := '3', 5 := '3', 6 := '5']

  /** Reference definition by the value of the code: an exact code wins;
      otherwise a positive code maps through the category of its leading
      digit, and zero and negative codes have no glyph. */
  function GlyphByValue(id: int): Option<char>
  {
    if PyStr(id) in IdMap1 then Some(IdMap1[PyStr(id)])
    else if id > 0 && LeadingDigit(id) in CategoryGlyphs then Some(CategoryGlyphs[LeadingDigit(id)])
    else None
  }

  lemma CategoryTableAgrees(id: int)
    ensures [PyStr(id)[0]] in IdMap2 <==> id > 0 && LeadingDigit(id) in CategoryGlyphs
    ensures [PyStr(id)[0]] in IdMap2 ==> IdMap2[[PyStr(id)[0]]] == CategoryGlyphs[LeadingDigit(id)]
  {
    if id >= 0 {
      DecimalStringHead(id);
      var d := LeadingDigit(id);
      assert PyStr(id)[0] == Digit(d);
      assert id == 0 ==> d == 0;
    }
  }

  /** The string-keyed lookup agrees with the integer reference definition
      for every code. */
  lemma MapIdMatchesValue(id: int)
    ensures MapId(id) == GlyphByValue(id)
  {
    CategoryTableAgrees(id);
  }

  /** Exactly the codes in the exact table or with leading digit 2, 3, 5 or
      6 have a glyph: the mapping is partial. */
  lemma MapIdDefinedExactly(id: int)
    ensures MapId(id).Some? <==> PyStr(id) in IdMap1 || (id > 0 && LeadingDigit(id) in {2, 3, 5, 6})
  {
    MapIdMatchesValue(id);
  }

  /** Sample codes: the exact table beats the category (201 is '6', not the
      thunder category '8') and 800 is '1'. */
  lemma MapIdExactExamples()
    ensures MapId(201) == Some('6') && MapId(800) == Some('1')
  {
    DecimalStringThree(201);
    DecimalStringThree(800);
  }

  /** Sample codes: 210 falls back to the thunder category and 615 to snow. */
  lemma MapIdCategoryExamples()
    ensures MapId(210) == Some('8') && MapId(615) == Some('5')
  {
    DecimalStringThree(210);
    DecimalStringThree(615);
  }

  /** Sample codes without a glyph: 701 (mist) and 900. */
  lemma MapIdUnmappedExamples()
    ensures MapId(701) == None && MapId(900) == None
  {
    DecimalStringThree(701);
    DecimalStringThree(900);
  }

  /** The evidently intended lookup: as MapId, with ':' ("nothing") for
      every code the tables do not cover. */
  function MapIdTotal(id: int): (c: char)
    ensures MapId(id).Some? ==> c == MapId(id).value
    ensures MapId(id).None? ==> c == ':'
  {
    MapIdMatchesValue(id);
    MapId(id).GetOr(':')
  }

  // --- hour selection ----------------------------------------------------------

  /** The three hours of the hourly row. */
  datatype HourPick = HourPick(hMin: int, hMid: int, hMax: int)

  /** Picks three hours from the current hour of the day. */
  function SelectHours(hNow: int): (p: HourPick)
    requires 0 <= hNow < 24
    ensures p.hMin <= p.hMid <= p.hMax <= 23
    ensures hNow < 18 ==> 8 <= p.hMin && p.hMax <= 21
    ensures hNow <= 21 ==> hNow <= p.hMin
    ensures 2 * p.hMid == p.hMin + p.hMax || 2 * p.hMid + 1 == p.hMin + p.hMax
  {
    if hNow < 18 then
      var hMin := if hNow > 8 then hNow else 8;
      var hMax := if hMin + 12 < 21 then hMin + 12 else 21;
      HourPick(hMin, TruncDiv(hMin + hMax, 2), hMax)
    else if hNow < 21 then
      var hMin := if hNow > 8 then hNow else 8;
      var hMax := if hMin + 12 < 23 then hMin + 12 else 23;
      HourPick(hMin, TruncDiv(hMin + hMax, 2), hMax)
    else
      HourPick(21, 22, 23)
  }

  /** The offsets into the hourly list, relative to the current hour. */
  function HourOffsets(hNow: int): (r: seq<int>)
    requires 0 <= hNow < 24
    ensures |r| == 3
    ensures forall k :: 0 <= k < 3 ==> -2 <= r[k] <= 20
    ensures hNow <= 21 <==> (forall k :: 0 <= k < 3 ==> 0 <= r[k])
  {
    var p := SelectHours(hNow);
    var r := [p.hMin - hNow, p.hMid - hNow, p.hMax - hNow];
    assert hNow > 21 ==> r[0] < 0;
    r
  }

  /** The policy case by case: before 18:00 the row starts at the current
      hour but not before 08:00 and ends twelve hours later but not after
      21:00; from 18:00 it ends at 23:00; from 21:00 it is 21, 22, 23, so at
      22:00 and 23:00 the first offsets are negative and, as Python indices,
      select samples from the end of the hourly list. */
  lemma HourPolicy(hNow: int, hours: seq<Values>)
    requires 0 <= hNow < 24 && |hours| >= 21
    ensures hNow < 8 ==> SelectHours(hNow) == HourPick(8, 14, 20)
    ensures 8 <= hNow < 18 ==> var m := if hNow + 12 < 21 then hNow + 12 else 21;
                                 SelectHours(hNow) == HourPick(hNow, (hNow + m) / 2, m)
    ensures 18 <= hNow < 21 ==> SelectHours(hNow) == HourPick(hNow, (hNow + 23) / 2, 23)
    ensures hNow >= 21 ==> SelectHours(hNow) == HourPick(21, 22, 23)
    ensures hNow == 22 ==> PyIndex(hours, HourOffsets(hNow)[0]) == hours[|hours| - 1]
    ensures hNow == 23 ==> (PyIndex(hours, HourOffsets(hNow)[0]) == hours[|hours| - 2]
                            && PyIndex(hours, HourOffsets(hNow)[1]) == hours[|hours| - 1])
  {
  }

  /** The local hour of a local time in minutes. */
  function HourOf(dt: int): (h: int)
    ensures 0 <= h < 24
  {
    (dt % 1440) / 60
  }

  // --- tile geometry -------------------------------------------------------------

  /** The provider-specific settings. */
  datatype WeatherSettings = WeatherSettings(
    latitude: real, longitude: real, apiKey: string, bigColor: Color, dsegColor: Color)

  /** The tile size below a cursor at `yOff`: a quarter of the width and
      half of the height left above the status line, both truncated. */
  function TileSize(o: Options, yOff: int): (s: Size)
    ensures 0 <= o.width ==> 0 <= o.width - 4 * s.w < 4
    ensures o.width < 0 ==> 0 <= 4 * s.w - o.width < 4
    ensures yOff <= o.height - o.heightS ==> 0 <= s.h && 0 <= (o.height - o.heightS - yOff) - 2 * s.h <= 1
    ensures yOff > o.height - o.heightS ==> s.h <= 0 && 0 <= 2 * s.h - (o.height - o.heightS - yOff) <= 1
  {
    Size(TruncDiv(o.width, 4), TruncDiv(o.height - yOff - o.heightS, 2))
  }

  /** Offset that centres an extent `inner` in an extent `outer`. */
  function Centre(outer: int, inner: int): int
  {
    TruncDiv(outer - inner, 2)
  }

  /** What the drawing of the weather block depends on besides the data:
      the screen's options and font metrics, the glyph lookup and the
      provider's colours. */
  datatype TileStyle = TileStyle(
    opts: Options, measure: (Font, TextContent) -> Size, glyph: int -> char, settings: WeatherSettings)

  /** Which kind of tile a row holds. */
  datatype TileKind = HourTile | DayTile

  /** One text of a tile: what it shows, in which font and colour. */
  datatype TileText = TileText(content: TextContent, font: Font, color: Color)

  /** Texts stacked from `y` down, each centred in the column `x .. x + w`
      and placed one pixel below the previous one. */
  function CentredStack(measure: (Font, TextContent) -> Size, items: seq<TileText>,
                        x: int, y: int, w: int): (r: seq<Shape>)
    ensures |r| == |items|
    decreases |items|
  {
    if items == [] then []
    else
      var extent := measure(items[0].font, items[0].content);
      [Text(x + Centre(w, extent.w), y, items[0].content, items[0].font, items[0].color)]
      + CentredStack(measure, items[1..], x, y + extent.h + 1, w)
  }

  /** The texts of a tile: the hour or day label, the temperature (or the
      rounded minimum and maximum) and the condition glyph. */
  function TileTexts(style: TileStyle, kind: TileKind, v: Values): seq<TileText>
  {
    var caption := if kind == HourTile then HourLabel(v.dt) else DayLabel(v.dt);
    var temp := if kind == HourTile then TempLabel(v.temp) else MinMaxLabel(v.tmin, v.tmax);
    [TileText(caption, TextFont, style.opts.textColor),
     TileText(temp, TextFont, style.opts.textColor),
     TileText(Glyph(style.glyph(v.id)), DsegFont, style.settings.dsegColor)]
  }

  /** The three texts of a tile with its left edge at `x`. */
  function TileShapes(style: TileStyle, kind: TileKind, v: Values, x: int, y: int, size: Size): (r: seq<Shape>)
    ensures |r| == 3
  {
    CentredStack(style.measure, TileTexts(style, kind, v), x, y, size.w)
  }

  /** A tile's geometry: the label at the top, the temperature one pixel
      below the label, the glyph one pixel below the temperature, each
      centred in the tile. */
  lemma TileLayout(style: TileStyle, kind: TileKind, v: Values, x: int, y: int, size: Size)
    ensures var r := TileShapes(style, kind, v, x, y, size);
      var t := TileTexts(style, kind, v);
      var e0 := style.measure(TextFont, t[0].content);
      var e1 := style.measure(TextFont, t[1].content);
      var e2 := style.measure(DsegFont, t[2].content);
      && r[0] == Text(x + Centre(size.w, e0.w), y, t[0].content, TextFont, style.opts.textColor)
      && r[1] == Text(x + Centre(size.w, e1.w), y + e0.h + 1, t[1].content, TextFont, style.opts.textColor)
      && r[2] == Text(x + Centre(size.w, e2.w), y + e0.h + 1 + e1.h + 1, Glyph(style.glyph(v.id)), DsegFont,
                      style.settings.dsegColor)
  {
    var t := TileTexts(style, kind, v);
    var m := style.measure;
    var w := size.w;
    var e0 := m(TextFont, t[0].content);
    var e1 := m(TextFont, t[1].content);
    var e2 := m(DsegFont, t[2].content);
    var t1, t2 := t[1..], t[1..][1..];
    assert t1[0] == t[1] && t2 == [t[2]] && t2[1..] == [];
    var s1 := CentredStack(m, t1, x, y + e0.h + 1, w);
    var s2 := CentredStack(m, t2, x, y + e0.h + 1 + e1.h + 1, w);
    assert CentredStack(m, t, x, y, w) == [Text(x + Centre(w, e0.w), y, t[0].content, TextFont, t[0].color)] + s1;
    assert s1 == [Text(x + Centre(w, e1.w), y + e0.h + 1, t[1].content, TextFont, t[1].color)] + s2;
    assert s2 == [Text(x + Centre(w, e2.w), y + e0.h + 1 + e1.h + 1, t[2].content, DsegFont, t[2].color)]
               + CentredStack(m, t2[1..], x, y + e0.h + 1 + e1.h + 1 + e2.h + 1, w);
  }

  /** The left edge of column `k` of a row starting at `x`: `k` steps of
      the tile width to the right. */
  function ColumnX(x: int, w: int, k: nat): int
  {
    if k == 0 then x else ColumnX(x, w, k - 1) + w
  }

  /** Column `k` starts at `x + k * w`. */
  lemma {:induction false} ColumnXIsProduct(x: int, w: int, k: nat)
    ensures ColumnX(x, w, k) == x + k * w
  {
    if k > 0 {
      ColumnXIsProduct(x, w, k - 1);
      assert k * w == (k - 1) * w + w;
    }
  }

  /** One tile with its left edge at `x` followed by its vertical rule at
      the tile's right edge. */
  function TileUnit(style: TileStyle, kind: TileKind, v: Values, x: int, y: int, size: Size): seq<Shape>
  {
    TileShapes(style, kind, v, x, y, size) + [VLine(style.opts, x + size.w, y, size.h)]
  }

  /** The first `n` tiles of a row whose first tile has its left edge at
      `x`, each tile followed by its vertical rule at the tile's right edge. */
  function TileRow(style: TileStyle, kind: TileKind, samples: seq<Values>, n: nat,
                   x: int, y: int, size: Size): (r: seq<Shape>)
    requires n <= |samples|
    ensures |r| == 4 * n
    decreases n
  {
    if n == 0 then []
    else
      TileRow(style, kind, samples, n - 1, x, y, size)
      + TileUnit(style, kind, samples[n - 1], ColumnX(x, size.w, n - 1), y, size)
  }

  /** The rule after tile `k` (counting from 1) is the last of the tile's
      four shapes: it sits at the tile's right edge and spans the row. */
  lemma {:induction false} TileRowRule(style: TileStyle, kind: TileKind, samples: seq<Values>, n: nat,
                                       x: int, y: int, size: Size, k: int)
    requires 1 <= k <= n <= |samples|
    ensures TileRow(style, kind, samples, n, x, y, size)[4 * k - 1] == VLine(style.opts, ColumnX(x, size.w, k), y, size.h)
    decreases n
  {
    var front := TileRow(style, kind, samples, n - 1, x, y, size);
    var unit := TileUnit(style, kind, samples[n - 1], ColumnX(x, size.w, n - 1), y, size);
    assert TileRow(style, kind, samples, n, x, y, size) == front + unit;
    if k < n {
      TileRowRule(style, kind, samples, n - 1, x, y, size, k);
    }
  }

  /** The samples the hourly row shows. */
  function HourSamples(hours: seq<Values>, hNow: int): (r: seq<Values>)
    requires 0 <= hNow < 24 && |hours| >= 21
    ensures |r| == 3
  {
    var off := HourOffsets(hNow);
    [PyIndex(hours, off[0]), PyIndex(hours, off[1]), PyIndex(hours, off[2])]
  }

  /** The current temperature, centred in the first tile, and its rule. */
  function CurrentShapes(style: TileStyle, cur: Values, y0: int, size: Size): seq<Shape>
  {
    var bigText := TempLabel(cur.temp);
    var bigSize := style.measure(BigFont, bigText);
    [Text(Centre(size.w, bigSize.w), y0 + Centre(size.h, bigSize.h), bigText, BigFont, style.settings.bigColor),
     VLine(style.opts, size.w, y0, size.h)]
  }

  /** Everything a successful weather block draws below a cursor at `y0`:
      the current temperature, its rule, the three hour tiles, the rule
      under the first row, and the four day tiles. */
  function WeatherShapes(style: TileStyle, cur: Values, hourTiles: seq<Values>, dayTiles: seq<Values>,
                         y0: int, size: Size): seq<Shape>
    requires |hourTiles| == 3 && |dayTiles| == 4
  {
    CurrentShapes(style, cur, y0, size) + RowShapes(style, hourTiles, dayTiles, y0, size)
  }

  /** The two tile rows with the rule between them. */
  function RowShapes(style: TileStyle, hourTiles: seq<Values>, dayTiles: seq<Values>, y0: int, size: Size): seq<Shape>
  {
    TileRow(style, HourTile, hourTiles, |hourTiles|, size.w, y0, size)
    + [HLine(style.opts, y0 + size.h)]
    + TileRow(style, DayTile, dayTiles, |dayTiles|, 0, y0 + size.h, size)
  }

  /** The fetch, the current sample and every forecast sample succeeded. */
  predicate FetchSucceeds(response: Option<Forecast>)
  {
    response.Some? && ParseData(response.value.current).Some?
    && AllParse(response.value.hourly) && AllParse(response.value.daily)
  }

  class WeatherContentProvider {
    const screen: DailyAgenda
    const settings: WeatherSettings
    /** The condition-code lookup the tiles use (`_map_id`). */
    const glyph: int -> char
    /** The tile size (`_size`), set by CalcTileSizes. */
    var size: Size

    constructor (screen: DailyAgenda, settings: WeatherSettings)
      ensures this.screen == screen && this.settings == settings && glyph == MapIdTotal
    {
      this.screen := screen;
      this.settings := settings;
      glyph := MapIdTotal;
      size := Size(0, 0);
    }

    /** The drawing parameters of this provider. */
    function Style(): TileStyle
    {
      TileStyle(screen.opts, screen.measure, glyph, settings)
    }

    /** Sets the tile size from the cursor's current position. */
    method CalcTileSizes()
      modifies this`size
      ensures size == TileSize(screen.opts, screen.yOff)
    {
      var height := TruncDiv(screen.opts.height - screen.yOff - screen.opts.heightS, 2);
      var width4 := TruncDiv(screen.opts.width, 4);
      size := Size(width4, height);
    }

    /** Draws one tile with its left edge at `x` and the rule at its right
        edge. */
    method DrawTile(kind: TileKind, v: Values, x: int, y: int)
      modifies screen`drawing
      ensures screen.drawing == old(screen.drawing) + TileUnit(Style(), kind, v, x, y, size)
    {
      screen.drawing := screen.drawing + TileShapes(Style(), kind, v, x, y, size);
      screen.drawing := screen.drawing + [VLine(screen.opts, x + size.w, y, size.h)];
    }

    /** Draws tile `i` of a row on top of the tiles before it. */
    method DrawNextTile(kind: TileKind, samples: seq<Values>, i: nat, xOff: int, x: int, y: int,
                        ghost d0: seq<Shape>)
      requires i < |samples| && xOff == ColumnX(x, size.w, i)
      requires screen.drawing == d0 + TileRow(Style(), kind, samples, i, x, y, size)
      modifies screen`drawing
      ensures screen.drawing == d0 + TileRow(Style(), kind, samples, i + 1, x, y, size)
    {
      DrawTile(kind, samples[i], xOff, y);
      AppendThree(d0, TileRow(Style(), kind, samples, i, x, y, size), TileUnit(Style(), kind, samples[i], xOff, y, size));
    }

    /** Draws one row of tiles, the first with its left edge at `x`. */
    method DrawRow(kind: TileKind, samples: seq<Values>, x: int, y: int)
      modifies screen`drawing
      ensures screen.drawing == old(screen.drawing) + TileRow(Style(), kind, samples, |samples|, x, y, size)
    {
      ghost var d0 := screen.drawing;
      var xOff := x;
      var i := 0;
      while i < |samples|
        invariant 0 <= i <= |samples|
        invariant xOff == ColumnX(x, size.w, i)
        invariant screen.drawing == d0 + TileRow(Style(), kind, samples, i, x, y, size)
      {
        DrawNextTile(kind, samples, i, xOff, x, y, d0);
        xOff := xOff + size.w;
        i := i + 1;
      }
    }

    /** Draws the current temperature and its rule at the cursor. */
    method DrawCurrent(cur: Values)
      modifies screen`drawing
      ensures screen.drawing == old(screen.drawing) + CurrentShapes(Style(), cur, screen.yOff, size)
    {
      var height := size.h;
      var xOff := 0;
      var yOff := screen.yOff;
      var bigText := TempLabel(cur.temp);
      var bigSize := screen.measure(BigFont, bigText);
      screen.drawing := screen.drawing + [Text(xOff + Centre(size.w, bigSize.w), yOff + Centre(size.h, bigSize.h),
                                               bigText, BigFont, settings.bigColor)];
      xOff := xOff + size.w;
      screen.drawing := screen.drawing + [VLine(screen.opts, xOff, yOff, height)];
    }

    /** Draws the hourly row at the cursor, moves the cursor down by the
        tile height and draws the rule there. */
    method DrawHourRow(hourTiles: seq<Values>)
      modifies screen`drawing, screen`yOff
      ensures screen.yOff == old(screen.yOff) + size.h
      ensures screen.drawing == old(screen.drawing)
                + TileRow(Style(), HourTile, hourTiles, |hourTiles|, size.w, old(screen.yOff), size)
                + [HLine(screen.opts, screen.yOff)]
    {
      DrawRow(HourTile, hourTiles, size.w, screen.yOff);
      screen.yOff := screen.yOff + size.h;
      screen.DrawHLine(screen.yOff);
    }

    /** Draws the daily row at the cursor and moves the cursor down by the
        tile height. */
    method DrawDayRow(dayTiles: seq<Values>)
      modifies screen`drawing, screen`yOff
      ensures screen.yOff == old(screen.yOff) + size.h
      ensures screen.drawing == old(screen.drawing)
                + TileRow(Style(), DayTile, dayTiles, |dayTiles|, 0, old(screen.yOff), size)
    {
      DrawRow(DayTile, dayTiles, 0, screen.yOff);
      screen.yOff := screen.yOff + size.h;
    }

    /** Both tile rows and the rule between them. */
    method DrawRows(hourTiles: seq<Values>, dayTiles: seq<Values>)
      modifies screen`drawing, screen`yOff
      ensures screen.yOff == old(screen.yOff) + 2 * size.h
      ensures screen.drawing == old(screen.drawing) + RowShapes(Style(), hourTiles, dayTiles, old(screen.yOff), size)
    {
      ghost var d0, y0 := screen.drawing, screen.yOff;
      DrawHourRow(hourTiles);
      ghost var y1 := screen.yOff;
      DrawDayRow(dayTiles);
      AppendFour(d0, TileRow(Style(), HourTile, hourTiles, |hourTiles|, size.w, y0, size),
                 [HLine(screen.opts, y1)], TileRow(Style(), DayTile, dayTiles, |dayTiles|, 0, y1, size));
    }

    /** Draws the current temperature and the two tile rows below the
        cursor and moves the cursor below them. */
    method DrawForecast(cur: Values, hourTiles: seq<Values>, dayTiles: seq<Values>)
      requires |hourTiles| == 3 && |dayTiles| == 4
      modifies this`size, screen`drawing, screen`yOff
      ensures size == TileSize(screen.opts, old(screen.yOff))
      ensures screen.yOff == old(screen.yOff) + 2 * size.h
      ensures screen.drawing == old(screen.drawing) + WeatherShapes(Style(), cur, hourTiles, dayTiles, old(screen.yOff), size)
    {
      ghost var d0, y0 := screen.drawing, screen.yOff;
      CalcTileSizes();
      DrawCurrent(cur);
      DrawRows(hourTiles, dayTiles);
      AppendThree(d0, CurrentShapes(Style(), cur, y0, size), RowShapes(Style(), hourTiles, dayTiles, y0, size));
    }

    /** Creates the weather object and updates it from the response; any
        failure sets the status code to 3. */
    method Fetch(response: Option<Forecast>) returns (owm: OWMData)
      modifies screen`rc
      ensures fresh(owm)
      ensures !FetchSucceeds(response) ==> screen.rc == 3
      ensures FetchSucceeds(response) ==>
                && screen.rc == old(screen.rc)
                && owm.current == ParseData(response.value.current)
                && owm.hours == ParsePrefix(response.value.hourly)
                && owm.days == ParsePrefix(response.value.daily)
    {
      owm := new OWMData(settings.latitude, settings.longitude, settings.apiKey);
      var ok := owm.Update(response);
      if !ok {
        screen.rc := 3;
      }
    }

    /** Draws the weather block.  A failed fetch (or an earlier failure
        recorded in `rc`) draws only the no-connection image and leaves the
        cursor where it was; otherwise the block takes two tile rows and the
        cursor moves down by twice the tile height. */
    method DrawContent(response: Option<Forecast>)
      // the forecast has enough samples for the indices the rows use
      requires response.Some? ==> |response.value.hourly| >= 21 && |response.value.daily| >= 5
      modifies this`size, screen`drawing, screen`yOff, screen`rc
      ensures !FetchSucceeds(response) ==> screen.rc == 3
      ensures FetchSucceeds(response) ==> screen.rc == old(screen.rc)
      ensures screen.rc != 0 ==>
                && size == old(size) && screen.yOff == old(screen.yOff)
                && screen.drawing == old(screen.drawing) + [Image(NoConnect)]
      ensures screen.rc == 0 ==>
                && FetchSucceeds(response)
                && size == TileSize(screen.opts, old(screen.yOff))
                && screen.yOff == old(screen.yOff) + 2 * size.h
                && screen.drawing == old(screen.drawing)
                     + WeatherShapes(Style(), ParseData(response.value.current).value,
                                     HourSamples(ParsePrefix(response.value.hourly),
                                                 HourOf(ParseData(response.value.current).value.dt)),
                                     ParsePrefix(response.value.daily)[1..5], old(screen.yOff), size)
    {
      var owm := Fetch(response);
      if screen.rc != 0 {
        screen.DrawImage(NoConnect);
        return;
      }
      DrawForecast(owm.current.value, HourSamples(owm.hours, HourOf(owm.current.value.dt)), owm.days[1..5]);
    }

    /** `draw_content` as written: as DrawContent, except that `_map_id`
        gives None for a shown hour or day whose code neither table covers,
        and the `textsize` of that None raises (`raised`).  What was drawn
        before the exception is not stated. */
    method DrawContentAsWritten(response: Option<Forecast>) returns (raised: bool)
      requires response.Some? ==> |response.value.hourly| >= 21 && |response.value.daily| >= 5
      modifies this`size, screen`drawing, screen`yOff, screen`rc
      ensures !FetchSucceeds(response) ==> screen.rc == 3
      ensures FetchSucceeds(response) ==> screen.rc == old(screen.rc)
      ensures screen.rc != 0 ==>
                && !raised && size == old(size) && screen.yOff == old(screen.yOff)
                && screen.drawing == old(screen.drawing) + [Image(NoConnect)]
      ensures screen.rc == 0 ==>
                var cur := ParseData(response.value.current).value;
                var hourTiles := HourSamples(ParsePrefix(response.value.hourly), HourOf(cur.dt));
                var dayTiles := ParsePrefix(response.value.daily)[1..5];
                && FetchSucceeds(response)
                && (raised <==> !IconsMapped(hourTiles, dayTiles))
                && (!raised ==>
                      && size == TileSize(screen.opts, old(screen.yOff))
                      && screen.yOff == old(screen.yOff) + 2 * size.h
                      && screen.drawing == old(screen.drawing)
                           + WeatherShapes(Style(), cur, hourTiles, dayTiles, old(screen.yOff), size))
    {
      raised := false;
      var owm := Fetch(response);
      if screen.rc != 0 {
        screen.DrawImage(NoConnect);
        return;
      }
      raised := DrawForecastAsWritten(owm.current.value, HourSamples(owm.hours, HourOf(owm.current.value.dt)),
                                      owm.days[1..5]);
    }

    /** The forecast as the source draws it: it raises at the first icon
        `_map_id` has no character for. */
    method DrawForecastAsWritten(cur: Values, hourTiles: seq<Values>, dayTiles: seq<Values>) returns (raised: bool)
      requires |hourTiles| == 3 && |dayTiles| == 4
      modifies this`size, screen`drawing, screen`yOff
      ensures raised <==> !IconsMapped(hourTiles, dayTiles)
      ensures !raised ==>
                && size == TileSize(screen.opts, old(screen.yOff))
                && screen.yOff == old(screen.yOff) + 2 * size.h
                && screen.drawing == old(screen.drawing) + WeatherShapes(Style(), cur, hourTiles, dayTiles, old(screen.yOff), size)
    {
      raised := !IconsMapped(hourTiles, dayTiles);
      if !raised {
        DrawForecast(cur, hourTiles, dayTiles);
      }
    }
  }

  /** Every icon the tiles show has an entry in the tables, so the source's
      `_map_id` gives a character for each of them. */
  predicate IconsMapped(hourTiles: seq<Values>, dayTiles: seq<Values>)
  {
    && (forall k :: 0 <= k < |hourTiles| ==> MapId(hourTiles[k].id).Some?)
    && (forall k :: 0 <= k < |dayTiles| ==> MapId(dayTiles[k].id).Some?)
  }

  /** A day with mist (code 701) among the shown days makes the source raise. */
  lemma MistRaises(hourTiles: seq<Values>, dayTiles: seq<Values>, k: nat)
    requires k < |dayTiles| && dayTiles[k].id == 701
    ensures !IconsMapped(hourTiles, dayTiles)
  {
    MapIdUnmappedExamples();
  }

  /** A successful weather block keeps the cursor within the area above the
      status line when it starts there, and moves it down (or not at all).
      Below the status line the truncated height is non-positive and the
      cursor moves up or stays. */
  lemma WeatherCursorBound(o: Options, y0: int)
    ensures y0 <= o.height - o.heightS ==>
              y0 <= y0 + 2 * TileSize(o, y0).h <= o.height - o.heightS
    ensures y0 > o.height - o.heightS ==> y0 + 2 * TileSize(o, y0).h <= y0
  {
  }

  /** Every rule of a row: the rule after tile `k` (k = 1 .. n) is the
      tile's last shape and sits at `x + k * w`. */
  lemma TileRowRules(style: TileStyle, kind: TileKind, samples: seq<Values>, n: nat,
                     x: int, y: int, size: Size)
    requires n <= |samples|
    ensures forall k :: 1 <= k <= n ==>
              TileRow(style, kind, samples, n, x, y, size)[4 * k - 1] == VLine(style.opts, x + k * size.w, y, size.h)
  {
    forall k | 1 <= k <= n
      ensures TileRow(style, kind, samples, n, x, y, size)[4 * k - 1] == VLine(style.opts, x + k * size.w, y, size.h)
    {
      TileRowRule(style, kind, samples, n, x, y, size, k);
      ColumnXIsProduct(x, size.w, k);
    }
  }
}
