/**
 * The calendar content provider: it collects today's events of every
 * configured calendar, turns each into an agenda entry ("HH:MM-HH:MM",
 * (summary, location), colour), sorts the entries by their time string and
 * draws one fixed-height row per entry below the cursor.
 *
 * Times are microseconds, the resolution of Python's datetime.  An aware
 * datetime is its wall-clock reading with its UTC offset; the time zones
 * (what `localize` and `astimezone` do) are given as functions.
 */
module CalContent {
  import opened PyNum
  import opened Optional
  import opened Canvas
  import opened DailyAgendaScreen
  import opened AgendaSort

  // --- time -------------------------------------------------------------------

  const MicrosPerMinute: int := 60_000_000
  const MicrosPerHour: int := 3_600_000_000
  const MicrosPerDay: int := 86_400_000_000

  /** A time zone as `localize` applies it: the UTC offset it gives to a
      wall-clock time. */
  datatype Zone = Zone(offsetAt: int -> int)

  /** An aware datetime: its wall-clock reading (microseconds since the
      start of day 0) and its UTC offset. */
  datatype DateTime = DateTime(wall: int, offset: int)

  /** The instant a datetime denotes; aware datetimes compare by it. */
  function Instant(d: DateTime): int
  {
    d.wall - d.offset
  }

  /** `tz.localize(dt)` of a naive datetime. */
  function Localize(z: Zone, wall: int): DateTime
  {
    DateTime(wall, z.offsetAt(wall))
  }

  /** What the provider reads from the system when it starts on a calendar. */
  datatype Clock = Clock(
    today: int,                 // date.today(), as a day number
    nowWall: int,               // datetime.now(), the system's wall clock
    local: Zone,                // tzlocal.get_localzone(), as localize applies it
    systemOffset: int -> int,   // the system zone's UTC offset at an instant (astimezone())
    dayOfMonth: int -> int)     // the day of the month of a day number (`.day`)

  /** `datetime.combine(today, time.min)`. */
  function StartOfDay(c: Clock): int
  {
    c.today * MicrosPerDay
  }

  /** `datetime.combine(today, time.max)`: 23:59:59.999999. */
  function EndOfDay(c: Clock): int
  {
    c.today * MicrosPerDay + MicrosPerDay - 1
  }

  function Now(c: Clock): DateTime
  {
    Localize(c.local, c.nowWall)
  }

  /** `d.day`: the day of the month of the datetime's own wall clock. */
  function DayOf(c: Clock, d: DateTime): int
  {
    c.dayOfMonth(d.wall / MicrosPerDay)
  }

  /** `d.astimezone()`: the same instant on the system's clock. */
  function ToSystem(c: Clock, d: DateTime): (r: DateTime)
    ensures Instant(r) == Instant(d)
  {
    var i := Instant(d);
    DateTime(i + c.systemOffset(i), c.systemOffset(i))
  }

  /** `strftime("%H:%M")`. */
  function ClockLabel(d: DateTime): (s: string)
    ensures |s| == 5
  {
    var t := d.wall % MicrosPerDay;
    TwoDigits(t / MicrosPerHour) + ":" + TwoDigits(t % MicrosPerHour / MicrosPerMinute)
  }

  // --- events -----------------------------------------------------------------

  /** The value of a time property: a date, or a datetime with or without
      its own zone. */
  datatype TimeValue =
    | DateValue(day: int)
    | NaiveValue(wall: int)
    | AwareValue(at: DateTime)

  /** A component of a calendar object with the properties the provider
      reads; a missing property is None.  A duration is in microseconds. */
  datatype Component = Component(
    name: string,
    dtstart: Option<TimeValue>,
    dtend: Option<TimeValue>,
    duration: Option<int>,
    summary: Option<string>,
    location: Option<string>)

  /** One event as the server returns it: its own time zone, when it has a
      `vtimezone`, and its components. */
  datatype CalEvent = CalEvent(vtimezone: Option<Zone>, components: seq<Component>)

  /** The item the provider builds per event. */
  datatype Item = Item(start: DateTime, end: DateTime, summary: string, location: string)

  /** `_get_timeattr`: the property, or the default when it is missing; a
      date becomes midnight; a value without a zone is localized. */
  function GetTimeAttr(v: Option<TimeValue>, default: int, zone: Zone): DateTime
  {
    match v
    case None => Localize(zone, default)
    case Some(DateValue(day)) => Localize(zone, day * MicrosPerDay)
    case Some(NaiveValue(wall)) => Localize(zone, wall)
    case Some(AwareValue(at)) => at
  }

  /** The zone naive times of an event are localized in. */
  function EventZone(c: Clock, e: CalEvent): Zone
  {
    e.vtimezone.GetOr(c.local)
  }

  /** The start of a component, today's midnight when it has none. */
  function StartOf(c: Clock, z: Zone, comp: Component): DateTime
  {
    GetTimeAttr(comp.dtstart, StartOfDay(c), z)
  }

  /** The end before clipping: start plus duration, else `dtend`, else the
      end of today. */
  function RawEnd(c: Clock, z: Zone, comp: Component): DateTime
  {
    var start := StartOf(c, z, comp);
    if comp.duration.Some? then DateTime(start.wall + comp.duration.value, start.offset)
    else GetTimeAttr(comp.dtend, EndOfDay(c), z)
  }

  /** The end after clipping: an event that ends on another day of the
      month than it starts is cut at the end of today. */
  function ClippedEnd(c: Clock, start: DateTime, end: DateTime): DateTime
  {
    if DayOf(c, end) != DayOf(c, start) then Localize(c.local, EndOfDay(c)) else end
  }

  /** The item of one component, or None when it is not an event or it
      ended before now. */
  function ComponentItem(c: Clock, z: Zone, comp: Component): (r: Option<Item>)
    ensures r.None? <==> comp.name != "VEVENT" || Instant(RawEnd(c, z, comp)) < Instant(Now(c))
    ensures r.Some? ==> r.value.start == StartOf(c, z, comp)
    ensures r.Some? ==> r.value.end == ClippedEnd(c, r.value.start, RawEnd(c, z, comp))
    ensures r.Some? ==> r.value.summary == comp.summary.GetOr("") && r.value.location == comp.location.GetOr("")
  {
    if comp.name != "VEVENT" then None
    else
      var start := StartOf(c, z, comp);
      var end := RawEnd(c, z, comp);
      if Instant(end) < Instant(Now(c)) then None
      else Some(Item(start, ClippedEnd(c, start, end), comp.summary.GetOr(""), comp.location.GetOr("")))
  }

  function OptionSeq<T>(o: Option<T>): (r: seq<T>)
    ensures |r| <= 1 && (o.Some? <==> |r| == 1) && (o.Some? ==> r[0] == o.value)
  {
    if o.Some? then [o.value] else []
  }

  /** The items of some components of one event, in order: one per kept
      component. */
  function ComponentItems(c: Clock, z: Zone, comps: seq<Component>): (r: seq<Item>)
    ensures |r| <= |comps|
  {
    if comps == [] then []
    else ComponentItems(c, z, comps[..|comps| - 1]) + OptionSeq(ComponentItem(c, z, comps[|comps| - 1]))
  }

  /** How the items of an event are built: as the source does, with one
      dictionary per event appended once per kept component (`SharedDict`),
      or with one item per kept component (`PerComponent`). */
  datatype ItemBuild = SharedDict | PerComponent

  /** The items of one event under a build. */
  function EventItemsBy(b: ItemBuild, c: Clock, e: CalEvent): seq<Item>
  {
    match b
    case SharedDict => EventItemsAsWritten(c, e)
    case PerComponent => ComponentItems(c, EventZone(c, e), e.components)
  }

  /** The items of some events, in order. */
  function CalItems(b: ItemBuild, c: Clock, events: seq<CalEvent>): seq<Item>
  {
    if events == [] then []
    else CalItems(b, c, events[..|events| - 1]) + EventItemsBy(b, c, events[|events| - 1])
  }

  // --- the shared item of the source ------------------------------------------

  /** The item dictionary of the source: one per event, its keys filled in
      by the components as they are processed. */
  datatype ItemDict = ItemDict(
    start: Option<DateTime>, end: Option<DateTime>,
    summary: Option<string>, location: Option<string>)

  /** The dictionary after one more component, and how often the event's
      dictionary has been appended to the agenda list.  A dropped event
      component has already overwritten the start and the end. */
  function DictStep(c: Clock, z: Zone, d: ItemDict, appended: nat, comp: Component): (ItemDict, nat)
  {
    if comp.name != "VEVENT" then (d, appended)
    else
      var start := StartOf(c, z, comp);
      var end := RawEnd(c, z, comp);
      if Instant(end) < Instant(Now(c)) then (d.(start := Some(start), end := Some(end)), appended)
      else (ItemDict(Some(start), Some(ClippedEnd(c, start, end)),
                     Some(comp.summary.GetOr("")), Some(comp.location.GetOr(""))), appended + 1)
  }

  /** The dictionary state after some components. */
  function DictAfter(c: Clock, z: Zone, comps: seq<Component>): (r: (ItemDict, nat))
    ensures r.1 <= |comps|
    ensures r.1 >= 1 ==> r.0.start.Some? && r.0.end.Some? && r.0.summary.Some? && r.0.location.Some?
  {
    if comps == [] then (ItemDict(None, None, None, None), 0)
    else
      var prev := DictAfter(c, z, comps[..|comps| - 1]);
      DictStep(c, z, prev.0, prev.1, comps[|comps| - 1])
  }

  function Repeat<T>(x: T, n: nat): (r: seq<T>)
    ensures |r| == n && forall k :: 0 <= k < n ==> r[k] == x
  {
    if n == 0 then [] else Repeat(x, n - 1) + [x]
  }

  /** What the agenda list holds for one event as the source builds it: the
      same dictionary once per kept component, so every copy shows the
      final state of the dictionary. */
  function EventItemsAsWritten(c: Clock, e: CalEvent): (r: seq<Item>)
    ensures |r| == DictAfter(c, EventZone(c, e), e.components).1
  {
    var st := DictAfter(c, EventZone(c, e), e.components);
    if st.1 == 0 then []
    else Repeat(Item(st.0.start.value, st.0.end.value, st.0.summary.value, st.0.location.value), st.1)
  }

  // --- entries ----------------------------------------------------------------

  /** An agenda entry: the two clock labels its time string joins, the two
      text lines and the colour. */
  datatype Entry = Entry(start: string, end: string, text: (string, string), color: Color)

  /** The time string of an entry, `"%s-%s" % (start, end)`. */
  function Time(e: Entry): string
  {
    e.start + "-" + e.end
  }

  /** The sort key of an entry (`itemgetter(0)`). */
  function TimeKey(e: Entry): string
  {
    Time(e)
  }

  /** The entry of an item, its times on the system's clock. */
  function MakeEntry(c: Clock, it: Item, color: Color): Entry
  {
    Entry(ClockLabel(ToSystem(c, it.start)), ClockLabel(ToSystem(c, it.end)),
          (it.summary, it.location), color)
  }

  function EntriesOf(c: Clock, items: seq<Item>, color: Color): (r: seq<Entry>)
    ensures |r| == |items|
  {
    if items == [] then []
    else EntriesOf(c, items[..|items| - 1], color) + [MakeEntry(c, items[|items| - 1], color)]
  }

  /** A configured calendar: its name on the server and its colour name. */
  datatype CalInfo = CalInfo(name: string, color: string)

  /** What the server and the system give for one calendar: the clock read
      at the start, and the events of today, or None when the connection,
      the calendar lookup by name or the search raised. */
  datatype CalReply = CalReply(clock: Clock, events: Option<seq<CalEvent>>)

  /** The entries of one calendar, or None when its processing raises: a
      failed fetch, or a colour name missing from the colour map (looked up
      only when there is an item). */
  function CalEntries(b: ItemBuild, info: CalInfo, reply: CalReply, cmap: map<string, Color>): Option<seq<Entry>>
  {
    if reply.events.None? then None
    else ItemEntries(reply.clock, CalItems(b, reply.clock, reply.events.value), info.color, cmap)
  }

  /** The entries of a calendar's items, in the colour its colour name maps
      to; None when there are items and the name is not in the map. */
  function ItemEntries(c: Clock, items: seq<Item>, colorName: string, cmap: map<string, Color>): Option<seq<Entry>>
  {
    if items == [] then Some([])
    else if colorName !in cmap then None
    else Some(EntriesOf(c, items, cmap[colorName]))
  }

  /** The entries of the first `n` calendars in configuration order, or None
      when one of them raises. */
  function AllEntries(b: ItemBuild, cals: seq<CalInfo>, replies: seq<CalReply>, cmap: map<string, Color>, n: nat): Option<seq<Entry>>
    requires n <= |cals| == |replies|
  {
    if n == 0 then Some([])
    else
      var front := AllEntries(b, cals, replies, cmap, n - 1);
      var last := CalEntries(b, cals[n - 1], replies[n - 1], cmap);
      if front.None? || last.None? then None else Some(front.value + last.value)
  }

  /** The agenda: all calendars' entries, stably sorted by time string. */
  function Agenda(b: ItemBuild, cals: seq<CalInfo>, replies: seq<CalReply>, cmap: map<string, Color>): Option<seq<Entry>>
    requires |cals| == |replies|
  {
    var all := AllEntries(b, cals, replies, cmap, |cals|);
    if all.None? then None else Some(SortBy(TimeKey, all.value))
  }

  // --- rows -------------------------------------------------------------------

  /** The time string of an all-day event, whose times are not printed. */
  const AllDay: string := "00:00" + "-" + "23:59"

  /** Python's `s.split(sep)`. */
  function SplitOn(s: string, sep: char): (r: seq<string>)
    ensures |r| >= 1
    decreases |s|
  {
    if s == [] then [[]]
    else
      var rest := SplitOn(s[1..], sep);
      if s[0] == sep then [[]] + rest else [[s[0]] + rest[0]] + rest[1..]
  }

  /** A string without the separator `sep`. */
  predicate Unbroken(s: string, sep: char)
  {
    forall k :: 0 <= k < |s| ==> s[k] != sep
  }

  /** What a row needs of its entry: a background colour the text colour
      map knows, and labels without a dash, so that the time string splits
      into exactly the two of them. */
  predicate RowReady(bgMap: map<Color, Color>, e: Entry)
  {
    e.color in bgMap && Unbroken(e.start, '-') && Unbroken(e.end, '-')
  }

  predicate AllRowsReady(bgMap: map<Color, Color>, entries: seq<Entry>)
  {
    forall k :: 0 <= k < |entries| ==> RowReady(bgMap, entries[k])
  }

  /** Every configured colour that the colour map knows has a text colour. */
  predicate ColorsReady(cals: seq<CalInfo>, cmap: map<string, Color>, bgMap: map<Color, Color>)
  {
    forall i :: 0 <= i < |cals| && cals[i].color in cmap ==> cmap[cals[i].color] in bgMap
  }

  /** The shapes of one agenda row with its top at `y`, given the two parts
      of the time string and the text colour. */
  function RowShapes(o: Options, measure: (Font, TextContent) -> Size, y: int, e: Entry,
                     fg: Color, tm0: string, tm1: string): (r: seq<Shape>)
    // the background in the entry's colour, from y + 1 to y + HEIGHT_E - 1
    ensures |r| >= 4 && r[0] == Rect(0, y + 1, o.width, y + o.heightE - 1, e.color)
    // the row ends with a rule at its bottom, y + HEIGHT_E
    ensures r[|r| - 1] == HLine(o, y + o.heightE)
  {
    var size0 := TextSize(measure, TimeFont, Literal(tm0));
    var size1 := TextSize(measure, TimeFont, Literal(tm1));
    var txtX := o.margins.m2 + (if size0.w >= size1.w then size0.w else size1.w) + 4;
    var textSize := TextSize(measure, TextFont, Literal(e.text.0));
    var background := Rect(0, y + 1, o.width, y + o.heightE - 1, e.color);
    var line0 := Text(txtX, y + 2, Literal(e.text.0), TextFont, fg);
    var line1 := Text(txtX, y + 2 + textSize.h, Literal(e.text.1), TextFont, fg);
    var times := if Time(e) != AllDay then
                   [Text(o.margins.m2, y + 2, Literal(tm0), TimeFont, fg)]
                   + [Text(o.margins.m2, y + 4 + size0.h, Literal(tm1), TimeFont, fg)]
                 else [];
    [background] + times + [line0] + [line1] + [HLine(o, y + o.heightE)]
  }

  /** The times of a row are drawn exactly when the entry is not an all-day
      one, and every text is in the one text colour. */
  lemma RowShapesTexts(o: Options, measure: (Font, TextContent) -> Size, y: int, e: Entry,
                       fg: Color, tm0: string, tm1: string)
    ensures var r := RowShapes(o, measure, y, e, fg, tm0, tm1);
            (exists k :: 0 <= k < |r| && r[k].Text? && r[k].font == TimeFont) <==> Time(e) != AllDay
    ensures var r := RowShapes(o, measure, y, e, fg, tm0, tm1);
            forall k :: 0 <= k < |r| && r[k].Text? ==> r[k].tcolor == fg
  {
    var r := RowShapes(o, measure, y, e, fg, tm0, tm1);
    if Time(e) != AllDay {
      assert r[1].Text? && r[1].font == TimeFont;
    } else {
      assert |r| == 4 && r[0].Rect? && r[3].Line?;
      forall k | 0 <= k < |r| && r[k].Text?
        ensures r[k].font != TimeFont
      {
        assert k != 0 && k != 3;
      }
    }
  }

  /** `_draw_entry`'s shapes: the row of an entry, with the two parts of its
      time string (its labels, `EntryTimeSplits`) and its text in the colour
      the map gives for its background. */
  function EntryRowShapes(o: Options, measure: (Font, TextContent) -> Size, bgMap: map<Color, Color>,
                          y: int, e: Entry): (r: seq<Shape>)
    requires RowReady(bgMap, e)
  {
    RowShapes(o, measure, y, e, bgMap[e.color], e.start, e.end)
  }

  /** The top of row `k` of rows of height `h` starting at `y0`. */
  function RowTop(y0: int, h: int, k: nat): int
  {
    if k == 0 then y0 else RowTop(y0, h, k - 1) + h
  }

  lemma {:induction false} RowTopIsProduct(y0: int, h: int, k: nat)
    ensures RowTop(y0, h, k) == y0 + k * h
  {
    if k > 0 {
      RowTopIsProduct(y0, h, k - 1);
    }
  }

  /** The first `n` rows of an agenda, the first with its top at `y0`. */
  function Rows(o: Options, measure: (Font, TextContent) -> Size, bgMap: map<Color, Color>,
                y0: int, entries: seq<Entry>, n: nat): seq<Shape>
    requires n <= |entries|
    requires AllRowsReady(bgMap, entries)
  {
    if n == 0 then []
    else Rows(o, measure, bgMap, y0, entries, n - 1)
         + EntryRowShapes(o, measure, bgMap, RowTop(y0, o.heightE, n - 1), entries[n - 1])
  }

  // --- capacity ---------------------------------------------------------------

  /** `get_max_entries`: the rows of height HEIGHT_E between the cursor and
      the status line, truncated toward zero. */
  function MaxEntries(o: Options, yOff: int): int
    requires o.heightE > 0
  {
    TruncDiv(o.height - o.heightS - yOff, o.heightE)
  }

  /** Rows drawn by the loop of the source from the cursor `y` with `n`
      entries left: it draws one and stops once the capacity below the new
      cursor is negative. */
  function AsWrittenRows(o: Options, y: int, n: nat): (k: nat)
    requires o.heightE > 0
    ensures k <= n && (n >= 1 ==> k >= 1)
    decreases n
  {
    if n == 0 then 0
    else if 0 > MaxEntries(o, y + o.heightE) then 1
    else 1 + AsWrittenRows(o, y + o.heightE, n - 1)
  }

  /** Rows the corrected loop draws: as many as fit above the status line. */
  function FittingRows(o: Options, y: int, n: nat): (k: nat)
    requires o.heightE > 0
    ensures k <= n
  {
    var m := MaxEntries(o, y);
    if m <= 0 then 0 else if m < n then m else n
  }

  // --- the provider -----------------------------------------------------------

  class CalContentProvider {
    const screen: DailyAgenda
    /** The configured calendars (`opts.cals`). */
    const cals: seq<CalInfo>

    constructor (screen: DailyAgenda, cals: seq<CalInfo>)
      ensures this.screen == screen && this.cals == cals
    {
      this.screen := screen;
      this.cals := cals;
    }

    /** The kept components of one event, in order, one item each. */
    static method EventItems(c: Clock, zone: Zone, comps: seq<Component>) returns (items: seq<Item>)
      ensures items == ComponentItems(c, zone, comps)
    {
      var now := Localize(c.local, c.nowWall);
      items := [];
      var j := 0;
      while j < |comps|
        invariant 0 <= j <= |comps|
        invariant items == ComponentItems(c, zone, comps[..j])
      {
        var comp := comps[j];
        assert comps[..j + 1][..j] == comps[..j];
        assert ComponentItems(c, zone, comps[..j + 1]) == ComponentItems(c, zone, comps[..j]) + OptionSeq(ComponentItem(c, zone, comp));
        if comp.name == "VEVENT" {
          var start := GetTimeAttr(comp.dtstart, StartOfDay(c), zone);
          var end := if comp.duration.Some? then DateTime(start.wall + comp.duration.value, start.offset)
                     else GetTimeAttr(comp.dtend, EndOfDay(c), zone);
          if !(Instant(end) < Instant(now)) {
            if DayOf(c, end) != DayOf(c, start) {
              end := Localize(c.local, EndOfDay(c));
            }
            items := items + [Item(start, end, comp.summary.GetOr(""), comp.location.GetOr(""))];
          }
        }
        j := j + 1;
      }
      assert comps[..j] == comps;
    }

    /** The items of one event as the source collects them: a single
        dictionary `item` for the event, overwritten by every event
        component, and the agenda list given one more reference to it per
        kept component.  Since every reference is to the same dictionary,
        each copy shows its state after the last component. */
    static method SharedEventItems(c: Clock, e: CalEvent) returns (items: seq<Item>)
      ensures items == EventItemsAsWritten(c, e)
    {
      var zone := EventZone(c, e);
      var comps := e.components;
      var now := Localize(c.local, c.nowWall);
      var item := ItemDict(None, None, None, None);
      var refs := 0;
      var j := 0;
      while j < |comps|
        invariant 0 <= j <= |comps|
        invariant (item, refs) == DictAfter(c, zone, comps[..j])
      {
        var comp := comps[j];
        assert comps[..j + 1][..j] == comps[..j];
        if comp.name == "VEVENT" {
          var start := GetTimeAttr(comp.dtstart, StartOfDay(c), zone);
          var end := if comp.duration.Some? then DateTime(start.wall + comp.duration.value, start.offset)
                     else GetTimeAttr(comp.dtend, EndOfDay(c), zone);
          item := item.(start := Some(start), end := Some(end));
          if !(Instant(end) < Instant(now)) {
            if DayOf(c, end) != DayOf(c, start) {
              item := item.(end := Some(Localize(c.local, EndOfDay(c))));
            }
            item := item.(summary := Some(comp.summary.GetOr("")), location := Some(comp.location.GetOr("")));
            refs := refs + 1;
          }
        }
        j := j + 1;
      }
      assert comps[..j] == comps;
      items := if refs == 0 then []
               else Repeat(Item(item.start.value, item.end.value, item.summary.value, item.location.value), refs);
    }

    /** The agenda list of one calendar: the items of its events in order,
        each event's built as `b` says. */
    static method CollectItems(b: ItemBuild, c: Clock, events: seq<CalEvent>) returns (agendaList: seq<Item>)
      ensures agendaList == CalItems(b, c, events)
    {
      agendaList := [];
      var i := 0;
      while i < |events|
        invariant 0 <= i <= |events|
        invariant agendaList == CalItems(b, c, events[..i])
      {
        var items;
        if b == SharedDict {
          items := SharedEventItems(c, events[i]);
        } else {
          items := EventItems(c, EventZone(c, events[i]), events[i].components);
        }
        agendaList := agendaList + items;
        assert events[..i + 1][..i] == events[..i];
        i := i + 1;
      }
      assert events[..i] == events;
    }

    /** `_get_agenda_for_cal`: appends the calendar's entries to `entries`,
        or returns None where the source raises. */
    method GetAgendaForCal(b: ItemBuild, info: CalInfo, reply: CalReply, entries: seq<Entry>) returns (r: Option<seq<Entry>>)
      ensures CalEntries(b, info, reply, screen.cmap).None? ==> r.None?
      ensures CalEntries(b, info, reply, screen.cmap).Some? ==> r == Some(entries + CalEntries(b, info, reply, screen.cmap).value)
    {
      if reply.events.None? {
        return None;
      }
      var agendaList := CollectItems(b, reply.clock, reply.events.value);
      r := AppendEntries(reply.clock, agendaList, info.color, entries);
    }

    /** Appends the entries of the agenda list to `entries`; the colour is
        looked up per item, so a missing colour name raises at the first
        item. */
    method AppendEntries(c: Clock, agendaList: seq<Item>, colorName: string, entries: seq<Entry>)
      returns (r: Option<seq<Entry>>)
      ensures ItemEntries(c, agendaList, colorName, screen.cmap).None? ==> r.None?
      ensures ItemEntries(c, agendaList, colorName, screen.cmap).Some? ==>
                r == Some(entries + ItemEntries(c, agendaList, colorName, screen.cmap).value)
    {
      var out := entries;
      var k := 0;
      while k < |agendaList|
        invariant 0 <= k <= |agendaList|
        invariant colorName !in screen.cmap ==> k == 0 && out == entries
        invariant colorName in screen.cmap ==> out == entries + EntriesOf(c, agendaList[..k], screen.cmap[colorName])
      {
        if colorName !in screen.cmap {
          return None;
        }
        var color := screen.cmap[colorName];
        assert agendaList[..k + 1][..k] == agendaList[..k];
        assert EntriesOf(c, agendaList[..k + 1], color) == EntriesOf(c, agendaList[..k], color) + [MakeEntry(c, agendaList[k], color)];
        out := out + [MakeEntry(c, agendaList[k], color)];
        k := k + 1;
      }
      assert agendaList[..k] == agendaList;
      assert entries + [] == entries;
      r := Some(out);
    }

    /** `_get_agenda`: every calendar's entries in configuration order, then
        the stable sort by time string; None when a calendar raises. */
    method GetAgenda(b: ItemBuild, replies: seq<CalReply>) returns (r: Option<seq<Entry>>)
      requires |replies| == |cals|
      ensures r == Agenda(b, cals, replies, screen.cmap)
    {
      var entries: seq<Entry> := [];
      var i := 0;
      while i < |cals|
        invariant 0 <= i <= |cals|
        invariant AllEntries(b, cals, replies, screen.cmap, i) == Some(entries)
      {
        var next := GetAgendaForCal(b, cals[i], replies[i], entries);
        if next.None? {
          NoEntriesAfterFailure(b, cals, replies, screen.cmap, i + 1);
          return None;
        }
        entries := next.value;
        i := i + 1;
      }
      r := Some(SortBy(TimeKey, entries));
    }

    /** `e_time.split('-')` on the time string of a ready entry. */
    static method SplitTime(e: Entry) returns (tm: seq<string>)
      requires Unbroken(e.start, '-') && Unbroken(e.end, '-')
      ensures tm == [e.start, e.end]
    {
      tm := SplitOn(Time(e), '-');
      EntryTimeSplits(e);
    }

    /** `_draw_entry`: one row at the cursor; the cursor moves down by
        HEIGHT_E and the row's rule is drawn there. */
    method DrawEntryRow(e: Entry)
      requires RowReady(screen.bgMap, e)
      modifies screen`drawing, screen`yOff
      ensures screen.yOff == old(screen.yOff) + screen.opts.heightE
      ensures screen.drawing == old(screen.drawing)
                + EntryRowShapes(screen.opts, screen.measure, screen.bgMap, old(screen.yOff), e)
    {
      var o := screen.opts;
      var y := screen.yOff;
      var row := [Rect(0, y + 1, o.width, y + o.heightE - 1, e.color)];
      var tm := SplitTime(e);
      var size0 := TextSize(screen.measure, TimeFont, Literal(tm[0]));
      var size1 := TextSize(screen.measure, TimeFont, Literal(tm[1]));
      var fg := screen.bgMap[e.color];
      if Time(e) != AllDay {
        row := row + [Text(o.margins.m2, y + 2, Literal(tm[0]), TimeFont, fg)]
                   + [Text(o.margins.m2, y + 4 + size0.h, Literal(tm[1]), TimeFont, fg)];
      }
      var txtX := o.margins.m2 + (if size0.w >= size1.w then size0.w else size1.w) + 4;
      var txtY := y + 2;
      var textSize := TextSize(screen.measure, TextFont, Literal(e.text.0));
      row := row + [Text(txtX, txtY, Literal(e.text.0), TextFont, fg)];
      txtY := txtY + textSize.h;
      row := row + [Text(txtX, txtY, Literal(e.text.1), TextFont, fg)];
      screen.drawing := screen.drawing + row;
      screen.yOff := screen.yOff + o.heightE;
      screen.DrawHLine(screen.yOff);
      AppendThree(old(screen.drawing), row, [HLine(o, screen.yOff)]);
    }

    /** Draws row `k` of `entries` on top of the rows before it. */
    method DrawNextRow(entries: seq<Entry>, k: nat, ghost y0: int, ghost d0: seq<Shape>)
      requires k < |entries| && AllRowsReady(screen.bgMap, entries)
      requires screen.yOff == RowTop(y0, screen.opts.heightE, k)
      requires screen.drawing == d0 + Rows(screen.opts, screen.measure, screen.bgMap, y0, entries, k)
      modifies screen`drawing, screen`yOff
      ensures screen.yOff == RowTop(y0, screen.opts.heightE, k + 1)
      ensures screen.drawing == d0 + Rows(screen.opts, screen.measure, screen.bgMap, y0, entries, k + 1)
    {
      ghost var before := screen.drawing;
      DrawEntryRow(entries[k]);
      RowsStep(screen.opts, screen.measure, screen.bgMap, y0, entries, k, d0, before, screen.drawing);
    }

    /** The loop of `draw_content` as written: the counter is doubled from
        0 and so stays 0, and the loop stops only once the capacity below
        the cursor has become negative. */
    method DrawEntriesAsWritten(entries: seq<Entry>) returns (drawn: nat)
      requires screen.opts.heightE > 0
      requires AllRowsReady(screen.bgMap, entries)
      modifies screen`drawing, screen`yOff
      ensures drawn == AsWrittenRows(screen.opts, old(screen.yOff), |entries|)
      ensures screen.yOff == RowTop(old(screen.yOff), screen.opts.heightE, drawn)
      ensures screen.drawing == old(screen.drawing)
                + Rows(screen.opts, screen.measure, screen.bgMap, old(screen.yOff), entries, drawn)
    {
      var o, measure, bgMap := screen.opts, screen.measure, screen.bgMap;
      ghost var y0, d0 := screen.yOff, screen.drawing;
      var n := |entries|;
      var count := 0;
      drawn := 0;
      while drawn < n
        invariant drawn <= n
        invariant count == 0
        invariant screen.yOff == RowTop(y0, o.heightE, drawn)
        invariant screen.drawing == d0 + Rows(o, measure, bgMap, y0, entries, drawn)
        invariant AsWrittenRows(o, y0, n) == drawn + AsWrittenRows(o, RowTop(y0, o.heightE, drawn), n - drawn)
      {
        AsWrittenStep(o, y0, n, drawn);
        DrawNextRow(entries, drawn, y0, d0);
        drawn := drawn + 1;
        count := count + count;
        if count > MaxEntries(o, screen.yOff) {
          break;
        }
      }
    }

    /** The loop as evidently intended: a row is drawn only while one more
        fits between the cursor and the status line. */
    method DrawEntries(entries: seq<Entry>) returns (drawn: nat)
      requires screen.opts.heightE > 0
      requires AllRowsReady(screen.bgMap, entries)
      modifies screen`drawing, screen`yOff
      ensures drawn == FittingRows(screen.opts, old(screen.yOff), |entries|)
      ensures screen.yOff == RowTop(old(screen.yOff), screen.opts.heightE, drawn)
      ensures screen.drawing == old(screen.drawing)
                + Rows(screen.opts, screen.measure, screen.bgMap, old(screen.yOff), entries, drawn)
    {
      var o, measure, bgMap := screen.opts, screen.measure, screen.bgMap;
      ghost var y0, d0 := screen.yOff, screen.drawing;
      ghost var m0 := MaxEntries(o, y0);
      drawn := 0;
      while drawn < |entries| && MaxEntries(o, screen.yOff) >= 1
        invariant drawn <= |entries|
        invariant screen.yOff == RowTop(y0, o.heightE, drawn)
        invariant screen.drawing == d0 + Rows(o, measure, bgMap, y0, entries, drawn)
        invariant drawn == 0 || (drawn <= m0 && MaxEntries(o, RowTop(y0, o.heightE, drawn)) == m0 - drawn)
      {
        FittingStep(o, y0, drawn);
        DrawNextRow(entries, drawn, y0, d0);
        drawn := drawn + 1;
      }
    }

    /** `draw_content` as written: the agenda is built with the shared item
        dictionary; a failed agenda sets the status code to 3 and, like any earlier failure, shows only the no-connection image;
        an empty agenda ends in the lookup of the unbound name `screen`
        (`raised`), with nothing drawn. */
    method DrawContentAsWritten(replies: seq<CalReply>) returns (drawn: nat, raised: bool)
      requires |replies| == |cals| && screen.opts.heightE > 0
      requires ColorsReady(cals, screen.cmap, screen.bgMap)
      modifies screen`drawing, screen`yOff, screen`rc
      ensures Agenda(SharedDict, cals, replies, screen.cmap).None? ==> screen.rc == 3
      ensures Agenda(SharedDict, cals, replies, screen.cmap).Some? ==> screen.rc == old(screen.rc)
      ensures screen.rc != 0 ==>
                !raised && drawn == 0 && screen.yOff == old(screen.yOff)
                && screen.drawing == old(screen.drawing) + [Image(NoConnect)]
      ensures screen.rc == 0 ==>
                var a := Agenda(SharedDict, cals, replies, screen.cmap).value;
                && (raised <==> a == [])
                && drawn == AsWrittenRows(screen.opts, old(screen.yOff), |a|)
                && screen.yOff == RowTop(old(screen.yOff), screen.opts.heightE, drawn)
                && AllRowsReady(screen.bgMap, a)
                && screen.drawing == old(screen.drawing)
                     + Rows(screen.opts, screen.measure, screen.bgMap, old(screen.yOff), a, drawn)
    {
      drawn, raised := 0, false;
      var entries := GetAgenda(SharedDict, replies);
      if entries.None? {
        screen.rc := 3;
      }
      if screen.rc != 0 {
        screen.DrawImage(NoConnect);
      } else if |entries.value| > 0 {
        AgendaRowsReady(SharedDict, cals, replies, screen.cmap, screen.bgMap);
        drawn := DrawEntriesAsWritten(entries.value);
      } else {
        raised := true;
      }
    }

    /** `draw_content` corrected: one item per kept component, the loop
        that stops at the capacity, and the placeholder image for an empty
        agenda. */
    method DrawContent(replies: seq<CalReply>) returns (drawn: nat)
      requires |replies| == |cals| && screen.opts.heightE > 0
      requires ColorsReady(cals, screen.cmap, screen.bgMap)
      modifies screen`drawing, screen`yOff, screen`rc
      ensures Agenda(PerComponent, cals, replies, screen.cmap).None? ==> screen.rc == 3
      ensures Agenda(PerComponent, cals, replies, screen.cmap).Some? ==> screen.rc == old(screen.rc)
      ensures screen.rc != 0 ==>
                drawn == 0 && screen.yOff == old(screen.yOff)
                && screen.drawing == old(screen.drawing) + [Image(NoConnect)]
      ensures screen.rc == 0 && Agenda(PerComponent, cals, replies, screen.cmap).value == [] ==>
                drawn == 0 && screen.yOff == old(screen.yOff)
                && screen.drawing == old(screen.drawing) + [Image(NoEvents)]
      ensures screen.rc == 0 ==>
                var a := Agenda(PerComponent, cals, replies, screen.cmap).value;
                && drawn == FittingRows(screen.opts, old(screen.yOff), |a|)
                && screen.yOff == RowTop(old(screen.yOff), screen.opts.heightE, drawn)
                && (a != [] ==> AllRowsReady(screen.bgMap, a)
                                && screen.drawing == old(screen.drawing)
                                     + Rows(screen.opts, screen.measure, screen.bgMap, old(screen.yOff), a, drawn))
    {
      drawn := 0;
      var entries := GetAgenda(PerComponent, replies);
      if entries.None? {
        screen.rc := 3;
      }
      if screen.rc != 0 {
        screen.DrawImage(NoConnect);
      } else if |entries.value| > 0 {
        AgendaRowsReady(PerComponent, cals, replies, screen.cmap, screen.bgMap);
        drawn := DrawEntries(entries.value);
      } else {
        screen.DrawImage(NoEvents);
      }
    }
  }

  /** One more row extends the drawn log by that row's shapes. */
  lemma RowsStep(o: Options, measure: (Font, TextContent) -> Size, bgMap: map<Color, Color>,
                 y0: int, entries: seq<Entry>, k: nat, d0: seq<Shape>, d1: seq<Shape>, d2: seq<Shape>)
    requires k < |entries| && AllRowsReady(bgMap, entries)
    requires d1 == d0 + Rows(o, measure, bgMap, y0, entries, k)
    requires d2 == d1 + EntryRowShapes(o, measure, bgMap, RowTop(y0, o.heightE, k), entries[k])
    ensures d2 == d0 + Rows(o, measure, bgMap, y0, entries, k + 1)
  {
  }

  /** One iteration of the loop as written: after row `k` it stops exactly
      when the capacity below the new cursor is negative. */
  lemma AsWrittenStep(o: Options, y0: int, n: nat, k: nat)
    requires o.heightE > 0 && k < n
    requires AsWrittenRows(o, y0, n) == k + AsWrittenRows(o, RowTop(y0, o.heightE, k), n - k)
    ensures MaxEntries(o, RowTop(y0, o.heightE, k + 1)) < 0 ==> AsWrittenRows(o, y0, n) == k + 1
    ensures MaxEntries(o, RowTop(y0, o.heightE, k + 1)) >= 0 ==>
              AsWrittenRows(o, y0, n) == k + 1 + AsWrittenRows(o, RowTop(y0, o.heightE, k + 1), n - (k + 1))
  {
  }

  /** Once a calendar raises, the agenda of any longer prefix raises. */
  lemma {:induction false} NoEntriesAfterFailure(b: ItemBuild, cals: seq<CalInfo>, replies: seq<CalReply>, cmap: map<string, Color>, n: nat)
    requires 1 <= n <= |cals| == |replies|
    requires AllEntries(b, cals, replies, cmap, n).None?
    ensures AllEntries(b, cals, replies, cmap, |cals|).None?
    decreases |cals| - n
  {
    if n < |cals| {
      NoEntriesAfterFailure(b, cals, replies, cmap, n + 1);
    }
  }

  // --- capacity ---------------------------------------------------------------

  /** One iteration of the corrected loop: a drawn row takes one row off
      the capacity. */
  lemma FittingStep(o: Options, y0: int, k: nat)
    requires o.heightE > 0 && MaxEntries(o, RowTop(y0, o.heightE, k)) >= 1
    ensures MaxEntries(o, RowTop(y0, o.heightE, k + 1)) == MaxEntries(o, RowTop(y0, o.heightE, k)) - 1
  {
    MaxEntriesStep(o, RowTop(y0, o.heightE, k));
  }

  /** Below a cursor with room for at least one row, drawing a row leaves
      room for one row fewer. */
  lemma MaxEntriesStep(o: Options, y: int)
    requires o.heightE > 0 && MaxEntries(o, y) >= 1
    ensures MaxEntries(o, y + o.heightE) == MaxEntries(o, y) - 1
  {
    var n, h := o.height - o.heightS - y, o.heightE;
    TruncDivNegative(n, h);
    if n < h {
      TruncDivVersusFloor(n, h);
      DivUnique(n, h, 0, n);
    }
    TruncDivVersusFloor(n, h);
    TruncDivVersusFloor(n - h, h);
    DivUnique(n - h, h, n / h - 1, n % h);
  }

  // --- what the rows need -----------------------------------------------------

  lemma {:induction false} SplitOnNoSep(s: string, sep: char)
    requires Unbroken(s, sep)
    ensures SplitOn(s, sep) == [s]
    decreases |s|
  {
    if s != [] {
      SplitOnNoSep(s[1..], sep);
      assert [s[0]] + s[1..] == s;
    }
  }

  lemma {:induction false} SplitOnPrefix(a: string, u: string, sep: char)
    requires Unbroken(a, sep)
    ensures SplitOn(a + u, sep) == [a + SplitOn(u, sep)[0]] + SplitOn(u, sep)[1..]
    decreases |a|
  {
    if a == [] {
      assert a + u == u && a + SplitOn(u, sep)[0] == SplitOn(u, sep)[0];
      assert SplitOn(u, sep) == [SplitOn(u, sep)[0]] + SplitOn(u, sep)[1..];
    } else {
      SplitOnPrefix(a[1..], u, sep);
      assert (a + u)[1..] == a[1..] + u;
      assert [a[0]] + (a[1..] + SplitOn(u, sep)[0]) == a + SplitOn(u, sep)[0];
    }
  }

  /** Splitting two dash-free strings joined by a dash gives them back. */
  lemma SplitOnJoin(a: string, b: string, sep: char)
    requires Unbroken(a, sep)
    requires Unbroken(b, sep)
    ensures SplitOn(a + [sep] + b, sep) == [a, b]
  {
    SplitOnNoSep(b, sep);
    assert ([sep] + b)[1..] == b;
    assert SplitOn([sep] + b, sep) == [[], b];
    assert a + [sep] + b == a + ([sep] + b);
    SplitOnPrefix(a, [sep] + b, sep);
    assert a + [] == a;
  }

  /** `strftime("%H:%M")` has no dash: two digits, a colon, two digits. */
  lemma ClockLabelNoDash(d: DateTime)
    ensures Unbroken(ClockLabel(d), '-')
  {
    var t := d.wall % MicrosPerDay;
    var hh, mm := TwoDigits(t / MicrosPerHour), TwoDigits(t % MicrosPerHour / MicrosPerMinute);
    assert hh == [Digit(t / MicrosPerHour / 10), Digit(t / MicrosPerHour % 10)];
    assert mm == [Digit(t % MicrosPerHour / MicrosPerMinute / 10), Digit(t % MicrosPerHour / MicrosPerMinute % 10)];
    assert ClockLabel(d) == hh + ":" + mm;
  }

  /** The time string of a ready entry splits at its dash into its two
      labels. */
  lemma EntryTimeSplits(e: Entry)
    requires Unbroken(e.start, '-') && Unbroken(e.end, '-')
    ensures SplitOn(Time(e), '-') == [e.start, e.end]
  {
    SplitOnJoin(e.start, e.end, '-');
  }

  lemma {:induction false} EntriesOfReady(c: Clock, items: seq<Item>, color: Color, bgMap: map<Color, Color>)
    requires color in bgMap
    ensures AllRowsReady(bgMap, EntriesOf(c, items, color))
    decreases |items|
  {
    if items != [] {
      EntriesOfReady(c, items[..|items| - 1], color, bgMap);
      ClockLabelNoDash(ToSystem(c, items[|items| - 1].start));
      ClockLabelNoDash(ToSystem(c, items[|items| - 1].end));
    }
  }

  lemma {:induction false} AllEntriesReady(b: ItemBuild, cals: seq<CalInfo>, replies: seq<CalReply>, cmap: map<string, Color>,
                                           bgMap: map<Color, Color>, n: nat)
    requires n <= |cals| == |replies|
    requires ColorsReady(cals, cmap, bgMap)
    requires AllEntries(b, cals, replies, cmap, n).Some?
    ensures AllRowsReady(bgMap, AllEntries(b, cals, replies, cmap, n).value)
  {
    if n > 0 {
      AllEntriesReady(b, cals, replies, cmap, bgMap, n - 1);
      var reply := replies[n - 1];
      var info := cals[n - 1];
      if reply.events.Some? && info.color in cmap {
        EntriesOfReady(reply.clock, CalItems(b, reply.clock, reply.events.value), cmap[info.color], bgMap);
      }
    }
  }

  /** Every row of the agenda can be drawn. */
  lemma AgendaRowsReady(b: ItemBuild, cals: seq<CalInfo>, replies: seq<CalReply>, cmap: map<string, Color>, bgMap: map<Color, Color>)
    requires |cals| == |replies|
    requires ColorsReady(cals, cmap, bgMap)
    requires Agenda(b, cals, replies, cmap).Some?
    ensures AllRowsReady(bgMap, Agenda(b, cals, replies, cmap).value)
  {
    var all := AllEntries(b, cals, replies, cmap, |cals|).value;
    AllEntriesReady(b, cals, replies, cmap, bgMap, |cals|);
    var sorted := SortBy(TimeKey, all);
    SortByPermutes(TimeKey, all);
    forall k | 0 <= k < |sorted|
      ensures RowReady(bgMap, sorted[k])
    {
      assert sorted[k] in multiset(all);
      var j :| 0 <= j < |all| && all[j] == sorted[k];
    }
  }
}
