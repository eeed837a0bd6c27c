/**
 * Properties of the calendar content provider's model: how many rows fit
 * and how many the two loops draw, the all-day rule, the order of the
 * agenda, and the item the source shares between the components of one
 * event.
 */
module CalProperties {
  import opened PyNum
  import opened Optional
  import opened Canvas
  import opened AgendaSort
  import opened CalContent

  // --- capacity ---------------------------------------------------------------

  /** Below a cursor above the status line, `get_max_entries` rows fit and
      one more would not. */
  lemma MaxEntriesFit(o: Options, y: int)
    requires o.heightE > 0 && y <= o.height - o.heightS
    ensures var n := MaxEntries(o, y);
            && n >= 0
            && RowTop(y, o.heightE, n) <= o.height - o.heightS
            && RowTop(y, o.heightE, n + 1) > o.height - o.heightS
  {
    var n, h := MaxEntries(o, y), o.heightE;
    var room := o.height - o.heightS - y;
    assert 0 <= room - n * h < h;
    MultipleApart(n, h);
    RowTopIsProduct(y, h, n);
    RowTopIsProduct(y, h, n + 1);
    assert (n + 1) * h == n * h + h;
  }

  /** `int()` truncates toward zero: a cursor less than one row below the
      status line still has a capacity of 0, where floor division gives -1. */
  lemma MaxEntriesTruncates(o: Options, y: int)
    requires o.heightE > 0
    requires o.height - o.heightS < y < o.height - o.heightS + o.heightE
    ensures MaxEntries(o, y) == 0
    ensures (o.height - o.heightS - y) / o.heightE == -1
  {
    var a := o.height - o.heightS - y;
    DivUnique(a, o.heightE, -1, a + o.heightE);
  }

  /** The capacity is negative exactly when the cursor is at least one row
      below the status line. */
  lemma MaxEntriesNegative(o: Options, y: int)
    requires o.heightE > 0
    ensures MaxEntries(o, y) < 0 <==> y >= o.height - o.heightS + o.heightE
  {
    TruncDivNegative(o.height - o.heightS - y, o.heightE);
  }

  /** The corrected loop draws as many rows as fit: every drawn row ends
      above the status line, and when an entry is left over, one more row
      would not fit. */
  lemma FittingRowsFit(o: Options, y: int, n: nat)
    requires o.heightE > 0
    ensures var k := FittingRows(o, y, n);
            && (k >= 1 ==> RowTop(y, o.heightE, k) <= o.height - o.heightS)
            && (k < n ==> RowTop(y, o.heightE, k + 1) > o.height - o.heightS)
  {
    var k, m := FittingRows(o, y, n), MaxEntries(o, y);
    RowTopIsProduct(y, o.heightE, k);
    RowTopIsProduct(y, o.heightE, k + 1);
    if y <= o.height - o.heightS {
      MaxEntriesFit(o, y);
      RowTopIsProduct(y, o.heightE, m);
      RowTopIsProduct(y, o.heightE, m + 1);
    } else {
      MaxEntriesNegative(o, y);
      if m == 0 {
        assert y + o.heightE > o.height - o.heightS;
      }
    }
  }

  /** The loop as written stops only once the cursor is at least one row
      below the status line, and the row before that still started above
      that point: with enough entries it draws past the status line. */
  lemma {:induction false} AsWrittenStopsBelow(o: Options, y: int, n: nat)
    requires o.heightE > 0
    ensures var k := AsWrittenRows(o, y, n);
            && (1 <= k < n ==> RowTop(y, o.heightE, k) >= o.height - o.heightS + o.heightE)
            && (k >= 2 ==> RowTop(y, o.heightE, k - 1) < o.height - o.heightS + o.heightE)
    decreases n
  {
    var h := o.heightE;
    var k := AsWrittenRows(o, y, n);
    if n >= 1 {
      MaxEntriesNegative(o, y + h);
      if 0 <= MaxEntries(o, y + h) {
        AsWrittenStopsBelow(o, y + h, n - 1);
        RowTopShift(y, h, k);
        if k >= 2 {
          RowTopShift(y, h, k - 1);
        }
      }
    }
  }

  /** Rows counted from one row further down. */
  lemma RowTopShift(y: int, h: int, k: nat)
    requires k >= 1
    ensures RowTop(y, h, k) == RowTop(y + h, h, k - 1)
  {
    RowTopIsProduct(y, h, k);
    RowTopIsProduct(y + h, h, k - 1);
  }

  /** With the default screen, the cursor at 100 and ten entries, the loop
      as written draws six rows, the last two below the status line at 281,
      where four rows fit. */
  lemma AsWrittenOverrun()
    ensures AsWrittenRows(DefaultOptions(), 100, 10) == 6
    ensures RowTop(100, 40, 6) == 340 > DefaultOptions().height - DefaultOptions().heightS
    ensures FittingRows(DefaultOptions(), 100, 10) == 4
  {
    var o := DefaultOptions();
    assert MaxEntries(o, 340) == -1;
    assert AsWrittenRows(o, 300, 5) == 1;
    assert MaxEntries(o, 300) == 0 && AsWrittenRows(o, 260, 6) == 2;
    assert MaxEntries(o, 260) == 0 && AsWrittenRows(o, 220, 7) == 3;
    assert MaxEntries(o, 220) == 1 && AsWrittenRows(o, 180, 8) == 4;
    assert MaxEntries(o, 180) == 2 && AsWrittenRows(o, 140, 9) == 5;
    assert MaxEntries(o, 140) == 3;
    assert MaxEntries(o, 100) == 4;
  }

  // --- items and entries -----------------------------------------------------

  /** The times of a kept component: a missing start is today's midnight,
      a date is its midnight, a naive time is localized and an aware one is
      kept; the end is start plus duration, else `dtend`, else the end of
      today; it has not passed (an end exactly at now is kept), and it is
      cut to the end of today only when it falls on another day of the
      month than the start. */
  lemma EventTimes(c: Clock, z: Zone, comp: Component)
    requires ComponentItem(c, z, comp).Some?
    ensures var it := ComponentItem(c, z, comp).value;
            var raw := RawEnd(c, z, comp);
            && (comp.dtstart.None? ==> it.start == Localize(z, StartOfDay(c)))
            && (comp.dtstart.Some? && comp.dtstart.value.DateValue? ==>
                  it.start == Localize(z, comp.dtstart.value.day * MicrosPerDay))
            && (comp.dtstart.Some? && comp.dtstart.value.NaiveValue? ==>
                  it.start == Localize(z, comp.dtstart.value.wall))
            && (comp.dtstart.Some? && comp.dtstart.value.AwareValue? ==> it.start == comp.dtstart.value.at)
            && (comp.duration.Some? ==> Instant(raw) == Instant(it.start) + comp.duration.value)
            && (comp.duration.None? && comp.dtend.None? ==> raw == Localize(z, EndOfDay(c)))
            && (comp.duration.None? && comp.dtend.Some? && comp.dtend.value.AwareValue? ==>
                  raw == comp.dtend.value.at)
            && Instant(Now(c)) <= Instant(raw)
            && (DayOf(c, raw) == DayOf(c, it.start) ==> it.end == raw)
            && (DayOf(c, raw) != DayOf(c, it.start) ==> it.end == Localize(c.local, EndOfDay(c)))
  {
  }

  /** Entry `k` of a calendar is its item `k`: the two clock labels on the
      system's clock, (summary, location) and the calendar's colour. */
  lemma {:induction false} EntriesOfAt(c: Clock, items: seq<Item>, color: Color, k: nat)
    requires k < |items|
    ensures var e := EntriesOf(c, items, color)[k];
            && e.start == ClockLabel(ToSystem(c, items[k].start))
            && e.end == ClockLabel(ToSystem(c, items[k].end))
            && Time(e) == e.start + "-" + e.end
            && e.text == (items[k].summary, items[k].location)
            && e.color == color
    decreases |items|
  {
    if k < |items| - 1 {
      EntriesOfAt(c, items[..|items| - 1], color, k);
    }
  }

  // --- the agenda -------------------------------------------------------------

  /** The agenda exists exactly when no calendar raises. */
  lemma {:induction false} AllEntriesSomeIff(b: ItemBuild, cals: seq<CalInfo>, replies: seq<CalReply>, cmap: map<string, Color>, n: nat)
    requires n <= |cals| == |replies|
    ensures AllEntries(b, cals, replies, cmap, n).Some? <==>
              forall i :: 0 <= i < n ==> CalEntries(b, cals[i], replies[i], cmap).Some?
  {
    if n > 0 {
      AllEntriesSomeIff(b, cals, replies, cmap, n - 1);
      var last := CalEntries(b, cals[n - 1], replies[n - 1], cmap);
      if AllEntries(b, cals, replies, cmap, n - 1).None? {
        var i :| 0 <= i < n - 1 && CalEntries(b, cals[i], replies[i], cmap).None?;
      } else if last.None? {
        assert AllEntries(b, cals, replies, cmap, n).None?;
      } else {
        assert AllEntries(b, cals, replies, cmap, n).Some?;
      }
    }
  }

  lemma AgendaSomeIff(b: ItemBuild, cals: seq<CalInfo>, replies: seq<CalReply>, cmap: map<string, Color>)
    requires |cals| == |replies|
    ensures Agenda(b, cals, replies, cmap).Some? <==>
              forall i :: 0 <= i < |cals| ==> CalEntries(b, cals[i], replies[i], cmap).Some?
  {
    AllEntriesSomeIff(b, cals, replies, cmap, |cals|);
  }

  /** The agenda is in time-string order. */
  lemma AgendaSorted(b: ItemBuild, cals: seq<CalInfo>, replies: seq<CalReply>, cmap: map<string, Color>)
    requires |cals| == |replies|
    ensures Agenda(b, cals, replies, cmap).Some? ==> SortedBy(TimeKey, Agenda(b, cals, replies, cmap).value)
  {
    var all := AllEntries(b, cals, replies, cmap, |cals|);
    if all.Some? {
      SortBySorted(TimeKey, all.value);
    }
  }

  /** The agenda holds every calendar's entries, each as often as it was
      collected. */
  lemma AgendaPermutes(b: ItemBuild, cals: seq<CalInfo>, replies: seq<CalReply>, cmap: map<string, Color>)
    requires |cals| == |replies|
    ensures Agenda(b, cals, replies, cmap).Some? ==>
              multiset(Agenda(b, cals, replies, cmap).value) == multiset(AllEntries(b, cals, replies, cmap, |cals|).value)
  {
    var all := AllEntries(b, cals, replies, cmap, |cals|);
    if all.Some? {
      SortByPermutes(TimeKey, all.value);
    }
  }

  /** Entries with the same time string keep their collection order:
      calendars in configuration order, events in server order. */
  lemma AgendaStable(b: ItemBuild, cals: seq<CalInfo>, replies: seq<CalReply>, cmap: map<string, Color>, t: string)
    requires |cals| == |replies|
    ensures Agenda(b, cals, replies, cmap).Some? ==>
              WithKey(TimeKey, t, Agenda(b, cals, replies, cmap).value)
                == WithKey(TimeKey, t, AllEntries(b, cals, replies, cmap, |cals|).value)
  {
    var all := AllEntries(b, cals, replies, cmap, |cals|);
    if all.Some? {
      SortByStable(TimeKey, t, all.value);
    }
  }

  /** When every calendar answers with no events, the agenda is empty, and
      the draw as written reaches the unbound name. */
  lemma {:induction false} NoEventsEmpty(b: ItemBuild, cals: seq<CalInfo>, replies: seq<CalReply>, cmap: map<string, Color>, n: nat)
    requires n <= |cals| == |replies|
    requires forall i :: 0 <= i < |replies| ==> replies[i].events == Some([])
    ensures AllEntries(b, cals, replies, cmap, n) == Some([])
  {
    if n > 0 {
      NoEventsEmpty(b, cals, replies, cmap, n - 1);
      assert replies[n - 1].events == Some([]);
      assert CalItems(b, replies[n - 1].clock, []) == [];
      assert CalEntries(b, cals[n - 1], replies[n - 1], cmap) == Some([]);
      var none: seq<Entry> := [];
      assert none + none == none;
    }
  }

  lemma NoEventsAgenda(b: ItemBuild, cals: seq<CalInfo>, replies: seq<CalReply>, cmap: map<string, Color>)
    requires |cals| == |replies|
    requires forall i :: 0 <= i < |replies| ==> replies[i].events == Some([])
    ensures Agenda(b, cals, replies, cmap) == Some([])
  {
    NoEventsEmpty(b, cals, replies, cmap, |cals|);
  }

  // --- all-day events ---------------------------------------------------------

  /** The system zone gives a datetime its own offset at its instant, so
      `astimezone()` leaves its wall clock as it is. */
  predicate OnSystemClock(c: Clock, d: DateTime)
  {
    c.systemOffset(Instant(d)) == d.offset
  }

  lemma SystemWall(c: Clock, d: DateTime)
    requires OnSystemClock(c, d)
    ensures ToSystem(c, d).wall == d.wall
  {
  }

  /** An event of today given by date only (no end, or ending on the next
      date) becomes an entry with the time string "00:00-23:59", whose
      times are not printed, as long as the system zone shows its start
      and end on their own clocks. */
  lemma AllDayEntry(c: Clock, z: Zone, comp: Component, color: Color)
    requires comp.name == "VEVENT" && comp.dtstart == Some(DateValue(c.today)) && comp.duration.None?
    requires comp.dtend.None?
             || (comp.dtend == Some(DateValue(c.today + 1)) && c.dayOfMonth(c.today + 1) != c.dayOfMonth(c.today))
    requires Instant(Now(c)) <= Instant(RawEnd(c, z, comp))
    requires OnSystemClock(c, Localize(z, StartOfDay(c)))
    requires OnSystemClock(c, Localize(if comp.dtend.None? then z else c.local, EndOfDay(c)))
    ensures ComponentItem(c, z, comp).Some?
    ensures Time(MakeEntry(c, ComponentItem(c, z, comp).value, color)) == AllDay
  {
    var it := ComponentItem(c, z, comp).value;
    assert it.start == Localize(z, StartOfDay(c));
    var endZone := if comp.dtend.None? then z else c.local;
    assert (c.today * MicrosPerDay + MicrosPerDay - 1) / MicrosPerDay == c.today;
    assert (c.today * MicrosPerDay) / MicrosPerDay == c.today;
    assert ((c.today + 1) * MicrosPerDay) / MicrosPerDay == c.today + 1;
    assert it.end == Localize(endZone, EndOfDay(c));
    SystemWall(c, it.start);
    SystemWall(c, it.end);
    LabelAt(ToSystem(c, it.start), 0, 0, 0);
    LabelAt(ToSystem(c, it.end), MicrosPerDay - 1, 23, 59);
    assert TwoDigits(0) == "00" && TwoDigits(23) == "23" && TwoDigits(59) == "59";
  }

  /** The label of a wall clock at a given time of day. */
  lemma LabelAt(d: DateTime, t: int, hh: int, mm: int)
    requires 0 <= t < MicrosPerDay && d.wall % MicrosPerDay == t
    requires 0 <= hh < 24 && 0 <= mm < 60
    requires t / MicrosPerHour == hh && t % MicrosPerHour / MicrosPerMinute == mm
    ensures ClockLabel(d) == TwoDigits(hh) + ":" + TwoDigits(mm)
  {
  }

  // --- the shared item --------------------------------------------------------

  /** The number of event components in a calendar object. */
  function EventCount(comps: seq<Component>): (k: nat)
    ensures k <= |comps|
  {
    if comps == [] then 0
    else EventCount(comps[..|comps| - 1]) + (if comps[|comps| - 1].name == "VEVENT" then 1 else 0)
  }

  /** The source appends the dictionary once per kept component: the count
      is right, only the contents are shared. */
  lemma {:induction false} DictAfterCount(c: Clock, z: Zone, comps: seq<Component>)
    ensures DictAfter(c, z, comps).1 == |ComponentItems(c, z, comps)|
    decreases |comps|
  {
    if comps != [] {
      DictAfterCount(c, z, comps[..|comps| - 1]);
    }
  }

  /** When the last component is kept, every copy on the agenda list shows
      that last component's item. */
  lemma AsWrittenRepeatsLast(c: Clock, e: CalEvent)
    requires e.components != []
    requires ComponentItem(c, EventZone(c, e), e.components[|e.components| - 1]).Some?
    ensures var items := ComponentItems(c, EventZone(c, e), e.components);
            EventItemsAsWritten(c, e) == Repeat(items[|items| - 1], |items|)
  {
    DictAfterCount(c, EventZone(c, e), e.components);
  }

  /** With at most one event component the dictionary holds one item at a
      time: either nothing was kept, or the one kept component's item. */
  lemma {:induction false} DictAfterSingle(c: Clock, z: Zone, comps: seq<Component>)
    requires EventCount(comps) <= 1
    ensures var st := DictAfter(c, z, comps);
            var items := ComponentItems(c, z, comps);
            && st.1 == |items| <= EventCount(comps)
            && (EventCount(comps) == 0 ==> st == (ItemDict(None, None, None, None), 0))
            && (st.1 == 1 ==> items == [Item(st.0.start.value, st.0.end.value, st.0.summary.value, st.0.location.value)])
    decreases |comps|
  {
    if comps != [] {
      DictAfterSingle(c, z, comps[..|comps| - 1]);
    }
  }

  /** For objects with at most one event component the source's shared
      item does no harm.  A recurrence the server expands into several
      instances of the day comes back as one object with several event
      components, and there it does (SharedItemExample). */
  lemma EventItemsAgree(c: Clock, e: CalEvent)
    requires EventCount(e.components) <= 1
    ensures EventItemsAsWritten(c, e) == ComponentItems(c, EventZone(c, e), e.components)
  {
    DictAfterSingle(c, EventZone(c, e), e.components);
    var st := DictAfter(c, EventZone(c, e), e.components);
    if st.1 == 1 {
      var it := Item(st.0.start.value, st.0.end.value, st.0.summary.value, st.0.location.value);
      assert Repeat(it, 1) == [it];
    }
  }

  /** The two builds agree on a calendar whose objects have at most one
      event component each. */
  lemma {:induction false} CalItemsAgree(c: Clock, events: seq<CalEvent>)
    requires forall i :: 0 <= i < |events| ==> EventCount(events[i].components) <= 1
    ensures CalItems(SharedDict, c, events) == CalItems(PerComponent, c, events)
    decreases |events|
  {
    if events != [] {
      CalItemsAgree(c, events[..|events| - 1]);
      EventItemsAgree(c, events[|events| - 1]);
    }
  }

  /** Every object a calendar returned has at most one event component. */
  predicate SingleInstance(reply: CalReply)
  {
    reply.events.Some? ==>
      forall j :: 0 <= j < |reply.events.value| ==> EventCount(reply.events.value[j].components) <= 1
  }

  predicate SingleInstances(replies: seq<CalReply>)
  {
    forall i :: 0 <= i < |replies| ==> SingleInstance(replies[i])
  }

  lemma CalEntriesAgree(info: CalInfo, reply: CalReply, cmap: map<string, Color>)
    requires SingleInstance(reply)
    ensures CalEntries(SharedDict, info, reply, cmap) == CalEntries(PerComponent, info, reply, cmap)
  {
    if reply.events.Some? {
      CalItemsAgree(reply.clock, reply.events.value);
    }
  }

  lemma {:induction false} AllEntriesAgree(cals: seq<CalInfo>, replies: seq<CalReply>, cmap: map<string, Color>, n: nat)
    requires n <= |cals| == |replies|
    requires SingleInstances(replies)
    ensures AllEntries(SharedDict, cals, replies, cmap, n) == AllEntries(PerComponent, cals, replies, cmap, n)
  {
    if n > 0 {
      AllEntriesAgree(cals, replies, cmap, n - 1);
      CalEntriesAgree(cals[n - 1], replies[n - 1], cmap);
      assert AllEntries(SharedDict, cals, replies, cmap, n - 1) == AllEntries(PerComponent, cals, replies, cmap, n - 1);
      assert CalEntries(SharedDict, cals[n - 1], replies[n - 1], cmap) == CalEntries(PerComponent, cals[n - 1], replies[n - 1], cmap);
    }
  }

  /** Without objects of several event components, the agenda as written
      is the corrected one. */
  lemma AgendaAgree(cals: seq<CalInfo>, replies: seq<CalReply>, cmap: map<string, Color>)
    requires |cals| == |replies|
    requires SingleInstances(replies)
    ensures Agenda(SharedDict, cals, replies, cmap) == Agenda(PerComponent, cals, replies, cmap)
  {
    AllEntriesAgree(cals, replies, cmap, |cals|);
  }

  /** A clock at midnight of day 0 in UTC, on a month whose days all
      have the same number. */
  function UtcMidnight(): Clock
  {
    Clock(0, 0, Zone(w => 0), i => 0, d => 1)
  }

  /** An event component from `w0` to `w1` (naive times) with a summary. */
  function Timed(w0: int, w1: int, summary: string): Component
  {
    Component("VEVENT", Some(NaiveValue(w0)), Some(NaiveValue(w1)), None, Some(summary), None)
  }

  /** A component that has not ended at midnight is kept unclipped. */
  lemma TimedItem(w0: int, w1: int, summary: string)
    requires 0 <= w1
    ensures ComponentItem(UtcMidnight(), UtcMidnight().local, Timed(w0, w1, summary))
              == Some(Item(DateTime(w0, 0), DateTime(w1, 0), summary, ""))
  {
    var c := UtcMidnight();
    var comp := Timed(w0, w1, summary);
    var start, end := DateTime(w0, 0), DateTime(w1, 0);
    assert c.local.offsetAt(w0) == 0 && c.local.offsetAt(w1) == 0 && c.local.offsetAt(0) == 0;
    assert StartOf(c, c.local, comp) == start;
    assert RawEnd(c, c.local, comp) == end;
    assert Instant(Now(c)) == 0;
    UtcDay(start);
    UtcDay(end);
    assert ClippedEnd(c, start, end) == end;
  }

  lemma UtcDay(d: DateTime)
    ensures DayOf(UtcMidnight(), d) == 1
  {
    var n := d.wall / MicrosPerDay;
    assert UtcMidnight().dayOfMonth(n) == 1;
  }

  /** Two kept components give their two items in order. */
  lemma TwoKeptItems(c: Clock, z: Zone, a: Component, b: Component)
    requires ComponentItem(c, z, a).Some? && ComponentItem(c, z, b).Some?
    ensures ComponentItems(c, z, [a, b]) == [ComponentItem(c, z, a).value, ComponentItem(c, z, b).value]
  {
    assert [a, b][..1] == [a] && [a][..0] == [];
  }

  /** As the source builds it, an object with two kept components lists the
      second component's item twice. */
  lemma TwoKeptAsWritten(c: Clock, e: CalEvent)
    requires |e.components| == 2
    requires ComponentItem(c, EventZone(c, e), e.components[0]).Some?
    requires ComponentItem(c, EventZone(c, e), e.components[1]).Some?
    ensures var ib := ComponentItem(c, EventZone(c, e), e.components[1]).value;
            EventItemsAsWritten(c, e) == [ib, ib]
  {
    var z, a, b := EventZone(c, e), e.components[0], e.components[1];
    assert e.components == [a, b];
    assert [a, b][..1] == [a] && [a][..0] == [];
    var ib := ComponentItem(c, z, b).value;
    assert DictAfter(c, z, [a]).1 == 1;
    assert DictAfter(c, z, [a, b]) == (ItemDict(Some(ib.start), Some(ib.end), Some(ib.summary), Some(ib.location)), 2);
    assert Repeat(ib, 2) == [ib, ib];
  }

  /** An object with two kept event components, "a" from 9 to 10 and "b"
      from 11 to 12, at midnight in UTC: the source lists "b" twice, one
      item per component lists both. */
  lemma SharedItemExample()
    ensures var c := UtcMidnight();
            var e := CalEvent(None, [Timed(9 * MicrosPerHour, 10 * MicrosPerHour, "a"),
                                     Timed(11 * MicrosPerHour, 12 * MicrosPerHour, "b")]);
            var ia := Item(DateTime(9 * MicrosPerHour, 0), DateTime(10 * MicrosPerHour, 0), "a", "");
            var ib := Item(DateTime(11 * MicrosPerHour, 0), DateTime(12 * MicrosPerHour, 0), "b", "");
            && ComponentItems(c, EventZone(c, e), e.components) == [ia, ib]
            && EventItemsAsWritten(c, e) == [ib, ib]
  {
    var c := UtcMidnight();
    var a, b := Timed(9 * MicrosPerHour, 10 * MicrosPerHour, "a"), Timed(11 * MicrosPerHour, 12 * MicrosPerHour, "b");
    var e := CalEvent(None, [a, b]);
    assert EventZone(c, e) == c.local;
    TimedItem(9 * MicrosPerHour, 10 * MicrosPerHour, "a");
    TimedItem(11 * MicrosPerHour, 12 * MicrosPerHour, "b");
    TwoKeptItems(c, c.local, a, b);
    TwoKeptAsWritten(c, e);
  }
}
