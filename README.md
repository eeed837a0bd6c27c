# pi-e-ink-daily: a Dafny model of the agenda and weather layout

pi-e-ink-daily renders a daily overview on an e-ink display. The overview
has four parts:
- a title;
- a box with today's day of the month;
- a content area;
- a status line with the update time.

The content area is filled by a content provider:
- **Calendar provider.** It reads today's events from CalDAV calendars and
  sorts them by their "HH:MM-HH:MM" time string. It then draws one
  fixed-height row per entry below a shared vertical cursor.
- **Weather provider.** It reads an OpenWeatherMap one-call forecast and
  draws two rows of four tiles: the current temperature, three hours of
  the day, and the next four days.

This project models that logic in Dafny and proves properties about it.

The model has one module per part of the system:

- **`PyNum`** (`py_num.dfy`) gives the Python semantics the layout relies on:
  - `int(a / b)`, which truncates toward zero, unlike Dafny's Euclidean `/`;
  - negative list indices;
  - `str()` of an integer;
  - two-digit `%H`/`%M` fields.
- **`Canvas`** (`canvas.dfy`) holds:
  - the option record, with the application's defaults;
  - fonts, text extents, placeholder images and drawn shapes.

  The image is the ordered log of the primitives drawn into it. Font
  metrics are a function from (font, text) to an extent.
- **`DailyAgendaScreen`** (`daily_agenda.py`'s `DailyAgenda`) is a class.
  - Its fields are the cursor `yOff`, the status code `rc` and the drawing.
  - It also carries the attributes the providers read from the screen: the
    colour maps, the font metrics and the image primitive. `daily_agenda.py`
    does not define these.
- **`OWM`** (`OWMData.py`) holds:
  - the compass quantisation, in exact integers;
  - the parsing of one sample;
  - the `OWMData` class, whose `Update` replaces the current sample and
    clears and refills the hourly and daily lists.
- **`WeatherContent`** (`WeatherContentProvider.py`) holds:
  - the condition-code lookup;
  - the hour selection;
  - the tile geometry;
  - the provider class, whose drawing methods extend the drawing log and
    move the cursor.
- **`AgendaSort`** holds:
  - Python's string order;
  - the stable sort `list.sort(key=...)`, written as an insertion sort.
- **`CalContent`** (`CalContentProvider.py`) holds:
  - time values and time zones;
  - the item of one event component, the entry of one item, and the agenda;
  - the row layout;
  - the provider class, with the agenda collection and the two drawing loops.
    The agenda is built either as the source builds it, with one shared
    item dictionary per calendar object (`SharedDict`), or with one item
    per kept component (`PerComponent`).
- **`CalProperties`** holds the properties proved about the calendar
  provider:
  - how many rows fit and how many each loop draws;
  - which events are all-day rows;
  - the order of the agenda;
  - the item the source shares between the components of one event, and
    when the two builds of the agenda agree.

Times are microseconds, the resolution of Python's `datetime`. An aware
datetime is its wall-clock reading with its UTC offset, and it compares by
the instant it denotes. Time zones are functions from a wall-clock time to
an offset.

Each operation that changes state is a method, proved against a function
that describes its result:
- `DrawEntry` against `EntryShapes`;
- `DrawRow` against `TileRow`;
- `Update` against `ParsePrefix`;
- `GetAgenda` against `Agenda`;
- `DrawEntries` against `Rows` and `FittingRows`.

The properties the source promises are lemmas about those functions.

## Model

| member | source | states |
|---|---|---|
| PyNum.TruncDiv | files/usr/local/bin/CalContentProvider.py:35-37 | `int(a / b)` for positive `b`: the remainder `a - q*b` lies in `[0, b)` for non-negative `a` and in `(-b, 0]` for negative `a` |
| PyNum.DivUnique | files/usr/local/bin/CalContentProvider.py:35-37 | Euclidean division is fixed by its quotient-remainder equation |
| PyNum.TruncDivVersusFloor | files/usr/local/bin/CalContentProvider.py:35-37 | truncation equals Dafny's `/` on non-negative numerators and on multiples, and is one more on negative non-multiples |
| PyNum.TruncDivNegative | files/usr/local/bin/CalContentProvider.py:35-37 | the truncated quotient is negative exactly when the numerator is at most minus the divisor |
| PyNum.PyIndex | files/usr/local/bin/WeatherContentProvider.py:203-204 | `s[i]` with a negative `i` counts from the end |
| PyNum.DecimalStringDigits | files/usr/local/bin/WeatherContentProvider.py:80 | `str(n)` of a natural number is a non-empty string of decimal digits |
| PyNum.PyStr | files/usr/local/bin/WeatherContentProvider.py:80 | `str(i)` is non-empty and starts with '-' exactly for negative `i` |
| PyNum.ParseDecimalString | files/usr/local/bin/WeatherContentProvider.py:80 | reading `str(n)` back as a decimal number gives `n` |
| PyNum.DecimalStringInjective | files/usr/local/bin/WeatherContentProvider.py:80 | different numbers have different decimal strings |
| PyNum.DecimalStringHead | files/usr/local/bin/WeatherContentProvider.py:85 | the first character of `str(n)` is the leading decimal digit of `n` |
| PyNum.TwoDigits | files/usr/local/bin/CalContentProvider.py:104-105 | a `%H` or `%M` field has two characters and reads back as its value |
| Canvas.DefaultOptions | files/usr/local/bin/daily_agenda.py:37-58 | the built-in options have a positive entry height, and their status line sits at 300 - 19 = 281 |
| DailyAgendaScreen.DailyAgenda.constructor | files/usr/local/bin/daily_agenda.py:65-69 | a new screen has a WIDTH x HEIGHT image filled with 255, the cursor at 0, status code 0 and nothing drawn |
| DailyAgendaScreen.DailyAgenda.DrawHLine | files/usr/local/bin/daily_agenda.py:92-96 | appends one rule at `y` from x = 0 to x = WIDTH in the line colour; the cursor stays |
| DailyAgendaScreen.DailyAgenda.DrawTitle | files/usr/local/bin/daily_agenda.py:100-105 | appends the title text at (20, 20) |
| DailyAgendaScreen.DailyAgenda.DayBoxShapes | files/usr/local/bin/daily_agenda.py:112-122 | the day box spans x from `WIDTH - day_w - 2*MARGINS[0]` to `WIDTH + 1` and y from 0 to `day_h + 2*MARGINS[3] + 1`, and its rule is at that bottom |
| DailyAgendaScreen.DailyAgenda.DrawDay | files/usr/local/bin/daily_agenda.py:109-125 | draws the day box of `str(day)` and sets the cursor to `day_h + 2*MARGINS[3] + 1 + 2` |
| DailyAgendaScreen.DailyAgenda.EntryShapes | files/usr/local/bin/daily_agenda.py:129-164 | every text is in TEXT_COLOR, never in the computed shaded colour; a background exists exactly when `shade` is set and spans y + 1 to y + HEIGHT_E + 1; the last shape is a rule at y + HEIGHT_E + 2 |
| DailyAgendaScreen.DailyAgenda.DrawEntry | files/usr/local/bin/daily_agenda.py:129-164 | advances the cursor by exactly HEIGHT_E + 2 and appends the row's shapes |
| DailyAgendaScreen.DailyAgenda.DrawStatus | files/usr/local/bin/daily_agenda.py:170-180 | appends the rule at HEIGHT - HEIGHT_S and the "Updated: ..." text two pixels below it; the cursor is unchanged |
| DailyAgendaScreen.DailyAgenda.DrawImage | files/usr/local/bin/CalContentProvider.py:179 | pasting a placeholder image appends it and moves nothing |
| OWM.TruncReal | files/usr/local/bin/OWMData.py:59 | `int(x)` of a float truncates toward zero |
| OWM.WindBand | files/usr/local/bin/OWMData.py:59 | for non-negative degrees the index is `k` exactly on the band `45k - 22 .. 45k + 22` (0-22 north, 23-67 north-east, ..., 338-382 north) |
| OWM.WindRange | files/usr/local/bin/OWMData.py:29-59 | the index lies inside the nine-entry table, counting Python's negative indices, exactly for -472 <= d <= 382 |
| OWM.WindDirectionIsNearestPoint | files/usr/local/bin/OWMData.py:29-59 | for 0 <= d <= 382 the nine-entry table, with north at both ends, gives the compass point nearest to `d` |
| OWM.WindExamples | files/usr/local/bin/OWMData.py:59 | 0, 22, 338 and 360 degrees are "N"; 23, 44 and 45 are "NE"; 337 is "NW" |
| OWM.ParseDataFields | files/usr/local/bin/OWMData.py:42-62 | a sample parses exactly when its `weather` list is non-empty and its compass index is in range; a scalar temperature becomes temp, min and max; a structured one is read from day, min, max; id and icon come from the first weather entry; the other fields are copied |
| OWM.PrefixParsedSound | files/usr/local/bin/OWMData.py:81-82 | each appended result is the parse of the element at its position, and appending stops at the first element that fails |
| OWM.PrefixParsedAppend | files/usr/local/bin/OWMData.py:81-87 | once a prefix parses completely, parsing distributes over concatenation |
| OWM.PrefixParsedStep | files/usr/local/bin/OWMData.py:81-82 | one more element extends the parsed list by its result, or parsing stops there for good |
| OWM.ParsePrefix | files/usr/local/bin/OWMData.py:81-87 | the parsed samples are the parses of the input's first samples, in order, up to the first one that fails |
| OWM.ParsePrefixStep | files/usr/local/bin/OWMData.py:81-87 | the refill loop's step: one more sample appends its parse or ends the loop |
| OWM.OWMData.constructor | files/usr/local/bin/OWMData.py:31-38 | a new object has no current sample and empty hourly and daily lists |
| OWM.OWMData.Update | files/usr/local/bin/OWMData.py:66-87 | the update succeeds exactly when the fetch and every sample parse; a failed fetch or current sample changes nothing; otherwise the lists are rebuilt from the response alone, so earlier contents never survive, and a complete update leaves each list with the response's samples in response order |
| WeatherContent.CategoryTableAgrees | files/usr/local/bin/WeatherContentProvider.py:41-46 | looking up the first character of `str(id)` in ID_MAP2 is looking up the leading digit of a positive code in the category table |
| WeatherContent.MapIdMatchesValue | files/usr/local/bin/WeatherContentProvider.py:77-88 | the string lookup agrees, for every code, with a reference definition on integer values |
| WeatherContent.MapIdDefinedExactly | files/usr/local/bin/WeatherContentProvider.py:77-88 | a code has a glyph exactly when it is in ID_MAP1 or is positive with leading digit 2, 3, 5 or 6 |
| WeatherContent.MapIdExactExamples | files/usr/local/bin/WeatherContentProvider.py:28-40 | the exact table beats the category: 201 gives '6', not '8', and 800 gives '1' |
| WeatherContent.MapIdCategoryExamples | files/usr/local/bin/WeatherContentProvider.py:41-46 | 210 falls back to '8' and 615 to '5' |
| WeatherContent.MapIdUnmappedExamples | files/usr/local/bin/WeatherContentProvider.py:85-88 | 701 and 900 get no glyph at all |
| WeatherContent.MapIdTotal | files/usr/local/bin/WeatherContentProvider.py:87-88 | the intended lookup: the glyph where the tables give one, ':' otherwise |
| WeatherContent.SelectHours | files/usr/local/bin/WeatherContentProvider.py:189-201 | `h_min <= h_mid <= h_max <= 23`; before 18:00 the hours lie in 8..21; up to 21:00 the row does not start before now; `h_mid` is the mean of the other two, rounded down |
| WeatherContent.HourOffsets | files/usr/local/bin/WeatherContentProvider.py:203 | there are three offsets, each in -2..20, and they are all non-negative exactly when `h_now <= 21` |
| WeatherContent.HourPolicy | files/usr/local/bin/WeatherContentProvider.py:189-204 | the hours case by case (before 8, 8-17, 18-20, from 21); at 22:00 and 23:00 the negative offsets select samples from the end of the hourly list |
| WeatherContent.HourOf | files/usr/local/bin/WeatherContentProvider.py:189 | the hour of a time of day is in 0..23 |
| WeatherContent.TileSize | files/usr/local/bin/WeatherContentProvider.py:70-73 | the width is WIDTH/4 and the height half the room between the cursor and the status line, both truncated toward zero: two tile heights fall short of the room by 0 or 1 above the status line, and exceed the (negative) room by 0 or 1 below it |
| WeatherContent.CentredStack | files/usr/local/bin/WeatherContentProvider.py:105-128 | one text primitive per stacked text |
| WeatherContent.TileShapes | files/usr/local/bin/WeatherContentProvider.py:105-155 | a tile draws three texts |
| WeatherContent.TileLayout | files/usr/local/bin/WeatherContentProvider.py:105-155 | each text is centred in the tile; the temperature is one pixel below the label and the glyph one pixel below the temperature; the label and temperature are in TEXT_COLOR, the glyph in DSEG_COLOR |
| WeatherContent.ColumnXIsProduct | files/usr/local/bin/WeatherContentProvider.py:205 | after `k` tiles the column offset is `x + k * width4` |
| WeatherContent.TileRow | files/usr/local/bin/WeatherContentProvider.py:203-208 | each tile of a row contributes three texts and one rule |
| WeatherContent.TileRowRule | files/usr/local/bin/WeatherContentProvider.py:205-208 | the rule after tile `k` is that tile's last shape and sits at its right edge |
| WeatherContent.TileRowRules | files/usr/local/bin/WeatherContentProvider.py:205-222 | the rules of a row sit at `x + k * width4` for k = 1 .. n |
| WeatherContent.HourSamples | files/usr/local/bin/WeatherContentProvider.py:203-204 | the hourly row shows three samples |
| WeatherContent.WeatherCursorBound | files/usr/local/bin/WeatherContentProvider.py:210-224 | a cursor that starts above the status line moves down by twice the tile height and stays above it; below the status line it does not move down |
| WeatherContent.WeatherContentProvider.constructor | files/usr/local/bin/WeatherContentProvider.py:50-52 | the provider keeps its screen and settings and uses the corrected glyph lookup `MapIdTotal` |
| WeatherContent.WeatherContentProvider.CalcTileSizes | files/usr/local/bin/WeatherContentProvider.py:66-73 | sets the tile size from the current cursor |
| WeatherContent.WeatherContentProvider.DrawTile | files/usr/local/bin/WeatherContentProvider.py:203-208 | appends one tile and its rule |
| WeatherContent.WeatherContentProvider.DrawNextTile | files/usr/local/bin/WeatherContentProvider.py:203-208 | draws tile `i` after the first `i` tiles of a row |
| WeatherContent.WeatherContentProvider.DrawRow | files/usr/local/bin/WeatherContentProvider.py:203-208 | the `x_off` loop appends the whole row of tiles and rules |
| WeatherContent.WeatherContentProvider.DrawCurrent | files/usr/local/bin/WeatherContentProvider.py:178-186 | appends the centred current temperature and the rule at x = width4 |
| WeatherContent.WeatherContentProvider.DrawHourRow | files/usr/local/bin/WeatherContentProvider.py:203-211 | appends the hour tiles starting at x = width4, moves the cursor down by one tile height and draws the full-width rule there |
| WeatherContent.WeatherContentProvider.DrawDayRow | files/usr/local/bin/WeatherContentProvider.py:213-224 | appends the day tiles starting at x = 0 and moves the cursor down by one tile height |
| WeatherContent.WeatherContentProvider.DrawRows | files/usr/local/bin/WeatherContentProvider.py:203-224 | both rows and the rule between them; the cursor grows by twice the tile height |
| WeatherContent.WeatherContentProvider.DrawForecast | files/usr/local/bin/WeatherContentProvider.py:176-224 | the tile size comes from the starting cursor; the whole block is drawn; the cursor grows by twice the tile height |
| WeatherContent.WeatherContentProvider.Fetch | files/usr/local/bin/WeatherContentProvider.py:163-170 | any failure of the fetch or the parsing sets the status code to 3; on success the object holds the parsed response |
| WeatherContent.WeatherContentProvider.DrawContent | files/usr/local/bin/WeatherContentProvider.py:160-224 | corrected: a non-zero status code draws only the no-connection image and leaves the cursor and the tile size; otherwise the block shows the current sample, the three selected hours and `days[1..4]`, with ':' for an unmapped code, and the cursor grows by twice the tile height |
| WeatherContent.WeatherContentProvider.DrawContentAsWritten | files/usr/local/bin/WeatherContentProvider.py:160-224 | as written: the same outcomes as the corrected version, except that once the fetch succeeded it raises exactly when a shown hour or day has a code neither table covers |
| WeatherContent.WeatherContentProvider.DrawForecastAsWritten | files/usr/local/bin/WeatherContentProvider.py:105-155 | the forecast raises exactly when `_map_id` gives None for a shown icon, the `textsize` of the hour or day icon failing; otherwise it draws the whole block |
| WeatherContent.MistRaises | files/usr/local/bin/WeatherContentProvider.py:150-151 | a shown day with code 701 (mist) makes the source's draw raise |
| AgendaSort.StrLeRefl | files/usr/local/bin/CalContentProvider.py:47 | Python's string order is reflexive |
| AgendaSort.StrLeTotal | files/usr/local/bin/CalContentProvider.py:47 | Python's string order is total |
| AgendaSort.StrLeAntisym | files/usr/local/bin/CalContentProvider.py:47 | Python's string order is antisymmetric |
| AgendaSort.StrLeTrans | files/usr/local/bin/CalContentProvider.py:47 | Python's string order is transitive |
| AgendaSort.WithKey | files/usr/local/bin/CalContentProvider.py:47 | the elements with one key form a subsequence |
| AgendaSort.WithKeyAppend | files/usr/local/bin/CalContentProvider.py:47 | selecting by key distributes over concatenation |
| AgendaSort.Insert | files/usr/local/bin/CalContentProvider.py:47 | insertion adds one element |
| AgendaSort.SortBy | files/usr/local/bin/CalContentProvider.py:47 | sorting keeps the length |
| AgendaSort.InsertPermutes | files/usr/local/bin/CalContentProvider.py:47 | insertion adds exactly the inserted element to the multiset |
| AgendaSort.SortByPermutes | files/usr/local/bin/CalContentProvider.py:47 | the sort is a permutation |
| AgendaSort.InsertSorted | files/usr/local/bin/CalContentProvider.py:47 | inserting into a sorted list keeps it sorted |
| AgendaSort.SortBySorted | files/usr/local/bin/CalContentProvider.py:47 | the sort result is in key order |
| AgendaSort.InsertStable | files/usr/local/bin/CalContentProvider.py:47 | the inserted element lands after every element with its key |
| AgendaSort.SortByStable | files/usr/local/bin/CalContentProvider.py:47 | for every key, the sort keeps the elements with that key in their original order |
| CalContent.ToSystem | files/usr/local/bin/CalContentProvider.py:104-105 | `astimezone()` keeps the instant |
| CalContent.ClockLabel | files/usr/local/bin/CalContentProvider.py:104-105 | `strftime("%H:%M")` has five characters |
| CalContent.ComponentItem | files/usr/local/bin/CalContentProvider.py:79-100 | a component is dropped exactly when it is not a VEVENT or its end, before clipping, is strictly before now; otherwise its item has the computed start, the clipped end, and the summary and location defaulting to "" |
| CalContent.ComponentItems | files/usr/local/bin/CalContentProvider.py:79-101 | at most one item per component |
| CalContent.DictAfter | files/usr/local/bin/CalContentProvider.py:72-101 | the shared dictionary is appended at most once per component, and once appended all four keys are set |
| CalContent.Repeat | files/usr/local/bin/CalContentProvider.py:101 | `n` copies of one value |
| CalContent.EventItemsAsWritten | files/usr/local/bin/CalContentProvider.py:72-101 | the agenda list of one event, as written, holds the dictionary as often as it was appended |
| CalContent.EntriesOf | files/usr/local/bin/CalContentProvider.py:103-107 | one entry per item |
| CalContent.SplitOn | files/usr/local/bin/CalContentProvider.py:136 | `split` returns at least one part |
| CalContent.RowShapes | files/usr/local/bin/CalContentProvider.py:126-165 | the row starts with the background in the entry's colour, from y + 1 to y + HEIGHT_E - 1, across the full width, and ends with a rule at y + HEIGHT_E |
| CalContent.RowShapesTexts | files/usr/local/bin/CalContentProvider.py:140-161 | the time texts are drawn exactly when the time string is not "00:00-23:59", and every text is in the one text colour |
| CalContent.RowTopIsProduct | files/usr/local/bin/CalContentProvider.py:164 | after `k` rows the cursor is `y0 + k * HEIGHT_E` |
| CalContent.AsWrittenRows | files/usr/local/bin/CalContentProvider.py:180-186 | the loop as written draws at most all entries, and at least one when there is one, because the test follows the draw |
| CalContent.FittingRows | files/usr/local/bin/CalContentProvider.py:180-186 | the corrected loop draws at most all entries |
| CalContent.CalContentProvider.constructor | files/usr/local/bin/CalContentProvider.py:27-28 | the provider keeps its screen and the configured calendars |
| CalContent.CalContentProvider.EventItems | files/usr/local/bin/CalContentProvider.py:79-101 | corrected: the component loop yields one item per kept component, in order |
| CalContent.CalContentProvider.SharedEventItems | files/usr/local/bin/CalContentProvider.py:72-101 | as written: the loop over one object's components leaves the shared dictionary in the state `DictAfter` gives and the list holding it once per kept component |
| CalContent.CalContentProvider.CollectItems | files/usr/local/bin/CalContentProvider.py:72-101 | the event loop builds the calendar's agenda list from its events in server order, each event's items built as the given build says |
| CalContent.CalContentProvider.GetAgendaForCal | files/usr/local/bin/CalContentProvider.py:52-107 | under the given build: a calendar whose fetch or colour lookup raises yields the failure; otherwise its entries are appended after the given ones |
| CalContent.CalContentProvider.AppendEntries | files/usr/local/bin/CalContentProvider.py:103-107 | appends one entry per item in order; a colour name missing from the map raises, but only when there is an item |
| CalContent.CalContentProvider.GetAgenda | files/usr/local/bin/CalContentProvider.py:41-48 | under the given build: the calendars' entries in configuration order, stably sorted; a failure when any calendar raises |
| CalContent.CalContentProvider.SplitTime | files/usr/local/bin/CalContentProvider.py:136 | `e_time.split('-')` gives the entry's two clock labels |
| CalContent.CalContentProvider.DrawEntryRow | files/usr/local/bin/CalContentProvider.py:126-165 | `_draw_entry` advances the cursor by exactly HEIGHT_E and appends the row, whose rule is at the new cursor |
| CalContent.CalContentProvider.DrawNextRow | files/usr/local/bin/CalContentProvider.py:182-183 | drawing entry `k` after the first `k` rows extends the log to `k + 1` rows |
| CalContent.CalContentProvider.DrawEntriesAsWritten | files/usr/local/bin/CalContentProvider.py:180-186 | the loop as written: `count` stays 0, so the loop stops only when the capacity below the cursor is negative; the result is the `AsWrittenRows` count, and the log holds exactly those rows |
| CalContent.CalContentProvider.DrawEntries | files/usr/local/bin/CalContentProvider.py:180-186 | the corrected loop draws the `FittingRows` rows that fit above the status line |
| CalContent.CalContentProvider.DrawContentAsWritten | files/usr/local/bin/CalContentProvider.py:169-188 | the agenda built with the shared dictionary; a failed agenda sets the status code to 3; a non-zero code draws only the no-connection image; a non-empty agenda is drawn by the loop as written; an empty one raises (the unbound `screen`) with nothing drawn |
| CalContent.CalContentProvider.DrawContent | files/usr/local/bin/CalContentProvider.py:169-188 | as the version above, except that the agenda has one item per kept component, the rows are the ones that fit and an empty agenda draws the no-events image |
| CalContent.AsWrittenStep | files/usr/local/bin/CalContentProvider.py:184-186 | one pass of the loop as written stops exactly when the capacity below the new cursor is negative |
| CalContent.NoEntriesAfterFailure | files/usr/local/bin/CalContentProvider.py:45-46 | once one calendar raises, the whole agenda fails |
| CalContent.FittingStep | files/usr/local/bin/CalContentProvider.py:35-37 | with room for at least one row, one drawn row leaves room for one fewer |
| CalContent.MaxEntriesStep | files/usr/local/bin/CalContentProvider.py:35-37 | moving the cursor down by HEIGHT_E lowers a capacity of at least 1 by exactly 1 |
| CalContent.SplitOnJoin | files/usr/local/bin/CalContentProvider.py:136 | splitting two dash-free strings joined by a dash gives them back |
| CalContent.ClockLabelNoDash | files/usr/local/bin/CalContentProvider.py:104-105 | an "HH:MM" label contains no dash |
| CalContent.EntryTimeSplits | files/usr/local/bin/CalContentProvider.py:136 | every entry's time string splits into exactly its two labels |
| CalContent.EntriesOfReady | files/usr/local/bin/CalContentProvider.py:103-107 | every entry of a calendar with a known colour can be drawn |
| CalContent.AllEntriesReady | files/usr/local/bin/CalContentProvider.py:44-46 | every entry collected from the calendars can be drawn |
| CalContent.AgendaRowsReady | files/usr/local/bin/CalContentProvider.py:44-48 | every row of the sorted agenda can be drawn |
| CalProperties.MaxEntriesFit | files/usr/local/bin/CalContentProvider.py:35-37 | below a cursor above the status line, exactly `get_max_entries()` rows fit: that many end above the status line and one more would not |
| CalProperties.MaxEntriesTruncates | files/usr/local/bin/CalContentProvider.py:35-37 | a cursor less than one row below the status line has capacity 0, where floor division gives -1 |
| CalProperties.MaxEntriesNegative | files/usr/local/bin/CalContentProvider.py:35-37 | the capacity is negative exactly when the cursor is at least one row below the status line |
| CalProperties.FittingRowsFit | files/usr/local/bin/CalContentProvider.py:180-186 | every row the corrected loop draws ends above the status line, and when an entry is left over one more row would not fit |
| CalProperties.AsWrittenStopsBelow | files/usr/local/bin/CalContentProvider.py:180-186 | with entries left over, the loop as written stops only with the cursor at least one row below the status line, and the row before that started above that point |
| CalProperties.RowTopShift | files/usr/local/bin/CalContentProvider.py:164 | counting rows from one row further down |
| CalProperties.AsWrittenOverrun | files/usr/local/bin/CalContentProvider.py:180-186 | with the defaults, the cursor at 100 and ten entries, the loop as written draws six rows, reaching y = 340 below the status line at 281, where four rows fit |
| CalProperties.EventTimes | files/usr/local/bin/CalContentProvider.py:82-94 | the start defaults to midnight, a date becomes its midnight, a naive time is localized and an aware one kept; the end is start + duration, else `dtend`, else end of day; it has not passed (ending exactly at now is kept); it is clipped to the end of today only when its day of month differs from the start's |
| CalProperties.EntriesOfAt | files/usr/local/bin/CalContentProvider.py:103-107 | entry `k` carries the start and end labels on the system clock, the time string "start-end", (summary, location) and the calendar's colour |
| CalProperties.AllEntriesSomeIff | files/usr/local/bin/CalContentProvider.py:44-46 | the collected entries exist exactly when no calendar raises |
| CalProperties.AgendaSomeIff | files/usr/local/bin/CalContentProvider.py:41-48 | under either build, the agenda exists exactly when no calendar raises |
| CalProperties.AgendaSorted | files/usr/local/bin/CalContentProvider.py:47 | the agenda is in time-string order |
| CalProperties.AgendaPermutes | files/usr/local/bin/CalContentProvider.py:44-48 | the agenda holds exactly the collected entries, each as often as collected |
| CalProperties.AgendaStable | files/usr/local/bin/CalContentProvider.py:47 | entries with equal time strings keep their collection order: calendars in configuration order, events in server order |
| CalProperties.NoEventsEmpty | files/usr/local/bin/CalContentProvider.py:44-46 | calendars without events collect no entries |
| CalProperties.NoEventsAgenda | files/usr/local/bin/CalContentProvider.py:178-188 | calendars without events give the empty agenda, the case that reaches the unbound name |
| CalProperties.SystemWall | files/usr/local/bin/CalContentProvider.py:104-105 | `astimezone()` leaves the wall clock alone when the system zone gives the datetime its own offset |
| CalProperties.AllDayEntry | files/usr/local/bin/CalContentProvider.py:140 | a date-only event of today (no end, or ending on the next date) is kept and becomes an entry with the time string "00:00-23:59", whose times are not printed |
| CalProperties.LabelAt | files/usr/local/bin/CalContentProvider.py:104-105 | the label of a wall clock at a time of day is its two-digit hour, a colon and its two-digit minute |
| CalProperties.EventCount | files/usr/local/bin/CalContentProvider.py:79-80 | at most one event component per component |
| CalProperties.DictAfterCount | files/usr/local/bin/CalContentProvider.py:72-101 | the source appends its dictionary once per kept component: the count is right, only the contents are shared |
| CalProperties.AsWrittenRepeatsLast | files/usr/local/bin/CalContentProvider.py:72-101 | when the last component is kept, every copy on the list shows that component's item |
| CalProperties.DictAfterSingle | files/usr/local/bin/CalContentProvider.py:72-101 | with at most one event component, the dictionary is empty or holds the one kept item |
| CalProperties.EventItemsAgree | files/usr/local/bin/CalContentProvider.py:72-101 | for objects with at most one event component, the shared dictionary gives the same list as one item per component |
| CalProperties.TimedItem | files/usr/local/bin/CalContentProvider.py:82-101 | in UTC at midnight, a timed component that has not ended is kept unclipped |
| CalProperties.UtcDay | files/usr/local/bin/CalContentProvider.py:93 | in the example month every day has the same day number |
| CalProperties.TwoKeptItems | files/usr/local/bin/CalContentProvider.py:79-101 | two kept components give their two items in order |
| CalProperties.TwoKeptAsWritten | files/usr/local/bin/CalContentProvider.py:72-101 | as written, an object with two kept components lists the second one's item twice |
| CalProperties.CalItemsAgree | files/usr/local/bin/CalContentProvider.py:72-101 | a calendar whose objects each have at most one event component gets the same agenda list under both builds |
| CalProperties.CalEntriesAgree | files/usr/local/bin/CalContentProvider.py:52-107 | such a calendar gets the same entries, or the same failure, under both builds |
| CalProperties.AllEntriesAgree | files/usr/local/bin/CalContentProvider.py:41-46 | the collected entries of all calendars agree under both builds when no object has several event components |
| CalProperties.AgendaAgree | files/usr/local/bin/CalContentProvider.py:41-48 | the agenda as written equals the corrected agenda when no object has several event components |
| CalProperties.SharedItemExample | files/usr/local/bin/CalContentProvider.py:72-101 | components "a" (9-10) and "b" (11-12) in one object are listed as [b, b] by the source and as [a, b] with one item per component |

## Left out

- The network is not modelled: the CalDAV client, the calendar lookup by name, `date_search`, `requests.get` and JSON decoding. Each calendar's reply (its events, or a failure) and the decoded forecast (or a failure) are inputs.
- The lookup of a calendar by name, which raises when no calendar matches, is part of the failure outcome of a reply.
- The time zone database (`tzlocal`, `vtimezone.gettzinfo`) is not modelled. Zones are functions from wall-clock time to UTC offset.
- `date.today()`, `datetime.now()`, the system zone and the month calendar (`.day`) are read once per calendar. They are given as a `Clock` value in each reply.
- PIL, fonts and pixels are not modelled. Text extents come from a font-metrics function, and the image is the ordered log of the drawn primitives.
- Floating-point formatting is not modelled (`"{0:3.1f}°"`, `round`, and `strftime` of the weather tiles). Those labels are kept as the values they format. Temperatures and wind readings are Dafny `real`s.
- The status stamp `strftime("%x %X")` is a parameter of `DrawStatus`, and today's day of the month is a parameter of `DrawDay`.
- `OWM.WeatherDict.dt` is the sample's local time in minutes. `datetime.fromtimestamp` is not modelled.
- Exceptions are modelled as outcome values (None, `raised`, `ok == false`). `traceback.print_exc` is not modelled.
- The configuration is not modelled (`_read_settings`, the config file, the `opts.cals` credentials). The calendars are a list of (name, colour name).
- `ContentProvider.py`, an interface without logic, is not part of this model. The providers hold the screen directly.
- `bg-fg-test.py`, a display test program, is not part of this model.
- The `print`/`print_all` debugging output is not modelled.
- `DailyAgenda.show`, the construction of the providers and the main program are not part of this model.
- CalContent.CalContentProvider.DrawEntryRow: requires the entry's colour to be in the text-colour map; the source raises a KeyError there. `ColorsReady` and `AgendaRowsReady` show the requirement holds for every agenda entry once the configuration maps each colour.
- CalContent.CalContentProvider.SplitTime: requires dash-free labels, so the IndexError of a time string without a dash is not modelled. `ClockLabelNoDash` shows that every label the provider makes is dash-free.
- CalContent.MaxEntries: requires HEIGHT_E > 0; the source's ZeroDivisionError for HEIGHT_E = 0 is not modelled.
- WeatherContent.WeatherContentProvider.DrawContent: requires at least 21 hourly and 5 daily samples; the source's IndexError on a shorter forecast is not modelled. The one-call interface returns 48 hourly and 8 daily samples.
- WeatherContent.WeatherContentProvider.constructor: installs the corrected lookup `MapIdTotal`, which gives ':' where the source's `_map_id` gives None. The source's outcome for such codes is `DrawContentAsWritten`.
- WeatherContent.WeatherContentProvider.DrawContent: draws ':' for a shown code neither table covers, the evidently intended behaviour; the source raises there (`DrawContentAsWritten`).
- WeatherContent.WeatherContentProvider.DrawContentAsWritten: when it raises, the shapes the source drew before the failing icon are not stated.
- OWM.OWMData.Update: `ok == false` stands for the exception; the partly refilled lists it leaves are stated as the parsable prefix.

## Findings

| source | as written | input that shows it | evidently intended | confidence | as-written member | corrected member |
|---|---|---|---|---|---|---|
| files/usr/local/bin/CalContentProvider.py:181-186 | `count += count` keeps `count` at 0, so the loop breaks only once `get_max_entries()` is negative, one full row below the status line | default options, cursor at 100, ten entries: six rows are drawn, the last reaching y = 340, past the status line at 281; four rows fit | draw only the entries that fit above the status line | not executed | CalContent.CalContentProvider.DrawEntriesAsWritten, CalProperties.AsWrittenOverrun | CalContent.CalContentProvider.DrawEntries, CalProperties.FittingRowsFit |
| files/usr/local/bin/CalContentProvider.py:188 | the empty-agenda branch calls `screen.draw_image(screen.NO_EVENTS)`, but `screen` is not bound in the method, so it raises a NameError | every calendar answers with no events (`CalProperties.NoEventsAgenda`) | show the no-events image with `self.screen` | not executed | CalContent.CalContentProvider.DrawContentAsWritten | CalContent.CalContentProvider.DrawContent |
| files/usr/local/bin/WeatherContentProvider.py:85-88 | `return ':'` is indented under the previous `return` and cannot be reached, so codes outside both tables give None | code 701 (mist) or 900 | every code without a table entry shows ':' ("nothing") | not executed | WeatherContent.MapIdUnmappedExamples, WeatherContent.WeatherContentProvider.DrawContentAsWritten, WeatherContent.MistRaises | WeatherContent.MapIdTotal, WeatherContent.WeatherContentProvider.DrawContent |
| files/usr/local/bin/CalContentProvider.py:72-101 | one `item` dictionary per event object is appended once per kept VEVENT component, so all copies show the last component's values | one object with VEVENT components "a" (9-10) and "b" (11-12): the list holds b twice | one item per kept component | not executed | CalContent.EventItemsAsWritten, CalContent.CalContentProvider.SharedEventItems, CalContent.CalContentProvider.DrawContentAsWritten, CalProperties.SharedItemExample | CalContent.ComponentItems, CalContent.CalContentProvider.DrawContent, CalProperties.AgendaAgree |
