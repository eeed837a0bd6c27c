/**
 * The forecast data of the OpenWeatherMap one-call interface: one record
 * per sample (current, hourly, daily), parsed into a uniform shape, and
 * the object that holds the current sample and the two forecast lists.
 * The HTTP request and the JSON decoding are not modelled: `Update`
 * receives the decoded response, or None when fetching it failed.
 */
module OWM {
  import opened PyNum
  import opened Optional

  /** One element of a sample's `weather` list. */
  datatype Condition = Condition(id: int, icon: string)

  /** The `temp` member: a number for current and hourly samples, a
      {day, min, max} structure for daily ones. */
  datatype TempField = ScalarTemp(t: real) | DailyTemp(day: real, min: real, max: real)

  /** One decoded sample.  `dt` is given as the local time it denotes
      (the timestamp conversion is not modelled), in minutes. */
  datatype WeatherDict = WeatherDict(
    dt: int, temp: TempField, pressure: real, humidity: real,
    windSpeed: real, windDeg: real, weather: seq<Condition>)

  /** The decoded response: `current`, `hourly` and `daily`. */
  datatype Forecast = Forecast(current: WeatherDict, hourly: seq<WeatherDict>, daily: seq<WeatherDict>)

  /** A parsed sample (the value-holder object). */
  datatype Values = Values(
    dt: int, temp: real, tmin: real, tmax: real, pressure: real, humidity: real,
    windSpeed: real, windDeg: real, windDir: string, id: int, icon: string)

  /** The compass table: nine entries, north at both ends. */
  const Direction: seq<string> := ["N", "NE", "E", "SE", "S", "SW", "W", "NW", "N"]

  /** The eight compass points without the repeated north. */
  const Compass: seq<string> := ["N", "NE", "E", "SE", "S", "SW", "W", "NW"]

  /** Python's `int(x)` for a float: truncation toward zero. */
  function TruncReal(x: real): (n: int)
    ensures 0.0 <= x ==> n as real <= x < n as real + 1.0
    ensures x < 0.0 ==> n as real - 1.0 < x <= n as real
  {
    if x >= 0.0 then x.Floor else -((-x).Floor)
  }

  /** The compass index `int((d + 22.5) / 45)` of an integral degree value,
      in exact integer arithmetic.  `2 * d + 45` is odd, so the float
      quotient never lies on an integer and truncating it is exact. */
  function WindIndex(d: int): int
  {
    TruncDiv(2 * d + 45, 90)
  }

  /** The index stays inside the nine-entry table, counting Python's negative
      indices, exactly for -472 <= d <= 382. */
  predicate WindIndexInRange(d: int)
  {
    -|Direction| <= WindIndex(d) < |Direction|
  }

  /** For non-negative degrees the index is `k` exactly on the 45-degree
      band centred on `45 * k`: 0-22 is north, 23-67 north-east, ..., and
      338-382 north again. */
  lemma WindBand(d: int, k: int)
    requires 0 <= d
    ensures WindIndex(d) == k <==> 45 * k - 22 <= d <= 45 * k + 22
  {
    var q := WindIndex(d);
    assert 0 <= 2 * d + 45 - q * 90 < 90;
    if 45 * k - 22 <= d <= 45 * k + 22 {
      assert 0 <= 2 * d + 45 - k * 90 < 90;
      MultipleApart(q - k, 90);
    }
  }

  lemma WindRange(d: int)
    ensures WindIndexInRange(d) <==> -472 <= d <= 382
  {
    var q := WindIndex(d);
    TruncDivNegative(2 * d + 45, 90);
    if 2 * d + 45 >= 0 {
      assert 0 <= 2 * d + 45 - q * 90 < 90;
      MultipleApart(q - 9, 90);
      MultipleApart(8 - q, 90);
    } else {
      assert -90 < 2 * d + 45 - q * 90 <= 0;
      MultipleApart(q + 10, 90);
      MultipleApart(-9 - q, 90);
    }
  }

  /** For 0 <= d <= 382 the nine-entry table agrees with rounding d / 45 to
      the nearest compass point modulo eight. */
  lemma WindDirectionIsNearestPoint(d: int)
    requires 0 <= d <= 382
    ensures 0 <= WindIndex(d) <= 8
    ensures Direction[WindIndex(d)] == Compass[((2 * d + 45) / 90) % 8]
  {
    TruncDivVersusFloor(2 * d + 45, 90);
    WindRange(d);
    var q := WindIndex(d);
    assert q == (2 * d + 45) / 90;
    if q == 8 {
      assert q % 8 == 0;
    } else {
      assert q % 8 == q;
    }
  }

  /** Sample points of the quantisation: 0 and 360 degrees are north,
      22 is north, 23 and 44 north-east, 337 north-west, 338 north. */
  lemma WindExamples()
    ensures PyIndex(Direction, WindIndex(0)) == "N" && PyIndex(Direction, WindIndex(360)) == "N"
    ensures PyIndex(Direction, WindIndex(22)) == "N" && PyIndex(Direction, WindIndex(23)) == "NE"
    ensures PyIndex(Direction, WindIndex(44)) == "NE" && PyIndex(Direction, WindIndex(45)) == "NE"
    ensures PyIndex(Direction, WindIndex(337)) == "NW" && PyIndex(Direction, WindIndex(338)) == "N"
  {
  }

  /** Parses one sample; None where the source raises (an empty `weather`
      list, or a degree value whose compass index leaves the table). */
  function ParseData(w: WeatherDict): (r: Option<Values>)
  {
    var idx := WindIndex(TruncReal(w.windDeg));
    if !(-|Direction| <= idx < |Direction|) || |w.weather| == 0 then None
    else
      var (temp, tmin, tmax) := match w.temp
        case ScalarTemp(t) => (t, t, t)
        case DailyTemp(day, min, max) => (day, min, max);
      Some(Values(w.dt, temp, tmin, tmax, w.pressure, w.humidity, w.windSpeed, w.windDeg,
                  PyIndex(Direction, idx), w.weather[0].id, w.weather[0].icon))
  }

  /** A sample parses exactly when its `weather` list is non-empty and its
      compass index lies inside the table; the parsed record then copies the
      fields, reads the temperature by its shape and takes the condition
      from the first weather entry. */
  lemma ParseDataFields(w: WeatherDict)
    ensures ParseData(w).Some? <==> |w.weather| > 0 && WindIndexInRange(TruncReal(w.windDeg))
    ensures ParseData(w).Some? ==> var v := ParseData(w).value;
      && v.dt == w.dt
      // a scalar temperature is the temperature, the minimum and the maximum
      && (w.temp.ScalarTemp? ==> v.temp == w.temp.t && v.tmin == w.temp.t && v.tmax == w.temp.t)
      // a structured one is read field by field
      && (w.temp.DailyTemp? ==> v.temp == w.temp.day && v.tmin == w.temp.min && v.tmax == w.temp.max)
      && v.pressure == w.pressure && v.humidity == w.humidity
      && v.windSpeed == w.windSpeed && v.windDeg == w.windDeg
      && v.windDir == PyIndex(Direction, WindIndex(TruncReal(w.windDeg)))
      // condition code and icon of the first weather entry
      && v.id == w.weather[0].id && v.icon == w.weather[0].icon
  {
  }

  /** The results of `parse` on the elements of `xs` before the first
      element it rejects. */
  function PrefixParsed<A, B>(parse: A -> Option<B>, xs: seq<A>): (r: seq<B>)
    ensures |r| <= |xs|
  {
    if xs == [] then []
    else match parse(xs[0])
      case None => []
      case Some(v) => [v] + PrefixParsed(parse, xs[1..])
  }

  /** Each result is `parse` of the element at its position, and parsing
      stopped at an element `parse` rejects or at the end. */
  lemma {:induction false} PrefixParsedSound<A, B>(parse: A -> Option<B>, xs: seq<A>)
    ensures var r := PrefixParsed(parse, xs);
      && (forall k :: 0 <= k < |r| ==> parse(xs[k]) == Some(r[k]))
      && (|r| < |xs| ==> parse(xs[|r|]).None?)
    decreases |xs|
  {
    if xs != [] && parse(xs[0]).Some? {
      PrefixParsedSound(parse, xs[1..]);
      var r := PrefixParsed(parse, xs);
      var rest := PrefixParsed(parse, xs[1..]);
      assert r == [parse(xs[0]).value] + rest;
      forall k | 0 <= k < |r|
        ensures parse(xs[k]) == Some(r[k])
      {
        if k > 0 {
          assert r[k] == rest[k - 1] && xs[k] == xs[1..][k - 1];
        }
      }
      if |r| < |xs| {
        assert xs[|r|] == xs[1..][|rest|];
      }
    }
  }

  /** Parsing distributes over concatenation once the first part parses
      completely. */
  lemma {:induction false} PrefixParsedAppend<A, B>(parse: A -> Option<B>, a: seq<A>, b: seq<A>)
    requires |PrefixParsed(parse, a)| == |a|
    ensures PrefixParsed(parse, a + b) == PrefixParsed(parse, a) + PrefixParsed(parse, b)
    decreases |a|
  {
    if a == [] {
      assert a + b == b;
    } else {
      assert (a + b)[0] == a[0] && (a + b)[1..] == a[1..] + b;
      PrefixParsedAppend(parse, a[1..], b);
    }
  }

  /** Extending a completely parsed prefix by one element: it grows by that
      element's result, or parsing stops there for good. */
  lemma PrefixParsedStep<A, B>(parse: A -> Option<B>, xs: seq<A>, i: nat)
    requires i < |xs| && |PrefixParsed(parse, xs[..i])| == i
    ensures parse(xs[i]).Some? ==>
              PrefixParsed(parse, xs[..i + 1]) == PrefixParsed(parse, xs[..i]) + [parse(xs[i]).value]
    ensures parse(xs[i]).None? ==> PrefixParsed(parse, xs) == PrefixParsed(parse, xs[..i])
  {
    var front := xs[..i];
    assert front + [xs[i]] == xs[..i + 1];
    assert front + xs[i..] == xs;
    PrefixParsedAppend(parse, front, [xs[i]]);
    PrefixParsedAppend(parse, front, xs[i..]);
    assert [xs[i]][1..] == [];
    assert xs[i..][0] == xs[i];
  }

  /** The samples parsed before the first one that fails. */
  function ParsePrefix(ws: seq<WeatherDict>): (r: seq<Values>)
    ensures |r| <= |ws|
    ensures forall k :: 0 <= k < |r| ==> ParseData(ws[k]) == Some(r[k])
    ensures |r| < |ws| ==> ParseData(ws[|r|]).None?
  {
    PrefixParsedSound(ParseData, ws);
    PrefixParsed(ParseData, ws)
  }

  /** Every sample parses. */
  predicate AllParse(ws: seq<WeatherDict>)
  {
    |ParsePrefix(ws)| == |ws|
  }

  /** Extending a fully parsed prefix of samples by one sample. */
  lemma ParsePrefixStep(ws: seq<WeatherDict>, i: nat)
    requires i < |ws| && AllParse(ws[..i])
    ensures ParseData(ws[i]).Some? ==> ParsePrefix(ws[..i + 1]) == ParsePrefix(ws[..i]) + [ParseData(ws[i]).value]
    ensures ParseData(ws[i]).None? ==> ParsePrefix(ws) == ParsePrefix(ws[..i])
  {
    PrefixParsedStep(ParseData, ws, i);
  }

  /** The weather object: the current sample and the hourly and daily
      forecast lists. */
  class OWMData {
    const latitude: real
    const longitude: real
    const apiKey: string

    var current: Option<Values>
    var hours: seq<Values>
    var days: seq<Values>

    constructor (latitude: real, longitude: real, apiKey: string)
      ensures this.latitude == latitude && this.longitude == longitude && this.apiKey == apiKey
      ensures current == None && hours == [] && days == []
    {
      this.latitude := latitude;
      this.longitude := longitude;
      this.apiKey := apiKey;
      current := None;
      hours := [];
      days := [];
    }

    /** Replaces the current sample, then clears and refills the hourly and
        the daily list in response order.  `ok` is false where the source
        raises; the lists then hold what was appended before the failure. */
    method Update(response: Option<Forecast>) returns (ok: bool)
      modifies this
      ensures ok <==> response.Some? && ParseData(response.value.current).Some?
                      && AllParse(response.value.hourly) && AllParse(response.value.daily)
      // nothing changes when the fetch or the current sample fails
      ensures (response.None? || ParseData(response.value.current).None?) ==>
                current == old(current) && hours == old(hours) && days == old(days)
      // otherwise the lists are rebuilt from the response alone: earlier
      // contents never survive, and a complete update gives each list the
      // response's length and order
      ensures response.Some? && ParseData(response.value.current).Some? ==>
                && current == ParseData(response.value.current)
                && hours == ParsePrefix(response.value.hourly)
                && days == (if AllParse(response.value.hourly)
                            then ParsePrefix(response.value.daily) else old(days))
      ensures ok ==> |hours| == |response.value.hourly| && |days| == |response.value.daily|
    {
      if response.None? {
        return false;
      }
      var data := response.value;
      var cur := ParseData(data.current);
      if cur.None? {
        return false;
      }
      current := cur;

      hours := [];
      var i := 0;
      while i < |data.hourly|
        invariant 0 <= i <= |data.hourly|
        invariant hours == ParsePrefix(data.hourly[..i]) && |hours| == i
        invariant current == cur && days == old(days)
      {
        ParsePrefixStep(data.hourly, i);
        var p := ParseData(data.hourly[i]);
        if p.None? {
          return false;
        }
        hours := hours + [p.value];
        i := i + 1;
      }
      assert data.hourly[..i] == data.hourly;

      days := [];
      var j := 0;
      while j < |data.daily|
        invariant 0 <= j <= |data.daily|
        invariant days == ParsePrefix(data.daily[..j]) && |days| == j
        invariant current == cur && hours == ParsePrefix(data.hourly)
      {
        ParsePrefixStep(data.daily, j);
        var p := ParseData(data.daily[j]);
        if p.None? {
          return false;
        }
        days := days + [p.value];
        j := j + 1;
      }
      assert data.daily[..j] == data.daily;
      return true;
    }
  }
}
