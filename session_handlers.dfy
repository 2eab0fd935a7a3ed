/**
 * The session handlers of api/handlers/session.go: the pagination defaults of
 * `GET /api/sessions`, the per-point summary `calculateSummary` computes over
 * a point's samples, the conversion of samples to a time series, and the
 * assembly of a session report from stored summaries or, when there are
 * none, from a live sync.
 *
 * Float64 arithmetic is modelled by exact `real` arithmetic, and
 * `strconv.ParseFloat` by the parameter `parseFloat`.
 */
module SessionHandlers {

  import opened Values
  import opened Registry
  import opened Sessions
  import opened IotData
  import opened IotService

  // ---------------------------------------------------------------------------
  // GET /api/sessions: the filter read from the query string

  /** `c.Query(key)`: the parameter's text, "" when it is absent. */
  function QueryParam(params: map<string, string>, key: string): string {
    if key in params then params[key] else ""
  }

  /** The default page size when no limit is given. */
  const DefaultLimit: int := 50

  /** The limit: 50 when the parameter is absent or empty, its value when `Atoi` reads it, and 0 otherwise. */
  function LimitOf(text: string): int {
    if text == "" then DefaultLimit
    else match ParseInt(text) case Some(l) => l case None => 0
  }

  /** The offset: its value when `Atoi` reads it, and 0 when it is absent, empty or unreadable. */
  function OffsetOf(text: string): int {
    if text == "" then 0
    else match ParseInt(text) case Some(o) => o case None => 0
  }

  /** The filter `GetSessions` builds from the query string. */
  function SessionsFilterOf(params: map<string, string>): SessionFilter {
    SessionFilter(QueryParam(params, "deviceId"), QueryParam(params, "status"), QueryParam(params, "startDate"),
                  QueryParam(params, "endDate"), LimitOf(QueryParam(params, "limit")),
                  OffsetOf(QueryParam(params, "offset")))
  }

  /** The limit is 50 without a parameter, 0 for text `Atoi` rejects, and the integer written otherwise. */
  lemma LimitCases(params: map<string, string>, n: int)
    requires Int64Min <= n <= Int64Max
    ensures "limit" !in params ==> SessionsFilterOf(params).limit == DefaultLimit
    ensures "limit" in params && params["limit"] != "" && ParseInt(params["limit"]).None? ==>
              SessionsFilterOf(params).limit == 0
    ensures "limit" in params && params["limit"] == IntText(n) ==> SessionsFilterOf(params).limit == n
  {
    ParseIntRoundTrip(n);
  }

  /** The offset is 0 without a parameter or for text `Atoi` rejects, and the integer written otherwise. */
  lemma OffsetCases(params: map<string, string>, n: int)
    requires Int64Min <= n <= Int64Max
    ensures "offset" !in params ==> SessionsFilterOf(params).offset == 0
    ensures "offset" in params && ParseInt(params["offset"]).None? ==> SessionsFilterOf(params).offset == 0
    ensures "offset" in params && params["offset"] == IntText(n) ==> SessionsFilterOf(params).offset == n
  {
    ParseIntRoundTrip(n);
  }

  /**
   * Without a limit parameter the row query is paged by 50: the limit is
   * bound right after the filter's arguments, and the count query is not paged.
   */
  lemma DefaultPage(params: map<string, string>)
    requires "limit" !in params
    ensures var q := SessionsQueryOf(SessionsFilterOf(params));
            |q.args| > |q.countArgs| && q.args[|q.countArgs|] == Int(DefaultLimit)
  {
    SessionsQueryArgs(SessionsFilterOf(params));
  }

  /** A limit that is zero or negative, such as an unreadable one, leaves the row query without `LIMIT`. */
  lemma NonPositiveLimitUnpaged(params: map<string, string>)
    requires SessionsFilterOf(params).limit <= 0 && SessionsFilterOf(params).offset <= 0
    ensures var q := SessionsQueryOf(SessionsFilterOf(params));
            q.args == q.countArgs && Placeholders(q.query) == |q.countArgs|
  {
    SessionsQueryArgs(SessionsFilterOf(params));
    SessionsQueryPlaceholders(SessionsFilterOf(params));
  }

  // ---------------------------------------------------------------------------
  // calculateSummary

  /** The summary object of one point. */
  datatype Summary = Summary(pointName: string, unit: string, count: int, minValue: real, maxValue: real,
                             avgValue: real)

  /** The number a sample value counts as: a float, an int, or a string that parses as a float. */
  function NumericValue(v: Value, parseFloat: string -> Option<real>): Option<real> {
    match v
    case Float(f) => Some(f)
    case Int(i) => Some(i as real)
    case Str(s) => parseFloat(s)
    case _ => None
  }

  /** The samples of `data` as a list: a list as it is, a list of rows as objects, anything else as no samples. */
  function DataArray(data: Value): (items: seq<Value>)
    ensures data.Rows? ==> |items| == |data.rows| && forall i :: 0 <= i < |items| ==> items[i] == Object(data.rows[i])
    ensures !data.Rows? && !data.List? ==> items == []
  {
    match data
    case List(items) => items
    case Rows(rows) => seq(|rows|, i requires 0 <= i < |rows| => Object(rows[i]))
    case _ => []
  }

  /** The numbers the summary counts: those of the object samples whose value is numeric, in order. */
  function HandledValues(items: seq<Value>, parseFloat: string -> Option<real>): seq<real> {
    if items == [] then []
    else
      var last := items[|items| - 1];
      HandledValues(items[..|items| - 1], parseFloat)
        + (if last.Object? && NumericValue(Lookup(last.fields, "value"), parseFloat).Some?
           then [NumericValue(Lookup(last.fields, "value"), parseFloat).value] else [])
  }

  function SumOf(vals: seq<real>): real {
    if vals == [] then 0.0 else SumOf(vals[..|vals| - 1]) + vals[|vals| - 1]
  }

  /** The running minimum of the loop: the first value, then lowered by every strictly smaller one. */
  function MinOf(vals: seq<real>): real
    requires |vals| > 0
  {
    if |vals| == 1 then vals[0]
    else
      var m := MinOf(vals[..|vals| - 1]);
      if vals[|vals| - 1] < m then vals[|vals| - 1] else m
  }

  /** The running maximum of the loop: the first value, then raised by every strictly larger one. */
  function MaxOf(vals: seq<real>): real
    requires |vals| > 0
  {
    if |vals| == 1 then vals[0]
    else
      var m := MaxOf(vals[..|vals| - 1]);
      if vals[|vals| - 1] > m then vals[|vals| - 1] else m
  }

  /** The text of a string field, "" when the field is missing or not a string. */
  function TextField(m: map<string, Value>, key: string): string {
    if Lookup(m, key).Str? then Lookup(m, key).s else ""
  }

  /**
   * The summary of a point's entry: its display name and unit when they are
   * strings, and count, minimum, maximum and mean of the counted numbers, all
   * zero when none is counted.
   */
  function SummaryOf(dataMap: map<string, Value>, parseFloat: string -> Option<real>): Summary {
    var vals := HandledValues(DataArray(Lookup(dataMap, "data")), parseFloat);
    if |vals| == 0 then Summary(TextField(dataMap, "displayName"), TextField(dataMap, "unit"), 0, 0.0, 0.0, 0.0)
    else Summary(TextField(dataMap, "displayName"), TextField(dataMap, "unit"), |vals|, MinOf(vals), MaxOf(vals),
                 SumOf(vals) / (|vals| as real))
  }

  /** The conversion of `calculateSummary` of a list of rows into a list of objects. */
  method RowsAsObjects(rows: seq<map<string, Value>>) returns (items: seq<Value>)
    ensures items == DataArray(Rows(rows))
  {
    items := [];
    var k := 0;
    while k < |rows|
      invariant 0 <= k <= |rows| && |items| == k
      invariant forall j :: 0 <= j < k ==> items[j] == Object(rows[j])
    {
      items := items + [Object(rows[k])];
      k := k + 1;
    }
  }

  /**
   * The sample loop of `calculateSummary`: the number and sum of the counted
   * values, and, when one was counted, their running minimum and maximum.
   */
  method SampleStatistics(dataArray: seq<Value>, parseFloat: string -> Option<real>)
    returns (count: nat, sum: real, min: real, max: real)
    ensures var vals := HandledValues(dataArray, parseFloat);
            && count == |vals| && sum == SumOf(vals)
            && (count > 0 ==> min == MinOf(vals) && max == MaxOf(vals))
  {
    sum, min, max := 0.0, 0.0, 0.0;
    count := 0;
    var i := 0;
    while i < |dataArray|
      invariant 0 <= i <= |dataArray|
      invariant RunningStatistics(HandledValues(dataArray[..i], parseFloat), count, sum, min, max)
    {
      ghost var before := HandledValues(dataArray[..i], parseFloat);
      var item := dataArray[i];
      assert dataArray[..i + 1] == dataArray[..i] + [item];
      HandledAppend(dataArray[..i], item, parseFloat);
      var numValue, handled := SampleValue(item, parseFloat);
      if handled {
        assert HandledValues(dataArray[..i + 1], parseFloat) == before + [numValue];
        RunningStep(before, numValue, count, sum, min, max);
        if i == 0 || count == 0 {
          min := numValue;
          max := numValue;
        } else {
          if numValue < min {
            min := numValue;
          }
          if numValue > max {
            max := numValue;
          }
        }
        sum := sum + numValue;
        count := count + 1;
      } else {
        assert HandledValues(dataArray[..i + 1], parseFloat) == before;
      }
      i := i + 1;
    }
    assert dataArray[..i] == dataArray;
  }

  /** The loop's running count, sum, minimum and maximum of the values counted so far. */
  predicate RunningStatistics(vals: seq<real>, count: nat, sum: real, min: real, max: real) {
    && count == |vals| && sum == SumOf(vals)
    && (count > 0 ==> min == MinOf(vals) && max == MaxOf(vals))
  }

  /** Counting one more value: the sum grows by it, the first value sets both bounds, later ones move them outward. */
  lemma RunningStep(vals: seq<real>, x: real, count: nat, sum: real, min: real, max: real)
    requires RunningStatistics(vals, count, sum, min, max)
    ensures RunningStatistics(vals + [x], count + 1, sum + x,
                              if count == 0 then x else if x < min then x else min,
                              if count == 0 then x else if x > max then x else max)
  {
    SumAppend(vals, x);
    if count > 0 {
      MinMaxAppend(vals, x);
    } else {
      assert vals + [x] == [x];
    }
  }

  /**
   * The type switch on a sample's `value`: a float as it is, an integer
   * converted, a string when it parses; a sample that is not an object, or
   * any other value, is not counted.
   */
  method SampleValue(item: Value, parseFloat: string -> Option<real>) returns (numValue: real, handled: bool)
    ensures handled <==> item.Object? && NumericValue(Lookup(item.fields, "value"), parseFloat).Some?
    ensures handled ==> numValue == NumericValue(Lookup(item.fields, "value"), parseFloat).value
  {
    numValue, handled := 0.0, false;
    if item.Object? {
      var valueInterface := Lookup(item.fields, "value");
      match valueInterface {
        case Float(value) =>
          numValue, handled := value, true;
        case Int(intValue) =>
          numValue, handled := intValue as real, true;
        case Str(strValue) =>
          var floatValue := parseFloat(strValue);
          if floatValue.Some? {
            numValue, handled := floatValue.value, true;
          }
        case _ =>
      }
    }
  }

  /** `calculateSummary` */
  method CalculateSummary(dataMap: map<string, Value>, parseFloat: string -> Option<real>) returns (summary: Summary)
    ensures summary == SummaryOf(dataMap, parseFloat)
  {
    summary := Summary("", "", 0, 0.0, 0.0, 0.0);
    var displayName := Lookup(dataMap, "displayName");
    if displayName.Str? {
      summary := summary.(pointName := displayName.s);
    }
    var unit := Lookup(dataMap, "unit");
    if unit.Str? {
      summary := summary.(unit := unit.s);
    }

    var dataInterface := Lookup(dataMap, "data");
    var dataArray: seq<Value> := [];
    match dataInterface {
      case List(v) =>
        dataArray := v;
      case Rows(v) =>
        dataArray := RowsAsObjects(v);
      case _ =>
    }
    assert dataArray == DataArray(dataInterface);

    if |dataArray| > 0 {
      var count, sum, min, max := SampleStatistics(dataArray, parseFloat);
      if count > 0 {
        summary := summary.(count := count, minValue := min, maxValue := max, avgValue := sum / (count as real));
      }
    }
  }

  // ---------------------------------------------------------------------------
  // Properties of the summary

  /** The running minimum and maximum are counted values that bound every counted value. */
  lemma {:induction false} MinMaxBounds(vals: seq<real>)
    requires |vals| > 0
    ensures MinOf(vals) in vals && MaxOf(vals) in vals
    ensures forall i :: 0 <= i < |vals| ==> MinOf(vals) <= vals[i] <= MaxOf(vals)
  {
    if |vals| > 1 {
      MinMaxBounds(vals[..|vals| - 1]);
      assert forall i :: 0 <= i < |vals| - 1 ==> vals[..|vals| - 1][i] == vals[i];
    }
  }

  /** Appending a sample adds its numeric value, when it is a counted one. */
  lemma HandledAppend(items: seq<Value>, x: Value, parseFloat: string -> Option<real>)
    ensures HandledValues(items + [x], parseFloat) ==
              HandledValues(items, parseFloat)
                + (if x.Object? && NumericValue(Lookup(x.fields, "value"), parseFloat).Some?
                   then [NumericValue(Lookup(x.fields, "value"), parseFloat).value] else [])
  {
    assert (items + [x])[..|items|] == items;
  }

  /** Appending a value lowers the running minimum and raises the running maximum only when it is strictly beyond. */
  lemma MinMaxAppend(vals: seq<real>, x: real)
    requires |vals| > 0
    ensures MinOf(vals + [x]) == if x < MinOf(vals) then x else MinOf(vals)
    ensures MaxOf(vals + [x]) == if x > MaxOf(vals) then x else MaxOf(vals)
  {
    assert (vals + [x])[..|vals|] == vals;
  }

  /** Appending a value adds it to the sum. */
  lemma SumAppend(vals: seq<real>, x: real)
    ensures SumOf(vals + [x]) == SumOf(vals) + x
  {
    assert (vals + [x])[..|vals|] == vals;
  }

  /** Multiplying by a non-negative factor keeps an order. */
  lemma ScaleMono(a: real, b: real, c: real)
    requires a >= 0.0 && b <= c
    ensures a * b <= a * c
  {
  }

  /** The sum of n values that all lie between lo and hi lies between n * lo and n * hi. */
  lemma {:induction false} SumBetween(vals: seq<real>, lo: real, hi: real)
    requires forall i :: 0 <= i < |vals| ==> lo <= vals[i] <= hi
    ensures (|vals| as real) * lo <= SumOf(vals) <= (|vals| as real) * hi
  {
    if vals != [] {
      var init := vals[..|vals| - 1];
      var x := vals[|vals| - 1];
      assert forall i :: 0 <= i < |init| ==> init[i] == vals[i];
      SumBetween(init, lo, hi);
      var m := |init| as real;
      assert |vals| as real == m + 1.0;
      assert (m + 1.0) * lo == m * lo + lo;
      assert (m + 1.0) * hi == m * hi + hi;
    }
  }

  /** An average lies between the bounds that the sum, scaled by the count, lies between. */
  lemma MeanBounds(n: real, lo: real, hi: real, sum: real)
    requires n > 0.0 && n * lo <= sum <= n * hi
    ensures (sum / n) * n == sum
    ensures lo <= sum / n <= hi
  {
    var avg := sum / n;
    assert avg * n == sum;
    if avg < lo {
      ScaleMono(n, avg, lo);
      assert false;
    }
    if avg > hi {
      ScaleMono(n, hi, avg);
      assert false;
    }
  }

  /**
   * Of a non-empty list of counted values: the mean times the count gives
   * back the sum, and the mean lies between the running minimum and maximum.
   */
  lemma CountedStatistics(vals: seq<real>)
    requires |vals| > 0
    ensures (SumOf(vals) / (|vals| as real)) * (|vals| as real) == SumOf(vals)
    ensures MinOf(vals) <= SumOf(vals) / (|vals| as real) <= MaxOf(vals)
  {
    var n, lo, hi, sum := |vals| as real, MinOf(vals), MaxOf(vals), SumOf(vals);
    MinMaxBounds(vals);
    SumBetween(vals, lo, hi);
    MeanBounds(n, lo, hi, sum);
  }

  /** The statistics a summary reports for a non-empty list of counted values. */
  lemma SummaryOfCounted(s: Summary, vals: seq<real>)
    requires |vals| > 0 && s.count == |vals| && s.minValue == MinOf(vals) && s.maxValue == MaxOf(vals)
    requires s.avgValue == SumOf(vals) / (|vals| as real)
    ensures s.minValue in vals && s.maxValue in vals
    ensures forall i :: 0 <= i < |vals| ==> s.minValue <= vals[i] <= s.maxValue
    ensures s.avgValue * (|vals| as real) == SumOf(vals)
    ensures s.minValue <= s.avgValue <= s.maxValue
  {
    MinMaxBounds(vals);
    CountedStatistics(vals);
  }

  /** The summary's count is the number of counted values; with none, all its statistics are zero. */
  lemma SummaryCount(dataMap: map<string, Value>, parseFloat: string -> Option<real>)
    ensures var vals := HandledValues(DataArray(Lookup(dataMap, "data")), parseFloat);
            var s := SummaryOf(dataMap, parseFloat);
            && s.count == |vals|
            && (s.count == 0 ==> s.minValue == 0.0 && s.maxValue == 0.0 && s.avgValue == 0.0)
  {
  }

  /** With counted values, the minimum and maximum are counted values and bound every counted value. */
  lemma SummaryStatistics(dataMap: map<string, Value>, parseFloat: string -> Option<real>)
    requires |HandledValues(DataArray(Lookup(dataMap, "data")), parseFloat)| > 0
    ensures var vals := HandledValues(DataArray(Lookup(dataMap, "data")), parseFloat);
            var s := SummaryOf(dataMap, parseFloat);
            && s.minValue in vals && s.maxValue in vals
            && (forall i :: 0 <= i < |vals| ==> s.minValue <= vals[i] <= s.maxValue)
  {
    var vals := HandledValues(DataArray(Lookup(dataMap, "data")), parseFloat);
    SummaryOfCounted(SummaryOf(dataMap, parseFloat), vals);
  }

  /** With counted values, the mean lies between their minimum and maximum. */
  lemma SummaryMean(dataMap: map<string, Value>, parseFloat: string -> Option<real>)
    requires |HandledValues(DataArray(Lookup(dataMap, "data")), parseFloat)| > 0
    ensures var vals := HandledValues(DataArray(Lookup(dataMap, "data")), parseFloat);
            var s := SummaryOf(dataMap, parseFloat);
            && s.minValue <= s.avgValue <= s.maxValue
  {
    var vals := HandledValues(DataArray(Lookup(dataMap, "data")), parseFloat);
    SummaryOfCounted(SummaryOf(dataMap, parseFloat), vals);
  }

  /** The summary's name and unit are those of the entry when they are strings, and "" otherwise. */
  lemma SummaryLabels(dataMap: map<string, Value>, parseFloat: string -> Option<real>)
    ensures Lookup(dataMap, "displayName").Str? ==>
              SummaryOf(dataMap, parseFloat).pointName == Lookup(dataMap, "displayName").s
    ensures !Lookup(dataMap, "displayName").Str? ==> SummaryOf(dataMap, parseFloat).pointName == ""
    ensures Lookup(dataMap, "unit").Str? ==> SummaryOf(dataMap, parseFloat).unit == Lookup(dataMap, "unit").s
    ensures !Lookup(dataMap, "unit").Str? ==> SummaryOf(dataMap, parseFloat).unit == ""
  {
  }

  /** A value is counted exactly when some object sample carries it as a numeric value. */
  lemma {:induction false} HandledMembership(items: seq<Value>, parseFloat: string -> Option<real>, x: real)
    ensures x in HandledValues(items, parseFloat) <==>
              exists i :: 0 <= i < |items| && items[i].Object?
                && NumericValue(Lookup(items[i].fields, "value"), parseFloat) == Some(x)
  {
    if items != [] {
      var init := items[..|items| - 1];
      HandledMembership(init, parseFloat, x);
      assert forall i :: 0 <= i < |init| ==> init[i] == items[i];
    }
  }

  /** A sample that is not an object, or whose value is not numeric (a bool, say), changes nothing. */
  lemma SkippedSample(items: seq<Value>, item: Value, parseFloat: string -> Option<real>)
    requires !item.Object? || NumericValue(Lookup(item.fields, "value"), parseFloat).None?
    ensures HandledValues(items + [item], parseFloat) == HandledValues(items, parseFloat)
  {
    assert (items + [item])[..|items|] == items;
  }

  /** Samples given as a list of rows and as a list of the same objects yield the same summary. */
  lemma RowsAndListAgree(dataMap: map<string, Value>, rows: seq<map<string, Value>>,
                         parseFloat: string -> Option<real>)
    ensures SummaryOf(dataMap["data" := Rows(rows)], parseFloat)
            == SummaryOf(dataMap["data" := List(seq(|rows|, i requires 0 <= i < |rows| => Object(rows[i])))], parseFloat)
  {
    var objects := seq(|rows|, i requires 0 <= i < |rows| => Object(rows[i]));
    var m1, m2 := dataMap["data" := Rows(rows)], dataMap["data" := List(objects)];
    assert DataArray(Lookup(m1, "data")) == objects;
    assert DataArray(Lookup(m2, "data")) == objects;
    assert Lookup(m1, "displayName") == Lookup(m2, "displayName");
    assert Lookup(m1, "unit") == Lookup(m2, "unit");
  }

  // ---------------------------------------------------------------------------
  // The time series of a report

  /** One element of `timeSeries`: `time_bucket` and `avg_value`. */
  datatype SeriesEntry = SeriesEntry(timeBucket: Value, avgValue: Value)

  /** The series value of a sample: a string that parses becomes its float, except on the Hilbert point. */
  function SeriesValue(dataPoint: string, v: Value, parseFloat: string -> Option<real>): Value {
    if dataPoint != HilbertPoint && v.Str? && parseFloat(v.s).Some? then Float(parseFloat(v.s).value) else v
  }

  /** The series of a list of samples: one entry per object sample, in order. */
  function SeriesItems(items: seq<Value>, dataPoint: string, parseFloat: string -> Option<real>): seq<SeriesEntry> {
    if items == [] then []
    else
      var last := items[|items| - 1];
      SeriesItems(items[..|items| - 1], dataPoint, parseFloat)
        + (if last.Object?
           then [SeriesEntry(Lookup(last.fields, "time"), SeriesValue(dataPoint, Lookup(last.fields, "value"), parseFloat))]
           else [])
  }

  /** The series of an entry: only a `data` that is a `[]interface{}` list is converted. */
  function SeriesOf(dataMap: map<string, Value>, dataPoint: string, parseFloat: string -> Option<real>)
    : seq<SeriesEntry>
  {
    match Lookup(dataMap, "data")
    case List(items) => SeriesItems(items, dataPoint, parseFloat)
    case _ => []
  }

  /** The series conversion loop of `GetSessionReport`. */
  method ConvertSeries(dataMap: map<string, Value>, dataPoint: string, parseFloat: string -> Option<real>)
    returns (timeSeries: seq<SeriesEntry>)
    ensures timeSeries == SeriesOf(dataMap, dataPoint, parseFloat)
  {
    timeSeries := [];
    var data := Lookup(dataMap, "data");
    if data.List? {
      var dataArray := data.items;
      var i := 0;
      while i < |dataArray|
        invariant 0 <= i <= |dataArray|
        invariant timeSeries == SeriesItems(dataArray[..i], dataPoint, parseFloat)
      {
        assert dataArray[..i + 1][..i] == dataArray[..i];
        var item := dataArray[i];
        if item.Object? {
          var timeBucket := Lookup(item.fields, "time");
          var avgValue := Lookup(item.fields, "value");
          if dataPoint != HilbertPoint {
            if avgValue.Str? {
              var floatVal := parseFloat(avgValue.s);
              if floatVal.Some? {
                avgValue := Float(floatVal.value);
              }
            }
          }
          timeSeries := timeSeries + [SeriesEntry(timeBucket, avgValue)];
        }
        i := i + 1;
      }
      assert dataArray[..i] == dataArray;
    }
  }

  /** A series has one entry per object sample, so at most one per sample. */
  lemma {:induction false} SeriesLength(items: seq<Value>, dataPoint: string, parseFloat: string -> Option<real>)
    ensures |SeriesItems(items, dataPoint, parseFloat)| <= |items|
    ensures (forall i :: 0 <= i < |items| ==> items[i].Object?) ==> |SeriesItems(items, dataPoint, parseFloat)| == |items|
  {
    if items != [] {
      SeriesLength(items[..|items| - 1], dataPoint, parseFloat);
    }
  }

  /**
   * A synced entry carries its rows as a list of rows, not as a list of
   * values, so its series is empty whatever it holds, while its summary
   * still counts the rows' numeric values under the point's display name and unit.
   */
  lemma SyncedEntrySeriesEmpty(v: Value, dp: DataPointSpec, dataPoint: string, parseFloat: string -> Option<real>)
    requires EntryFor(v, dp)
    ensures SeriesOf(v.fields, dataPoint, parseFloat) == []
    ensures SummaryOf(v.fields, parseFloat).pointName == dp.displayName
    ensures SummaryOf(v.fields, parseFloat).unit == dp.unit
    ensures SummaryOf(v.fields, parseFloat).count ==
              |HandledValues(DataArray(Lookup(v.fields, "data")), parseFloat)|
  {
  }

  // ---------------------------------------------------------------------------
  // getMapKeys

  /** `getMapKeys`: every key of the map once, in some order. */
  method GetMapKeys(m: map<string, Value>) returns (keys: seq<string>)
    ensures |keys| == |m|
    ensures forall k :: k in keys <==> k in m
    ensures forall i, j :: 0 <= i < j < |keys| ==> keys[i] != keys[j]
  {
    keys := [];
    var pending := m.Keys;
    while pending != {}
      invariant pending <= m.Keys
      invariant forall k :: k in keys <==> k in m.Keys - pending
      invariant forall i, j :: 0 <= i < j < |keys| ==> keys[i] != keys[j]
      invariant |keys| + |pending| == |m.Keys|
      decreases pending
    {
      var k :| k in pending;
      assert k !in keys;
      keys := keys + [k];
      assert keys[|keys| - 1] == k;
      pending := pending - {k};
    }
  }

  // ---------------------------------------------------------------------------
  // GetSessionReport

  /** An entry of `aggregated`: from a stored summary, or computed from synced data. */
  datatype PointReport =
    | StoredPoint(stored: PointSummaryRow, buckets: seq<TimeSeriesRow>)
    | SyncedPoint(summary: Summary, timeSeries: seq<SeriesEntry>)

  /** The response of `GET /api/sessions/:id/report`. */
  datatype ReportResponse =
    | ReportNotFound                 // 404 "Session not found"
    | ReportFailed(message: string)  // 500 "Failed to get session: ..."
    | Report(session: SessionRow, points: seq<PointSummaryRow>, aggregated: map<string, PointReport>,
             raw: seq<IotDataPoint>)

  /** The aggregated entries built from stored summaries, each with its minute buckets, under the point's name. */
  function StoredReports(sessionId: string, points: seq<PointSummaryRow>): map<string, PointReport> {
    if points == [] then map[]
    else
      var p := points[|points| - 1];
      var series := GetAggregatedIotData(sessionId, p.pointName, "minute");
      StoredReports(sessionId, points[..|points| - 1])[p.pointName := StoredPoint(p, if series.Ok? then series.value else [])]
  }

  /** The stored-summary loop of `GetSessionReport`. */
  method CollectStoredReports(sessionId: string, pointNames: seq<PointSummaryRow>)
    returns (aggregatedData: map<string, PointReport>)
    ensures aggregatedData == StoredReports(sessionId, pointNames)
  {
    aggregatedData := map[];
    var i := 0;
    while i < |pointNames|
      invariant 0 <= i <= |pointNames|
      invariant aggregatedData == StoredReports(sessionId, pointNames[..i])
    {
      assert pointNames[..i + 1][..i] == pointNames[..i];
      var point := pointNames[i];
      var series := GetAggregatedIotData(sessionId, point.pointName, "minute");
      aggregatedData := aggregatedData[point.pointName := StoredPoint(point, if series.Ok? then series.value else [])];
      i := i + 1;
    }
    assert pointNames[..i] == pointNames;
  }

  /** The aggregated entries built from synced data: one per entry that is an object, under the same name. */
  function SyncedReports(iotData: map<string, Value>, parseFloat: string -> Option<real>): map<string, PointReport> {
    map k | k in iotData && iotData[k].Object? ::
      SyncedPoint(SummaryOf(iotData[k].fields, parseFloat), SeriesOf(iotData[k].fields, k, parseFloat))
  }

  /** The synced-data loop of `GetSessionReport`: a summary and a series for every entry that is an object. */
  method CollectSyncedReports(iotData: map<string, Value>, parseFloat: string -> Option<real>)
    returns (aggregatedData: map<string, PointReport>)
    ensures aggregatedData == SyncedReports(iotData, parseFloat)
  {
    aggregatedData := map[];
    var pending := iotData.Keys;
    assert iotData.Keys - pending == {};
    while pending != {}
      invariant pending <= iotData.Keys
      invariant aggregatedData == map k | k in iotData.Keys - pending && iotData[k].Object? ::
                  SyncedPoint(SummaryOf(iotData[k].fields, parseFloat), SeriesOf(iotData[k].fields, k, parseFloat))
      decreases pending
    {
      var dataPoint :| dataPoint in pending;
      var data := iotData[dataPoint];
      if data.Object? {
        var summary := CalculateSummary(data.fields, parseFloat);
        var timeSeries := ConvertSeries(data.fields, dataPoint, parseFloat);
        aggregatedData := aggregatedData[dataPoint := SyncedPoint(summary, timeSeries)];
      }
      pending := pending - {dataPoint};
    }
    assert iotData.Keys - pending == iotData.Keys;
  }

  /** The sync `SyncSessionData` performs for a session row (the report and the sync handler both trigger one). */
  function SessionSync(row: SessionRow, configuredDeviceCode: string, c: TokenCache, now: int, auth: AuthReply,
                      platform: QueryRequest -> QueryReply, parseFloat: string -> Option<real>): SyncState
  {
    SyncOver(c, GetIotDataPoints(),
             SyncContext(DeviceCodeFor(row.deviceId, configuredDeviceCode), row.startTime,
                         WindowEnd(row.status, row.endTime, now), now, auth, platform, parseFloat))
  }

  /** The text of the no-rows error, which the handlers answer with 404. */
  const NoRowsText: string := "sql: no rows in result set"

  /** The response to a failed session lookup: 404 for the no-rows error, 500 with the error text otherwise. */
  function LookupFailure(e: SessionError): (r: ReportResponse)
    ensures r == ReportNotFound <==> e.Message() == NoRowsText
    ensures r != ReportNotFound ==> r == ReportFailed("Failed to get session: " + e.Message())
  {
    if e.Message() == NoRowsText then ReportNotFound else ReportFailed("Failed to get session: " + e.Message())
  }

  /**
   * `GetSessionReport`: a missing session is a 404.  No stored summaries
   * exist, so the report is always built from a live sync of the session;
   * its stored-point list and raw data are empty.
   */
  method GetSessionReport(store: SessionStore, iot: IotService, sessionId: string, configuredDeviceCode: string,
                          now: int, auth: AuthReply, platform: QueryRequest -> QueryReply,
                          parseFloat: string -> Option<real>)
    returns (resp: ReportResponse)
    modifies iot
    ensures FindSession(store.rows, sessionId).None? ==> resp == ReportNotFound && iot.Cache() == old(iot.Cache())
    ensures FindSession(store.rows, sessionId).Some? ==>
              var row := store.rows[FindSession(store.rows, sessionId).value];
              var sync := SessionSync(row, configuredDeviceCode, old(iot.Cache()), now, auth, platform, parseFloat);
              && resp == Report(row, [], SyncedReports(sync.results, parseFloat), [])
              && iot.Cache() == sync.cache
  {
    var lookup := store.GetSessionByID(sessionId);
    if lookup.Err? {
      return LookupFailure(lookup.error);
    }
    var session := lookup.value;
    ghost var row := store.rows[FindSession(store.rows, sessionId).value];
    assert session.Row() == row;
    ghost var sync := SessionSync(row, configuredDeviceCode, old(iot.Cache()), now, auth, platform, parseFloat);

    var stored := GetIotDataPointNames(sessionId);
    var pointNames := if stored.Ok? then stored.value else [];
    var aggregatedData := CollectStoredReports(sessionId, pointNames);

    if |pointNames| == 0 {
      // SyncSessionData never reports an error and always returns a map.
      assert iot.Cache() == old(iot.Cache());
      assert session.Row() == row;
      var iotData := iot.SyncSessionData(session, configuredDeviceCode, now, auth, platform, parseFloat);
      assert SyncState(iot.Cache(), iotData) == sync;
      aggregatedData := CollectSyncedReports(iotData, parseFloat);
    }

    var raw := GetIotDataBySessionId(sessionId);
    return Report(session.Row(), pointNames, aggregatedData, if raw.Ok? then raw.value else []);
  }

  /**
   * A report has one aggregated entry per registry point: a synced summary
   * under the point's display name and unit, and, as the series conversion
   * is written, an empty time series.
   */
  lemma ReportPerRegistryPoint(row: SessionRow, configuredDeviceCode: string, c: TokenCache, now: int,
                               auth: AuthReply, platform: QueryRequest -> QueryReply,
                               parseFloat: string -> Option<real>)
    ensures var agg := SyncedReports(SessionSync(row, configuredDeviceCode, c, now, auth, platform, parseFloat).results,
                                     parseFloat);
            && |agg| == 7
            && forall i :: 0 <= i < 7 ==>
                 var dp := GetIotDataPoints()[i];
                 && dp.name in agg && agg[dp.name].SyncedPoint?
                 && agg[dp.name].summary.pointName == dp.displayName
                 && agg[dp.name].summary.unit == dp.unit
                 && agg[dp.name].timeSeries == []
  {
    var x := SyncContext(DeviceCodeFor(row.deviceId, configuredDeviceCode), row.startTime,
                         WindowEnd(row.status, row.endTime, now), now, auth, platform, parseFloat);
    var m := SyncOver(c, GetIotDataPoints(), x).results;
    SyncCoversRegistry(c, x);
    SyncKeys(c, GetIotDataPoints(), x);
    ReportsOfEntries(m, GetIotDataPoints(), parseFloat);
  }

  /**
   * Results keyed by the points' names, each holding an entry for its point,
   * give one synced report per point, under its display name and unit, with
   * an empty series.
   */
  lemma ReportsOfEntries(m: map<string, Value>, points: seq<DataPointSpec>, parseFloat: string -> Option<real>)
    requires m.Keys == NameSet(points)
    requires forall i :: 0 <= i < |points| ==> points[i].name in m && EntryFor(m[points[i].name], points[i])
    ensures var agg := SyncedReports(m, parseFloat);
            && agg.Keys == m.Keys
            && forall i :: 0 <= i < |points| ==>
                 var dp := points[i];
                 && dp.name in agg && agg[dp.name].SyncedPoint?
                 && agg[dp.name].summary.pointName == dp.displayName
                 && agg[dp.name].summary.unit == dp.unit
                 && agg[dp.name].timeSeries == []
  {
    var agg := SyncedReports(m, parseFloat);
    forall k | k in m ensures m[k].Object? {
      var i :| 0 <= i < |points| && points[i].name == k;
    }
    ReportKeys(m, parseFloat);
    forall i | 0 <= i < |points|
      ensures var dp := points[i];
              && dp.name in agg && agg[dp.name].SyncedPoint?
              && agg[dp.name].summary.pointName == dp.displayName
              && agg[dp.name].summary.unit == dp.unit
              && agg[dp.name].timeSeries == []
    {
      ReportOfEntry(m, points[i], parseFloat);
    }
  }

  /** When every entry is an object, every entry gets a report. */
  lemma ReportKeys(m: map<string, Value>, parseFloat: string -> Option<real>)
    requires forall k :: k in m ==> m[k].Object?
    ensures SyncedReports(m, parseFloat).Keys == m.Keys
  {
  }

  /** An entry for a point gives a synced report under the point's display name and unit, with an empty series. */
  lemma ReportOfEntry(m: map<string, Value>, dp: DataPointSpec, parseFloat: string -> Option<real>)
    requires dp.name in m && EntryFor(m[dp.name], dp)
    ensures var agg := SyncedReports(m, parseFloat);
            && dp.name in agg && agg[dp.name].SyncedPoint?
            && agg[dp.name].summary.pointName == dp.displayName
            && agg[dp.name].summary.unit == dp.unit
            && agg[dp.name].timeSeries == []
  {
    SyncedEntrySeriesEmpty(m[dp.name], dp, dp.name, parseFloat);
  }
}
