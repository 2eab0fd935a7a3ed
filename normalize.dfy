/**
 * The value normaliser of services/iot_service.go (`processDataPoints`): each
 * raw (time, value) item the platform returned becomes a canonical row
 * {"time": RFC 3339 text, "value": v}, with the time read by a length
 * heuristic and the value coerced according to the data point's kind.
 */
module Normalize {

  import opened Values
  import opened Registry

  /** Go's zero `time.Time{}` (January 1 of year 1, UTC) in milliseconds since the Unix epoch. */
  const ZeroTimeMs: int := -62_135_596_800_000

  /** `IotDataItem`: one raw item of the platform's `dataList`. */
  datatype DataItem = DataItem(time: Value, value: Value)

  /**
   * The instant (milliseconds since the epoch) that `processDataPoints` reads
   * from a raw time: a float64 is epoch milliseconds (its fraction dropped by
   * `int64`); a string that `strconv.ParseInt` accepts is milliseconds when it
   * is 13 characters long and seconds otherwise; anything else, an unparsable
   * string included, leaves the zero time.
   */
  function NormalizeTime(raw: Value): (ms: int)
  {
    match raw
    case Float(f) => TruncateReal(f)
    case Str(t) =>
      (match ParseInt(t)
       case Some(ts) => if |t| == 13 then ts else ts * 1000
       case None => ZeroTimeMs)
    case _ => ZeroTimeMs
  }

  /**
   * `Format(time.RFC3339)` writes whole seconds only: the row's time text is
   * that of the second the instant falls in.
   */
  function RenderTime(ms: int): (v: Value)
    ensures v.TimeText? && v.seconds * 1000 <= ms < v.seconds * 1000 + 1000
  {
    TimeText(ms / 1000)
  }

  /**
   * The value `processDataPoints` stores: the Hilbert envelope ("array" kind)
   * passes through untouched; for a "number" point a string becomes the float
   * it parses to, or 0.0 when it does not parse; every other value is kept.
   */
  function NormalizeValue(v: Value, dp: DataPointSpec, parseFloat: string -> Option<real>): Value
  {
    if dp.kind == "array" && dp.name == HilbertPoint then v
    else
      match v
      case Str(s) =>
        if dp.kind == "number" then
          (match parseFloat(s) case Some(f) => Float(f) case None => Float(0.0))
        else v
      case TimeText(_) => if dp.kind == "number" then Float(0.0) else v
      case _ => v
  }

  /** The row `processDataPoints` appends for one raw item. */
  function NormalizedRow(item: DataItem, dp: DataPointSpec, parseFloat: string -> Option<real>)
    : map<string, Value>
  {
    map["time" := RenderTime(NormalizeTime(item.time)), "value" := NormalizeValue(item.value, dp, parseFloat)]
  }

  /** The rows of a whole list of items, one per item and in the same order. */
  function ProcessedRows(items: seq<DataItem>, dp: DataPointSpec, parseFloat: string -> Option<real>)
    : (rows: seq<map<string, Value>>)
    ensures |rows| == |items|
    ensures forall i :: 0 <= i < |items| ==> rows[i] == NormalizedRow(items[i], dp, parseFloat)
  {
    seq(|items|, i requires 0 <= i < |items| => NormalizedRow(items[i], dp, parseFloat))
  }

  /** `processDataPoints`: one normalised row per item, in the order of the items. */
  method ProcessDataPoints(items: seq<DataItem>, dp: DataPointSpec, parseFloat: string -> Option<real>)
    returns (processed: seq<map<string, Value>>)
    ensures |processed| == |items|
    ensures forall i :: 0 <= i < |items| ==> processed[i] == NormalizedRow(items[i], dp, parseFloat)
  {
    processed := [];
    var k := 0;
    while k < |items|
      invariant 0 <= k <= |items|
      invariant |processed| == k
      invariant forall i :: 0 <= i < k ==> processed[i] == NormalizedRow(items[i], dp, parseFloat)
    {
      var item := items[k];
      var timestamp := ZeroTimeMs;
      match item.time {
        case Float(t) =>
          timestamp := TruncateReal(t);
        case Str(t) =>
          var ts := ParseInt(t);
          if ts.Some? {
            if |t| == 13 {
              timestamp := ts.value;
            } else {
              timestamp := ts.value * 1000;
            }
          }
        case _ =>
      }
      var value: Value;
      if dp.kind == "array" && dp.name == HilbertPoint {
        value := item.value;
      } else {
        match item.value {
          case Str(v) =>
            if dp.kind == "number" {
              var f := parseFloat(v);
              if f.Some? {
                value := Float(f.value);
              } else {
                value := Float(0.0);
              }
            } else {
              value := item.value;
            }
          case TimeText(_) =>
            value := if dp.kind == "number" then Float(0.0) else item.value;
          case _ =>
            value := item.value;
        }
      }
      processed := processed + [map["time" := RenderTime(timestamp), "value" := value]];
      k := k + 1;
    }
  }

  // ---------------------------------------------------------------------------
  // Time normalisation

  /** A 13-character integer string is read as the same instant as the float of that number. */
  lemma MillisecondStringMatchesFloat(t: string, n: int)
    requires ParseInt(t) == Some(n) && |t| == 13
    ensures NormalizeTime(Str(t)) == NormalizeTime(Float(n as real)) == n
  {
  }

  /** An integer string of any other length is read as seconds. */
  lemma OtherLengthStringIsSeconds(t: string, n: int)
    requires ParseInt(t) == Some(n) && |t| != 13
    ensures NormalizeTime(Str(t)) == n * 1000
  {
  }

  /** A string ParseInt rejects, and a raw time that is neither float nor string, give the zero time. */
  lemma UnreadableTimeIsZero(raw: Value)
    requires !raw.Float? && (raw.Str? ==> ParseInt(raw.s).None?)
    ensures NormalizeTime(raw) == ZeroTimeMs
  {
  }

  /** The decimal texts of the two example instants. */
  lemma ExampleTexts()
    ensures NatText(1700000000000) == "1700000000000"
    ensures NatText(1700000000) == "1700000000"
  {
    assert NatText(1) == "1";
    assert NatText(17) == "17";
    assert NatText(170) == "170";
    assert NatText(1700) == "1700";
    assert NatText(17000) == "17000";
    assert NatText(170000) == "170000";
    assert NatText(1700000) == "1700000";
    assert NatText(17000000) == "17000000";
    assert NatText(170000000) == "170000000";
    assert NatText(1700000000) == "1700000000";
    assert NatText(17000000000) == "17000000000";
    assert NatText(170000000000) == "170000000000";
  }

  /** ParseInt reads the two example strings. */
  lemma ExampleParses()
    ensures ParseInt("1700000000000") == Some(1700000000000)
    ensures ParseInt("1700000000") == Some(1700000000)
  {
    ExampleTexts();
    ParseIntRoundTrip(1700000000000);
    ParseIntRoundTrip(1700000000);
  }

  /** A 13-digit millisecond string and the same float are one instant; a 10-digit string is read as seconds. */
  lemma TimestampExamples()
    ensures NormalizeTime(Str("1700000000000")) == NormalizeTime(Float(1700000000000.0)) == 1700000000000
    ensures NormalizeTime(Str("1700000000")) == 1700000000000
  {
    ExampleParses();
    MillisecondStringMatchesFloat("1700000000000", 1700000000000);
    OtherLengthStringIsSeconds("1700000000", 1700000000);
  }

  // ---------------------------------------------------------------------------
  // Value normalisation

  /** Normalisation changes a value only for a "number" point, and only when the value is a string. */
  lemma ValueChangesOnlyNumericStrings(v: Value, dp: DataPointSpec, parseFloat: string -> Option<real>)
    requires NormalizeValue(v, dp, parseFloat) != v
    ensures dp.kind == "number" && (v.Str? || v.TimeText?)
  {
  }

  /** A string of a "number" point becomes its parsed float, or 0.0 when it does not parse. */
  lemma NumericStringCoerced(s: string, dp: DataPointSpec, parseFloat: string -> Option<real>)
    requires dp.kind == "number"
    ensures NormalizeValue(Str(s), dp, parseFloat) ==
              if parseFloat(s).Some? then Float(parseFloat(s).value) else Float(0.0)
  {
  }

  /**
   * On the registry, the pass-through test "array and Hilbert" picks out exactly
   * the array-kind points, so every array value is passed through.
   */
  lemma PassThroughIsArrayKind(i: nat, v: Value, parseFloat: string -> Option<real>)
    requires i < |GetIotDataPoints()|
    ensures var dp := GetIotDataPoints()[i];
            (dp.kind == "array" && dp.name == HilbertPoint) <==> dp.kind == "array"
    ensures GetIotDataPoints()[i].kind == "array" ==>
              NormalizeValue(v, GetIotDataPoints()[i], parseFloat) == v
  {
  }
}
