/**
 * Values shared by every other module: the Option and Result wrappers, a model
 * of Go's dynamically typed `interface{}` values as the telemetry pipeline sees
 * them after `encoding/json` decoding, the integer parser of `strconv`, the
 * string predicates of package `strings`, and Go's truncating conversions.
 */
module Values {

  datatype Option<+T> = None | Some(value: T) {
    function GetOr(default: T): T {
      match this
      case Some(v) => v
      case None => default
    }
  }

  datatype Result<+T, +E> = Ok(value: T) | Err(error: E)

  /**
   * A Go value of static type `interface{}`, one constructor per dynamic type
   * that the pipeline produces or tests for.  JSON decoding yields Nil, Bool,
   * Float (every JSON number is a float64), Str, List and Object only; Int and
   * Rows are built in-process.  TimeText(s) is a Go string holding the
   * `time.RFC3339` rendering of the instant s seconds after the Unix epoch; its
   * characters are not modelled, and like every RFC 3339 text it is a string
   * that `strconv.ParseFloat` rejects.
   */
  datatype Value =
    | Nil
    | Bool(b: bool)
    | Float(f: real)
    | Int(i: int)
    | Str(s: string)
    | TimeText(seconds: int)
    | List(items: seq<Value>)
    | Rows(rows: seq<map<string, Value>>)
    | Object(fields: map<string, Value>)

  /** Go's `m[k]` on a `map[string]interface{}`: the zero value nil when k is absent. */
  function Lookup(m: map<string, Value>, k: string): (v: Value)
    ensures k !in m ==> v == Nil
    ensures k in m ==> v == m[k]
  {
    if k in m then m[k] else Nil
  }

  /** `strings.HasPrefix` */
  predicate HasPrefix(s: string, prefix: string) {
    |prefix| <= |s| && s[..|prefix|] == prefix
  }

  /** `strings.HasSuffix` */
  predicate HasSuffix(s: string, suffix: string) {
    |suffix| <= |s| && s[|s| - |suffix|..] == suffix
  }

  // ---------------------------------------------------------------------------
  // strconv.ParseInt(s, 10, 64) and strconv.Atoi (int is 64 bits wide)

  const Int64Min: int := -0x8000_0000_0000_0000
  const Int64Max: int := 0x7FFF_FFFF_FFFF_FFFF

  predicate IsDigit(c: char) {
    '0' <= c <= '9'
  }

  predicate AllDigits(s: string) {
    forall i :: 0 <= i < |s| ==> IsDigit(s[i])
  }

  function DigitValue(c: char): (d: nat)
    requires IsDigit(c)
    ensures d < 10
  {
    (c as int) - ('0' as int)
  }

  function DigitChar(d: nat): (c: char)
    requires d < 10
    ensures IsDigit(c) && DigitValue(c) == d
  {
    (('0' as int) + d) as char
  }

  /** The number a string of decimal digits denotes, read most significant digit first. */
  function DigitsValue(s: string): nat
    requires AllDigits(s)
  {
    if s == [] then 0 else DigitsValue(s[..|s| - 1]) * 10 + DigitValue(s[|s| - 1])
  }

  /**
   * `strconv.ParseInt(s, 10, 64)`: an optional sign followed by at least one
   * decimal digit, and a value that fits in an int64; anything else is an
   * error (None).
   */
  function ParseInt(s: string): (r: Option<int>)
    ensures r.Some? ==> Int64Min <= r.value <= Int64Max
    ensures r.Some? ==> |s| > 0 && (IsDigit(s[0]) || s[0] == '+' || s[0] == '-')
  {
    if |s| == 0 then None
    else
      var digits := if s[0] == '+' || s[0] == '-' then s[1..] else s;
      if |digits| == 0 || !AllDigits(digits) then None
      else
        var v: int := DigitsValue(digits);
        var n := if s[0] == '-' then -v else v;
        if Int64Min <= n <= Int64Max then Some(n) else None
  }

  /** The decimal text of a natural number, as `strconv.Itoa` writes it. */
  function NatText(n: nat): (s: string)
    ensures |s| > 0 && AllDigits(s)
  {
    if n < 10 then [DigitChar(n)] else NatText(n / 10) + [DigitChar(n % 10)]
  }

  /** The decimal text of an integer, with a leading '-' when it is negative. */
  function IntText(n: int): string {
    if n < 0 then "-" + NatText(-n) else NatText(n)
  }

  lemma {:induction false} NatTextValue(n: nat)
    ensures DigitsValue(NatText(n)) == n
  {
    var s := NatText(n);
    if n >= 10 {
      NatTextValue(n / 10);
      assert s[..|s| - 1] == NatText(n / 10);
    }
  }

  /** ParseInt inverts IntText on every int64. */
  lemma ParseIntRoundTrip(n: int)
    requires Int64Min <= n <= Int64Max
    ensures ParseInt(IntText(n)) == Some(n)
  {
    if n < 0 {
      NatTextValue(-n);
      assert IntText(n)[1..] == NatText(-n);
    } else {
      NatTextValue(n);
    }
  }

  // ---------------------------------------------------------------------------
  // Go's truncating conversions

  /** `int64(f)` for a float64 f in range: the fraction is discarded (rounding toward zero). */
  function TruncateReal(f: real): (n: int)
    ensures f >= 0.0 ==> n as real <= f < n as real + 1.0
    ensures f < 0.0 ==> n as real - 1.0 < f <= n as real
  {
    if f >= 0.0 then f.Floor else -((-f).Floor)
  }

  /**
   * `int64(d.Seconds())` for a duration of `ms` milliseconds: whole seconds,
   * rounded toward zero (Dafny's `/` alone would round negative spans down).
   */
  function WholeSeconds(ms: int): (s: int)
    ensures ms >= 0 ==> 0 <= ms - s * 1000 < 1000
    ensures ms < 0 ==> -1000 < ms - s * 1000 <= 0
  {
    if ms >= 0 then ms / 1000 else -((-ms) / 1000)
  }

  /** The largest span `time.Time.Sub` returns, (2^63 - 1) ns, in whole milliseconds and in whole seconds. */
  const MaxSpanMs: int := 9223372036854
  const MaxSpanSeconds: int := 9223372036

  /**
   * `int64(end.Sub(start).Seconds())` for instants `ms` milliseconds apart.
   * `Sub` saturates at (2^63 - 1) ns and -2^63 ns, so a span beyond about
   * 292 years counts as exactly that long; within the range the duration is
   * the whole seconds of the span.  For millisecond spans the saturation
   * starts exactly beyond `MaxSpanMs`, and its seconds are `MaxSpanSeconds`
   * either way.
   */
  function SpanSeconds(ms: int): (s: int)
    ensures -MaxSpanMs <= ms <= MaxSpanMs ==> s == WholeSeconds(ms)
    ensures ms > MaxSpanMs ==> s == MaxSpanSeconds
    ensures ms < -MaxSpanMs ==> s == -MaxSpanSeconds
    ensures -MaxSpanSeconds <= s <= MaxSpanSeconds
  {
    var w := WholeSeconds(ms);
    if w > MaxSpanSeconds then MaxSpanSeconds else if w < -MaxSpanSeconds then -MaxSpanSeconds else w
  }
}
