/**
 * The telemetry-persistence collaborator of models/iot_data.go.  The system
 * stores no telemetry, so each of its three queries answers with an empty
 * list and no error, whatever it is asked.
 */
module IotData {

  import opened Values

  /** `IotPointSummary`: stored per-point statistics. */
  datatype PointSummaryRow = PointSummaryRow(
    pointName: string, unit: string, count: int, minValue: real, maxValue: real, avgValue: real)

  /** `IotTimeSeries`: one stored time bucket. */
  datatype TimeSeriesRow = TimeSeriesRow(
    timeBucket: string, avgValue: real, minValue: real, maxValue: real, dataCount: int)

  /** `IotDataPoint`: one stored raw sample (instants in milliseconds). */
  datatype IotDataPoint = IotDataPoint(
    id: int, sessionId: string, pointName: string, pointValue: real, unit: string,
    timestamp: int, rawData: string, createdAt: int)

  /** `GetIotDataPointNames`: no stored summaries for any session. */
  function GetIotDataPointNames(sessionId: string): (r: Result<seq<PointSummaryRow>, string>)
    ensures r == Ok([])
  {
    Ok([])
  }

  /** `GetAggregatedIotData`: no stored time buckets for any point or interval. */
  function GetAggregatedIotData(sessionId: string, pointName: string, interval: string)
    : (r: Result<seq<TimeSeriesRow>, string>)
    ensures r == Ok([])
  {
    Ok([])
  }

  /** `GetIotDataBySessionId`: no stored raw samples for any session. */
  function GetIotDataBySessionId(sessionId: string): (r: Result<seq<IotDataPoint>, string>)
    ensures r == Ok([])
  {
    Ok([])
  }
}
