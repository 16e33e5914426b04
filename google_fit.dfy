/**
 * The parts of the Google Fit and Android libraries that the core uses,
 * reduced to values: data types, access codes, activity labels, data sources,
 * read requests and the nested shape of a read response.
 */
module GoogleFit {

  import opened Wrappers

  /** FitnessOptions.ACCESS_READ and FitnessOptions.ACCESS_WRITE. */
  const ACCESS_READ: int := 0
  const ACCESS_WRITE: int := 1

  /** Activity.RESULT_OK and Activity.RESULT_CANCELED. */
  const RESULT_OK: int := -1
  const RESULT_CANCELED: int := 0

  /** The largest and smallest values of a Java long. */
  const LONG_MIN: int := -0x8000_0000_0000_0000
  const LONG_MAX: int := 0x7FFF_FFFF_FFFF_FFFF

  /** The DataType constants the core refers to. */
  datatype DataType =
    | TypeStepCountDelta
    | TypeStepCountCumulative
    | TypeDistanceDelta
    | TypeCaloriesExpended
    | TypeActivitySegment
    | TypeActivitySamples
    | TypeHeartRateBpm
    | TypeWeight
    | AggregateStepCountDelta
    | AggregateDistanceDelta
    | AggregateCaloriesExpended
    | AggregateHeartRateSummary

  /** FitnessActivities labels used by the published activity table. */
  const BIKING: string := "biking"
  const BIKING_STATIONARY: string := "biking.stationary"
  const JUMP_ROPE: string := "jump_rope"
  const OTHER: string := "other"
  const RUNNING: string := "running"
  const RUNNING_TREADMILL: string := "running.treadmill"
  const WALKING: string := "walking"
  const WALKING_TREADMILL: string := "walking.treadmill"
  const WEIGHTLIFTING: string := "weightlifting"

  /** java.util.concurrent.TimeUnit, as far as the core uses it. */
  datatype TimeUnit = Hours | Days

  datatype SourceType = Derived | Raw

  /** A DataSource as DataSource.Builder assembles it. */
  datatype DataSource = DataSource(dataType: DataType, sourceType: SourceType, streamName: string, appPackageName: string)

  /** What an aggregate read aggregates: a whole data type or one data source. */
  datatype AggregateInput = FromType(dataType: DataType) | FromSource(source: DataSource)

  /** A DataReadRequest as DataReadRequest.Builder assembles it; times in milliseconds. */
  datatype ReadRequest =
    | AggregateRead(input: AggregateInput, output: DataType, bucketSize: nat, bucketUnit: TimeUnit, startMillis: int, endMillis: int)
    | RawRead(dataType: DataType, startMillis: int, endMillis: int, limit: nat)

  /** A field value of a data point; only its identity is modelled, not its number. */
  datatype Value = Value(handle: nat)

  /** A data point: its interval in milliseconds and one value per field of its data type, in field order. */
  datatype DataPoint = DataPoint(startMillis: int, endMillis: int, values: seq<Value>)

  datatype DataSet = DataSet(points: seq<DataPoint>)

  datatype Bucket = Bucket(dataSets: seq<DataSet>)

  /** A DataReadResponse: the buckets of an aggregate read and the TYPE_WEIGHT data set of a raw read. */
  datatype DataReadResponse = DataReadResponse(buckets: seq<Bucket>, weightDataSet: DataSet)

  datatype Error = Error(message: string)

  /** How a Task finished: the value on success, the exception on failure, or cancelled. */
  datatype TaskOutcome<T> = Succeeded(value: T) | Failed(error: Error) | Canceled

  /** The signed-in Google account, known only by identity. */
  datatype Account = Account(id: nat)

  /**
   * The Java narrowing cast `(long) x` of a double: rounds toward zero and
   * saturates at the long range (NaN and infinities are not modelled).
   */
  function ToLong(x: real): (r: int)
    ensures LONG_MIN <= r <= LONG_MAX
    ensures LONG_MIN as real <= x <= LONG_MAX as real ==> -1.0 < x - r as real < 1.0
    ensures LONG_MIN as real <= x <= LONG_MAX as real ==> (x >= 0.0 ==> 0 <= r && r as real <= x) && (x < 0.0 ==> r <= 0 && x <= r as real)
    ensures x > LONG_MAX as real ==> r == LONG_MAX
    ensures x < LONG_MIN as real ==> r == LONG_MIN
  {
    var t := if x >= 0.0 then x.Floor else -((-x).Floor);
    if t < LONG_MIN then LONG_MIN else if t > LONG_MAX then LONG_MAX else t
  }

  /** A whole number of milliseconds survives the cast unchanged. */
  lemma ToLongOfWhole(n: int)
    requires LONG_MIN <= n <= LONG_MAX
    ensures ToLong(n as real) == n
  {
  }

  /** The cast never reverses an order: a larger double never gives a smaller long. */
  lemma ToLongMonotone(x: real, y: real)
    requires x <= y
    ensures ToLong(x) <= ToLong(y)
  {
    if 0.0 <= x {
      assert x.Floor as real <= x <= y < y.Floor as real + 1.0;
    } else if y < 0.0 {
      assert (-y).Floor as real <= -y <= -x < (-x).Floor as real + 1.0;
    }
  }
}
