/**
 * The read requests the Manager builds: the interval token rule shared by
 * getSteps, getDistance, getCalories and getHeartRate, the aggregate request
 * each of them assembles, and the most-recent-weight request of getWeight.
 */
module Queries {

  import opened GoogleFit

  /** The four bucketed readers. */
  datatype Metric = Steps | Distance | Calories | HeartRate

  /** The token that selects hourly buckets. */
  const HOUR_TOKEN: string := "hour"

  /** The bucket unit for a caller's token: exact, case-sensitive match on "hour". */
  function Interval(customInterval: string): (u: TimeUnit)
    ensures u == Hours <==> customInterval == HOUR_TOKEN
    ensures u == Days <==> customInterval != HOUR_TOKEN
  {
    if customInterval == HOUR_TOKEN then Hours else Days
  }

  /** Tokens that differ from "hour" only in case or by a suffix still select days. */
  lemma NearMissTokensSelectDays()
    ensures Interval("Hour") == Days && Interval("HOUR") == Days
    ensures Interval("hours") == Days && Interval("") == Days && Interval("day") == Days
  {
  }

  /**
   * A Java String as the core sees it: its characters and whether it is the
   * interned instance (string literals are interned; strings the React Native
   * bridge creates are fresh objects).
   */
  datatype JavaString = JavaString(chars: string, interned: bool)

  /** Java `a == b` on strings compares references: two interned strings with the same text are one object, any other pair are different objects. */
  predicate SameReference(a: JavaString, b: JavaString)
  {
    a.interned && b.interned && a.chars == b.chars
  }

  /** The literal "hour" as it appears in the source. */
  const HourLiteral: JavaString := JavaString(HOUR_TOKEN, true)

  /** The interval selection as written: `customInterval == "hour"` with reference equality. */
  function IntervalAsWritten(customInterval: JavaString): (u: TimeUnit)
    ensures u == Hours ==> customInterval.chars == HOUR_TOKEN
  {
    if SameReference(customInterval, HourLiteral) then Hours else Days
  }

  /** A bridge-created "hour" (not interned) selects days as written, but hours by its text. */
  lemma BridgeHourTokenSelectsDays()
    ensures IntervalAsWritten(JavaString(HOUR_TOKEN, false)) == Days
    ensures Interval(JavaString(HOUR_TOKEN, false).chars) == Hours
  {
  }

  /** As written and by content agree exactly on interned strings. */
  lemma AsWrittenAgreesOnInterned(s: JavaString)
    ensures s.interned ==> IntervalAsWritten(s) == Interval(s.chars)
    ensures IntervalAsWritten(s) == Hours ==> Interval(s.chars) == Hours
  {
  }

  /**
   * The corrected rule looks at the text alone: two Java strings with the
   * same characters select the same unit whether or not either is interned,
   * and a bridge-created "hour" selects hours, where the rule as written
   * selects days.
   */
  lemma IntervalDependsOnTextOnly(a: JavaString, b: JavaString)
    requires a.chars == b.chars
    ensures Interval(a.chars) == Interval(b.chars)
    ensures a.chars == HOUR_TOKEN ==> Interval(a.chars) == Hours
    ensures a.chars == HOUR_TOKEN && a.interned && !b.interned ==>
              IntervalAsWritten(a) == Hours && IntervalAsWritten(b) == Days
  {
  }

  /** The step source getSteps aggregates: Google's derived "estimated_steps" stream. */
  const EstimatedStepDeltas: DataSource :=
    DataSource(TypeStepCountDelta, Derived, "estimated_steps", "com.google.android.gms")

  /** What each metric aggregates, and into which aggregate type. */
  function AggregateOf(metric: Metric): (io: (AggregateInput, DataType))
    ensures metric == Steps ==> io == (FromSource(EstimatedStepDeltas), AggregateStepCountDelta)
    ensures metric == Distance ==> io == (FromType(TypeDistanceDelta), AggregateDistanceDelta)
    ensures metric == Calories ==> io == (FromType(TypeCaloriesExpended), AggregateCaloriesExpended)
    ensures metric == HeartRate ==> io == (FromType(TypeHeartRateBpm), AggregateHeartRateSummary)
  {
    match metric
    case Steps => (FromSource(EstimatedStepDeltas), AggregateStepCountDelta)
    case Distance => (FromType(TypeDistanceDelta), AggregateDistanceDelta)
    case Calories => (FromType(TypeCaloriesExpended), AggregateCaloriesExpended)
    case HeartRate => (FromType(TypeHeartRateBpm), AggregateHeartRateSummary)
  }

  /**
   * The request a bucketed reader builds: aggregate the metric's input,
   * one bucket per unit of the selected interval, over the caller's range
   * cast to long milliseconds (an inverted range is passed on unchanged).
   */
  function AggregateRequest(metric: Metric, startDate: real, endDate: real, customInterval: string): (q: ReadRequest)
    ensures q.AggregateRead? && q.bucketSize == 1
    ensures (q.bucketUnit == Hours) <==> customInterval == HOUR_TOKEN
    ensures (q.input, q.output) == AggregateOf(metric)
    ensures q.startMillis == ToLong(startDate) && q.endMillis == ToLong(endDate)
  {
    var io := AggregateOf(metric);
    AggregateRead(io.0, io.1, 1, Interval(customInterval), ToLong(startDate), ToLong(endDate))
  }

  /**
   * The range a reader asks for: an ordered range stays ordered after the
   * cast, and any in-range bound moves by less than one millisecond.
   */
  lemma AggregateRequestRange(metric: Metric, startDate: real, endDate: real, customInterval: string)
    ensures var q := AggregateRequest(metric, startDate, endDate, customInterval);
            startDate <= endDate ==> q.startMillis <= q.endMillis
    ensures var q := AggregateRequest(metric, startDate, endDate, customInterval);
            LONG_MIN as real <= startDate <= LONG_MAX as real ==> -1.0 < startDate - q.startMillis as real < 1.0
    ensures var q := AggregateRequest(metric, startDate, endDate, customInterval);
            LONG_MIN as real <= endDate <= LONG_MAX as real ==> -1.0 < endDate - q.endMillis as real < 1.0
  {
    if startDate <= endDate {
      ToLongMonotone(startDate, endDate);
    }
  }

  /** Whole in-range milliseconds reach the request exactly. */
  lemma AggregateRequestKeepsWholeRange(metric: Metric, startMillis: int, endMillis: int, customInterval: string)
    requires LONG_MIN <= startMillis <= LONG_MAX && LONG_MIN <= endMillis <= LONG_MAX
    ensures AggregateRequest(metric, startMillis as real, endMillis as real, customInterval).startMillis == startMillis
    ensures AggregateRequest(metric, startMillis as real, endMillis as real, customInterval).endMillis == endMillis
  {
    ToLongOfWhole(startMillis);
    ToLongOfWhole(endMillis);
  }

  /** A request identifies its reader and its bucket unit: equal requests come from the same metric and interval. */
  lemma AggregateRequestInjective(m1: Metric, s1: real, e1: real, t1: string, m2: Metric, s2: real, e2: real, t2: string)
    requires AggregateRequest(m1, s1, e1, t1) == AggregateRequest(m2, s2, e2, t2)
    ensures m1 == m2
    ensures (t1 == HOUR_TOKEN) <==> (t2 == HOUR_TOKEN)
  {
    AggregateOfInjective(m1, m2);
  }

  /**
   * The four readers share one interval rule (Manager.java repeats the same
   * comparison in each), so the unit depends on the token alone.
   */
  lemma IntervalRuleUniform(m1: Metric, m2: Metric, s1: real, e1: real, s2: real, e2: real, customInterval: string)
    ensures AggregateRequest(m1, s1, e1, customInterval).bucketUnit == AggregateRequest(m2, s2, e2, customInterval).bucketUnit
  {
  }

  /** Distinct metrics aggregate into distinct aggregate types. */
  lemma AggregateOfInjective(m1: Metric, m2: Metric)
    ensures AggregateOf(m1).1 == AggregateOf(m2).1 ==> m1 == m2
  {
  }
}
