/**
 * Manager.saveActivity: the raw activity-segment data source, its stream
 * name, the one-point data set inserted, and how the insert's listeners
 * settle the promise.
 */
module WritePath {

  import opened Wrappers
  import opened GoogleFit

  const STREAM_PREFIX: string := "save_activity_"

  /** `s.replace(".", "_")`: every '.' becomes '_', every other character stays. */
  function ReplaceDots(s: string): (r: string)
    ensures |r| == |s|
    ensures forall i :: 0 <= i < |s| ==> r[i] == (if s[i] == '.' then '_' else s[i])
    ensures '.' !in r
  {
    if s == [] then [] else [if s[0] == '.' then '_' else s[0]] + ReplaceDots(s[1..])
  }

  /** Replacing again changes nothing. */
  lemma ReplaceDotsIdempotent(s: string)
    ensures ReplaceDots(ReplaceDots(s)) == ReplaceDots(s)
  {
  }

  /** A label without dots is its own replacement. */
  lemma ReplaceDotsOfDotFree(s: string)
    requires '.' !in s
    ensures ReplaceDots(s) == s
  {
  }

  /** The stream name: the prefix followed by the activity with dots replaced by underscores. */
  function StreamName(activity: string): (name: string)
    ensures |name| == |STREAM_PREFIX| + |activity| && |name| == 14 + |activity|
    ensures name[..14] == STREAM_PREFIX
    ensures name[14..] == ReplaceDots(activity)
    ensures '.' !in name
  {
    STREAM_PREFIX + ReplaceDots(activity)
  }

  /** Two characters that '.'-replacement maps to the same character. */
  predicate SameAfterReplace(x: char, y: char)
  {
    x == y || (x in "._" && y in "._")
  }

  /**
   * Two activities share a stream name exactly when they have the same
   * length and agree everywhere except where one has '.' and the other '_'.
   */
  lemma StreamNameCollision(a: string, b: string)
    ensures StreamName(a) == StreamName(b) <==>
              |a| == |b| && forall i :: 0 <= i < |a| ==> SameAfterReplace(a[i], b[i])
  {
    if StreamName(a) == StreamName(b) {
      assert StreamName(a)[14..] == StreamName(b)[14..];
      forall i | 0 <= i < |a|
        ensures SameAfterReplace(a[i], b[i])
      {
        assert ReplaceDots(a)[i] == ReplaceDots(b)[i];
      }
    }
    if |a| == |b| && forall i :: 0 <= i < |a| ==> SameAfterReplace(a[i], b[i]) {
      assert ReplaceDots(a) == ReplaceDots(b);
    }
  }

  /** The single point inserted: the activity label over [start, end]. */
  datatype ActivityPoint = ActivityPoint(startMillis: int, endMillis: int, activity: string)

  /** The data set insertData receives: its source and its one point. */
  datatype ActivityDataSet = ActivityDataSet(source: DataSource, points: seq<ActivityPoint>)

  /**
   * The data set saveActivity builds: a raw TYPE_ACTIVITY_SEGMENT source of
   * the app's package named after the activity, holding one point with the
   * activity label as given (an unknown label is not rejected).
   */
  function ActivityDataSetFor(appPackageName: string, activity: string, startDate: real, endDate: real): (ds: ActivityDataSet)
    ensures ds.source == DataSource(TypeActivitySegment, Raw, StreamName(activity), appPackageName)
    ensures |ds.points| == 1
    ensures ds.points[0] == ActivityPoint(ToLong(startDate), ToLong(endDate), activity)
  {
    ActivityDataSet(DataSource(TypeActivitySegment, Raw, StreamName(activity), appPackageName),
                    [ActivityPoint(ToLong(startDate), ToLong(endDate), activity)])
  }

  /** One call made on the promise. */
  datatype Settlement = Resolve(value: bool) | Reject(code: Option<string>, error: Option<Error>)

  const SAVE_ACTIVITY_ERROR: string := "SaveActivityError"

  /**
   * The calls the insert's two listeners make, in registration order: on
   * failure the failure listener rejects with the exception and the
   * completion listener rejects again with the "SaveActivityError" code; a
   * cancelled task reaches only the completion listener.
   */
  function InsertSettlements(outcome: TaskOutcome<()>): (calls: seq<Settlement>)
    ensures outcome.Succeeded? ==> calls == [Resolve(true)]
    ensures outcome.Failed? ==> calls == [Reject(None, Some(outcome.error)), Reject(Some(SAVE_ACTIVITY_ERROR), Some(outcome.error))]
    ensures outcome.Canceled? ==> calls == [Reject(Some(SAVE_ACTIVITY_ERROR), None)]
    ensures |calls| >= 1 && (calls[0].Resolve? <==> outcome.Succeeded?)
  {
    match outcome
    case Succeeded(_) => [Resolve(true)]
    case Failed(e) => [Reject(None, Some(e)), Reject(Some(SAVE_ACTIVITY_ERROR), Some(e))]
    case Canceled => [Reject(Some(SAVE_ACTIVITY_ERROR), None)]
  }

  /**
   * The calls saveActivity makes on its promise: resolve is called, and then
   * only with true, exactly when the insert succeeded; every reject carries
   * the task's exception (none when it was cancelled); the last call made on
   * an unsuccessful insert is the "SaveActivityError" reject; and there are
   * never more than two calls. The first call is the one that settles a
   * React Native promise: on a failed insert it is the untagged reject with
   * the exception, and it carries the "SaveActivityError" code exactly when
   * the task was cancelled, and then with no cause.
   */
  lemma InsertSettlementsProperties(outcome: TaskOutcome<()>)
    ensures var calls := InsertSettlements(outcome);
            1 <= |calls| <= 2 &&
            ((exists i :: 0 <= i < |calls| && calls[i].Resolve?) <==> outcome.Succeeded?) &&
            (forall i :: 0 <= i < |calls| && calls[i].Resolve? ==> calls[i].value) &&
            (forall i :: 0 <= i < |calls| && calls[i].Reject? ==>
               calls[i].error == (if outcome.Failed? then Some(outcome.error) else None)) &&
            (!outcome.Succeeded? ==> calls[|calls| - 1] == Reject(Some(SAVE_ACTIVITY_ERROR), calls[|calls| - 1].error)) &&
            (outcome.Failed? ==> calls[0] == Reject(None, Some(outcome.error))) &&
            ((calls[0].Reject? && calls[0].code == Some(SAVE_ACTIVITY_ERROR)) <==> outcome.Canceled?) &&
            (outcome.Canceled? ==> calls[0].error == None)
  {
    var calls := InsertSettlements(outcome);
    if !outcome.Succeeded? {
      assert !calls[0].Resolve?;
      assert forall i :: 0 <= i < |calls| ==> calls[i].Reject?;
    }
  }
}
