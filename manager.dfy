/**
 * com.ovalmoney.fitness.manager.Manager: the single pending-permission
 * promise and the activity-result callback that settles it, the
 * authorization check, the readers, the weight read, the activity write and
 * the two recording subscriptions.
 */
module FitnessManager {

  import opened Wrappers
  import opened Permission
  import opened GoogleFit
  import opened PermissionFold
  import opened Queries
  import opened Normalization
  import opened WritePath

  /** The request code that tags the Google Fit permission flow's activity results. */
  const GOOGLE_FIT_PERMISSIONS_REQUEST_CODE: int := 111

  /** A React Native promise, known only by identity. */
  datatype Promise = Promise(id: nat)

  /** One `promise.resolve(granted)` made by the activity-result callback. */
  datatype Resolution = Resolution(promise: Promise, granted: bool)

  /** The call `GoogleSignIn.requestPermissions(activity, code, account, options)` that opens the native flow. */
  datatype PermissionLaunch = PermissionLaunch(requestCode: int, account: Option<Account>, options: FitnessOptions)

  /**
   * What one activity result does: nothing, resolve the pending promise, or
   * dereference a promise field that was never set (a NullPointerException).
   */
  datatype CallbackOutcome = Ignored | ResolvedWith(promise: Promise, granted: bool) | NullPromise

  /** `GoogleSignIn.hasPermissions(account, options)`: false without a signed-in account. */
  predicate HasPermissions(account: Option<Account>, options: FitnessOptions, granted: (Account, FitnessOptions) -> bool)
  {
    account.Some? && granted(account.value, options)
  }

  /**
   * onActivityResult's two guarded statements. Only request code 111 is
   * acted on; RESULT_OK resolves with true, RESULT_CANCELED with false, and
   * since the two result codes differ at most one of them fires.
   */
  function CallbackResult(pending: Option<Promise>, requestCode: int, resultCode: int): (o: CallbackOutcome)
    ensures o.ResolvedWith? <==>
              pending.Some? && requestCode == GOOGLE_FIT_PERMISSIONS_REQUEST_CODE && (resultCode == RESULT_OK || resultCode == RESULT_CANCELED)
    ensures o.ResolvedWith? ==> o.promise == pending.value && (o.granted <==> resultCode == RESULT_OK)
    ensures o.NullPromise? <==>
              pending.None? && requestCode == GOOGLE_FIT_PERMISSIONS_REQUEST_CODE && (resultCode == RESULT_OK || resultCode == RESULT_CANCELED)
    ensures requestCode != GOOGLE_FIT_PERMISSIONS_REQUEST_CODE ==> o == Ignored
  {
    if resultCode == RESULT_OK && requestCode == GOOGLE_FIT_PERMISSIONS_REQUEST_CODE then
      (if pending.None? then NullPromise else ResolvedWith(pending.value, true))
    else if resultCode == RESULT_CANCELED && requestCode == GOOGLE_FIT_PERMISSIONS_REQUEST_CODE then
      (if pending.None? then NullPromise else ResolvedWith(pending.value, false))
    else
      Ignored
  }

  /** The resolutions one callback adds to the log: none or one. */
  function Resolutions(o: CallbackOutcome): (rs: seq<Resolution>)
    ensures |rs| <= 1
    ensures |rs| == 1 <==> o.ResolvedWith?
  {
    if o.ResolvedWith? then [Resolution(o.promise, o.granted)] else []
  }

  /** Any result code other than OK and CANCELED leaves the pending promise waiting. */
  lemma OtherResultCodesIgnored(pending: Option<Promise>, requestCode: int, resultCode: int)
    requires resultCode != RESULT_OK && resultCode != RESULT_CANCELED
    ensures CallbackResult(pending, requestCode, resultCode) == Ignored
  {
  }

  /** `Task<Void>` listeners of a recording subscription. */
  function SubscribeCompletion(outcome: TaskOutcome<()>): (c: Completion<bool>)
    ensures outcome.Succeeded? ==> c == Resolved(true)
    ensures outcome.Failed? ==> c == Resolved(false)
    ensures outcome.Canceled? ==> c == Pending
  {
    match outcome
    case Succeeded(_) => Resolved(true)
    case Failed(_) => Resolved(false)
    case Canceled => Pending
  }

  class Manager {
    /** The one pending permission promise; null until the first request. */
    var promise: Option<Promise>

    /** Every resolution the callback has made, in order. */
    ghost var resolutions: seq<Resolution>

    constructor ()
      ensures promise == None && resolutions == []
    {
      promise := None;
      resolutions := [];
    }

    /**
     * isAuthorized: false when Play Services is unavailable; otherwise
     * whether the last signed-in account holds every declared permission.
     */
    method IsAuthorized(servicesAvailable: bool, lastSignedIn: Option<Account>, permissions: seq<Request>,
                        granted: (Account, FitnessOptions) -> bool)
        returns (r: bool)
      ensures r <==> servicesAvailable && lastSignedIn.Some? && granted(lastSignedIn.value, OptionsFor(permissions))
    {
      if servicesAvailable {
        var fitnessOptions := BuildOptions(permissions);
        r := HasPermissions(lastSignedIn, fitnessOptions, granted);
      } else {
        r := false;
      }
    }

    /**
     * requestPermissions: stores the caller's promise in the single field,
     * replacing any earlier one, then launches the native flow tagged 111.
     */
    method RequestPermissions(lastSignedIn: Option<Account>, permissions: seq<Request>, p: Promise)
        returns (launch: PermissionLaunch)
      modifies this
      ensures promise == Some(p)
      ensures resolutions == old(resolutions)
      ensures launch == PermissionLaunch(GOOGLE_FIT_PERMISSIONS_REQUEST_CODE, lastSignedIn, OptionsFor(permissions))
    {
      promise := Some(p);
      var fitnessOptions := BuildOptions(permissions);
      launch := PermissionLaunch(GOOGLE_FIT_PERMISSIONS_REQUEST_CODE, lastSignedIn, fitnessOptions);
    }

    /**
     * onActivityResult: resolves the pending promise for request code 111
     * and the OK or CANCELED result; the field is never cleared.
     */
    method OnActivityResult(requestCode: int, resultCode: int) returns (outcome: CallbackOutcome)
      modifies this
      ensures promise == old(promise)
      ensures outcome == CallbackResult(old(promise), requestCode, resultCode)
      ensures resolutions == old(resolutions) + Resolutions(outcome)
    {
      outcome := Ignored;
      if resultCode == RESULT_OK && requestCode == GOOGLE_FIT_PERMISSIONS_REQUEST_CODE {
        if promise.None? {
          return NullPromise;
        }
        outcome := ResolvedWith(promise.value, true);
        resolutions := resolutions + [Resolution(promise.value, true)];
      }
      if resultCode == RESULT_CANCELED && requestCode == GOOGLE_FIT_PERMISSIONS_REQUEST_CODE {
        if promise.None? {
          return NullPromise;
        }
        outcome := ResolvedWith(promise.value, false);
        resolutions := resolutions + [Resolution(promise.value, false)];
      }
    }

    /** A recording subscription: resolves false at once without an account, otherwise subscribes. */
    method Subscribe(dataType: DataType, lastSignedIn: Option<Account>, subscribe: (Account, DataType) -> TaskOutcome<()>)
        returns (subscribed: Option<DataType>, c: Completion<bool>)
      ensures lastSignedIn.None? ==> subscribed == None && c == Resolved(false)
      ensures lastSignedIn.Some? ==> subscribed == Some(dataType) && c == SubscribeCompletion(subscribe(lastSignedIn.value, dataType))
      ensures !c.Rejected? && !(lastSignedIn.None? && c.Pending?)
      ensures c == Resolved(true) <==> lastSignedIn.Some? && subscribe(lastSignedIn.value, dataType).Succeeded?
    {
      if lastSignedIn.None? {
        return None, Resolved(false);
      }
      subscribed := Some(dataType);
      c := SubscribeCompletion(subscribe(lastSignedIn.value, dataType));
    }

    /** subscribeToActivity: the TYPE_ACTIVITY_SAMPLES recording. */
    method SubscribeToActivity(lastSignedIn: Option<Account>, subscribe: (Account, DataType) -> TaskOutcome<()>)
        returns (subscribed: Option<DataType>, c: Completion<bool>)
      ensures lastSignedIn.None? ==> subscribed == None && c == Resolved(false)
      ensures lastSignedIn.Some? ==> subscribed == Some(TypeActivitySamples) && c == SubscribeCompletion(subscribe(lastSignedIn.value, TypeActivitySamples))
    {
      subscribed, c := Subscribe(TypeActivitySamples, lastSignedIn, subscribe);
    }

    /** subscribeToSteps: the TYPE_STEP_COUNT_DELTA recording. */
    method SubscribeToSteps(lastSignedIn: Option<Account>, subscribe: (Account, DataType) -> TaskOutcome<()>)
        returns (subscribed: Option<DataType>, c: Completion<bool>)
      ensures lastSignedIn.None? ==> subscribed == None && c == Resolved(false)
      ensures lastSignedIn.Some? ==> subscribed == Some(TypeStepCountDelta) && c == SubscribeCompletion(subscribe(lastSignedIn.value, TypeStepCountDelta))
    {
      subscribed, c := Subscribe(TypeStepCountDelta, lastSignedIn, subscribe);
    }

    /** getSteps: hourly or daily step buckets from the estimated-steps source, values as ints. */
    method GetSteps(startDate: real, endDate: real, customInterval: string,
                    store: ReadRequest -> TaskOutcome<DataReadResponse>, format: int -> string)
        returns (request: ReadRequest, c: Completion<seq<Record>>)
      ensures request == AggregateRequest(Steps, startDate, endDate, customInterval)
      ensures c == ReadCompletion(store(request), AsInt, format)
    {
      request := AggregateRequest(Steps, startDate, endDate, customInterval);
      c := HandleRead(store(request), ProcessStepFn, format);
    }

    /** getDistance: distance-delta buckets, values as floats. */
    method GetDistance(startDate: real, endDate: real, customInterval: string,
                       store: ReadRequest -> TaskOutcome<DataReadResponse>, format: int -> string)
        returns (request: ReadRequest, c: Completion<seq<Record>>)
      ensures request == AggregateRequest(Distance, startDate, endDate, customInterval)
      ensures c == ReadCompletion(store(request), AsFloat, format)
    {
      request := AggregateRequest(Distance, startDate, endDate, customInterval);
      c := HandleRead(store(request), ProcessDistanceFn, format);
    }

    /** getCalories: calories-expended buckets, flattened by processDistance. */
    method GetCalories(startDate: real, endDate: real, customInterval: string,
                       store: ReadRequest -> TaskOutcome<DataReadResponse>, format: int -> string)
        returns (request: ReadRequest, c: Completion<seq<Record>>)
      ensures request == AggregateRequest(Calories, startDate, endDate, customInterval)
      ensures c == ReadCompletion(store(request), AsFloat, format)
    {
      request := AggregateRequest(Calories, startDate, endDate, customInterval);
      c := HandleRead(store(request), ProcessDistanceFn, format);
    }

    /** getHeartRate: heart-rate summary buckets, values as floats. */
    method GetHeartRate(startDate: real, endDate: real, customInterval: string,
                        store: ReadRequest -> TaskOutcome<DataReadResponse>, format: int -> string)
        returns (request: ReadRequest, c: Completion<seq<Record>>)
      ensures request == AggregateRequest(HeartRate, startDate, endDate, customInterval)
      ensures c == ReadCompletion(store(request), AsFloat, format)
    {
      request := AggregateRequest(HeartRate, startDate, endDate, customInterval);
      c := HandleRead(store(request), ProcessHeartRateFn, format);
    }

    /**
     * getWeight: the most recent weight only: raw TYPE_WEIGHT data over
     * [1, now] limited to one point, whatever range the caller has in mind.
     */
    method GetWeight(nowMillis: int, store: ReadRequest -> TaskOutcome<DataReadResponse>)
        returns (request: ReadRequest, c: Completion<WeightRecord>)
      ensures request == RawRead(TypeWeight, 1, nowMillis, 1)
      ensures c == WeightCompletion(store(request))
    {
      request := RawRead(TypeWeight, 1, nowMillis, 1);
      c := WeightCompletion(store(request));
    }

    /**
     * saveActivity: inserts the one-point activity data set and reports the
     * promise calls its listeners make, in order; the first of them settles
     * the promise.
     */
    method SaveActivity(appPackageName: string, activity: string, startDate: real, endDate: real,
                        insert: ActivityDataSet -> TaskOutcome<()>)
        returns (dataSet: ActivityDataSet, calls: seq<Settlement>)
      ensures dataSet == ActivityDataSetFor(appPackageName, activity, startDate, endDate)
      ensures dataSet.source.streamName == StreamName(activity) && '.' !in dataSet.source.streamName
      ensures |dataSet.points| == 1 && dataSet.points[0].activity == activity
      ensures calls == InsertSettlements(insert(dataSet))
      ensures (exists i :: 0 <= i < |calls| && calls[i].Resolve?) <==> insert(dataSet).Succeeded?
      ensures !insert(dataSet).Succeeded? ==> calls[|calls| - 1].Reject? && calls[|calls| - 1].code == Some(SAVE_ACTIVITY_ERROR)
      ensures insert(dataSet).Failed? ==> calls[0] == Reject(None, Some(insert(dataSet).error))
      ensures (calls[0].Reject? && calls[0].code == Some(SAVE_ACTIVITY_ERROR)) <==> insert(dataSet).Canceled?
    {
      dataSet := ActivityDataSetFor(appPackageName, activity, startDate, endDate);
      calls := InsertSettlements(insert(dataSet));
      InsertSettlementsProperties(insert(dataSet));
    }
  }

  /**
   * Two requests before any callback: the second promise replaces the
   * first, so a granting callback resolves only the second caller.
   */
  method OverlappingRequests(m: Manager, account: Option<Account>, ps: seq<Request>, p1: Promise, p2: Promise)
      returns (outcome: CallbackOutcome)
    requires p1 != p2
    modifies m
    ensures outcome == ResolvedWith(p2, true)
    ensures m.resolutions == old(m.resolutions) + [Resolution(p2, true)]
    ensures m.promise == Some(p2)
  {
    var launch1 := m.RequestPermissions(account, ps, p1);
    var launch2 := m.RequestPermissions(account, ps, p2);
    outcome := m.OnActivityResult(GOOGLE_FIT_PERMISSIONS_REQUEST_CODE, RESULT_OK);
  }

  /** Since the field is never cleared, a repeated matching callback resolves the same promise again. */
  method RepeatedCallback(m: Manager, p: Promise)
      returns (first: CallbackOutcome, second: CallbackOutcome)
    requires m.promise == Some(p)
    modifies m
    ensures first == ResolvedWith(p, true) && second == ResolvedWith(p, false)
    ensures m.resolutions == old(m.resolutions) + [Resolution(p, true), Resolution(p, false)]
  {
    first := m.OnActivityResult(GOOGLE_FIT_PERMISSIONS_REQUEST_CODE, RESULT_OK);
    second := m.OnActivityResult(GOOGLE_FIT_PERMISSIONS_REQUEST_CODE, RESULT_CANCELED);
  }
}
