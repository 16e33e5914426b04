# react-native-fitness, Android core, in Dafny

A model of the Android half of the React Native fitness bridge: the code
that turns a caller's permission list into Google Fit data-type
declarations, keeps the one pending permission promise and settles it from
the activity-result callback, builds the hourly or daily aggregate reads,
flattens the store's buckets, data sets, points and fields into one ordered
array of `{startDate, endDate, quantity}` records, names the stream of a
saved activity, and publishes the lookup tables as module constants.

Files, one module each:

- `wrappers.dfy` (`Wrappers`): `Option`, the rendering of a nullable reference.
- `permission.dfy` (`Permission`): the kind codes and the `Request` value.
- `google_fit.dfy` (`GoogleFit`): the Google Fit and Android values the core
  uses (data types, access and result codes, activity labels, data sources,
  read requests, the nested response shape, task outcomes) and the Java
  `(long)` cast.
- `permission_fold.dfy` (`PermissionFold`): `addPermissionToFitnessOptions`
  over a builder class that records each `addDataType`.
- `queries.dfy` (`Queries`): the interval token rule and the read requests.
- `normalization.dfy` (`Normalization`): the `process*` loops over a
  `WritableArray` class and the readers' success and failure listeners.
- `write_path.dfy` (`WritePath`): `saveActivity`'s stream name, data set and
  promise calls.
- `manager.dfy` (`FitnessManager`): class `Manager` with its `promise` field.
- `fitness_module.dfy` (`FitnessModule`): class `RNFitnessModule`, the
  request parser and the published tables.

Each imperative operation of the source is a method proved against a
specification function (`Contributions`, `DataSetRecords`,
`ResponseRecords`, `ParseAll`, `CallbackResult`); the properties are lemmas
about those functions.

Values that come from the Google Fit and Android libraries, not from this
repository, are written out with their published values:
`FitnessOptions.ACCESS_READ` = 0, `ACCESS_WRITE` = 1, `Activity.RESULT_OK` =
-1, `RESULT_CANCELED` = 0, and the `FitnessActivities` labels (`biking`,
`biking.stationary`, `jump_rope`, `other`, `running`, `running.treadmill`,
`walking`, `walking.treadmill`, `weightlifting`).

Points where the model follows the code rather than the documented intent:

- `Permission.HEART_RATE` is used at Manager.java:54 and :96 and at
  RNFitnessModule.java:73 but Permission.java does not declare it, so the
  module as shipped does not compile. The model gives it the fresh code 5.
- Only `NullPointerException` is caught while parsing the permission array.
  A null entry is skipped. A map without a `kind` key makes React Native's
  `getInt` throw `NoSuchKeyException`, which is not caught, so the whole
  call fails (`Escaped(index)`); such an entry is not simply dropped. See
  Findings: the bridge members keep this parse, since it is what the
  shipped code does, and `LenientAgreesWithoutEscape` shows that the
  corrected parse gives the same requests on every array they accept.
- The pending promise is never cleared: a later matching callback calls
  resolve on the same promise again, and a matching callback before any request
  dereferences null (`NullPromise`).
- A read with zero buckets, an empty weight data set, or a cancelled task
  never settles the promise (`Pending`).
- saveActivity's failure listener is registered before its completion
  listener, so on a failed insert the untagged reject is the first call and
  settles the promise; the tagged SaveActivityError reject comes after it.
  The model records both calls in that order and does not model what the
  second call does inside React Native.

Points where the model takes the evidently intended behaviour (see
Findings):

- The interval token is compared with Java `==`, which compares
  references; the readers in the model compare the token's text.

## Model

| member | source | states |
|---|---|---|
| Permission.IntDefExcludesHeartRate | android/src/main/java/com/ovalmoney/fitness/permission/Permission.java:10-16 | The @IntDef set holds exactly the five codes 0..4 and does not include HEART_RATE. |
| Permission.SwitchCodesDistinct | android/src/main/java/com/ovalmoney/fitness/permission/Permission.java:19-23 | The six kind codes the fold's switch tests (the five declared ones and HEART_RATE) are pairwise distinct, so at most one case fires. |
| PermissionFold.Contribution | android/src/main/java/com/ovalmoney/fitness/manager/Manager.java:81-104 | A STEP request adds exactly TYPE_STEP_COUNT_DELTA then TYPE_STEP_COUNT_CUMULATIVE; DISTANCE, CALORIES, ACTIVITY, HEART_RATE and WEIGHT add exactly one declaration; an unknown kind adds nothing; every declaration carries the request's access. |
| PermissionFold.ContributionMatchesRegistry | android/src/main/java/com/ovalmoney/fitness/manager/Manager.java:81-104 | The switch agrees with the kind-to-data-types registry table: a known kind adds its table's types in order at the request's access, an unknown one nothing. |
| PermissionFold.ContributionsAppend | android/src/main/java/com/ovalmoney/fitness/manager/Manager.java:77-108 | Folding a concatenation adds the first part's declarations and then the second's. |
| PermissionFold.ContributionsMembership | android/src/main/java/com/ovalmoney/fitness/manager/Manager.java:77-108 | A declaration is added iff some request at some index contributes it (both directions). |
| PermissionFold.ContributionsUnion | android/src/main/java/com/ovalmoney/fitness/manager/Manager.java:77-108 | The declared set is the union of the per-request contributions. |
| PermissionFold.ContributionsPermutation | android/src/main/java/com/ovalmoney/fitness/manager/Manager.java:77-108 | Permuting the request list leaves the set of declared (type, access) pairs unchanged. |
| PermissionFold.ContributionsCount | android/src/main/java/com/ovalmoney/fitness/manager/Manager.java:77-108 | The fold adds two declarations per STEP request, one per other known kind, none otherwise; at most twice the number of requests. |
| PermissionFold.FitnessOptionsBuilder.AddDataType | android/src/main/java/com/ovalmoney/fitness/manager/Manager.java:83-85 | Each addDataType call appends one (type, access) pair to the builder and changes nothing else. |
| PermissionFold.AddPermissionToFitnessOptions | android/src/main/java/com/ovalmoney/fitness/manager/Manager.java:77-108 | The loop visits each request once in index order, only appends to the builder, and returns the same builder; the appended declarations are the list's contributions. |
| PermissionFold.BuildOptions | android/src/main/java/com/ovalmoney/fitness/manager/Manager.java:122-123 | Folding the requests into a fresh builder and building it yields the options of the request list. |
| PermissionFold.OptionsForPermutation | android/src/main/java/com/ovalmoney/fitness/manager/Manager.java:112-113 | Two permutations of one request list build equal options. |
| Queries.NearMissTokensSelectDays | android/src/main/java/com/ovalmoney/fitness/manager/Manager.java:244-249 | "Hour", "HOUR", "hours", "" and "day" all select DAYS. |
| Queries.IntervalAsWritten | android/src/main/java/com/ovalmoney/fitness/manager/Manager.java:201 | The comparison as written (`==` on Java strings, a reference comparison) selects HOURS only for a string whose text is "hour". |
| Queries.BridgeHourTokenSelectsDays | android/src/main/java/com/ovalmoney/fitness/manager/Manager.java:201 | A bridge-created (non-interned) "hour" selects DAYS as written although its text is "hour". |
| Queries.AsWrittenAgreesOnInterned | android/src/main/java/com/ovalmoney/fitness/manager/Manager.java:288-293 | On interned strings the reference comparison agrees with the text comparison, and HOURS as written implies HOURS by text. |
| Queries.IntervalDependsOnTextOnly | android/src/main/java/com/ovalmoney/fitness/manager/Manager.java:200-205 | The corrected rule depends on the token's text alone: equal text gives the same unit whether or not either string is interned, and "hour" gives HOURS, where the comparison as written gives DAYS for a non-interned "hour". |
| Queries.IntervalRuleUniform | android/src/main/java/com/ovalmoney/fitness/manager/Manager.java:201-205 | A modelling note: the four readers repeat the same comparison text (lines 201, 245, 289 and 332) and share one rule here, so the unit depends on the token alone, not on the metric or the range. |
| Queries.AggregateRequestRange | android/src/main/java/com/ovalmoney/fitness/manager/Manager.java:207-211 | A reader's request keeps an ordered range ordered, and moves each in-range bound of the caller's range by less than one millisecond. |
| Queries.AggregateRequestKeepsWholeRange | android/src/main/java/com/ovalmoney/fitness/manager/Manager.java:254 | Whole in-range millisecond bounds reach the request exactly. |
| Queries.AggregateRequestInjective | android/src/main/java/com/ovalmoney/fitness/manager/Manager.java:207-211 | Equal requests come from the same reader and select the same bucket unit, so the four readers never send one another's request. |
| Queries.AggregateOfInjective | android/src/main/java/com/ovalmoney/fitness/manager/Manager.java:338-339 | Distinct metrics aggregate into distinct aggregate types. |
| GoogleFit.ToLong | android/src/main/java/com/ovalmoney/fitness/manager/Manager.java:210 | The `(long)` cast of a range bound always lands in the long range: within it, it rounds toward zero and moves a value by less than one; above it, it gives Long.MAX_VALUE, and below it Long.MIN_VALUE. |
| GoogleFit.ToLongOfWhole | android/src/main/java/com/ovalmoney/fitness/manager/Manager.java:254 | A whole number of milliseconds within the long range survives the cast. |
| GoogleFit.ToLongMonotone | android/src/main/java/com/ovalmoney/fitness/manager/Manager.java:210 | The cast never reverses an order: a larger double never gives a smaller long. |
| Normalization.DataSetRecordCount | android/src/main/java/com/ovalmoney/fitness/manager/Manager.java:458-465 | A data set yields as many records as its points have fields in total. |
| Normalization.PointRecordAt | android/src/main/java/com/ovalmoney/fitness/manager/Manager.java:459-464 | Field j of one data point yields the record with the point's formatted start and end and that field's value. |
| Normalization.DataSetRecordsAppend | android/src/main/java/com/ovalmoney/fitness/manager/Manager.java:458-465 | Flattening a concatenation of points yields the first part's records and then the second's. |
| Normalization.DataSetRecordAt | android/src/main/java/com/ovalmoney/fitness/manager/Manager.java:458-465 | Field j of point i is record number FieldCount(points before i) + j and carries point i's dates and that field's value. |
| Normalization.ResponseRecordsAppend | android/src/main/java/com/ovalmoney/fitness/manager/Manager.java:220-225 | A response's records are its buckets' records in bucket order: flattening concatenated bucket lists concatenates their records. |
| Normalization.SingleValueBucketRecord | android/src/main/java/com/ovalmoney/fitness/manager/Manager.java:220-225 | A bucket with one data set of one point of one field yields exactly one record with that point's dates. |
| Normalization.OneRecordPerBucket | android/src/main/java/com/ovalmoney/fitness/manager/Manager.java:218-227 | Buckets holding one value each yield exactly one record per bucket, in bucket order, each with its bucket's dates. |
| Normalization.TwoFieldPointScenario | android/src/main/java/com/ovalmoney/fitness/manager/Manager.java:472-478 | One bucket with one data set holding one point with two fields yields exactly two records with identical start and end dates. |
| Normalization.WritableArray.PushMap | android/src/main/java/com/ovalmoney/fitness/manager/Manager.java:463 | A push appends one record (a snapshot) to the array. |
| Normalization.PushPoint | android/src/main/java/com/ovalmoney/fitness/manager/Manager.java:459-464 | The inner loop appends exactly the point's records to the array. |
| Normalization.PushDataSet | android/src/main/java/com/ovalmoney/fitness/manager/Manager.java:458-465 | The nested loops append exactly the data set's records, point by point and field by field. |
| Normalization.ProcessStep | android/src/main/java/com/ovalmoney/fitness/manager/Manager.java:454-466 | processStep appends the data set's records with values taken as ints. |
| Normalization.ProcessDistance | android/src/main/java/com/ovalmoney/fitness/manager/Manager.java:468-480 | processDistance appends the data set's records with values taken as floats. |
| Normalization.ProcessHeartRate | android/src/main/java/com/ovalmoney/fitness/manager/Manager.java:496-508 | processHeartRate appends the data set's records with values taken as floats. |
| Normalization.Process | android/src/main/java/com/ovalmoney/fitness/manager/Manager.java:223 | Calling a reader's process method appends that data set's records with the processor's coercion. |
| Normalization.ProcessBucket | android/src/main/java/com/ovalmoney/fitness/manager/Manager.java:221-224 | The inner handler loop appends the bucket's data sets' records in data-set order. |
| Normalization.OnReadSuccess | android/src/main/java/com/ovalmoney/fitness/manager/Manager.java:217-228 | With at least one bucket the handler resolves with all records in bucket, data-set, point and field order; with zero buckets it never settles the promise. |
| Normalization.HandleRead | android/src/main/java/com/ovalmoney/fitness/manager/Manager.java:215-235 | A reader's listeners resolve as above on success, reject with the exception on failure, and settle nothing on cancellation. |
| Normalization.WeightCompletion | android/src/main/java/com/ovalmoney/fitness/manager/Manager.java:386-408 | getWeight's listeners: success as above, failure rejects with the exception, cancellation settles nothing; a resolution implies a non-empty data set. |
| WritePath.ReplaceDots | android/src/main/java/com/ovalmoney/fitness/manager/Manager.java:420 | `replace(".", "_")` keeps the length, turns every '.' into '_', keeps every other character, and leaves no '.'. |
| WritePath.ReplaceDotsIdempotent | android/src/main/java/com/ovalmoney/fitness/manager/Manager.java:420 | Replacing a second time changes nothing. |
| WritePath.ReplaceDotsOfDotFree | android/src/main/java/com/ovalmoney/fitness/manager/Manager.java:420 | A label without dots is its own replacement. |
| WritePath.StreamName | android/src/main/java/com/ovalmoney/fitness/manager/Manager.java:420 | The stream name is "save_activity_" followed by the replaced activity; its length is 14 + |activity| and it contains no '.'. |
| WritePath.StreamNameCollision | android/src/main/java/com/ovalmoney/fitness/manager/Manager.java:420 | Two activities share a stream name iff they have equal length and differ only where one has '.' and the other '_' (both directions). |
| WritePath.InsertSettlementsProperties | android/src/main/java/com/ovalmoney/fitness/manager/Manager.java:431-451 | Of the calls saveActivity makes on its promise: resolve is called, only with true, exactly when the insert succeeded; every reject carries the task's exception (none when cancelled); the last call on an unsuccessful insert is the SaveActivityError reject; at most two calls are made. The first call, which settles the promise, is the untagged reject with the exception when the insert failed, and carries SaveActivityError exactly when the task was cancelled, with no cause. |
| FitnessManager.CallbackResult | android/src/main/java/com/ovalmoney/fitness/manager/Manager.java:135-142 | A callback resolves the pending promise iff the request code is 111 and the result is OK (true) or CANCELED (false); with no promise stored those pairs dereference null; any other pair does nothing. |
| FitnessManager.Resolutions | android/src/main/java/com/ovalmoney/fitness/manager/Manager.java:137-140 | One callback makes at most one resolution. |
| FitnessManager.OtherResultCodesIgnored | android/src/main/java/com/ovalmoney/fitness/manager/Manager.java:136-141 | A result code other than OK and CANCELED is ignored whatever the request code. |
| FitnessManager.Manager.constructor | android/src/main/java/com/ovalmoney/fitness/manager/Manager.java:63 | A new manager has no pending promise and has made no resolution. |
| FitnessManager.Manager.IsAuthorized | android/src/main/java/com/ovalmoney/fitness/manager/Manager.java:110-117 | Authorized iff Play Services is available, there is a last signed-in account, and that account holds every declared permission of the requests. |
| FitnessManager.Manager.RequestPermissions | android/src/main/java/com/ovalmoney/fitness/manager/Manager.java:119-128 | The caller's promise replaces whatever was pending, and the native flow is launched with request code 111, the last signed-in account and the requests' options. |
| FitnessManager.Manager.OnActivityResult | android/src/main/java/com/ovalmoney/fitness/manager/Manager.java:134-142 | The callback's outcome is CallbackResult of the pending promise; the field is never cleared; the log of resolutions grows by at most that one resolution. |
| FitnessManager.Manager.Subscribe | android/src/main/java/com/ovalmoney/fitness/manager/Manager.java:147-166 | Without an account it resolves false and subscribes nothing; otherwise it subscribes the data type. The promise is never rejected: it resolves true exactly when an account exists and the subscription succeeded. |
| FitnessManager.Manager.SubscribeToActivity | android/src/main/java/com/ovalmoney/fitness/manager/Manager.java:147-168 | subscribeToActivity subscribes TYPE_ACTIVITY_SAMPLES, with the null-account early return. |
| FitnessManager.Manager.SubscribeToSteps | android/src/main/java/com/ovalmoney/fitness/manager/Manager.java:170-190 | subscribeToSteps subscribes TYPE_STEP_COUNT_DELTA, with the null-account early return. |
| FitnessManager.Manager.GetSteps | android/src/main/java/com/ovalmoney/fitness/manager/Manager.java:192-241 | getSteps sends the steps aggregate request and settles its promise as its listeners do, values as ints. |
| FitnessManager.Manager.GetDistance | android/src/main/java/com/ovalmoney/fitness/manager/Manager.java:243-285 | getDistance sends the distance aggregate request and settles as its listeners do, values as floats. |
| FitnessManager.Manager.GetCalories | android/src/main/java/com/ovalmoney/fitness/manager/Manager.java:287-328 | getCalories sends the calories aggregate request and flattens with processDistance, values as floats. |
| FitnessManager.Manager.GetHeartRate | android/src/main/java/com/ovalmoney/fitness/manager/Manager.java:330-372 | getHeartRate sends the heart-rate summary request and settles as its listeners do, values as floats. |
| FitnessManager.Manager.GetWeight | android/src/main/java/com/ovalmoney/fitness/manager/Manager.java:375-414 | getWeight reads raw TYPE_WEIGHT over [1, now] with a limit of one point and settles as its listeners do. |
| FitnessManager.Manager.SaveActivity | android/src/main/java/com/ovalmoney/fitness/manager/Manager.java:416-452 | saveActivity inserts one data set holding one point labelled with the activity as given, on a dot-free stream named after it. Resolve is called exactly when the insert succeeded; the first call on a failed insert, the one that settles the promise, is the untagged reject with the exception, and the SaveActivityError reject is the last call made. |
| FitnessManager.OverlappingRequests | android/src/main/java/com/ovalmoney/fitness/manager/Manager.java:119-142 | After two requests before any callback, a granting callback resolves only the second caller's promise. |
| FitnessManager.RepeatedCallback | android/src/main/java/com/ovalmoney/fitness/manager/Manager.java:135-142 | Because the field is never cleared, an OK callback and then a CANCELED callback call resolve twice on the same promise, first with true and then with false; what the second call does inside React Native is not modelled. |
| FitnessModule.CreateRequestFromReactArray | android/src/main/java/com/ovalmoney/fitness/RNFitnessModule.java:197-211 | The loop's result is the entry-by-entry parse: null entries skipped, entries without kind escaping with their index, the rest appended in order. |
| FitnessModule.ParseEscapesExactly | android/src/main/java/com/ovalmoney/fitness/RNFitnessModule.java:201-208 | Parsing fails iff some non-null entry lacks "kind", and then it names the first such entry (only NullPointerException is caught). |
| FitnessModule.ParseKeepsPresentEntries | android/src/main/java/com/ovalmoney/fitness/RNFitnessModule.java:197-211 | A successful parse has one request per non-null entry, in input order, never more than the input, each with the entry's kind and its access or ACCESS_READ. |
| FitnessModule.ParseAppend | android/src/main/java/com/ovalmoney/fitness/RNFitnessModule.java:200-209 | Parsing a concatenation gives the first part's requests then the second's, or the first escape with its index shifted. |
| FitnessModule.EscapeIsFinal | android/src/main/java/com/ovalmoney/fitness/RNFitnessModule.java:201-208 | Once an entry's exception escapes, no later entry is read. |
| FitnessModule.NullEntrySkipped | android/src/main/java/com/ovalmoney/fitness/RNFitnessModule.java:206-208 | A null entry contributes nothing and the entries after it are still processed. |
| FitnessModule.MalformedEntryScenario | android/src/main/java/com/ovalmoney/fitness/RNFitnessModule.java:197-211 | [{kind: Step}, null, {kind: Weight, access: Write}] yields Step-read and Weight-write requests, declaring the two step types for read and weight for write. |
| FitnessModule.StepReadWeightWriteOptions | android/src/main/java/com/ovalmoney/fitness/manager/Manager.java:81-101 | Step read plus weight write declare the two step types for read and the weight type for write. |
| FitnessModule.MissingKindEscapes | android/src/main/java/com/ovalmoney/fitness/RNFitnessModule.java:201-208 | As written, [{kind: Step}, {}, {kind: Weight, access: Write}] aborts at entry 1 and yields no requests at all. |
| FitnessModule.LenientDropsMalformedEntries | android/src/main/java/com/ovalmoney/fitness/RNFitnessModule.java:197-211 | The intended conversion drops an entry that is null or lacks "kind" and reads every entry around it. |
| FitnessModule.LenientAgreesWithoutEscape | android/src/main/java/com/ovalmoney/fitness/RNFitnessModule.java:197-211 | On every array the shipped conversion accepts, the intended conversion gives the same requests. |
| FitnessModule.MissingKindDroppedWhenLenient | android/src/main/java/com/ovalmoney/fitness/RNFitnessModule.java:197-211 | The intended conversion of the array that aborts as written keeps its two good entries, Step read and Weight write. |
| FitnessModule.PermissionsTableProperties | android/src/main/java/com/ovalmoney/fitness/RNFitnessModule.java:68-75 | PERMISSIONS maps exactly Step, Distance, Activity, Calories, HeartRate and Weight to distinct codes, all recognised by the fold, whose values are the @IntDef codes plus HEART_RATE. |
| FitnessModule.AccessesTableProperties | android/src/main/java/com/ovalmoney/fitness/RNFitnessModule.java:77-80 | ACCESSES maps exactly Read to ACCESS_READ and Write to ACCESS_WRITE, two different codes. |
| FitnessModule.ActivitiesTableProperties | android/src/main/java/com/ovalmoney/fitness/RNFitnessModule.java:82-92 | ACTIVITIES maps exactly the nine names Biking to Weightlifting, and their labels get nine distinct stream names. |
| FitnessModule.DistinctLabelsDistinctStreams | android/src/main/java/com/ovalmoney/fitness/manager/Manager.java:420 | Labels of different lengths or different leading letters get different stream names. |
| FitnessModule.RNFitnessModule.constructor | android/src/main/java/com/ovalmoney/fitness/RNFitnessModule.java:59-66 | Construction fills the three tables with their contents and creates a manager with no pending promise. |
| FitnessModule.RNFitnessModule.FeedPermissionsMap | android/src/main/java/com/ovalmoney/fitness/RNFitnessModule.java:68-75 | The six puts add the PERMISSIONS contents and change no other table. |
| FitnessModule.RNFitnessModule.FeedAccessesTypeMap | android/src/main/java/com/ovalmoney/fitness/RNFitnessModule.java:77-80 | The two puts add the ACCESSES contents and change no other table. |
| FitnessModule.RNFitnessModule.FeedActivitiesMap | android/src/main/java/com/ovalmoney/fitness/RNFitnessModule.java:82-92 | The nine puts add the ACTIVITIES contents and change no other table. |
| FitnessModule.PublishedConstants | android/src/main/java/com/ovalmoney/fitness/RNFitnessModule.java:59-108 | A freshly built module publishes exactly five keys: Platform "GoogleFit", the six-entry permission table, Read and Write, the nine activities and an empty Error map; every published permission code declares at least one data type in the fold, the published Read is the conversion's default access, and the published activity labels get pairwise distinct stream names. |
| FitnessModule.RNFitnessModule.IsAuthorized | android/src/main/java/com/ovalmoney/fitness/RNFitnessModule.java:110-113 | The bridge's isAuthorized answers the manager's check on the parsed requests, or fails when an entry's exception escapes. |
| FitnessModule.RNFitnessModule.RequestPermissions | android/src/main/java/com/ovalmoney/fitness/RNFitnessModule.java:115-123 | Without a current activity the promise is rejected and the manager is untouched; otherwise the parsed requests go to the manager, which stores the promise and launches the flow. |

## Left out

- Play Services availability and its error dialog (Manager.java:65-75) are a boolean parameter of `IsAuthorized`; the dialog is not modelled.
- `GoogleSignIn.getLastSignedInAccount`, `hasPermissions` and `requestPermissions` are foreign calls: the account is a parameter, the granted check is a function parameter (false without an account), and the launch is returned as a value.
- The history and recording clients (`readData`, `insertData`, `subscribe`) are function parameters from request to task outcome; their asynchrony is not modelled, and each listener's effect is computed as soon as the outcome is given.
- Date formatting with `SimpleDateFormat` depends on locale and time zone; it is a function parameter `format`.
- Field values are opaque `Value` handles; `asInt`/`asFloat` are recorded as a coercion tag, not computed, and floating-point numbers are not modelled.
- `getWeight`'s `grams = kilograms * 1000` and `pounds = kilograms * 2.20462262185` are floating-point arithmetic and are not modelled; the record keeps only the kilogram value and the times.
- Normalization.WeightCompletion: a first weight point without a value (the library would throw) is reported as Pending; the exception itself is not modelled.
- One `WritableMap` is re-pushed for every record of a data set; each push is modelled as an independent snapshot, not as aliasing.
- Races on the unsynchronized `promise` field are not modelled; only the sequential overwrite is.
- GoogleFit.ToLong: NaN and infinite doubles are not modelled (reals have neither).
- The `try`/`catch` around the launch in `Manager.requestPermissions` only logs; a throwing launch is not modelled.
- The bridge's `isAuthorized` passes a possibly null activity to the Play Services check; the model takes a present activity.
- The bridge methods that wrap the readers, `saveActivity` and the subscriptions in `catch (Error e)` are thin glue and are not modelled.
- `processCalories` (Manager.java:482-494) is never called; it is identical to `processDistance`, which `getCalories` uses.
- `getName` returns the constant "Fitness"; it is not modelled.
- The three tables are static maps shared by all module instances; the model keeps them as fields of each `RNFitnessModule` object and fills them from empty.
- Validation inside Google Fit's request builders (for example of an inverted range) belongs to the library and is not modelled; ranges are passed on unchanged.
- The iOS enumeration header uses different numbering and has no implementation here; no cross-platform agreement is stated.
- The constructor's `reactContext.addActivityEventListener(this.manager)` (RNFitnessModule.java:65), which is how the host delivers activity results to the manager, is not modelled; `Manager.OnActivityResult` is called directly.
- Logging is not modelled.

## Findings

| source | as written | input that shows it | evidently intended | confidence | as-written member | corrected member |
|---|---|---|---|---|---|---|
| android/src/main/java/com/ovalmoney/fitness/manager/Manager.java:201 | `customInterval == "hour"` compares references, so a token string created by the bridge is never the interned literal | `customInterval` = a fresh String with text "hour" selects DAYS | HOURS exactly when the token's text is "hour" | not executed; high (the same comparison is at lines 245, 289 and 332) | Queries.BridgeHourTokenSelectsDays | Queries.IntervalDependsOnTextOnly |
| android/src/main/java/com/ovalmoney/fitness/RNFitnessModule.java:201-208 | only `NullPointerException` is caught, so a map without "kind" makes `getInt` throw `NoSuchKeyException` out of the loop and the whole conversion fails | `[{kind: Step}, {}, {kind: Weight, access: Write}]` | the unreadable entry is dropped and Step read and Weight write are kept | not executed; medium (the catch block shows skipping unreadable entries is the intent) | FitnessModule.MissingKindEscapes | FitnessModule.LenientDropsMalformedEntries |
