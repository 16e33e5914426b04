/**
 * com.ovalmoney.fitness.RNFitnessModule: the bridge module. It parses the
 * caller's permission array into requests, publishes the lookup tables as
 * module constants and guards requestPermissions against a missing activity.
 */
module FitnessModule {

  import opened Wrappers
  import opened Permission
  import opened GoogleFit
  import opened PermissionFold
  import opened WritePath
  import opened FitnessManager

  /** One entry of the bridge's ReadableArray: a map, or null. */
  type Entry = Option<map<string, int>>

  /** What reading one entry does inside the loop's try block. */
  datatype EntryOutcome =
    | Parsed(request: Request)
    | Skipped   // a null map: getInt throws NullPointerException, which is caught and logged
    | Thrown    // a map without "kind": getInt throws NoSuchKeyException, which is not caught

  /** The result of createRequestFromReactArray: the list, or the index of the entry whose exception escaped. */
  datatype Parse = Requests(requests: seq<Request>) | Escaped(index: nat)

  /** The request a map with a "kind" key yields; a missing "access" means ACCESS_READ. */
  function ToRequest(m: map<string, int>): (r: Request)
    requires "kind" in m
    ensures r.permissionKind == m["kind"]
    ensures "access" in m ==> r.permissionAccess == m["access"]
    ensures "access" !in m ==> r.permissionAccess == ACCESS_READ
  {
    Request(m["kind"], if "access" in m then m["access"] else ACCESS_READ)
  }

  function ParseEntry(e: Entry): EntryOutcome
  {
    match e
    case None => Skipped
    case Some(m) => if "kind" in m then Parsed(ToRequest(m)) else Thrown
  }

  /** An entry whose exception is not caught. */
  predicate Escapes(e: Entry)
  {
    e.Some? && "kind" !in e.value
  }

  /** The loop's effect on the whole array, entry by entry. */
  function ParseAll(ps: seq<Entry>): Parse
  {
    if ps == [] then Requests([])
    else
      match ParseAll(ps[..|ps| - 1])
      case Escaped(i) => Escaped(i)
      case Requests(rs) =>
        match ParseEntry(ps[|ps| - 1])
        case Parsed(r) => Requests(rs + [r])
        case Skipped => Requests(rs)
        case Thrown => Escaped(|ps| - 1)
  }

  /** The non-null maps of the array, in order. */
  function Present(ps: seq<Entry>): (ms: seq<map<string, int>>)
    ensures |ms| <= |ps|
  {
    if ps == [] then []
    else Present(ps[..|ps| - 1]) + (if ps[|ps| - 1].Some? then [ps[|ps| - 1].value] else [])
  }

  /**
   * createRequestFromReactArray: one request per non-null entry, in input
   * order; a null entry is skipped and later entries are still read.
   */
  method CreateRequestFromReactArray(permissions: seq<Entry>) returns (r: Parse)
    ensures r == ParseAll(permissions)
  {
    var requestPermissions: seq<Request> := [];
    var size := |permissions|;
    var i := 0;
    while i < size
      invariant 0 <= i <= size
      invariant ParseAll(permissions[..i]) == Requests(requestPermissions)
    {
      assert permissions[..i + 1][..i] == permissions[..i];
      var singlePermission := permissions[i];
      if singlePermission.None? {
        // NullPointerException: caught and logged
      } else if "kind" !in singlePermission.value {
        assert ParseAll(permissions[..i + 1]) == Escaped(i);
        EscapeIsFinal(permissions[..i + 1], permissions[i + 1..]);
        assert permissions[..i + 1] + permissions[i + 1..] == permissions;
        return Escaped(i);
      } else {
        var m := singlePermission.value;
        var permissionKind := m["kind"];
        var permissionAccess := if "access" in m then m["access"] else ACCESS_READ;
        requestPermissions := requestPermissions + [Request(permissionKind, permissionAccess)];
      }
      i := i + 1;
    }
    assert permissions[..size] == permissions;
    r := Requests(requestPermissions);
  }

  /**
   * Parsing fails exactly when some non-null entry lacks "kind", and then it
   * names the first such entry.
   */
  lemma {:induction false} ParseEscapesExactly(ps: seq<Entry>)
    ensures ParseAll(ps).Escaped? <==> exists i :: 0 <= i < |ps| && Escapes(ps[i])
    ensures ParseAll(ps).Escaped? ==>
              ParseAll(ps).index < |ps| && Escapes(ps[ParseAll(ps).index]) &&
              forall j :: 0 <= j < ParseAll(ps).index ==> !Escapes(ps[j])
    decreases |ps|
  {
    if ps != [] {
      var n := |ps| - 1;
      var init := ps[..n];
      ParseEscapesExactly(init);
      assert forall j :: 0 <= j < n ==> init[j] == ps[j];
    }
  }

  /**
   * A successful parse holds one request per non-null entry, in order, each
   * carrying the entry's kind and its access or ACCESS_READ.
   */
  lemma {:induction false} ParseKeepsPresentEntries(ps: seq<Entry>)
    requires ParseAll(ps).Requests?
    ensures |ParseAll(ps).requests| == |Present(ps)| <= |ps|
    ensures forall k :: 0 <= k < |Present(ps)| ==>
              "kind" in Present(ps)[k] && ParseAll(ps).requests[k] == ToRequest(Present(ps)[k])
    decreases |ps|
  {
    if ps != [] {
      var n := |ps| - 1;
      ParseKeepsPresentEntries(ps[..n]);
    }
  }

  /** The parse of a concatenation: the first part's requests, then the second's; an escape index is shifted. */
  function Combine(first: Parse, second: Parse, offset: nat): Parse
  {
    match first
    case Escaped(i) => Escaped(i)
    case Requests(rs) =>
      match second
      case Escaped(j) => Escaped(offset + j)
      case Requests(qs) => Requests(rs + qs)
  }

  lemma {:induction false} ParseAppend(ps: seq<Entry>, qs: seq<Entry>)
    ensures ParseAll(ps + qs) == Combine(ParseAll(ps), ParseAll(qs), |ps|)
    decreases |qs|
  {
    if qs == [] {
      assert ps + qs == ps;
    } else {
      var n := |qs| - 1;
      assert (ps + qs)[..|ps + qs| - 1] == ps + qs[..n];
      assert (ps + qs)[|ps + qs| - 1] == qs[n];
      ParseAppend(ps, qs[..n]);
    }
  }

  /** Once an entry's exception escapes, the entries after it are never read. */
  lemma EscapeIsFinal(ps: seq<Entry>, qs: seq<Entry>)
    requires ParseAll(ps).Escaped?
    ensures ParseAll(ps + qs) == ParseAll(ps)
  {
    ParseAppend(ps, qs);
  }

  /** A null entry between two parts changes nothing: the entries after it are still read. */
  lemma NullEntrySkipped(ps: seq<Entry>, qs: seq<Entry>)
    ensures ParseAll(ps + [None] + qs) == Combine(ParseAll(ps), ParseAll(qs), |ps| + 1)
  {
    ParseAppend(ps + [None], qs);
    assert (ps + [None])[..|ps|] == ps;
  }

  /**
   * [{kind: Step}, null, {kind: Weight, access: Write}] parses to the two
   * good requests, whose options declare step read and weight write.
   */
  lemma MalformedEntryScenario()
    ensures var ps := [Some(map["kind" := STEP]), None, Some(map["kind" := WEIGHT, "access" := ACCESS_WRITE])];
            ParseAll(ps) == Requests([Request(STEP, ACCESS_READ), Request(WEIGHT, ACCESS_WRITE)]) &&
            OptionsFor(ParseAll(ps).requests).declarations ==
              {Declaration(TypeStepCountDelta, ACCESS_READ), Declaration(TypeStepCountCumulative, ACCESS_READ),
               Declaration(TypeWeight, ACCESS_WRITE)}
  {
    var e0, e2 := map["kind" := STEP], map["kind" := WEIGHT, "access" := ACCESS_WRITE];
    var ps := [Some(e0), None, Some(e2)];
    var r0, r2 := Request(STEP, ACCESS_READ), Request(WEIGHT, ACCESS_WRITE);
    assert ParseEntry(Some(e0)) == Parsed(r0);
    assert ParseEntry(Some(e2)) == Parsed(r2);
    assert ps[..1] == [Some(e0)] && [Some(e0)][..0] == [];
    assert ParseAll(ps[..1]) == Requests([r0]);
    assert ps[..2][..1] == ps[..1];
    assert ParseAll(ps[..2]) == Requests([r0]);
    assert ps[..2] == ps[..|ps| - 1];
    assert ParseAll(ps) == Requests([r0, r2]);
    StepReadWeightWriteOptions();
  }

  /** Step read and weight write declare the two step types for read and the weight type for write. */
  lemma StepReadWeightWriteOptions()
    ensures OptionsFor([Request(STEP, ACCESS_READ), Request(WEIGHT, ACCESS_WRITE)]).declarations ==
              {Declaration(TypeStepCountDelta, ACCESS_READ), Declaration(TypeStepCountCumulative, ACCESS_READ),
               Declaration(TypeWeight, ACCESS_WRITE)}
  {
    var r0, r2 := Request(STEP, ACCESS_READ), Request(WEIGHT, ACCESS_WRITE);
    var rs := [r0, r2];
    assert rs[..1] == [r0] && [r0][..0] == [];
    assert Contributions([r0]) == Contribution(r0);
    assert Contributions(rs) == Contributions([r0]) + Contribution(r2);
    assert Contributions(rs) ==
             [Declaration(TypeStepCountDelta, ACCESS_READ), Declaration(TypeStepCountCumulative, ACCESS_READ),
              Declaration(TypeWeight, ACCESS_WRITE)];
  }

  /**
   * As written, a map without "kind" aborts the whole conversion:
   * [{kind: Step}, {}, {kind: Weight, access: Write}] escapes at entry 1 and
   * yields no requests at all.
   */
  lemma MissingKindEscapes()
    ensures ParseAll([Some(map["kind" := STEP]), Some(map[]), Some(map["kind" := WEIGHT, "access" := ACCESS_WRITE])]) == Escaped(1)
  {
    var e0: map<string, int>, e1: map<string, int> := map["kind" := STEP], map[];
    var ps := [Some(e0), Some(e1), Some(map["kind" := WEIGHT, "access" := ACCESS_WRITE])];
    assert ParseEntry(Some(e0)) == Parsed(Request(STEP, ACCESS_READ));
    assert ParseEntry(Some(e1)) == Thrown;
    assert ps[..1] == [Some(e0)] && [Some(e0)][..0] == [];
    assert ParseAll(ps[..1]) == Requests([Request(STEP, ACCESS_READ)]);
    assert ps[..2][..1] == ps[..1];
    assert ParseAll(ps[..2]) == Escaped(1);
    assert ps[..2] == ps[..|ps| - 1];
  }

  /**
   * The conversion the catch block evidently intends: every entry that
   * cannot be read (null, or without "kind") is dropped and the rest are
   * kept in order.
   */
  function ParseLenient(ps: seq<Entry>): (rs: seq<Request>)
    ensures |rs| <= |ps|
  {
    if ps == [] then []
    else
      ParseLenient(ps[..|ps| - 1]) +
        (match ParseEntry(ps[|ps| - 1]) case Parsed(r) => [r] case _ => [])
  }

  lemma {:induction false} LenientAppend(ps: seq<Entry>, qs: seq<Entry>)
    ensures ParseLenient(ps + qs) == ParseLenient(ps) + ParseLenient(qs)
    decreases |qs|
  {
    if qs == [] {
      assert ps + qs == ps;
    } else {
      var n := |qs| - 1;
      LenientAppend(ps, qs[..n]);
      assert (ps + qs)[..|ps + qs| - 1] == ps + qs[..n];
      assert (ps + qs)[|ps + qs| - 1] == qs[n];
    }
  }

  /** The intended conversion drops an unreadable entry and reads everything around it. */
  lemma LenientDropsMalformedEntries(ps: seq<Entry>, e: Entry, qs: seq<Entry>)
    requires e.None? || "kind" !in e.value
    ensures ParseLenient(ps + [e] + qs) == ParseLenient(ps) + ParseLenient(qs)
  {
    assert !ParseEntry(e).Parsed?;
    assert [e][..0] == [] && [e][0] == e;
    assert ParseLenient([e]) == [];
    LenientAppend(ps, [e]);
    assert ParseLenient(ps + [e]) == ParseLenient(ps);
    LenientAppend(ps + [e], qs);
  }

  /** On every array the shipped code accepts, the intended conversion gives the same requests. */
  lemma {:induction false} LenientAgreesWithoutEscape(ps: seq<Entry>)
    requires ParseAll(ps).Requests?
    ensures ParseAll(ps).requests == ParseLenient(ps)
    decreases |ps|
  {
    if ps != [] {
      LenientAgreesWithoutEscape(ps[..|ps| - 1]);
    }
  }

  /** The intended conversion of the array that aborts as written keeps its two good entries. */
  lemma MissingKindDroppedWhenLenient()
    ensures ParseLenient([Some(map["kind" := STEP]), Some(map[]), Some(map["kind" := WEIGHT, "access" := ACCESS_WRITE])]) ==
              [Request(STEP, ACCESS_READ), Request(WEIGHT, ACCESS_WRITE)]
  {
    var e0: map<string, int>, e1: map<string, int>, e2 := map["kind" := STEP], map[], map["kind" := WEIGHT, "access" := ACCESS_WRITE];
    assert ParseEntry(Some(e0)) == Parsed(Request(STEP, ACCESS_READ));
    assert ParseEntry(Some(e2)) == Parsed(Request(WEIGHT, ACCESS_WRITE));
    assert [Some(e0)][..0] == [];
    assert ParseLenient([Some(e0)]) == [Request(STEP, ACCESS_READ)];
    assert [Some(e2)][..0] == [];
    assert ParseLenient([Some(e2)]) == [Request(WEIGHT, ACCESS_WRITE)];
    LenientDropsMalformedEntries([Some(e0)], Some(e1), [Some(e2)]);
    assert [Some(e0)] + [Some(e1)] + [Some(e2)] == [Some(e0), Some(e1), Some(e2)];
  }

  const PLATFORM_KEY: string := "Platform"
  const PLATFORM: string := "GoogleFit"
  const ERROR_KEY: string := "Error"
  const PERMISSIONS_KEY: string := "PermissionKind"
  const ACCESS_TYPE_KEY: string := "PermissionAccess"
  const ACTIVITIES_KEY: string := "Activities"

  /** The contents feedPermissionsMap puts into PERMISSIONS. */
  const PermissionsTable: map<string, int> :=
    map["Step" := STEP, "Distance" := DISTANCE, "Activity" := ACTIVITY,
        "Calories" := CALORIES, "HeartRate" := HEART_RATE, "Weight" := WEIGHT]

  /** The contents feedAccessesTypeMap puts into ACCESSES. */
  const AccessesTable: map<string, int> :=
    map["Read" := ACCESS_READ, "Write" := ACCESS_WRITE]

  /** The contents feedActivitiesMap puts into ACTIVITIES. */
  const ActivitiesTable: map<string, string> :=
    map["Biking" := BIKING, "BikingStationary" := BIKING_STATIONARY, "JumpRope" := JUMP_ROPE,
        "Other" := OTHER, "Running" := RUNNING, "RunningTreadmill" := RUNNING_TREADMILL,
        "Walking" := WALKING, "WalkingTreadmill" := WALKING_TREADMILL, "Weightlifting" := WEIGHTLIFTING]

  /** PERMISSIONS has exactly six names, maps distinct names to distinct codes, and every code is one the fold recognises. */
  lemma PermissionsTableProperties()
    ensures PermissionsTable.Keys == {"Step", "Distance", "Activity", "Calories", "HeartRate", "Weight"}
    ensures forall a, b :: a in PermissionsTable && b in PermissionsTable && a != b ==> PermissionsTable[a] != PermissionsTable[b]
    ensures forall a :: a in PermissionsTable ==> PermissionsTable[a] in KindDataTypes && |Contribution(Request(PermissionsTable[a], ACCESS_READ))| >= 1
    ensures PermissionsTable.Values == IntDefCodes + {HEART_RATE}
  {
  }

  /** ACCESSES has exactly "Read" and "Write"; "Read" is the parser's default access. */
  lemma AccessesTableProperties()
    ensures AccessesTable.Keys == {"Read", "Write"}
    ensures AccessesTable["Read"] == ACCESS_READ && AccessesTable["Write"] == ACCESS_WRITE
    ensures AccessesTable["Read"] != AccessesTable["Write"]
  {
  }

  /** ACTIVITIES has exactly the nine names, and their labels get nine distinct stream names. */
  lemma ActivitiesTableProperties()
    ensures ActivitiesTable.Keys ==
              {"Biking", "BikingStationary", "JumpRope", "Other", "Running", "RunningTreadmill",
               "Walking", "WalkingTreadmill", "Weightlifting"}
    ensures forall a, b :: a in ActivitiesTable && b in ActivitiesTable && a != b ==>
              StreamName(ActivitiesTable[a]) != StreamName(ActivitiesTable[b])
  {
    forall a, b | a in ActivitiesTable && b in ActivitiesTable && a != b
      ensures StreamName(ActivitiesTable[a]) != StreamName(ActivitiesTable[b])
    {
      DistinctLabelsDistinctStreams(ActivitiesTable[a], ActivitiesTable[b]);
    }
  }

  /** Labels of different lengths, or with different leading letters, get different stream names. */
  lemma DistinctLabelsDistinctStreams(x: string, y: string)
    requires |x| != |y| || (|x| > 0 && |y| > 0 && x[0] != y[0] && x[0] !in "._" && y[0] !in "._")
    ensures StreamName(x) != StreamName(y)
  {
    StreamNameCollision(x, y);
  }

  /** One of getConstants' values: a string or one of the tables. */
  datatype ConstantValue = Text(text: string) | IntTable(ints: map<string, int>) | TextTable(texts: map<string, string>)

  /** The host's current activity: whether Play Services is available on it and its last signed-in account. */
  datatype CurrentActivity = CurrentActivity(servicesAvailable: bool, lastSignedIn: Option<Account>)

  /** What the bridge's requestPermissions did. */
  datatype BridgeOutcome =
    | RejectedNoActivity
    | ParseEscaped(index: nat)
    | Launched(launch: PermissionLaunch)

  class RNFitnessModule {
    /** The static PERMISSIONS, ACCESSES and ACTIVITIES maps. */
    var permissions: map<string, int>
    var accesses: map<string, int>
    var activities: map<string, string>

    const manager: Manager

    /** Feeds the three tables and creates the Manager, with no pending promise. */
    constructor ()
      ensures permissions == PermissionsTable && accesses == AccessesTable && activities == ActivitiesTable
      ensures fresh(manager) && manager.promise == None && manager.resolutions == []
    {
      permissions, accesses, activities := map[], map[], map[];
      manager := new Manager();
      new;
      FeedPermissionsMap();
      FeedAccessesTypeMap();
      FeedActivitiesMap();
    }

    method FeedPermissionsMap()
      modifies this
      ensures permissions == old(permissions) + PermissionsTable
      ensures accesses == old(accesses) && activities == old(activities)
    {
      var table := permissions;
      table := table["Step" := STEP];
      table := table["Distance" := DISTANCE];
      table := table["Activity" := ACTIVITY];
      table := table["Calories" := CALORIES];
      table := table["HeartRate" := HEART_RATE];
      table := table["Weight" := WEIGHT];
      assert table.Keys == permissions.Keys + PermissionsTable.Keys;
      assert forall k :: k in table ==> table[k] == (permissions + PermissionsTable)[k];
      permissions := table;
    }

    method FeedAccessesTypeMap()
      modifies this
      ensures accesses == old(accesses) + AccessesTable
      ensures permissions == old(permissions) && activities == old(activities)
    {
      var table := accesses;
      table := table["Read" := ACCESS_READ];
      table := table["Write" := ACCESS_WRITE];
      assert table.Keys == accesses.Keys + AccessesTable.Keys;
      assert forall k :: k in table ==> table[k] == (accesses + AccessesTable)[k];
      accesses := table;
    }

    method FeedActivitiesMap()
      modifies this
      ensures activities == old(activities) + ActivitiesTable
      ensures permissions == old(permissions) && accesses == old(accesses)
    {
      var table := activities;
      table := table["Biking" := BIKING];
      table := table["BikingStationary" := BIKING_STATIONARY];
      table := table["JumpRope" := JUMP_ROPE];
      table := table["Other" := OTHER];
      table := table["Running" := RUNNING];
      table := table["RunningTreadmill" := RUNNING_TREADMILL];
      table := table["Walking" := WALKING];
      table := table["WalkingTreadmill" := WALKING_TREADMILL];
      table := table["Weightlifting" := WEIGHTLIFTING];
      assert table.Keys == activities.Keys + ActivitiesTable.Keys;
      assert forall k :: k in table ==> table[k] == (activities + ActivitiesTable)[k];
      activities := table;
    }

    /** getConstants: the platform name, the three tables and an empty error map, under their five keys. */
    function GetConstants(): (c: map<string, ConstantValue>)
      reads this
      ensures c.Keys == {PLATFORM_KEY, PERMISSIONS_KEY, ACCESS_TYPE_KEY, ACTIVITIES_KEY, ERROR_KEY}
      ensures c[PLATFORM_KEY] == Text("GoogleFit")
      ensures c[PERMISSIONS_KEY] == IntTable(permissions)
      ensures c[ACCESS_TYPE_KEY] == IntTable(accesses)
      ensures c[ACTIVITIES_KEY] == TextTable(activities)
      ensures c[ERROR_KEY] == TextTable(map[])
    {
      map[PLATFORM_KEY := Text(PLATFORM), PERMISSIONS_KEY := IntTable(permissions),
          ACCESS_TYPE_KEY := IntTable(accesses), ACTIVITIES_KEY := TextTable(activities),
          ERROR_KEY := TextTable(map[])]
    }

    /** isAuthorized: parses the array and asks the manager; an escaping entry makes the call fail. */
    method IsAuthorized(activity: CurrentActivity, permissions: seq<Entry>, granted: (Account, FitnessOptions) -> bool)
        returns (r: Option<bool>)
      ensures ParseAll(permissions).Escaped? ==> r == None
      ensures ParseAll(permissions).Requests? ==>
                r == Some(activity.servicesAvailable && HasPermissions(activity.lastSignedIn, OptionsFor(ParseAll(permissions).requests), granted))
    {
      var parsed := CreateRequestFromReactArray(permissions);
      if parsed.Escaped? {
        return None;
      }
      var b := manager.IsAuthorized(activity.servicesAvailable, activity.lastSignedIn, parsed.requests, granted);
      r := Some(b);
    }

    /**
     * requestPermissions: without a current activity the promise is rejected
     * and the manager is not called; otherwise the parsed requests are
     * handed to the manager, which takes over the promise.
     */
    method RequestPermissions(activity: Option<CurrentActivity>, permissions: seq<Entry>, p: Promise)
        returns (outcome: BridgeOutcome)
      modifies manager
      ensures activity.None? ==> outcome == RejectedNoActivity && unchanged(manager)
      ensures activity.Some? && ParseAll(permissions).Escaped? ==>
                outcome == ParseEscaped(ParseAll(permissions).index) && unchanged(manager)
      ensures activity.Some? && ParseAll(permissions).Requests? ==>
                outcome == Launched(PermissionLaunch(GOOGLE_FIT_PERMISSIONS_REQUEST_CODE, activity.value.lastSignedIn,
                                                     OptionsFor(ParseAll(permissions).requests))) &&
                manager.promise == Some(p) && manager.resolutions == old(manager.resolutions)
    {
      if activity.None? {
        return RejectedNoActivity;
      }
      var parsed := CreateRequestFromReactArray(permissions);
      if parsed.Escaped? {
        return ParseEscaped(parsed.index);
      }
      var launch := manager.RequestPermissions(activity.value.lastSignedIn, parsed.requests, p);
      outcome := Launched(launch);
    }
  }

  /**
   * What a freshly built module publishes: the platform name, the three
   * tables as fed and an empty error map; every published permission code
   * is one the fold declares data types for, the published "Read" is the
   * parser's default access, and the published activity labels get
   * pairwise distinct stream names.
   */
  method PublishedConstants() returns (c: map<string, ConstantValue>)
    ensures c.Keys == {PLATFORM_KEY, PERMISSIONS_KEY, ACCESS_TYPE_KEY, ACTIVITIES_KEY, ERROR_KEY}
    ensures c[PLATFORM_KEY] == Text("GoogleFit")
    ensures c[PERMISSIONS_KEY] == IntTable(PermissionsTable)
    ensures c[ACCESS_TYPE_KEY] == IntTable(AccessesTable)
    ensures c[ACTIVITIES_KEY] == TextTable(ActivitiesTable)
    ensures c[ERROR_KEY] == TextTable(map[])
    ensures forall k :: k in c[PERMISSIONS_KEY].ints ==> |Contribution(Request(c[PERMISSIONS_KEY].ints[k], ACCESS_READ))| >= 1
    ensures c[ACCESS_TYPE_KEY].ints["Read"] == ACCESS_READ
    ensures forall a, b :: a in c[ACTIVITIES_KEY].texts && b in c[ACTIVITIES_KEY].texts && a != b ==>
              StreamName(c[ACTIVITIES_KEY].texts[a]) != StreamName(c[ACTIVITIES_KEY].texts[b])
  {
    var bridge := new RNFitnessModule();
    c := bridge.GetConstants();
    PermissionsTableProperties();
    AccessesTableProperties();
    ActivitiesTableProperties();
  }
}
