/**
 * Manager.addPermissionToFitnessOptions: folds a list of permission requests
 * into a FitnessOptions builder, one or two data-type declarations per
 * recognised kind, nothing for an unknown kind.
 */
module PermissionFold {

  import opened Permission
  import opened GoogleFit

  /** One `addDataType(type, access)` made on the builder. */
  datatype Declaration = Declaration(dataType: DataType, access: int)

  /** What `FitnessOptions.Builder.build()` yields: the set of declared (type, access) pairs. */
  datatype FitnessOptions = FitnessOptions(declarations: set<Declaration>)

  /** The data types each recognised kind code stands for (the capability registry). */
  const KindDataTypes: map<int, seq<DataType>> :=
    map[STEP := [TypeStepCountDelta, TypeStepCountCumulative],
        DISTANCE := [TypeDistanceDelta],
        CALORIES := [TypeCaloriesExpended],
        ACTIVITY := [TypeActivitySegment],
        HEART_RATE := [TypeHeartRateBpm],
        WEIGHT := [TypeWeight]]

  /** The declarations one request adds, as the switch's branches add them. */
  function Contribution(r: Request): (ds: seq<Declaration>)
    ensures r.permissionKind == STEP ==>
              ds == [Declaration(TypeStepCountDelta, r.permissionAccess), Declaration(TypeStepCountCumulative, r.permissionAccess)]
    ensures r.permissionKind in {DISTANCE, CALORIES, ACTIVITY, HEART_RATE, WEIGHT} ==> |ds| == 1
    ensures r.permissionKind !in KindDataTypes ==> ds == []
    ensures forall d :: d in ds ==> d.access == r.permissionAccess
  {
    var a := r.permissionAccess;
    if r.permissionKind == STEP then
      [Declaration(TypeStepCountDelta, a), Declaration(TypeStepCountCumulative, a)]
    else if r.permissionKind == DISTANCE then
      [Declaration(TypeDistanceDelta, a)]
    else if r.permissionKind == CALORIES then
      [Declaration(TypeCaloriesExpended, a)]
    else if r.permissionKind == ACTIVITY then
      [Declaration(TypeActivitySegment, a)]
    else if r.permissionKind == HEART_RATE then
      [Declaration(TypeHeartRateBpm, a)]
    else if r.permissionKind == WEIGHT then
      [Declaration(TypeWeight, a)]
    else
      []
  }

  /** The switch agrees with the registry table: each kind adds its table's types, in order, at the request's access. */
  lemma ContributionMatchesRegistry(r: Request)
    ensures r.permissionKind in KindDataTypes ==>
              Contribution(r) == seq(|KindDataTypes[r.permissionKind]|, i requires 0 <= i < |KindDataTypes[r.permissionKind]| =>
                                       Declaration(KindDataTypes[r.permissionKind][i], r.permissionAccess))
    ensures r.permissionKind !in KindDataTypes ==> Contribution(r) == []
  {
  }

  /** The declarations the fold adds for a whole list, in visiting order. */
  function Contributions(ps: seq<Request>): seq<Declaration>
  {
    if ps == [] then [] else Contributions(ps[..|ps| - 1]) + Contribution(ps[|ps| - 1])
  }

  /** Folding a concatenation adds the first part's declarations, then the second's. */
  lemma {:induction false} ContributionsAppend(ps: seq<Request>, qs: seq<Request>)
    ensures Contributions(ps + qs) == Contributions(ps) + Contributions(qs)
    decreases |qs|
  {
    if qs == [] {
      assert ps + qs == ps;
    } else {
      var n := |qs| - 1;
      var last := qs[n];
      assert (ps + qs)[..|ps + qs| - 1] == ps + qs[..n];
      assert (ps + qs)[|ps + qs| - 1] == last;
      ContributionsAppend(ps, qs[..n]);
      calc {
        Contributions(ps + qs);
        Contributions(ps + qs[..n]) + Contribution(last);
        Contributions(ps) + Contributions(qs[..n]) + Contribution(last);
        Contributions(ps) + (Contributions(qs[..n]) + Contribution(last));
        Contributions(ps) + Contributions(qs);
      }
    }
  }

  /** A declaration is added exactly when some request in the list contributes it. */
  lemma {:induction false} ContributionsMembership(ps: seq<Request>, d: Declaration)
    ensures d in Contributions(ps) <==> exists i :: 0 <= i < |ps| && d in Contribution(ps[i])
    decreases |ps|
  {
    if ps != [] {
      var n := |ps| - 1;
      var init := ps[..n];
      ContributionsMembership(init, d);
      assert Contributions(ps) == Contributions(init) + Contribution(ps[n]);
      assert forall i :: 0 <= i < n ==> init[i] == ps[i];
    }
  }

  /** The declared set is the union of the per-request contributions. */
  lemma ContributionsUnion(ps: seq<Request>, d: Declaration)
    ensures d in Contributions(ps) <==> exists r :: r in ps && d in Contribution(r)
  {
    ContributionsMembership(ps, d);
  }

  /** Permuting the requests leaves the declared set unchanged. */
  lemma ContributionsPermutation(ps: seq<Request>, qs: seq<Request>)
    requires multiset(ps) == multiset(qs)
    ensures forall d :: d in Contributions(ps) <==> d in Contributions(qs)
  {
    forall d
      ensures d in Contributions(ps) <==> d in Contributions(qs)
    {
      ContributionsUnion(ps, d);
      ContributionsUnion(qs, d);
      assert forall r :: r in ps <==> r in multiset(ps);
      assert forall r :: r in qs <==> r in multiset(qs);
    }
  }

  /** The number of declarations: two per STEP request, one per other known kind, none otherwise. */
  function DeclarationCount(ps: seq<Request>): nat
  {
    if ps == [] then 0
    else DeclarationCount(ps[..|ps| - 1]) +
         (var k := ps[|ps| - 1].permissionKind;
          if k == STEP then 2 else if k in KindDataTypes then 1 else 0)
  }

  lemma {:induction false} ContributionsCount(ps: seq<Request>)
    ensures |Contributions(ps)| == DeclarationCount(ps)
    ensures |Contributions(ps)| <= 2 * |ps|
    decreases |ps|
  {
    if ps != [] {
      ContributionsCount(ps[..|ps| - 1]);
    }
  }

  /** The builder: it records every `addDataType` call made on it, in order. */
  class FitnessOptionsBuilder {
    var added: seq<Declaration>

    constructor ()
      ensures added == []
    {
      added := [];
    }

    method AddDataType(dataType: DataType, access: int)
      modifies this
      ensures added == old(added) + [Declaration(dataType, access)]
    {
      added := added + [Declaration(dataType, access)];
    }

    /** `build()`: the options declare exactly the pairs added so far. */
    function Build(): (o: FitnessOptions)
      reads this
      ensures forall d :: d in o.declarations <==> d in added
    {
      FitnessOptions(set d | d in added)
    }
  }

  /**
   * The fold itself: visits each request once, in index order, and only ever
   * adds to the builder, which it returns.
   */
  method AddPermissionToFitnessOptions(fitnessOptions: FitnessOptionsBuilder, permissions: seq<Request>)
      returns (r: FitnessOptionsBuilder)
    modifies fitnessOptions
    ensures r == fitnessOptions
    ensures fitnessOptions.added == old(fitnessOptions.added) + Contributions(permissions)
  {
    var length := |permissions|;
    var i := 0;
    while i < length
      invariant 0 <= i <= length
      invariant fitnessOptions.added == old(fitnessOptions.added) + Contributions(permissions[..i])
    {
      ghost var before := fitnessOptions.added;
      var currentRequest := permissions[i];
      var a := currentRequest.permissionAccess;
      var k := currentRequest.permissionKind;
      if k == STEP {
        fitnessOptions.AddDataType(TypeStepCountDelta, a);
        fitnessOptions.AddDataType(TypeStepCountCumulative, a);
      } else if k == DISTANCE {
        fitnessOptions.AddDataType(TypeDistanceDelta, a);
      } else if k == CALORIES {
        fitnessOptions.AddDataType(TypeCaloriesExpended, a);
      } else if k == ACTIVITY {
        fitnessOptions.AddDataType(TypeActivitySegment, a);
      } else if k == HEART_RATE {
        fitnessOptions.AddDataType(TypeHeartRateBpm, a);
      } else if k == WEIGHT {
        fitnessOptions.AddDataType(TypeWeight, a);
      }
      assert fitnessOptions.added == before + Contribution(currentRequest);
      assert permissions[..i + 1][..i] == permissions[..i];
      assert Contributions(permissions[..i + 1]) == Contributions(permissions[..i]) + Contribution(currentRequest);
      i := i + 1;
    }
    assert permissions[..length] == permissions;
    r := fitnessOptions;
  }

  /** The options a fresh builder yields for a list of requests. */
  function OptionsFor(ps: seq<Request>): (o: FitnessOptions)
    ensures forall d :: d in o.declarations <==> d in Contributions(ps)
  {
    FitnessOptions(set d | d in Contributions(ps))
  }

  /** Builds the options for a list of requests on a fresh builder, as isAuthorized and requestPermissions do. */
  method BuildOptions(permissions: seq<Request>) returns (o: FitnessOptions)
    ensures o == OptionsFor(permissions)
  {
    var builder := new FitnessOptionsBuilder();
    builder := AddPermissionToFitnessOptions(builder, permissions);
    o := builder.Build();
  }

  /** The option sets of two permutations of one request list are equal. */
  lemma OptionsForPermutation(ps: seq<Request>, qs: seq<Request>)
    requires multiset(ps) == multiset(qs)
    ensures OptionsFor(ps) == OptionsFor(qs)
  {
    ContributionsPermutation(ps, qs);
  }
}
