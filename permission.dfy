/**
 * The permission kind codes of com.ovalmoney.fitness.permission.Permission,
 * and the Request value (kind code, access code) built from a bridge entry.
 */
module Permission {

  const STEP: int := 0
  const DISTANCE: int := 1
  const ACTIVITY: int := 2
  const CALORIES: int := 3
  const WEIGHT: int := 4

  /**
   * HEART_RATE is used by the fold's switch and by the published table, but
   * Permission.java does not declare it. The model gives it a fresh code,
   * different from the five declared ones.
   */
  const HEART_RATE: int := 5

  /** The values the @IntDef annotation admits. */
  const IntDefCodes: set<int> := {STEP, DISTANCE, ACTIVITY, CALORIES, WEIGHT}

  /** Every kind code the fold's switch has a case for. */
  const SwitchCodes: seq<int> := [STEP, DISTANCE, CALORIES, ACTIVITY, HEART_RATE, WEIGHT]

  /**
   * A permission request: the kind code and the access code, both plain ints
   * as the bridge hands them over (no range check is made anywhere).
   */
  datatype Request = Request(permissionKind: int, permissionAccess: int)

  /** The @IntDef set holds exactly five values and leaves HEART_RATE out. */
  lemma IntDefExcludesHeartRate()
    ensures |IntDefCodes| == 5
    ensures HEART_RATE !in IntDefCodes
    ensures forall c :: c in IntDefCodes <==> 0 <= c <= 4
  {
    assert IntDefCodes == {0, 1, 2, 3, 4};
  }

  /** The switch's case labels are pairwise distinct, so at most one case fires. */
  lemma SwitchCodesDistinct()
    ensures forall i, j :: 0 <= i < j < |SwitchCodes| ==> SwitchCodes[i] != SwitchCodes[j]
  {
  }
}
