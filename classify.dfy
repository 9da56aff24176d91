/**
 * The level classification inside `drawBatteryLevel` (index.js:108-110 over
 * the `states` table at index.js:14-19). `for…in` visits the integer keys of
 * `states` in ascending order, and every key the truncated level reaches
 * overwrites `state`; a level that reaches none leaves `state` undefined.
 *
 * The reference definition is `DescendingScan`: the tag of the greatest
 * threshold at or below the level, found by testing the thresholds from the
 * top down. The loop is proved to agree with it.
 */
module Classify {
  import opened Wrappers

  datatype StateTag = Critical | LowPower | Charged | Full

  /** The keys of `states` in the order `for…in` visits them, and their tags. */
  const Thresholds: seq<int> := [0, 15, 40, 95]
  const Tags: seq<StateTag> := [Critical, LowPower, Charged, Full]

  /** The position of a tag in the table. */
  function Rank(tag: StateTag): (i: nat)
    ensures i < |Tags| && Tags[i] == tag
  {
    match tag
    case Critical => 0
    case LowPower => 1
    case Charged => 2
    case Full => 3
  }

  /** The string values of `states`. */
  function TagName(tag: StateTag): (name: string)
    ensures name in {"critical", "low-power", "charged", "full"}
  {
    match tag
    case Critical => "critical"
    case LowPower => "low-power"
    case Charged => "charged"
    case Full => "full"
  }

  /**
   * The class token `classList.add` receives for `state`: WebIDL turns an
   * undefined argument into the string "undefined".
   */
  function StateToken(state: Option<StateTag>): (token: string)
    ensures token in {"critical", "low-power", "charged", "full", "undefined"}
    ensures token == "undefined" <==> state.None?
  {
    match state
    case Some(tag) => TagName(tag)
    case None => "undefined"
  }

  /** Distinct outcomes of the classification give distinct class tokens. */
  lemma StateTokenInjective(a: Option<StateTag>, b: Option<StateTag>)
    requires StateToken(a) == StateToken(b)
    ensures a == b
  {
  }

  /** `parseInt` of a number: truncation toward zero. */
  function Trunc(x: real): (r: int)
    ensures x >= 0.0 ==> r as real <= x < r as real + 1.0
    ensures x < 0.0 ==> r as real - 1.0 < x <= r as real
  {
    if x >= 0.0 then x.Floor else -((-x).Floor)
  }

  /** The tag of the greatest threshold at or below `p`, testing from the top down. */
  function DescendingScan(p: int): (state: Option<StateTag>)
    ensures state.None? <==> p < Thresholds[0]
    ensures state.Some? ==> Thresholds[Rank(state.value)] <= p
    ensures state.Some? ==> forall i :: 0 <= i < |Thresholds| && Thresholds[i] <= p ==> i <= Rank(state.value)
  {
    if p >= 95 then Some(Full)
    else if p >= 40 then Some(Charged)
    else if p >= 15 then Some(LowPower)
    else if p >= 0 then Some(Critical)
    else None
  }

  /** index.js:108-110: the ascending overwrite loop over the keys of `states`. */
  method ClassifyLevel(level: real) returns (state: Option<StateTag>)
    ensures state == DescendingScan(Trunc(level))
  {
    var p := Trunc(level);
    state := None;
    ghost var best := -1;
    for i := 0 to |Thresholds|
      invariant -1 <= best < i
      invariant best == -1 <==> state == None
      invariant best >= 0 ==> Thresholds[best] <= p && state == Some(Tags[best])
      invariant forall j :: best < j < i ==> p < Thresholds[j]
    {
      if p >= Thresholds[i] {
        state := Some(Tags[i]);
        best := i;
      }
    }
    if best >= 0 {
      assert Rank(Tags[best]) == best;
    }
  }

  /** Boundaries: a threshold reached exactly gives its own tag; truncation keeps 94.9 below 95. */
  lemma Examples()
    ensures DescendingScan(Trunc(95.0)) == Some(Full)
    ensures DescendingScan(Trunc(94.9)) == Some(Charged)
    ensures DescendingScan(Trunc(40.0)) == Some(Charged)
    ensures DescendingScan(Trunc(39.9)) == Some(LowPower)
    ensures DescendingScan(Trunc(15.0)) == Some(LowPower)
    ensures DescendingScan(Trunc(0.0)) == Some(Critical)
    ensures DescendingScan(Trunc(-0.5)) == Some(Critical)
    ensures DescendingScan(Trunc(-5.0)) == None
    ensures DescendingScan(Trunc(150.0)) == Some(Full)
  {
  }

  /** A higher level never gets a lower tag. */
  lemma {:induction false} ScanMonotonic(p: int, q: int)
    requires p <= q && DescendingScan(p).Some?
    ensures DescendingScan(q).Some? && Rank(DescendingScan(p).value) <= Rank(DescendingScan(q).value)
  {
    var i := Rank(DescendingScan(p).value);
    assert Thresholds[i] <= q;
  }
}
