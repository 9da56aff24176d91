/**
 * `getBatteryTime` (index.js:67-74): the active time estimate is divided by
 * the entries of `factor` for as long as it is strictly greater than the
 * current entry, and the result is labelled with `suffix` at the index where
 * the loop stopped.
 *
 * The reference definition is `UnitIndex`: the least index `n` such that the
 * estimate is at most the product of the first `n + 1` factors (or `n` is past
 * the table). The loop is proved to compute it.
 */
module TimeFormat {
  import opened Battery

  const Suffix: seq<string> := ["seconds", "minutes", "hours", "days", "weeks", "", "", ""]
  const Factor: seq<real> := [60.0, 60.0, 24.0, 7.0, 1.0, 1.0, 1.0]

  /** Factor[0] * ... * Factor[k - 1]: what the estimate has been divided by after k steps. */
  function Prod(k: nat): (p: real)
    requires k <= |Factor|
    ensures p >= 1.0
  {
    if k == 0 then 1.0 else Prod(k - 1) * Factor[k - 1]
  }

  /** `d > x` on JavaScript numbers, `Infinity` exceeding every real. */
  predicate Above(d: Duration, x: real) {
    d.Infinite? || d.seconds > x
  }

  /** `d / x` for a positive real x; `Infinity / x` stays `Infinity`. */
  function DivBy(d: Duration, x: real): (q: Duration)
    requires x > 0.0
    ensures q.Infinite? <==> d.Infinite?
  {
    match d
    case Finite(s) => Finite(s / x)
    case Infinite => Infinite
  }

  /** The order of JavaScript numbers on durations. */
  predicate AtMost(d: Duration, e: Duration) {
    e.Infinite? || (d.Finite? && d.seconds <= e.seconds)
  }

  /** The least n >= k with n == |Factor| or d <= Prod(n + 1). */
  function UnitFrom(d: Duration, k: nat): (n: nat)
    requires k <= |Factor|
    decreases |Factor| - k
    ensures k <= n <= |Factor|
    ensures n == |Factor| || !Above(d, Prod(n + 1))
    ensures forall j :: k < j <= n ==> Above(d, Prod(j))
  {
    if k == |Factor| || !Above(d, Prod(k + 1)) then k else UnitFrom(d, k + 1)
  }

  /** The index into Suffix the formatter stops at. */
  function UnitIndex(d: Duration): (n: nat)
    ensures n < |Suffix|
  {
    UnitFrom(d, 0)
  }

  /** The number the formatter prints: the estimate divided by every factor passed over. */
  function Scaled(d: Duration): Duration {
    DivBy(d, Prod(UnitIndex(d)))
  }

  /** `toFixed(1)`: the formatting of a finite value is a parameter; `Infinity` prints as itself. */
  function Fixed1(d: Duration, toFixed1: real -> string): (text: string)
    ensures d.Finite? ==> text == toFixed1(d.seconds)
    ensures d.Infinite? ==> text == "Infinity"
  {
    match d
    case Finite(s) => toFixed1(s)
    case Infinite => "Infinity"
  }

  /** The text `getBatteryTime` returns for an estimate d. */
  function TimeText(d: Duration, toFixed1: real -> string): (text: string)
    ensures var number, unit := Fixed1(Scaled(d), toFixed1), Suffix[UnitIndex(d)];
      |text| == |number| + 1 + |unit| && text[..|number|] == number &&
      text[|number|] == ' ' && text[|number| + 1..] == unit
    ensures Suffix[UnitIndex(d)] in {"seconds", "minutes", "hours", "days", ""}
  {
    WeeksNeverShown(d);
    Fixed1(Scaled(d), toFixed1) + " " + Suffix[UnitIndex(d)]
  }

  lemma {:induction false} DivStep(d: Duration, a: real, b: real)
    requires a > 0.0 && b > 0.0
    ensures DivBy(DivBy(d, a), b) == DivBy(d, a * b)
    ensures Above(DivBy(d, a), b) <==> Above(d, a * b)
  {
    if d.Finite? {
      var s := d.seconds;
      assert s / a / b == s / (a * b);
      assert s / a > b <==> s > a * b by {
        assert s / a * a == s;
      }
    }
  }

  /** One turn of the loop: dividing by Factor[n] moves from Prod(n) to Prod(n + 1). */
  lemma Step(d: Duration, n: nat)
    requires n < |Factor|
    ensures DivBy(DivBy(d, Prod(n)), Factor[n]) == DivBy(d, Prod(n + 1))
    ensures Above(DivBy(d, Prod(n)), Factor[n]) <==> Above(d, Prod(n + 1))
  {
    DivStep(d, Prod(n), Factor[n]);
  }

  /** The index at which the loop stops is the least one, hence UnitIndex. */
  lemma LeastIndexUnique(d: Duration, n: nat)
    requires n <= |Factor|
    requires n == |Factor| || !Above(d, Prod(n + 1))
    requires forall j :: 0 < j <= n ==> Above(d, Prod(j))
    ensures n == UnitIndex(d)
  {
  }

  /** index.js:67-74: the loop of `getBatteryTime` on the estimate selected by `charging`. */
  method GetBatteryTime(battery: BatterySnapshot, toFixed1: real -> string) returns (text: string)
    ensures text == TimeText(ActiveTime(battery), toFixed1)
  {
    var t := ActiveTime(battery);
    var time := t;
    var n := 0;
    // `factor[7]` is undefined, and `x > undefined` is false: the loop stops there
    while n < |Factor| && Above(time, Factor[n])
      invariant 0 <= n <= |Factor|
      invariant time == DivBy(t, Prod(n))
      invariant forall j :: 0 < j <= n ==> Above(t, Prod(j))
    {
      Step(t, n);
      time := DivBy(time, Factor[n]);
      n := n + 1;
    }
    if n < |Factor| {
      Step(t, n);
    }
    LeastIndexUnique(t, n);
    text := Fixed1(time, toFixed1) + " " + Suffix[n];
  }

  // ---- Properties of the reference definition ----

  lemma ProdValues()
    ensures Prod(1) == 60.0 && Prod(2) == 3600.0 && Prod(3) == 86400.0
    ensures Prod(4) == 604800.0 && Prod(5) == 604800.0 && Prod(6) == 604800.0 && Prod(7) == 604800.0
  {
  }

  /** Anything up to 60 s (exactly 60 and negative values included) is printed unchanged as seconds. */
  lemma AtMostAMinuteStaysSeconds(s: real)
    requires s <= 60.0
    ensures UnitIndex(Finite(s)) == 0
    ensures Scaled(Finite(s)) == Finite(s)
    ensures Suffix[UnitIndex(Finite(s))] == "seconds"
  {
    ProdValues();
  }

  /** An estimate strictly above one week (and `Infinity`) skips "weeks" and ends at the empty suffix. */
  lemma BeyondAWeekHasNoUnit(d: Duration)
    ensures UnitIndex(d) == 7 <==> Above(d, 604800.0)
    ensures Above(d, 604800.0) ==> Suffix[UnitIndex(d)] == ""
  {
    ProdValues();
  }

  /** The unit "weeks" (and the two trailing empty entries) can never be printed. */
  lemma WeeksNeverShown(d: Duration)
    ensures UnitIndex(d) <= 3 || UnitIndex(d) == 7
    ensures Suffix[UnitIndex(d)] != "weeks"
  {
    ProdValues();
  }

  /** The estimate `Infinity` prints as "Infinity " with an empty unit. */
  lemma InfinityText(toFixed1: real -> string)
    ensures UnitIndex(Infinite) == 7
    ensures TimeText(Infinite, toFixed1) == "Infinity "
  {
    BeyondAWeekHasNoUnit(Infinite);
  }

  /** The three special cases of the text: `Infinity`, at most a minute, beyond a week. */
  lemma TimeTextCases(d: Duration, toFixed1: real -> string)
    ensures d.Infinite? ==> TimeText(d, toFixed1) == "Infinity "
    ensures d.Finite? && d.seconds <= 60.0 ==> TimeText(d, toFixed1) == toFixed1(d.seconds) + " seconds"
    ensures Above(d, 604800.0) ==> TimeText(d, toFixed1) == Fixed1(Scaled(d), toFixed1) + " "
  {
    BeyondAWeekHasNoUnit(d);
    if d.Finite? && d.seconds <= 60.0 {
      AtMostAMinuteStaysSeconds(d.seconds);
    }
  }

  /** A larger estimate never gets a smaller unit. */
  lemma UnitIndexMonotonic(d: Duration, e: Duration)
    requires AtMost(d, e)
    ensures UnitIndex(d) <= UnitIndex(e)
  {
  }

  lemma DivBounds(s: real, p: real, f: real)
    requires 0.0 < p < s <= p * f
    ensures 1.0 < s / p <= f
  {
    assert s / p * p == s;
  }

  /** Above seconds and below the empty unit, the printed number lies in (1, Factor[n]]. */
  lemma ScaledRange(s: real)
    requires 0 < UnitIndex(Finite(s)) < |Factor|
    ensures 1.0 < Scaled(Finite(s)).seconds <= Factor[UnitIndex(Finite(s))]
  {
    var n := UnitIndex(Finite(s));
    ProdValues();
    WeeksNeverShown(Finite(s));
    assert Above(Finite(s), Prod(n)) && !Above(Finite(s), Prod(n + 1));
    if n == 1 {
      DivBounds(s, 60.0, 60.0);
    } else if n == 2 {
      DivBounds(s, 3600.0, 24.0);
    } else {
      DivBounds(s, 86400.0, 7.0);
    }
  }

  /** Worked examples: 59 s, 60 s, 3600 s and 90061 s. */
  lemma Examples()
    ensures UnitIndex(Finite(59.0)) == 0 && Scaled(Finite(59.0)) == Finite(59.0)
    ensures UnitIndex(Finite(60.0)) == 0 && Scaled(Finite(60.0)) == Finite(60.0)
    ensures UnitIndex(Finite(3600.0)) == 1 && Scaled(Finite(3600.0)) == Finite(60.0)
    ensures UnitIndex(Finite(90061.0)) == 3 && Scaled(Finite(90061.0)) == Finite(90061.0 / 86400.0)
  {
    ProdValues();
    AtMostAMinuteStaysSeconds(59.0);
    AtMostAMinuteStaysSeconds(60.0);
  }
}
