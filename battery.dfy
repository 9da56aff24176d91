/**
 * The snapshot of the host's battery status (the object that
 * `navigator.getBattery()` resolves to), and the two accessors of index.js
 * that only read it: the level shown and the charging label.
 */
module Battery {

  /** A time estimate in seconds; the host reports `Infinity` when it has none. */
  datatype Duration = Finite(seconds: real) | Infinite

  datatype BatterySnapshot = BatterySnapshot(
    level: real,            // fraction of charge, 0.0 .. 1.0
    charging: bool,
    chargingTime: Duration,
    dischargingTime: Duration)

  /** `getBatteryLevel`: the fraction of charge as a percentage. */
  function BatteryLevel(battery: BatterySnapshot): (percent: real)
    ensures 0.0 <= battery.level <= 1.0 ==> 0.0 <= percent <= 100.0
    ensures battery.level == 1.0 ==> percent == 100.0
    ensures percent / 100.0 == battery.level
  {
    100.0 * battery.level
  }

  const UntilFull := " until full"
  const UntilEmpty := " until empty"

  /** `getBatteryChargingLabel`: which way the time estimate counts. */
  function ChargingLabel(battery: BatterySnapshot): (suffix: string)
    ensures suffix == UntilFull || suffix == UntilEmpty
    ensures suffix == UntilFull <==> battery.charging
  {
    if battery.charging then UntilFull else UntilEmpty
  }

  /** The estimate `getBatteryTime` formats: time to full while charging, else time to empty. */
  function ActiveTime(battery: BatterySnapshot): (d: Duration)
    ensures battery.charging ==> d == battery.chargingTime
    ensures !battery.charging ==> d == battery.dischargingTime
  {
    if battery.charging then battery.chargingTime else battery.dischargingTime
  }
}
