/**
 * Names of the plant-telemetry fields read by the plant analysis and the
 * optimizer and written by the batch generator, and the dictionary `get`
 * with a default that the optimizer uses.
 */
module Metrics {
  const TimestampKey := "timestamp"
  const KilnTempKey := "kiln_temp_C"
  const MillPowerKey := "mill_power_kW"
  const AfRateKey := "AF_rate_percent"
  const FreeLimeKey := "clinker_free_lime_percent"
  const Co2EmissionKey := "CO2_emission_kgpt"

  /** A plant snapshot as a field-name to reading dictionary; readings are reals. */
  type Snapshot = map<string, real>

  /** `d.get(key, default)` */
  function GetOr(d: Snapshot, key: string, default: real): (v: real)
    ensures key in d ==> v == d[key]
    ensures key !in d ==> v == default
  {
    if key in d then d[key] else default
  }
}
