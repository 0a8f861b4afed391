/** Metric/imperial display conversions (src/frontend/src/lib/units.ts).
    Stored values are always metric (kilograms, kilometres); a conversion
    only changes what is shown. Numbers are exact reals. */
module Units {

  /** Pounds per kilogram. */
  const LbsPerKg: real := 2.20462

  /** Miles per kilometre. */
  const MilesPerKm: real := 0.621371

  /** A formatted quantity: the number `toFixed(decimals)` renders, then
      the unit suffix. */
  datatype Display = Display(amount: real, decimals: nat, suffix: string)

  /** `formatDistance(km, isMetric)`. */
  function FormatDistance(km: real, isMetric: bool): Display
  {
    if isMetric then Display(km, 2, " km") else Display(km * MilesPerKm, 2, " mi")
  }

  /** `formatWeight(kg, isMetric)`. */
  function FormatWeight(kg: real, isMetric: bool): Display
  {
    if isMetric then Display(kg, 1, " kg") else Display(kg * LbsPerKg, 1, " lbs")
  }

  /** `convertWeight(value, fromMetric, toMetric)`. */
  function ConvertWeight(value: real, fromMetric: bool, toMetric: bool): real
  {
    if fromMetric == toMetric then value
    else if fromMetric && !toMetric then value * LbsPerKg
    else value / LbsPerKg
  }

  /** `convertDistance(value, fromMetric, toMetric)`. */
  function ConvertDistance(value: real, fromMetric: bool, toMetric: bool): real
  {
    if fromMetric == toMetric then value
    else if fromMetric && !toMetric then value * MilesPerKm
    else value / MilesPerKm
  }

  /** Converting within one system returns the value unchanged; across
      systems it multiplies by the factor one way and divides the other. */
  lemma ConvertCases(v: real, fromMetric: bool, toMetric: bool)
    ensures fromMetric == toMetric ==> ConvertWeight(v, fromMetric, toMetric) == v
    ensures fromMetric == toMetric ==> ConvertDistance(v, fromMetric, toMetric) == v
    ensures fromMetric && !toMetric ==> ConvertWeight(v, fromMetric, toMetric) == v * LbsPerKg
    ensures fromMetric && !toMetric ==> ConvertDistance(v, fromMetric, toMetric) == v * MilesPerKm
    ensures !fromMetric && toMetric ==> ConvertWeight(v, fromMetric, toMetric) * LbsPerKg == v
    ensures !fromMetric && toMetric ==> ConvertDistance(v, fromMetric, toMetric) * MilesPerKm == v
  {
  }

  /** Converting there and back returns the original value exactly. */
  lemma ConvertRoundTrip(v: real, a: bool, b: bool)
    ensures ConvertWeight(ConvertWeight(v, a, b), b, a) == v
    ensures ConvertDistance(ConvertDistance(v, a, b), b, a) == v
  {
  }

  /** The factors are positive, so conversion keeps signs and order. */
  lemma ConvertMonotone(v: real, w: real, a: bool, b: bool)
    ensures v >= 0.0 ==> ConvertWeight(v, a, b) >= 0.0 && ConvertDistance(v, a, b) >= 0.0
    ensures v < w ==> ConvertWeight(v, a, b) < ConvertWeight(w, a, b)
    ensures v < w ==> ConvertDistance(v, a, b) < ConvertDistance(w, a, b)
  {
  }

  /** The displayed number is the canonical value converted to the chosen
      system, and the suffix names that system's unit. */
  lemma FormatMatchesConvert(x: real, isMetric: bool)
    ensures FormatDistance(x, isMetric).amount == ConvertDistance(x, true, isMetric)
    ensures FormatDistance(x, isMetric).suffix == if isMetric then " km" else " mi"
    ensures FormatDistance(x, isMetric).decimals == 2
    ensures FormatWeight(x, isMetric).amount == ConvertWeight(x, true, isMetric)
    ensures FormatWeight(x, isMetric).suffix == if isMetric then " kg" else " lbs"
    ensures FormatWeight(x, isMetric).decimals == 1
  {
  }
}
