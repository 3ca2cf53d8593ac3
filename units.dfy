/** Unit conversions used by the animation core (src/core.ts). */
module Units {

  /** Metres in one foot; telemetry arrives in feet and is converted once at load time. */
  const MetersPerFoot: real := 0.3048

  /** The value of Math.PI. Only its positivity is used by the lemmas below. */
  const Pi: real := 3.141592653589793

  /** feetToMeters: a length, velocity or acceleration in feet converted to metres. */
  function FeetToMeters(feet: real): (meters: real)
    ensures meters / MetersPerFoot == feet
    ensures (meters == 0.0) == (feet == 0.0)
    ensures (meters < 0.0) == (feet < 0.0)
  {
    feet * MetersPerFoot
  }

  /** convertFeetVal: the conversion the pitch constructor applies to every telemetry field.
      It is written out separately in the source, with the same factor. */
  function ConvertFeetVal(value: real): (meters: real)
    ensures meters == FeetToMeters(value)
  {
    value * 0.3048
  }

  /** The conversion preserves strict order in both directions. */
  lemma ConvertFeetValPreservesOrder(a: real, b: real)
    ensures a < b <==> ConvertFeetVal(a) < ConvertFeetVal(b)
    ensures a == b <==> ConvertFeetVal(a) == ConvertFeetVal(b)
  {
  }

  /** degToRad: degrees to radians. */
  function DegToRad(degrees: real): (radians: real)
    ensures radians * 180.0 == degrees * Pi
    ensures (radians < 0.0) == (degrees < 0.0)
  {
    degrees * Pi / 180.0
  }

  /** The conversion is linear: angles add and scale in either unit, and a half turn
      more is Pi radians more. */
  lemma DegToRadLinear(a: real, b: real, k: real)
    ensures DegToRad(a + b) == DegToRad(a) + DegToRad(b)
    ensures DegToRad(k * a) == k * DegToRad(a)
    ensures DegToRad(a + 180.0) == DegToRad(a) + Pi
  {
  }
}
