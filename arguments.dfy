/**
 * The bounds checks `main` applies to the parsed command line before polling
 * starts. The first failing check, in order, decides the exit code.
 */
module Arguments {
  /** Latitude and longitude default to this value when not given on the command line. */
  const Unset: real := -999.0

  datatype Verdict = Continue | Exit(code: int)

  function Validate(lat: real, lon: real, alt: int, n: int): (v: Verdict)
    ensures v == Exit(3) <==> lat == Unset || lon == Unset
    ensures v == Exit(4) <==> lat != Unset && lon != Unset && (lat < -80.0 || lat > 80.0)
    ensures v == Exit(5) <==> lat != Unset && lon != Unset && -80.0 <= lat <= 80.0
                              && (lon < -180.0 || lon > 180.0)
    ensures v == Exit(6) <==> lat != Unset && lon != Unset && -80.0 <= lat <= 80.0
                              && -180.0 <= lon <= 180.0 && (alt < 0 || alt > 10000)
    ensures v == Exit(7) <==> lat != Unset && lon != Unset && -80.0 <= lat <= 80.0
                              && -180.0 <= lon <= 180.0 && 0 <= alt <= 10000 && (n < 1 || n > 100)
    ensures v.Exit? ==> 3 <= v.code <= 7
  {
    if lat == Unset || lon == Unset then Exit(3)
    else if lat < -80.0 || lat > 80.0 then Exit(4)
    else if lon < -180.0 || lon > 180.0 then Exit(5)
    else if alt < 0 || alt > 10000 then Exit(6)
    else if n < 1 || n > 100 then Exit(7)
    else Continue
  }

  /** What the prediction service gets once the checks pass: every parameter inside its range. */
  lemma AcceptedInRange(lat: real, lon: real, alt: int, n: int)
    ensures Validate(lat, lon, alt, n) == Continue <==>
              -80.0 <= lat <= 80.0 && -180.0 <= lon <= 180.0 && 0 <= alt <= 10000 && 1 <= n <= 100
  {
  }

  /** An altitude of 0 passes with any valid position and pass count, though the error text says the range starts at 1. */
  lemma ZeroAltitudeAccepted(lat: real, lon: real, n: int)
    requires -80.0 <= lat <= 80.0 && -180.0 <= lon <= 180.0 && 1 <= n <= 100
    ensures Validate(lat, lon, 0, n) == Continue
  {
  }
}
