/** Conversion between physical lengths (meters) and canvas pixels. */
module Scale {

  /** Pixels per meter on the canvas. */
  const SCALE: real := 400.0

  /** Python's int() on a float: truncation toward zero. */
  function TruncateToInt(v: real): (t: int)
    ensures 0.0 <= v ==> t as real <= v < t as real + 1.0
    ensures v < 0.0 ==> t as real - 1.0 < v <= t as real
  {
    if v >= 0.0 then v.Floor else -((-v).Floor)
  }

  /** Length in meters to whole pixels, truncating toward zero. */
  function MetersToPixels(v: real): (p: int)
    ensures 0.0 <= v ==> 0 <= p && p as real <= v * SCALE < p as real + 1.0
    ensures v < 0.0 ==> p <= 0 && p as real - 1.0 < v * SCALE <= p as real
  {
    TruncateToInt(v * SCALE)
  }

  /** Pixels back to meters (exact division). */
  function PixelsToMeters(p: int): (m: real)
    ensures m * SCALE == p as real
    ensures (0 <= p) == (0.0 <= m)
  {
    p as real / SCALE
  }

  /** A whole number of pixels survives the trip through meters unchanged. */
  lemma PixelsRoundTrip(p: int)
    ensures MetersToPixels(PixelsToMeters(p)) == p
  {
    var m := PixelsToMeters(p);
    assert m * SCALE == p as real;
    if 0 <= p {
      assert (p as real).Floor == p;
    } else {
      assert (-(p as real)).Floor == -p;
    }
  }

  /** A non-negative length in meters loses less than one pixel on the trip through pixels. */
  lemma MetersRoundTrip(v: real)
    requires 0.0 <= v
    ensures PixelsToMeters(MetersToPixels(v)) <= v < PixelsToMeters(MetersToPixels(v)) + 1.0 / SCALE
  {
    var p := MetersToPixels(v);
    var m := PixelsToMeters(p);
    assert m * SCALE == p as real;
    assert p as real <= v * SCALE < p as real + 1.0;
  }
}
