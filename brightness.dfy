/** The two `normalize_brightness` variants. The live client rescales Home
    Assistant's 0-255 brightness to the controller's 0-100 percent; the older
    async copy and the synchronous copy only clamp to 0-100. */
module Brightness {

  /** Scaling with saturation: below 0 gives 0, above 255 gives 100, and in
      between the floor of v * 100 / 255. */
  function ScaleBrightness(v: int): (r: int)
    ensures 0 <= r <= 100
    ensures v < 0 ==> r == 0
    ensures v > 255 ==> r == 100
    ensures 0 <= v <= 255 ==> r * 255 <= v * 100 < (r + 1) * 255
  {
    if v < 0 then 0
    else if v > 255 then 100
    else (v * 100) / 255
  }

  /** The end points of the scale are kept: 0 stays 0 and 255 becomes 100. */
  lemma ScaleBrightnessEnds()
    ensures ScaleBrightness(0) == 0
    ensures ScaleBrightness(255) == 100
  {
  }

  /** A brighter request never gives a dimmer channel value. */
  lemma ScaleBrightnessMonotone(a: int, b: int)
    requires a <= b
    ensures ScaleBrightness(a) <= ScaleBrightness(b)
  {
    if 0 <= a && b <= 255 {
      var ra, rb := ScaleBrightness(a), ScaleBrightness(b);
      assert ra * 255 < (rb + 1) * 255;
    }
  }

  /** Clamping into 0-100. */
  function ClampBrightness(v: int): (r: int)
    ensures 0 <= r <= 100
    ensures 0 <= v <= 100 ==> r == v
    ensures v < 0 ==> r == 0
    ensures v > 100 ==> r == 100
  {
    if v < 0 then 0
    else if v > 100 then 100
    else v
  }

  /** Clamping twice is clamping once. */
  lemma ClampBrightnessIdempotent(v: int)
    ensures ClampBrightness(ClampBrightness(v)) == ClampBrightness(v)
  {
  }

  /** Clamping preserves order. */
  lemma ClampBrightnessMonotone(a: int, b: int)
    requires a <= b
    ensures ClampBrightness(a) <= ClampBrightness(b)
  {
  }
}
