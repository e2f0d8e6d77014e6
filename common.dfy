/** The exact part of the shared numeric helpers (Common.php): the named
    constants, the datum-type codes, `sign`, the longitude and latitude
    wrap functions, the argument clamp of `asinz`, the eccentricity series
    `e0fn`..`e3fn` and the meridional-distance coefficients `pjEnfn`.

    The source's decimal constants are taken as exact real literals.  As
    doubles, `Pi`, `TwoPi / 2` and `TwoPi - Pi` are one and the same number;
    as exact decimals `TwoPi` exceeds `2 * Pi` by 1e-18, and the contracts
    below are stated with the literals exactly as written. */
module Common {
  import opened Wrappers

  const Pi: real := 3.141592653589793238
  const HalfPi: real := 1.570796326794896619
  const TwoPi: real := 6.283185307179586477
  const FortPi: real := 0.78539816339744833
  const RToD: real := 57.29577951308232088
  const DToR: real := 0.01745329251994329577
  /** Seconds of arc to radians, pi / 180 / 3600. */
  const SecToRad: real := 0.00000484813681109535993589914102357
  const Epsln: real := 0.0000000001
  const MaxIter: nat := 20
  const CosOf67P5: real := 0.38268343236508977
  const AdC: real := 1.0026

  // Series constants for the authalic sphere radius (pj_set_ell.c).
  const Sixth: real := 0.1666666666666666667
  const Ra4: real := 0.04722222222222222222
  const Ra6: real := 0.02215608465608465608
  const Rv4: real := 0.06944444444444444444
  const Rv6: real := 0.04243827160493827160

  // Meridional distance series constants (pj_mlfn.c).
  const C00: real := 1.0
  const C02: real := 0.25
  const C04: real := 0.046875
  const C06: real := 0.01953125
  const C08: real := 0.01068115234375
  const C22: real := 0.75
  const C44: real := 0.46875
  const C46: real := 0.01302083333333333333
  const C48: real := 0.00712076822916666666
  const C66: real := 0.36458333333333333333
  const C68: real := 0.00569661458333333333
  const C88: real := 0.3076171875

  /** The six datum kinds; the source stores them as the integers 0..5. */
  datatype DatumType = Unknown | ThreeParam | SevenParam | Gridshift | Wgs84 | NoDatum {
    function Code(): (c: int)
      ensures 0 <= c <= 5
      ensures DatumTypeOfCode(c) == Some(this)
    {
      match this
      case Unknown => 0
      case ThreeParam => 1
      case SevenParam => 2
      case Gridshift => 3
      case Wgs84 => 4
      case NoDatum => 5
    }
  }

  /** The datum kind an integer code stands for, if any. */
  function DatumTypeOfCode(c: int): (t: Option<DatumType>)
    ensures t.Some? <==> 0 <= c <= 5
  {
    if c == 0 then Some(Unknown)
    else if c == 1 then Some(ThreeParam)
    else if c == 2 then Some(SevenParam)
    else if c == 3 then Some(Gridshift)
    else if c == 4 then Some(Wgs84)
    else if c == 5 then Some(NoDatum)
    else None
  }

  /** Distinct kinds have distinct codes. */
  lemma DatumCodesDistinct(s: DatumType, t: DatumType)
    ensures s.Code() == t.Code() <==> s == t
  {
    if s.Code() == t.Code() {
      assert Some(s) == DatumTypeOfCode(s.Code()) == Some(t);
    }
  }

  function Abs(x: real): (r: real)
    ensures r >= 0.0 && (r == x || r == -x)
  {
    if x < 0.0 then -x else x
  }

  /** `sign`: -1 for a negative argument, 1 otherwise (zero included), so
      that the sign times the argument is its magnitude. */
  function Sign(x: real): (r: int)
    ensures r == -1 || r == 1
    ensures r == -1 <==> x < 0.0
    ensures r as real * x == Abs(x)
  {
    if x < 0.0 then -1 else 1
  }

  /** `adjustLon`: a longitude of magnitude below `Pi` is kept; otherwise one
      full turn is taken off in the direction of its sign, so that every
      input less than one and a half turns out lands within `TwoPi - Pi`
      (which is pi as a double) of zero. */
  function AdjustLon(x: real): (r: real)
    ensures r == x <==> Abs(x) < Pi
    ensures x >= Pi ==> r == x - TwoPi
    ensures x <= -Pi ==> r == x + TwoPi
    ensures Abs(x) < Pi + TwoPi ==> Abs(r) <= TwoPi - Pi
  {
    if Abs(x) < Pi then x else x - Sign(x) as real * TwoPi
  }

  /** The boundary values swap: `Pi` goes to `Pi - TwoPi` and `-Pi` to
      `TwoPi - Pi`, so the wrap is not idempotent there (pi -> -pi -> pi). */
  lemma AdjustLonAtBoundary()
    ensures AdjustLon(Pi) == Pi - TwoPi
    ensures AdjustLon(-Pi) == TwoPi - Pi
    ensures AdjustLon(AdjustLon(Pi)) == Pi != AdjustLon(Pi)
  {
  }

  /** Wherever the wrapped value lies strictly inside (-Pi, Pi), wrapping
      again changes nothing. */
  lemma AdjustLonIdempotentInside(x: real)
    requires Abs(AdjustLon(x)) < Pi
    ensures AdjustLon(AdjustLon(x)) == AdjustLon(x)
  {
  }

  /** `adjustLat`: a latitude of magnitude below `HalfPi` is kept; otherwise
      `Pi` is taken off in the direction of its sign, which brings every
      input less than `HalfPi + Pi` out into [-HalfPi, HalfPi]. */
  function AdjustLat(x: real): (r: real)
    ensures r == x <==> Abs(x) < HalfPi
    ensures x >= HalfPi ==> r == x - Pi
    ensures x <= -HalfPi ==> r == x + Pi
    ensures Abs(x) < HalfPi + Pi ==> Abs(r) <= HalfPi
  {
    if Abs(x) < HalfPi then x else x - Sign(x) as real * Pi
  }

  /** The value `asinz` hands to `asin`: the argument clamped to [-1, 1]. */
  function AsinzArgument(x: real): (r: real)
    ensures -1.0 <= r <= 1.0
    ensures -1.0 <= x <= 1.0 ==> r == x
    ensures x > 1.0 ==> r == 1.0
    ensures x < -1.0 ==> r == -1.0
  {
    if Abs(x) > 1.0 then (if x > 1.0 then 1.0 else -1.0) else x
  }

  /** `e0fn`, in the source's nested form; it is the series
      1 - x/4 - 3x^2/64 - 5x^3/256 of the meridional distance. */
  function E0fn(x: real): (r: real)
    ensures r == 1.0 - x / 4.0 - 3.0 * x * x / 64.0 - 5.0 * x * x * x / 256.0
  {
    1.0 - 0.25 * x * (1.0 + x / 16.0 * (3.0 + 1.25 * x))
  }

  /** `e1fn`: the series 3x/8 + 3x^2/32 + 45x^3/1024. */
  function E1fn(x: real): (r: real)
    ensures r == 3.0 * x / 8.0 + 3.0 * x * x / 32.0 + 45.0 * x * x * x / 1024.0
  {
    0.375 * x * (1.0 + 0.25 * x * (1.0 + 0.46875 * x))
  }

  /** `e2fn`: the series 15x^2/256 + 45x^3/1024. */
  function E2fn(x: real): (r: real)
    ensures r == 15.0 * x * x / 256.0 + 45.0 * x * x * x / 1024.0
  {
    0.05859375 * x * x * (1.0 + 0.75 * x)
  }

  /** `e3fn`: the single term 35x^3/3072. */
  function E3fn(x: real): (r: real)
    ensures r == 35.0 * x * x * x / 3072.0
  {
    x * x * x * (35.0 / 3072.0)
  }

  /** On a sphere (x = 0) the meridional distance reduces to the latitude
      itself: the leading coefficient is 1 and the others vanish. */
  lemma EccentricitySeriesOnSphere()
    ensures E0fn(0.0) == 1.0 && E1fn(0.0) == 0.0 && E2fn(0.0) == 0.0 && E3fn(0.0) == 0.0
  {
  }

  /** `pjEnfn`: the five coefficients of the meridional-distance series.
      Its first two coefficients differ by exactly 1 - es, the meridian's
      normalised radius of curvature at the equator (the slope of the
      series at latitude 0); its first coefficient is `e0fn` carried one
      order further; a sphere gives [1, 0, 0, 0, 0]. */
  function PjEnfn(es: real): (en: seq<real>)
    ensures |en| == 5
    ensures en[0] - en[1] == 1.0 - es
    ensures en[0] == E0fn(es) - C08 * es * es * es * es
    ensures es == 0.0 ==> en == [1.0, 0.0, 0.0, 0.0, 0.0]
  {
    var t2 := es * es;
    var t3 := t2 * es;
    [ C00 - es * (C02 + es * (C04 + es * (C06 + es * C08))),
      es * (C22 - es * (C04 + es * (C06 + es * C08))),
      t2 * (C44 - es * (C46 + es * C48)),
      t3 * (C66 - es * C68),
      t3 * es * C88 ]
  }

  /** For every eccentricity of a real ellipsoid (0 < es < 1) the second
      coefficient is positive. */
  lemma PjEnfnSecondPositive(es: real)
    requires 0.0 < es < 1.0
    ensures PjEnfn(es)[1] > 0.0
  {
    var inner := C04 + es * (C06 + es * C08);
    assert 0.0 < es * C08 < C08;
    assert 0.0 < es * (C06 + es * C08) < C06 + C08;
    assert es * inner < inner < 0.75;
  }

  // ------------------------------------------------------------ as written

  /** `pjEnfn` as the source reads it under PHP 7: the second coefficient
      multiplies the undefined constant `es` (line 232), which PHP reads as
      the string "es" and that string as 0, so the coefficient is always 0. */
  function PjEnfnAsWritten(es: real): (en: seq<real>)
    ensures en == PjEnfn(es)[1 := 0.0]
  {
    var t2 := es * es;
    var t3 := t2 * es;
    var en :=
      [ C00 - es * (C02 + es * (C04 + es * (C06 + es * C08))),
        0.0 * (C22 - es * (C04 + es * (C06 + es * C08))),
        t2 * (C44 - es * (C46 + es * C48)),
        t3 * (C66 - es * C68),
        t3 * es * C88 ];
    assert forall k :: 0 <= k < 5 ==> en[k] == PjEnfn(es)[1 := 0.0][k];
    en
  }

  /** The coefficients as written lose the equator-slope identity for the
      WGS84 eccentricity (es = 0.00669437999014). */
  lemma PjEnfnAsWrittenBreaksSlope()
    ensures var en := PjEnfnAsWritten(0.00669437999014); en[0] - en[1] != 1.0 - 0.00669437999014
  {
    PjEnfnSecondPositive(0.00669437999014);
  }

  /** `adjustLon` as written calls `self::$sign(...)`, a static method whose
      name is read from the undefined local variable `$sign`, so PHP stops
      with an error (None) whenever the magnitude reaches `Pi`; the evident
      intent is the call to `sign` in AdjustLon. */
  function AdjustLonAsWritten(x: real): (r: Option<real>)
    ensures r.Some? ==> r.value == AdjustLon(x)
    ensures r.None? <==> AdjustLon(x) != x
  {
    if Abs(x) < Pi then Some(x) else None
  }

  /** `adjustLat` as written, with the same call through `$sign`. */
  function AdjustLatAsWritten(x: real): (r: Option<real>)
    ensures r.Some? ==> r.value == AdjustLat(x)
    ensures r.None? <==> AdjustLat(x) != x
  {
    if Abs(x) < HalfPi then Some(x) else None
  }

  /** At longitude `Pi` and latitude `HalfPi` the functions as written fail
      where the intended ones wrap. */
  lemma AdjustAsWrittenFailsAtBoundary()
    ensures AdjustLonAsWritten(Pi) == None && AdjustLon(Pi) == Pi - TwoPi
    ensures AdjustLatAsWritten(HalfPi) == None && AdjustLat(HalfPi) == -HalfPi
  {
  }
}
