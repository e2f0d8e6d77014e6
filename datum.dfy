/** The datum of a coordinate system (Datum.php): how its datum type is
    classified from the `towgs84` shift parameters, when two datums count as
    equal, and the 3- and 7-parameter shifts of a geocentric point to and
    from WGS84.  The geodetic/geocentric conversions themselves (sine,
    cosine, square roots, an iterative solver) are not part of this model;
    only the range check that opens `GeodeticToGeocentric` is. */
module Datum {
  import opened Wrappers
  import opened Common
  import opened PhpStrings
  import opened Points

  /** Entry `k` of a parameter list; a missing index reads as null, which
      is 0 in arithmetic and in comparisons with numbers. */
  function Param(v: seq<real>, k: int): real {
    if 0 <= k < |v| then v[k] else 0.0
  }

  /** Some translation (entries 0..2) is nonzero. */
  predicate TranslationNonzero(v: seq<real>) {
    Param(v, 0) != 0.0 || Param(v, 1) != 0.0 || Param(v, 2) != 0.0
  }

  /** The list has more than three entries and some rotation or the scale
      (entries 3..6) is nonzero. */
  predicate RotationOrScaleNonzero(v: seq<real>) {
    |v| > 3 && (Param(v, 3) != 0.0 || Param(v, 4) != 0.0 || Param(v, 5) != 0.0 || Param(v, 6) != 0.0)
  }

  /** `floatval` of every entry of the raw parameter list. */
  function FloatVals(raw: Option<seq<string>>): (vals: Option<seq<real>>)
    ensures vals.Some? <==> raw.Some?
    ensures raw.Some? ==> |vals.value| == |raw.value|
    ensures raw.Some? ==> forall k :: 0 <= k < |raw.value| ==> vals.value[k] == FloatVal(raw.value[k])
  {
    match raw
    case None => None
    case Some(r) => Some(seq(|r|, k requires 0 <= k < |r| => FloatVal(r[k])))
  }

  /** The datum type the constructor settles on: WGS84 by default, none for
      the datum code "none", three-parameter as soon as a translation is
      nonzero (this overrides "none"), seven-parameter as soon as a rotation
      or the scale is nonzero (this overrides both). */
  function DatumTypeFor(code: Option<string>, vals: Option<seq<real>>): (t: DatumType)
    ensures t in {Wgs84, NoDatum, ThreeParam, SevenParam}
    ensures (t == ThreeParam || t == SevenParam)
      <==> vals.Some? && (TranslationNonzero(vals.value) || RotationOrScaleNonzero(vals.value))
    ensures t == SevenParam <==> vals.Some? && RotationOrScaleNonzero(vals.value)
    ensures t == NoDatum <==> code == Some("none") && !(t == ThreeParam || t == SevenParam)
  {
    if vals.Some? && RotationOrScaleNonzero(vals.value) then SevenParam
    else if vals.Some? && TranslationNonzero(vals.value) then ThreeParam
    else if code == Some("none") then NoDatum
    else Wgs84
  }

  /** The list padded with zeros up to length `n`: what PHP's writes to the
      missing indexes 3..6 leave behind. */
  function PadTo(v: seq<real>, n: nat): (w: seq<real>)
    ensures |w| == if |v| >= n then |v| else n
    ensures forall k :: 0 <= k < |w| ==> w[k] == Param(v, k)
  {
    if |v| >= n then v else v + seq(n - |v|, _ => 0.0)
  }

  /** The unit conversion of a seven-parameter list: rotations from seconds
      of arc to radians, the scale from parts per million to a multiplier;
      the translations and any entries past the seventh are kept. */
  function SevenParamUnits(v: seq<real>): (w: seq<real>)
    ensures |w| == if |v| >= 7 then |v| else 7
    ensures forall k :: 0 <= k < 3 ==> w[k] == Param(v, k)
    ensures forall k :: 3 <= k < 6 ==> w[k] == Param(v, k) * SecToRad
    ensures w[6] == Param(v, 6) / 1000000.0 + 1.0
    ensures forall k :: 7 <= k < |w| ==> w[k] == v[k]
  {
    var p := PadTo(v, 7);
    p[3 := p[3] * SecToRad][4 := p[4] * SecToRad][5 := p[5] * SecToRad][6 := p[6] / 1000000.0 + 1.0]
  }

  /** The conversion is lossless: the original rotations and ppm scale can be
      read back from the converted list. */
  lemma SevenParamUnitsInvertible(v: seq<real>)
    ensures var w := SevenParamUnits(v);
      (forall k :: 3 <= k < 6 ==> w[k] / SecToRad == Param(v, k))
      && (w[6] - 1.0) * 1000000.0 == Param(v, 6)
  {
    var w := SevenParamUnits(v);
    forall k | 3 <= k < 6
      ensures w[k] / SecToRad == Param(v, k)
    {
      assert w[k] == Param(v, k) * SecToRad;
    }
  }

  /** The parameter list the constructor stores: converted when the type is
      seven-parameter, otherwise as read. */
  function StoredParams(vals: Option<seq<real>>): (r: Option<seq<real>>)
    ensures r.Some? <==> vals.Some?
    ensures vals.Some? && !RotationOrScaleNonzero(vals.value) ==> r == vals
    ensures vals.Some? && RotationOrScaleNonzero(vals.value) ==> r == Some(SevenParamUnits(vals.value))
  {
    match vals
    case None => None
    case Some(v) => Some(if RotationOrScaleNonzero(v) then SevenParamUnits(v) else v)
  }

  /** A geocentric shift of Bursa-Wolf form: translation (dx, dy, dz),
      small rotations (rx, ry, rz) and scale m, stored at indexes 0..6.
      With no rotation it is a plain scaling and translation. */
  function BursaWolf(p: seq<real>, v: Vec3): (r: Vec3)
    ensures Param(p, 3) == 0.0 && Param(p, 4) == 0.0 && Param(p, 5) == 0.0 ==>
      r == Vec3(Param(p, 6) * v.x + Param(p, 0), Param(p, 6) * v.y + Param(p, 1), Param(p, 6) * v.z + Param(p, 2))
  {
    var dx, dy, dz := Param(p, 0), Param(p, 1), Param(p, 2);
    var rx, ry, rz, m := Param(p, 3), Param(p, 4), Param(p, 5), Param(p, 6);
    Vec3(m * (v.x - rz * v.y + ry * v.z) + dx,
         m * (rz * v.x + v.y - rx * v.z) + dy,
         m * (-ry * v.x + rx * v.y + v.z) + dz)
  }

  /** Without the translation the shift is m (v + w × v) for the rotation
      vector w: the rotation moves v across itself and across w, so the
      components along v and along w are only scaled. */
  lemma BursaWolfAlongAxes(p: seq<real>, v: Vec3)
    ensures var r, w, m := BursaWolf(p, v), Vec3(Param(p, 3), Param(p, 4), Param(p, 5)), Param(p, 6);
      var t := Vec3(r.x - Param(p, 0), r.y - Param(p, 1), r.z - Param(p, 2));
      Dot(t, v) == m * Dot(v, v) && Dot(t, w) == m * Dot(w, v)
  {
    var w := Vec3(Param(p, 3), Param(p, 4), Param(p, 5));
    var u := Vec3(v.x - w.z * v.y + w.y * v.z, w.z * v.x + v.y - w.x * v.z, -w.y * v.x + w.x * v.y + v.z);
    ShiftAlongAxes(Vec3(Param(p, 0), Param(p, 1), Param(p, 2)), w, Param(p, 6), v, u, BursaWolf(p, v));
  }

  /** The shift r = m u + d of the rotated point u keeps, up to the scale,
      the components along v and along w. */
  lemma ShiftAlongAxes(d: Vec3, w: Vec3, m: real, v: Vec3, u: Vec3, r: Vec3)
    requires u == Vec3(v.x - w.z * v.y + w.y * v.z, w.z * v.x + v.y - w.x * v.z, -w.y * v.x + w.x * v.y + v.z)
    requires r == Vec3(m * u.x + d.x, m * u.y + d.y, m * u.z + d.z)
    ensures var t := Vec3(r.x - d.x, r.y - d.y, r.z - d.z);
      Dot(t, v) == m * Dot(v, v) && Dot(t, w) == m * Dot(w, v)
  {
    var t := Vec3(r.x - d.x, r.y - d.y, r.z - d.z);
    assert t == Vec3(m * u.x, m * u.y, m * u.z);
    RotationAlongAxes(w, v, u);
    assert Dot(t, v) == m * Dot(v, v) by {
      ScaledDot(m, u, v);
    }
    assert Dot(t, w) == m * Dot(w, v) by {
      ScaledDot(m, u, w);
    }
  }

  /** The small-angle rotation u = v + w × v keeps the components along v
      and along w. */
  lemma RotationAlongAxes(w: Vec3, v: Vec3, u: Vec3)
    requires u == Vec3(v.x - w.z * v.y + w.y * v.z, w.z * v.x + v.y - w.x * v.z, -w.y * v.x + w.x * v.y + v.z)
    ensures Dot(u, v) == Dot(v, v) && Dot(u, w) == Dot(w, v)
  {
  }

  /** Scaling a vector scales its components. */
  lemma ScaledDot(m: real, u: Vec3, v: Vec3)
    ensures Dot(Vec3(m * u.x, m * u.y, m * u.z), v) == m * Dot(u, v)
  {
  }

  /** The source's inverse of BursaWolf: take off the translation, divide
      by the scale, and apply the transposed rotation; with no rotation
      that leaves the unscaled point. */
  function BursaWolfInverse(p: seq<real>, v: Vec3): (r: Vec3)
    requires Param(p, 6) != 0.0
    ensures Param(p, 3) == 0.0 && Param(p, 4) == 0.0 && Param(p, 5) == 0.0 ==>
      var m := Param(p, 6);
      r == Vec3((v.x - Param(p, 0)) / m, (v.y - Param(p, 1)) / m, (v.z - Param(p, 2)) / m)
  {
    var dx, dy, dz := Param(p, 0), Param(p, 1), Param(p, 2);
    var rx, ry, rz, m := Param(p, 3), Param(p, 4), Param(p, 5), Param(p, 6);
    var xt, yt, zt := (v.x - dx) / m, (v.y - dy) / m, (v.z - dz) / m;
    Vec3(xt + rz * yt - ry * zt,
         -rz * xt + yt + rx * zt,
         ry * xt - rx * yt + zt)
  }

  /** The transposed rotation t - w × t of the unscaled point t keeps the
      components along t and along w. */
  lemma BursaWolfInverseAlongAxes(p: seq<real>, v: Vec3)
    requires Param(p, 6) != 0.0
    ensures var r, w, m := BursaWolfInverse(p, v), Vec3(Param(p, 3), Param(p, 4), Param(p, 5)), Param(p, 6);
      var t := Vec3((v.x - Param(p, 0)) / m, (v.y - Param(p, 1)) / m, (v.z - Param(p, 2)) / m);
      Dot(r, t) == Dot(t, t) && Dot(r, w) == Dot(w, t)
  {
    var m := Param(p, 6);
    var t := Vec3((v.x - Param(p, 0)) / m, (v.y - Param(p, 1)) / m, (v.z - Param(p, 2)) / m);
    var w := Vec3(Param(p, 3), Param(p, 4), Param(p, 5));
    RotationAlongAxes(Vec3(-w.x, -w.y, -w.z), t, BursaWolfInverse(p, v));
    assert Dot(Vec3(-w.x, -w.y, -w.z), t) == -Dot(w, t);
    assert Dot(BursaWolfInverse(p, v), Vec3(-w.x, -w.y, -w.z)) == -Dot(BursaWolfInverse(p, v), w);
  }

  /** The seven-parameter forward shift as the source writes it: x is
      overwritten first and the new x (then the new y) feed the next
      lines. */
  function BursaWolfAsWritten(p: seq<real>, v: Vec3): (r: Vec3)
    ensures r.x == BursaWolf(p, v).x
  {
    var dx, dy, dz := Param(p, 0), Param(p, 1), Param(p, 2);
    var rx, ry, rz, m := Param(p, 3), Param(p, 4), Param(p, 5), Param(p, 6);
    var x1 := m * (v.x - rz * v.y + ry * v.z) + dx;
    var y1 := m * (rz * x1 + v.y - rx * v.z) + dy;
    var z1 := m * (-ry * x1 + rx * y1 + v.z) + dz;
    Vec3(x1, y1, z1)
  }

  function Dot(u: Vec3, v: Vec3): real {
    u.x * v.x + u.y * v.y + u.z * v.z
  }

  /** Going back with the source's inverse after the forward shift leaves
      v + |w|^2 v - (w.v) w for the rotation vector w = (rx, ry, rz): the
      inverse uses the transposed rotation, which undoes the small-angle
      rotation up to second order, and undoes translation and scale
      exactly. */
  lemma BursaWolfRoundTrip(p: seq<real>, v: Vec3)
    requires Param(p, 6) != 0.0
    ensures var w := Vec3(Param(p, 3), Param(p, 4), Param(p, 5));
      var n := Dot(w, w);
      var d := Dot(w, v);
      BursaWolfInverse(p, BursaWolf(p, v))
        == Vec3(v.x + n * v.x - d * w.x, v.y + n * v.y - d * w.y, v.z + n * v.z - d * w.z)
  {
    var u := BursaWolf(p, v);
    InverseOfForward(Param(p, 0), Param(p, 1), Param(p, 2), Param(p, 3), Param(p, 4), Param(p, 5), Param(p, 6),
                     v, u);
  }

  /** The round trip over plain numbers: for u the shift of v, taking the
      translation off, dividing out the scale and rotating back leaves
      v + |w|^2 v - (w.v) w. */
  lemma InverseOfForward(dx: real, dy: real, dz: real, rx: real, ry: real, rz: real, m: real, v: Vec3, u: Vec3)
    requires m != 0.0
    requires u.x == m * (v.x - rz * v.y + ry * v.z) + dx
    requires u.y == m * (rz * v.x + v.y - rx * v.z) + dy
    requires u.z == m * (-ry * v.x + rx * v.y + v.z) + dz
    ensures var xt, yt, zt := (u.x - dx) / m, (u.y - dy) / m, (u.z - dz) / m;
      var w := Vec3(rx, ry, rz);
      xt + rz * yt - ry * zt == v.x + Dot(w, w) * v.x - Dot(w, v) * rx
      && -rz * xt + yt + rx * zt == v.y + Dot(w, w) * v.y - Dot(w, v) * ry
      && ry * xt - rx * yt + zt == v.z + Dot(w, w) * v.z - Dot(w, v) * rz
  {
    var tx, ty, tz := v.x - rz * v.y + ry * v.z, rz * v.x + v.y - rx * v.z, -ry * v.x + rx * v.y + v.z;
    Unscale(m, tx, dx);
    Unscale(m, ty, dy);
    Unscale(m, tz, dz);
    TransposeAfterRotation(rx, ry, rz, v, (u.x - dx) / m, (u.y - dy) / m, (u.z - dz) / m);
  }

  /** The translation and scale of the shift are undone exactly. */
  lemma Unscale(m: real, t: real, d: real)
    requires m != 0.0
    ensures ((m * t + d) - d) / m == t
  {
  }

  /** The transposed small-angle rotation after the rotation itself:
      Rᵀ R v = v + |w|^2 v - (w.v) w, where (tx, ty, tz) = R v. */
  lemma TransposeAfterRotation(rx: real, ry: real, rz: real, v: Vec3, tx: real, ty: real, tz: real)
    requires tx == v.x - rz * v.y + ry * v.z
    requires ty == rz * v.x + v.y - rx * v.z
    requires tz == -ry * v.x + rx * v.y + v.z
    ensures var w := Vec3(rx, ry, rz);
      tx + rz * ty - ry * tz == v.x + Dot(w, w) * v.x - Dot(w, v) * rx
      && -rz * tx + ty + rx * tz == v.y + Dot(w, w) * v.y - Dot(w, v) * ry
      && ry * tx - rx * ty + tz == v.z + Dot(w, w) * v.z - Dot(w, v) * rz
  {
  }

  /** With zero rotations the seven-parameter shift is undone exactly. */
  lemma BursaWolfRoundTripWithoutRotation(p: seq<real>, v: Vec3)
    requires Param(p, 6) != 0.0
    requires Param(p, 3) == 0.0 && Param(p, 4) == 0.0 && Param(p, 5) == 0.0
    ensures BursaWolfInverse(p, BursaWolf(p, v)) == v
  {
    BursaWolfRoundTrip(p, v);
  }

  /** The sequential overwrite differs from the shift it evidently means
      (the one PROJ computes with temporaries): with only rz = 0.5 and unit
      scale, the point (0, 1, 0) gets y = 0.75 instead of 1. */
  lemma BursaWolfAsWrittenDiffers()
    ensures var p := [0.0, 0.0, 0.0, 0.0, 0.0, 0.5, 1.0];
      var v := Vec3(0.0, 1.0, 0.0);
      BursaWolfAsWritten(p, v).y == 0.75 && BursaWolf(p, v).y == 1.0
  {
  }

  /** A datum: its type, its shift parameters (if any) and the ellipsoid
      values it copies from its coordinate system. */
  datatype Datum = Datum(datumType: DatumType, datumParams: Option<seq<real>>,
                         a: real, b: real, es: real, ep2: real)
  {
    /** The shift parameters; an unset list reads as all zeros. */
    function Params(): seq<real> {
      datumParams.GetOr([])
    }

    /** `compare_datums`: false for different types, a different semi-major
        axis or squared eccentricities more than 5e-11 apart; otherwise
        three- and seven-parameter datums are equal exactly when their
        first three (or seven) parameters are, a grid-shift datum is an
        error, and any other pair is equal. */
    function CompareDatums(dest: Datum): (r: Result<bool, string>)
      ensures r.Err? <==> datumType == dest.datumType == Gridshift
                           && a == dest.a && Abs(es - dest.es) <= 0.00000000005
      ensures r == Ok(true) ==> datumType == dest.datumType && a == dest.a
                                && Abs(es - dest.es) <= 0.00000000005
      ensures datumType == dest.datumType == ThreeParam ==>
                (r == Ok(true) <==> a == dest.a && Abs(es - dest.es) <= 0.00000000005
                                    && forall k :: 0 <= k < 3 ==> Param(Params(), k) == Param(dest.Params(), k))
      ensures datumType == dest.datumType == SevenParam ==>
                (r == Ok(true) <==> a == dest.a && Abs(es - dest.es) <= 0.00000000005
                                    && forall k :: 0 <= k < 7 ==> Param(Params(), k) == Param(dest.Params(), k))
      ensures datumType == dest.datumType && datumType !in {ThreeParam, SevenParam, Gridshift} ==>
                (r == Ok(true) <==> a == dest.a && Abs(es - dest.es) <= 0.00000000005)
    {
      var p, q := Params(), dest.Params();
      if datumType != dest.datumType then Ok(false)
      else if a != dest.a || Abs(es - dest.es) > 0.00000000005 then Ok(false)
      else if datumType == ThreeParam then
        Ok(Param(p, 0) == Param(q, 0) && Param(p, 1) == Param(q, 1) && Param(p, 2) == Param(q, 2))
      else if datumType == SevenParam then
        Ok(Param(p, 0) == Param(q, 0) && Param(p, 1) == Param(q, 1) && Param(p, 2) == Param(q, 2)
           && Param(p, 3) == Param(q, 3) && Param(p, 4) == Param(q, 4) && Param(p, 5) == Param(q, 5)
           && Param(p, 6) == Param(q, 6))
      else if datumType == Gridshift || dest.datumType == Gridshift then
        Err("ERROR: Grid shift transformations are not implemented.")
      else Ok(true)
    }

    /** The shift of `geocentricToWgs84` as a function of the point:
        three-parameter datums move it by exactly their translation,
        seven-parameter ones shift it by Bursa-Wolf, any other leaves it
        alone. */
    function ToWgs84(v: Vec3): (r: Vec3)
      ensures datumType == ThreeParam ==>
        r.x - v.x == Param(Params(), 0) && r.y - v.y == Param(Params(), 1) && r.z - v.z == Param(Params(), 2)
      ensures datumType != ThreeParam && datumType != SevenParam ==> r == v
    {
      var p := Params();
      match datumType
      case ThreeParam => Vec3(v.x + Param(p, 0), v.y + Param(p, 1), v.z + Param(p, 2))
      case SevenParam => BursaWolf(p, v)
      case _ => v
    }

    /** The shift of `geocentric_from_wgs84` as a function of the point;
        the seven-parameter case divides by the scale. */
    function FromWgs84(v: Vec3): (r: Vec3)
      requires datumType == SevenParam ==> Param(Params(), 6) != 0.0
      ensures datumType == ThreeParam ==> ToWgs84(r) == v
      ensures (datumType == SevenParam && Param(Params(), 3) == 0.0 && Param(Params(), 4) == 0.0
               && Param(Params(), 5) == 0.0) ==> BursaWolf(Params(), r) == v
      ensures datumType != ThreeParam && datumType != SevenParam ==> r == v
    {
      var p := Params();
      match datumType
      case ThreeParam => Vec3(v.x - Param(p, 0), v.y - Param(p, 1), v.z - Param(p, 2))
      case SevenParam => BursaWolfInverse(p, v)
      case _ => v
    }

    /** `geocentricToWgs84`, updating the point in place. */
    method GeocentricToWgs84(pt: Point)
      modifies pt
      ensures pt.Coords() == ToWgs84(old(pt.Coords()))
    {
      var p := Params();
      if datumType == ThreeParam {
        pt.x := pt.x + Param(p, 0);
        pt.y := pt.y + Param(p, 1);
        pt.z := pt.z + Param(p, 2);
      } else if datumType == SevenParam {
        var dx, dy, dz := Param(p, 0), Param(p, 1), Param(p, 2);
        var rx, ry, rz, m := Param(p, 3), Param(p, 4), Param(p, 5), Param(p, 6);
        var x, y, z := pt.x, pt.y, pt.z;
        pt.x := m * (x - rz * y + ry * z) + dx;
        pt.y := m * (rz * x + y - rx * z) + dy;
        pt.z := m * (-ry * x + rx * y + z) + dz;
      }
    }

    /** `geocentric_from_wgs84`, updating the point in place. */
    method GeocentricFromWgs84(pt: Point)
      requires datumType == SevenParam ==> Param(Params(), 6) != 0.0
      modifies pt
      ensures pt.Coords() == FromWgs84(old(pt.Coords()))
    {
      var p := Params();
      if datumType == ThreeParam {
        pt.x := pt.x - Param(p, 0);
        pt.y := pt.y - Param(p, 1);
        pt.z := pt.z - Param(p, 2);
      } else if datumType == SevenParam {
        var dx, dy, dz := Param(p, 0), Param(p, 1), Param(p, 2);
        var rx, ry, rz, m := Param(p, 3), Param(p, 4), Param(p, 5), Param(p, 6);
        var xt := (pt.x - dx) / m;
        var yt := (pt.y - dy) / m;
        var zt := (pt.z - dz) / m;
        pt.x := xt + rz * yt - ry * zt;
        pt.y := -rz * xt + yt + rx * zt;
        pt.z := ry * xt - rx * yt + zt;
      }
    }
  }

  /** The constructor's loop: `floatval` of each raw parameter, in order. */
  method ReadParams(raw: seq<string>) returns (v: seq<real>)
    ensures Some(v) == FloatVals(Some(raw))
  {
    v := [];
    var i := 0;
    while i < |raw|
      invariant 0 <= i <= |raw|
      invariant |v| == i
      invariant forall k :: 0 <= k < i ==> v[k] == FloatVal(raw[k])
    {
      v := v + [FloatVal(raw[i])];
      i := i + 1;
    }
    assert v == FloatVals(Some(raw)).value;
  }

  /** The constructor's classification of a read parameter list: a nonzero
      translation makes the datum three-parameter, then a nonzero rotation
      or scale makes it seven-parameter and converts the list in place. */
  method ClassifyParams(t0: DatumType, v0: seq<real>) returns (t: DatumType, v: seq<real>)
    ensures t == if RotationOrScaleNonzero(v0) then SevenParam
                 else if TranslationNonzero(v0) then ThreeParam
                 else t0
    ensures Some(v) == StoredParams(Some(v0))
  {
    t, v := t0, v0;
    if Param(v, 0) != 0.0 || Param(v, 1) != 0.0 || Param(v, 2) != 0.0 {
      t := ThreeParam;
    }
    if |v| > 3 {
      if Param(v, 3) != 0.0 || Param(v, 4) != 0.0 || Param(v, 5) != 0.0 || Param(v, 6) != 0.0 {
        t := SevenParam;
        v := PadTo(v, 7);
        v := v[3 := v[3] * SecToRad];
        v := v[4 := v[4] * SecToRad];
        v := v[5 := v[5] * SecToRad];
        v := v[6 := v[6] / 1000000.0 + 1.0];
        assert v == SevenParamUnits(v0);
      }
    }
  }

  /** The constructor: classify the datum from the datum code and the raw
      `towgs84` strings, convert the seven-parameter units, and copy the
      ellipsoid values. */
  method NewDatum(datumCode: Option<string>, rawParams: Option<seq<string>>,
                  a: real, b: real, es: real, ep2: real) returns (d: Datum)
    ensures d.datumType == DatumTypeFor(datumCode, FloatVals(rawParams))
    ensures d.datumParams == StoredParams(FloatVals(rawParams))
    ensures d.a == a && d.b == b && d.es == es && d.ep2 == ep2
  {
    var datumType := Wgs84;
    if datumCode == Some("none") {
      datumType := NoDatum;
    }
    var datumParams: Option<seq<real>> := None;
    if rawParams.Some? {
      var v := ReadParams(rawParams.value);
      datumType, v := ClassifyParams(datumType, v);
      datumParams := Some(v);
    }
    d := Datum(datumType, datumParams, a, b, es, ep2);
  }

  /** A constructed three-parameter datum adds its translation and the
      reverse shift takes it off again: both compositions are the identity. */
  lemma ThreeParamRoundTrip(d: Datum, v: Vec3)
    requires d.datumType == ThreeParam
    ensures d.FromWgs84(d.ToWgs84(v)) == v
    ensures d.ToWgs84(d.FromWgs84(v)) == v
  {
  }

  /** WGS84, "none", unknown and grid-shift datums leave points alone in
      both directions. */
  lemma OtherDatumsLeavePointsAlone(d: Datum, v: Vec3)
    requires d.datumType != ThreeParam && d.datumType != SevenParam
    ensures d.ToWgs84(v) == v && d.FromWgs84(v) == v
  {
  }

  /** Every datum that is not a grid-shift datum equals itself. */
  lemma CompareDatumsReflexive(d: Datum)
    requires d.datumType != Gridshift
    ensures d.CompareDatums(d) == Ok(true)
  {
  }

  /** The tolerance on es is there so that GRS80 and WGS84 count as the
      same ellipsoid: two WGS84 datums on the GRS80 and WGS84 squared
      eccentricities (3.3e-11 apart) compare equal, whatever their shift
      parameters and b. */
  lemma Grs80MatchesWgs84(b: real, b': real, ep2: real, ep2': real, ps: Option<seq<real>>, ps': Option<seq<real>>)
    ensures Datum(Wgs84, ps, 6378137.0, b, 0.00669438002290, ep2)
              .CompareDatums(Datum(Wgs84, ps', 6378137.0, b', 0.00669437999014, ep2')) == Ok(true)
  {
  }

  /** The comparison does not depend on the order of its operands. */
  lemma CompareDatumsSymmetric(d: Datum, e: Datum)
    ensures d.CompareDatums(e) == e.CompareDatums(d)
  {
  }

  /** The latitude/longitude pre-check of `GeodeticToGeocentric`: latitudes
      at most 0.1% beyond a pole snap to that pole, latitudes further out
      are an error (None), and a longitude above `Pi` has `2 * Pi` taken
      off. */
  function GeodeticRangeCheck(lon: real, lat: real): (r: Option<(real, real)>)
    ensures r.None? <==> lat <= -1.001 * HalfPi || lat >= 1.001 * HalfPi
    ensures r.Some? ==> -HalfPi <= r.value.1 <= HalfPi
    ensures r.Some? && -HalfPi <= lat <= HalfPi ==> r.value.1 == lat
    ensures r.Some? && lat < -HalfPi ==> r.value.1 == -HalfPi
    ensures r.Some? && lat > HalfPi ==> r.value.1 == HalfPi
    ensures r.Some? && lon <= Pi ==> r.value.0 == lon
    ensures r.Some? && lon > Pi ==> r.value.0 == lon - 2.0 * Pi
  {
    var lat' :=
      if lat < -HalfPi && lat > -1.001 * HalfPi then Some(-HalfPi)
      else if lat > HalfPi && lat < 1.001 * HalfPi then Some(HalfPi)
      else if lat < -HalfPi || lat > HalfPi then None
      else Some(lat);
    match lat'
    case None => None
    case Some(l) => Some((if lon > Pi then lon - 2.0 * Pi else lon, l))
  }
}
