/** `deriveConstants` (Proj.php): after a definition has been read, fill in
    the datum from the datum registry, the ellipsoid from the ellipsoid
    registry (WGS84 when none is named or the name is unknown), derive the
    semi-minor axis, the sphere flag and the eccentricities, apply the
    defaults for the scale factor and the axis order, and build the datum
    object. */
module Derive {
  import opened Wrappers
  import opened Common
  import opened PhpStrings
  import opened Datum
  import opened ProjProps
  import opened RealArith

  /** The datum step: `@null` grids mean no datum, and a known datum code
      brings in its shift parameters, its ellipsoid and its name. */
  function DatumStage(p: Props, reg: Registry): (q: Props)
    ensures p.nagrids == Some("@null") ==> q.datumCode == Some("none") && q.datumParams == p.datumParams
    ensures q.datumCode == (if p.nagrids == Some("@null") then Some("none") else p.datumCode)
    ensures q.datumCode.Some? && q.datumCode.value != "none" && q.datumCode.value in reg.datums ==>
      var def := reg.datums[q.datumCode.value];
      q.ellps == def.ellipse
      && (def.datumName.Some? ==> q.datumName == def.datumName)
      && (def.datumName.None? ==> q.datumName == q.datumCode)
      && (def.towgs84.None? <==> q.datumParams.None?)
      && (def.towgs84.Some? ==> JoinParams(q.datumParams.value) == def.towgs84.value)
    ensures q == p.(datumCode := q.datumCode, datumParams := q.datumParams, ellps := q.ellps, datumName := q.datumName)
  {
    var p1 := if p.nagrids == Some("@null") then p.(datumCode := Some("none")) else p;
    if p1.datumCode.Some? && p1.datumCode.value != "none" && p1.datumCode.value in reg.datums then
      var def := reg.datums[p1.datumCode.value];
      var params := if def.towgs84.Some? then Some(Explode(def.towgs84.value, ',')) else None;
      JoinExplode(def.towgs84.GetOr(""), ',');
      p1.(datumParams := params,
          ellps := def.ellipse,
          datumName := if def.datumName.Some? then def.datumName else p1.datumCode)
    else p1
  }

  /** The shift parameters written back as a comma-separated list. */
  function JoinParams(ps: seq<string>): string {
    Join(ps, ',')
  }

  /** The registry key of the ellipsoid to use: the named one when it is
      listed, WGS84 otherwise. */
  function EllipseKey(ellps: Option<string>, reg: Registry): (key: string)
    ensures key == "WGS84" || (ellps == Some(key) && key in reg.ellipsoids)
    ensures ellps.Some? && ellps.value != "" && ellps.value in reg.ellipsoids ==> key == ellps.value
  {
    if ellps.None? || ellps.value == "" || ellps.value !in reg.ellipsoids then "WGS84" else ellps.value
  }

  /** Copying a registry ellipsoid onto the properties: every field the
      entry lists replaces the property of the same name. */
  function Extend(p: Props, e: Ellipse): (q: Props)
    ensures q.a == Some(e.a)
    ensures e.b.Some? ==> q.b == e.b
    ensures e.b.None? ==> q.b == p.b
    ensures e.rf.Some? ==> q.rf == e.rf
    ensures e.rf.None? ==> q.rf == p.rf
    ensures e.ellipseName.Some? ==> q.ellipseName == e.ellipseName
    ensures e.ellipseName.None? ==> q.ellipseName == p.ellipseName
    ensures q == p.(a := q.a, b := q.b, rf := q.rf, ellipseName := q.ellipseName)
  {
    p.(a := Some(e.a),
       b := if e.b.Some? then e.b else p.b,
       rf := if e.rf.Some? then e.rf else p.rf,
       ellipseName := if e.ellipseName.Some? then e.ellipseName else p.ellipseName)
  }

  /** The ellipsoid step: only when no semi-major axis is set yet. */
  function EllipseStage(p: Props, reg: Registry): (q: Props)
    ensures p.a.Some? ==> q == p
    ensures p.a.None? && EllipseKey(p.ellps, reg) in reg.ellipsoids ==>
      var e := reg.ellipsoids[EllipseKey(p.ellps, reg)];
      && q.a == Some(e.a)
      && q.b == (if e.b.Some? then e.b else p.b)
      && q.rf == (if e.rf.Some? then e.rf else p.rf)
      && q.ellipseName == (if e.ellipseName.Some? then e.ellipseName else p.ellipseName)
    ensures p.a.None? && EllipseKey(p.ellps, reg) !in reg.ellipsoids ==> q == p
    ensures q == p.(a := q.a, b := q.b, rf := q.rf, ellipseName := q.ellipseName)
  {
    if p.a.Some? then p
    else
      var key := EllipseKey(p.ellps, reg);
      if key in reg.ellipsoids then Extend(p, reg.ellipsoids[key]) else p
  }

  /** The semi-minor axis before the sphere test: from the inverse
      flattening when only that is given, else as set (null reads as 0). */
  function SemiMinor(a: real, b: Option<real>, rf: Option<real>): (r: real)
    requires rf.Some? && b.None? ==> rf.value != 0.0
    ensures b.Some? ==> r == b.value
    ensures b.None? && rf.None? ==> r == 0.0
    ensures rf.Some? && b.None? && a != 0.0 ==> (a - r) / a == 1.0 / rf.value
  {
    if rf.Some? && b.None? then
      var r := (1.0 - 1.0 / rf.value) * a;
      if a != 0.0 then FlatteningOfAxes(a, rf.value); r else r
    else b.GetOr(0.0)
  }

  /** The semi-minor axis (1 - 1/rf) a has flattening 1/rf. */
  lemma FlatteningOfAxes(a: real, rf: real)
    requires a != 0.0 && rf != 0.0
    ensures (a - (1.0 - 1.0 / rf) * a) / a == 1.0 / rf
  {
    var f := 1.0 / rf;
    assert a - (1.0 - f) * a == f * a;
    DivCancel(f, a);
  }

  /** The divisions of the shape computation are defined: a nonzero
      semi-major axis, a nonzero inverse flattening where it is divided by,
      and a nonzero semi-minor axis once the sphere test has run. */
  predicate ShapeDefined(a: real, b: Option<real>, rf: Option<real>) {
    a != 0.0
    && (rf.Some? && b.None? ==> rf.value != 0.0)
    && (Abs(a - SemiMinor(a, b, rf)) < Epsln || SemiMinor(a, b, rf) != 0.0)
  }

  /** The derived shape of the ellipsoid. */
  datatype Shape = Shape(a: real, b: real, sphere: bool, aTwo: real, b2: real, es: real, ep2: real)

  /** The shape for a semi-major axis and the semi-minor axis before the
      sphere test: a semi-minor axis within `Epsln` of the semi-major axis
      makes a sphere with equal axes; then the squared axes, the first
      eccentricity squared es = (a^2 - b^2) / a^2, the authalic radius when
      `R_A` is set (which also makes es zero), and the second eccentricity
      squared ep2 = (a^2 - b^2) / b^2. */
  function ShapeOf(a: real, b1: real, rA: bool): (s: Shape)
    requires a != 0.0 && (Abs(a - b1) < Epsln || b1 != 0.0)
    ensures s.sphere <==> Abs(a - b1) < Epsln
    ensures s.b == (if s.sphere then a else b1)
    ensures s.b2 == Times(s.b, s.b) && s.b2 > 0.0 && s.aTwo == Times(s.a, s.a)
    ensures !rA ==> s.a == a && s.aTwo > 0.0 && s.es * s.aTwo == s.aTwo - s.b2
    ensures rA ==> s.es == 0.0 && s.a == AuthalicRadius(a, EllipsoidalShape(a, s.b, s.sphere).es)
    ensures s.ep2 * s.b2 == s.aTwo - s.b2
  {
    var sphere := Abs(a - b1) < Epsln;
    var bb := if sphere then a else b1;
    if rA then AuthalicShape(a, bb, sphere) else EllipsoidalShape(a, bb, sphere)
  }

  /** The shape without `R_A`. */
  function EllipsoidalShape(a: real, b: real, sphere: bool): (s: Shape)
    requires a != 0.0 && b != 0.0
    ensures s.a == a && s.b == b && s.sphere == sphere
    ensures s.aTwo == Times(a, a) && s.b2 == Times(b, b) && s.aTwo > 0.0 && s.b2 > 0.0
    ensures s.es * s.aTwo == s.aTwo - s.b2
    ensures s.ep2 * s.b2 == s.aTwo - s.b2
  {
    SquarePositive(a);
    SquarePositive(b);
    var aTwo := Times(a, a);
    var b2 := Times(b, b);
    Shape(a, b, sphere, aTwo, b2, Quotient(aTwo - b2, aTwo), Quotient(aTwo - b2, b2))
  }

  /** The radius of the sphere with the ellipsoid's surface area (`R_A`):
      a (1 - es (1/6 + es (17/360 + es 67/3024))). */
  function AuthalicRadius(a: real, es: real): real {
    a * (1.0 - es * (Sixth + es * (Ra4 + es * Ra6)))
  }

  /** The shape with `R_A`: the semi-major axis becomes the authalic
      radius, the squared axes are taken again and es is zeroed. */
  function AuthalicShape(a: real, b: real, sphere: bool): (s: Shape)
    requires a != 0.0 && b != 0.0
    ensures s.a == AuthalicRadius(a, EllipsoidalShape(a, b, sphere).es)
    ensures s.b == b && s.sphere == sphere && s.es == 0.0
    ensures s.aTwo == Times(s.a, s.a) && s.b2 == Times(b, b) && s.b2 > 0.0
    ensures s.ep2 * s.b2 == s.aTwo - s.b2
  {
    var e := EllipsoidalShape(a, b, sphere);
    var a2 := AuthalicRadius(a, e.es);
    Shape(a2, b, sphere, Times(a2, a2), e.b2, 0.0, Quotient(Times(a2, a2) - e.b2, e.b2))
  }

  /** The shape computation of `deriveConstants`: b from rf, then the
      shape of a and that b. */
  function EllipsoidShape(a: real, b: Option<real>, rf: Option<real>, rA: bool): (s: Shape)
    requires ShapeDefined(a, b, rf)
    ensures s.sphere <==> Abs(a - SemiMinor(a, b, rf)) < Epsln
    ensures s.sphere ==> s.b == a
    ensures b.Some? && !s.sphere ==> s.b == b.value
    ensures rf.Some? && b.None? && !s.sphere ==> (a - s.b) / a == 1.0 / rf.value
  {
    ShapeOf(a, SemiMinor(a, b, rf), rA)
  }

  lemma DivCancel(q: real, a: real)
    requires a != 0.0
    ensures (q * a) / a == q
  {
  }

  lemma FlatteningOf(a: real, rf: real)
    requires a != 0.0 && rf != 0.0
    ensures (a - SemiMinor(a, None, Some(rf))) / a == 1.0 / rf
  {
    var f := 1.0 / rf;
    assert a - (1.0 - f) * a == f * a;
    DivCancel(f, a);
  }

  /** The semi-minor axis derived from the inverse flattening gives that
      flattening back: (a - b) / a == 1 / rf. */
  lemma FlatteningFromRf(a: real, rf: real, rA: bool)
    requires ShapeDefined(a, None, Some(rf))
    requires Abs(a - SemiMinor(a, None, Some(rf))) >= Epsln
    ensures var s := EllipsoidShape(a, None, Some(rf), rA); (a - s.b) / a == 1.0 / rf
  {
    FlatteningOf(a, rf);
  }

  /** A sphere has equal axes and, without `R_A`, no eccentricity at all. */
  lemma SphereHasNoEccentricity(a: real, b: Option<real>, rf: Option<real>, rA: bool)
    requires ShapeDefined(a, b, rf)
    requires Abs(a - SemiMinor(a, b, rf)) < Epsln
    ensures var s := EllipsoidShape(a, b, rf, rA); s.b == a && s.es == 0.0
    ensures var s := EllipsoidShape(a, b, rf, rA); !rA ==> s.ep2 == 0.0
  {
    var s := EllipsoidShape(a, b, rf, rA);
    if !rA {
      assert s.aTwo == s.b2;
      ProductZero(s.es, s.aTwo);
      ProductZero(s.ep2, s.b2);
    }
  }

  /** From es a^2 = a^2 - b^2 and ep2 b^2 = a^2 - b^2: ep2 (1 - es) = es. */
  lemma SecondEccentricity(es: real, ep2: real, x: real, y: real)
    requires x > 0.0 && y > 0.0
    requires es * x == x - y && ep2 * y == x - y
    ensures ep2 * (1.0 - es) == es
  {
    assert (1.0 - es) * x == y;
    assert ep2 * (1.0 - es) * x == ep2 * y;
    assert (ep2 * (1.0 - es) - es) * x == 0.0;
    ProductZero(ep2 * (1.0 - es) - es, x);
  }

  /** For an ellipsoid whose semi-minor axis is no longer than its
      semi-major axis, the first eccentricity squared lies in [0, 1); the
      second one is es / (1 - es). */
  lemma EccentricityRange(a: real, b: Option<real>, rf: Option<real>)
    requires ShapeDefined(a, b, rf)
    ensures var s := EllipsoidShape(a, b, rf, false);
      s.es < 1.0
      && (s.b2 <= s.aTwo ==> 0.0 <= s.es)
      && s.ep2 * (1.0 - s.es) == s.es
  {
    var s := EllipsoidShape(a, b, rf, false);
    FirstEccentricityRange(s.es, s.aTwo, s.b2);
    SecondEccentricity(s.es, s.ep2, s.aTwo, s.b2);
  }

  /** With x > 0, u x has the sign of u. */
  lemma PositiveFactor(x: real, u: real)
    requires x > 0.0
    ensures u * x > 0.0 ==> u > 0.0
    ensures u * x >= 0.0 ==> u >= 0.0
  {
  }

  /** From es x = x - y with x, y > 0: es < 1, and es >= 0 when y <= x. */
  lemma FirstEccentricityRange(es: real, x: real, y: real)
    requires x > 0.0 && y > 0.0 && es * x == x - y
    ensures es < 1.0 && (y <= x ==> 0.0 <= es)
  {
    assert (es - 1.0) * x < 0.0;
    PositiveFactor(x, 1.0 - es);
    if y <= x {
      PositiveFactor(x, es);
    }
  }

  /** The definition can be completed: after the datum and ellipsoid
      steps there is a semi-major axis and the shape is defined. */
  predicate Derivable(p: Props, reg: Registry) {
    var e := EllipseStage(DatumStage(p, reg), reg);
    e.a.Some? && ShapeDefined(e.a.value, e.b, e.rf)
  }

  /** The derived shape written into the properties; `sphere` is only
      ever switched on. */
  function ShapeStage(e: Props, s: Shape): (f: Props)
    ensures f.a == Some(s.a) && f.b == Some(s.b) && f.sphere == (s.sphere || e.sphere)
    ensures f.aTwo == s.aTwo && f.b2 == s.b2 && f.es == s.es && f.ep2 == s.ep2
    ensures f.srsCode == e.srsCode && f.projName == e.projName && f.xZero == e.xZero && f.yZero == e.yZero
    ensures f.kZero == e.kZero && f.axis == e.axis && f.rA == e.rA
    ensures f.datumCode == e.datumCode && f.datumParams == e.datumParams
  {
    e.(a := Some(s.a), b := Some(s.b), sphere := if s.sphere then true else e.sphere,
       aTwo := s.aTwo, b2 := s.b2, es := s.es, ep2 := s.ep2)
  }

  /** The scale factor defaults to 1 and the axis order to east, north,
      up. */
  function DefaultsStage(f: Props): (g: Props)
    ensures g.kZero == (if f.kZero.Some? then f.kZero else Some(1.0))
    ensures g.axis == (if f.axis.Some? then f.axis else Some("enu"))
    ensures g == f.(kZero := g.kZero, axis := g.axis)
  {
    f.(kZero := if f.kZero.Some? then f.kZero else Some(1.0),
       axis := if f.axis.Some? then f.axis else Some("enu"))
  }

  /** The datum object built from the finished properties, as the datum
      constructor does. */
  function DatumObject(g: Props): (d: Datum)
    requires g.a.Some? && g.b.Some?
    ensures d.datumType == DatumTypeFor(g.datumCode, FloatVals(g.datumParams))
    ensures d.datumParams == StoredParams(FloatVals(g.datumParams))
    ensures d.a == g.a.value && d.b == g.b.value && d.es == g.es && d.ep2 == g.ep2
  {
    Datum(DatumTypeFor(g.datumCode, FloatVals(g.datumParams)),
          StoredParams(FloatVals(g.datumParams)), g.a.value, g.b.value, g.es, g.ep2)
  }

  /** `deriveConstants` as a function of the properties. */
  function DeriveConstants(p: Props, reg: Registry): (q: Props)
    requires Derivable(p, reg)
    ensures q.kZero == (if p.kZero.Some? then p.kZero else Some(1.0))
    ensures q.axis == (if p.axis.Some? then p.axis else Some("enu"))
    ensures q.a.Some? && q.b.Some? && q.b.value != 0.0
    ensures !p.rA ==> (q.sphere <==> p.sphere || q.a == q.b)
    ensures q.datum.Some? && q.datum.value.a == q.a.value && q.datum.value.b == q.b.value
    ensures q.datum.value.es == q.es && q.datum.value.ep2 == q.ep2
    ensures q.datum.value.datumType == DatumTypeFor(q.datumCode, FloatVals(q.datumParams))
    ensures q.datum.value.datumParams == StoredParams(FloatVals(q.datumParams))
    ensures p.rA ==> q.es == 0.0
    ensures q.srsCode == p.srsCode && q.projName == p.projName && q.xZero == p.xZero && q.yZero == p.yZero
  {
    var e := EllipseStage(DatumStage(p, reg), reg);
    var s := EllipsoidShape(e.a.value, e.b, e.rf, e.rA);
    var g := DefaultsStage(ShapeStage(e, s));
    g.(datum := Some(DatumObject(g)))
  }

  /** `@null` grids without shift parameters give a datum that moves
      nothing. */
  lemma NullGridsMeanNoDatum(p: Props, reg: Registry)
    requires Derivable(p, reg)
    requires p.nagrids == Some("@null") && p.datumParams.None?
    ensures DeriveConstants(p, reg).datum.value.datumType == NoDatum
  {
  }

  /** With nothing naming an ellipsoid, the WGS84 entry supplies it. */
  lemma Wgs84Fallback(p: Props, reg: Registry)
    requires Derivable(p, reg)
    requires p.a.None? && p.ellps.None? && p.datumCode.None? && p.nagrids.None? && !p.rA
    requires "WGS84" in reg.ellipsoids
    ensures DeriveConstants(p, reg).a == Some(reg.ellipsoids["WGS84"].a)
    ensures reg.ellipsoids["WGS84"].ellipseName.Some? ==>
      DeriveConstants(p, reg).ellipseName == reg.ellipsoids["WGS84"].ellipseName
  {
    var e := EllipseStage(DatumStage(p, reg), reg);
    assert e == Extend(p, reg.ellipsoids["WGS84"]);
  }

  /** A datum from the registry fixes the ellipsoid it names, unless a
      semi-major axis was already given. */
  lemma RegisteredDatumEllipse(p: Props, reg: Registry, code: string)
    requires Derivable(p, reg)
    requires p.datumCode == Some(code) && code != "none" && p.nagrids != Some("@null")
    requires code in reg.datums && p.a.None?
    requires reg.datums[code].ellipse == Some("GRS80") && "GRS80" in reg.ellipsoids
    ensures DeriveConstants(p, reg).ellps == Some("GRS80")
    ensures !p.rA ==> DeriveConstants(p, reg).a == Some(reg.ellipsoids["GRS80"].a)
  {
    var d := DatumStage(p, reg);
    assert d.ellps == Some("GRS80");
    assert EllipseKey(d.ellps, reg) == "GRS80";
  }
}
