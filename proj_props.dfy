/** The state a coordinate-system object (`Proj`, Proj.php) accumulates while
    its definition is read: the source keeps it as dynamic properties on the
    object, unset until some step assigns them, and the model keeps it as one
    record whose optional fields are None while the property is unset (or
    null).  The global registries the parsers consult (definition strings,
    datums, ellipsoids, WKT projection names, prime meridians) are handed in
    as one value. */
module ProjProps {
  import opened Wrappers
  import opened Datum

  /** An entry of the datum registry. */
  datatype DatumDef = DatumDef(towgs84: Option<string>, ellipse: Option<string>, datumName: Option<string>)

  /** An entry of the ellipsoid registry: the semi-major axis and, when
      listed, the semi-minor axis or the inverse flattening. */
  datatype Ellipse = Ellipse(a: real, b: Option<real>, rf: Option<real>, ellipseName: Option<string>)

  /** The global registries: PROJ.4 definition strings by SRS code, datums,
      ellipsoids, projection names by WKT name, and prime meridians (their
      longitudes in degrees, as strings). */
  datatype Registry = Registry(defs: map<string, string>,
                               datums: map<string, DatumDef>,
                               ellipsoids: map<string, Ellipse>,
                               wktProjections: map<string, string>,
                               primeMeridians: map<string, string>)

  /** The properties of a coordinate-system object. */
  datatype Props = Props(
    srsCodeInput: string,
    srsCode: Option<string>,
    srsAuth: Option<string>,
    srsProjNumber: Option<string>,
    defData: Option<string>,
    title: Option<string>,
    projName: Option<string>,
    units: Option<string>,
    unitsPerMeter: Option<real>,
    datumCode: Option<string>,
    datumName: Option<string>,
    nagrids: Option<string>,
    ellps: Option<string>,
    ellipseName: Option<string>,
    a: Option<real>,
    b: Option<real>,
    rf: Option<real>,
    latZero: Option<real>,
    latOne: Option<real>,
    latTwo: Option<real>,
    latTs: Option<real>,
    longZero: Option<real>,
    alpha: Option<real>,
    longc: Option<real>,
    xZero: real,
    yZero: real,
    kZero: Option<real>,
    rA: bool,
    zone: Option<int>,
    utmSouth: bool,
    datumParams: Option<seq<string>>,
    toMeter: Option<real>,
    fromGreenwich: Option<real>,
    axis: Option<string>,
    localCS: bool,
    geocsCode: Option<string>,
    sphere: bool,
    aTwo: real,
    b2: real,
    es: real,
    ep2: real,
    datum: Option<Datum>)

  /** A fresh object: only the input code is recorded, the declared
      defaults hold (null title, projection, units and datum; origin 0, 0;
      not a local system) and nothing else is set yet. */
  function InitialProps(srsCodeInput: string): (p: Props)
    ensures p.srsCodeInput == srsCodeInput && p.srsCode.None? && p.a.None? && p.datum.None?
  {
    Props(srsCodeInput, None, None, None, None, None, None, None, None, None, None, None,
          None, None, None, None, None, None, None, None, None, None, None, None,
          0.0, 0.0, None, false, None, false, None, None, None, None, false, None,
          false, 0.0, 0.0, 0.0, 0.0, None)
  }

  /** PHP truthiness of an optional string: set, and neither "" nor "0". */
  predicate Truthy(s: Option<string>) {
    s.Some? && s.value != "" && s.value != "0"
  }
}
