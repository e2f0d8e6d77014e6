/** How `parseDefs` (Proj.php) reads a PROJ.4 definition such as
    `+proj=utm +zone=32 +south`: the string is split on '+', empty pieces
    are skipped, each piece is split on '=', the name is the lower-cased,
    trimmed text before the first '=', and the value is the second field;
    a piece without '=' reuses the value of the piece before it.  The name
    then selects the property to set. */
module ProjDefs {
  import opened Wrappers
  import opened Common
  import opened PhpStrings
  import opened ProjProps

  /** The letters an axis string may use: east, west, north, south, up,
      down. */
  const AxisLetters: string := "ewnsud"

  /** An axis value is accepted when it has exactly three letters, each a
      legal direction letter. */
  predicate IsLegalAxis(v: string): (ok: bool)
    ensures ok <==> |v| == 3 && forall i :: 0 <= i < |v| ==> v[i] in AxisLetters
  {
    |v| == 3 && v[0] in AxisLetters && v[1] in AxisLetters && v[2] in AxisLetters
  }

  /** The axis property is unset or a legal axis string. */
  predicate AxisOk(p: Props) {
    p.axis.None? || IsLegalAxis(p.axis.value)
  }

  /** The properties while the pieces are read, with the value carried
      from piece to piece (null before the first '='). */
  datatype DefState = DefState(props: Props, paramVal: Option<string>)

  /** The parameter name of a piece: it has no capitals, and a piece
      without '=' is all name. */
  function ParamName(piece: string): (r: string)
    ensures forall i :: 0 <= i < |r| ==> !('A' <= r[i] <= 'Z')
    ensures '=' !in piece ==> r == Trim(ToLower(piece))
  {
    TrimLowerNoCapitals(Explode(piece, '='));
    Trim(ToLower(Explode(piece, '=')[0]))
  }

  /** Trimming a lower-cased string leaves no capitals. */
  lemma TrimLowerNoCapitals(fields: seq<string>)
    requires |fields| > 0
    ensures var name := Trim(ToLower(fields[0]));
      forall i :: 0 <= i < |name| ==> !('A' <= name[i] <= 'Z')
  {
    var lower := ToLower(fields[0]);
    var name := Trim(lower);
    forall i | 0 <= i < |name|
      ensures !('A' <= name[i] <= 'Z')
    {
      assert name[i] in lower;
    }
  }

  /** The value of a piece: its second '=' field, or the carried value. */
  function PieceValue(piece: string, carried: Option<string>): Option<string> {
    var fields := Explode(piece, '=');
    if |fields| >= 2 then Some(fields[1]) else carried
  }

  /** The parameters `parseDefs` knows, by the case that handles them. */
  datatype ParamKey =
    | Title | ProjName | Units | DatumCode | Nadgrids | Ellps | SemiMajor | SemiMinor
    | InverseFlattening | LatZero | LatOne | LatTwo | LatTs | LonZero | Alpha | Lonc
    | XZero | YZero | ScaleFactor | AuthalicRadius | Zone | South | ToWgs84 | ToMeter
    | FromGreenwich | PrimeMeridian | Axis | NoDefs | Other

  /** The case of the switch of `parseDefs` that a trimmed name selects. */
  function KeyOf(name: string): (k: ParamKey)
    ensures k == LatTs <==> name == "latTs"
    ensures k == Axis <==> name == "axis"
    ensures k == PrimeMeridian <==> name == "pm"
    ensures k == LatZero <==> name == "lat_0"
    ensures k == LatOne <==> name == "lat_1"
    ensures k == LatTwo <==> name == "lat_2"
    ensures k == LonZero <==> name == "lon_0"
    ensures k == Zone <==> name == "zone"
    ensures k == South <==> name == "south"
    ensures k == ToWgs84 <==> name == "towgs84"
  {
    if name == "title" then Title
    else if name == "proj" then ProjName
    else if name == "units" then Units
    else if name == "datum" then DatumCode
    else if name == "nadgrids" then Nadgrids
    else if name == "ellps" then Ellps
    else if name == "a" then SemiMajor
    else if name == "b" then SemiMinor
    else if name == "rf" then InverseFlattening
    else if name == "lat_0" then LatZero
    else if name == "lat_1" then LatOne
    else if name == "lat_2" then LatTwo
    else if name == "latTs" then LatTs
    else if name == "lon_0" then LonZero
    else if name == "alpha" then Alpha
    else if name == "lonc" then Lonc
    else if name == "x_0" then XZero
    else if name == "y_0" then YZero
    else if name == "k_0" || name == "k" then ScaleFactor
    else if name == "r_a" then AuthalicRadius
    else if name == "zone" then Zone
    else if name == "south" then South
    else if name == "towgs84" then ToWgs84
    else if name == "to_meter" then ToMeter
    else if name == "from_greenwich" then FromGreenwich
    else if name == "pm" then PrimeMeridian
    else if name == "axis" then Axis
    else if name == "no_defs" then NoDefs
    else Other
  }

  /** The effect of one parameter with value `val` (the body of the
      switch of `parseDefs`): the properties it sets, and the value carried
      on to the next piece. */
  function SetParam(p: Props, key: ParamKey, val: Option<string>, reg: Registry): (r: DefState)
    ensures key != Axis ==> r.props.axis == p.axis
    ensures AxisOk(p) ==> AxisOk(r.props)
    ensures r.props.defData == p.defData
    ensures key != PrimeMeridian && key != Axis ==> r.paramVal == val
    ensures key == PrimeMeridian || key == Axis ==> r.paramVal == Some(Trim(val.GetOr("")))
  {
    SetPropsKeepsDefData(p, key, val, reg);
    DefState(SetProps(p, key, val, reg), CarriedAfter(key, val))
  }

  /** `pm` and `axis` replace the carried value by its trimmed form; every
      other parameter carries its own value on. */
  function CarriedAfter(key: ParamKey, val: Option<string>): Option<string> {
    if key == PrimeMeridian || key == Axis then Some(Trim(val.GetOr(""))) else val
  }

  /** The property a parameter sets from its value.  A null value
      reads as "" as a string and as 0 as a number. */
  function SetProps(p: Props, key: ParamKey, val: Option<string>, reg: Registry): (q: Props)
    ensures key != Axis ==> q.axis == p.axis
    ensures AxisOk(p) ==> AxisOk(q)
    ensures key != LatTs ==> q.latTs == p.latTs
  {
    var s := val.GetOr("");
    match key
    case Title => p.(title := val)
    case ProjName => p.(projName := Some(Trim(s)))
    case Units => p.(units := Some(Trim(s)))
    case DatumCode => p.(datumCode := Some(Trim(s)))
    case Nadgrids => p.(nagrids := Some(Trim(s)))
    case Ellps => p.(ellps := Some(Trim(s)))
    case SemiMajor => p.(a := Some(FloatVal(s)))
    case SemiMinor => p.(b := Some(FloatVal(s)))
    case InverseFlattening => p.(rf := Some(FloatVal(s)))
    case LatZero => p.(latZero := Some(FloatVal(s) * DToR))
    case LatOne => p.(latOne := Some(FloatVal(s) * DToR))
    case LatTwo => p.(latTwo := Some(FloatVal(s) * DToR))
    case LatTs => p.(latTs := Some(FloatVal(s) * DToR))
    case LonZero => p.(longZero := Some(FloatVal(s) * DToR))
    case Alpha => p.(alpha := Some(FloatVal(s) * DToR))
    case Lonc => p.(longc := Some(FloatVal(s) * DToR))
    case XZero => p.(xZero := FloatVal(s))
    case YZero => p.(yZero := FloatVal(s))
    case ScaleFactor => p.(kZero := Some(FloatVal(s)))
    case AuthalicRadius => p.(rA := true)
    case Zone => p.(zone := Some(IntVal(s)))
    case South => p.(utmSouth := true)
    case ToWgs84 => p.(datumParams := Some(Explode(s, ',')))
    case ToMeter => p.(toMeter := Some(FloatVal(s)))
    case FromGreenwich => p.(fromGreenwich := Some(FloatVal(s) * DToR))
    case PrimeMeridian =>
      var v := Trim(s);
      var known := v in reg.primeMeridians && Truthy(Some(reg.primeMeridians[v]));
      var degrees := if known then FloatVal(reg.primeMeridians[v]) else FloatVal(v);
      p.(fromGreenwich := Some(degrees * DToR))
    case Axis => SetAxis(p, Trim(s))
    case NoDefs => p
    case Other => p
  }

  /** The `axis` case: a legal value is stored, any other is ignored. */
  function SetAxis(p: Props, v: string): (q: Props)
    ensures q == p.(axis := q.axis)
    ensures IsLegalAxis(v) ==> q.axis == Some(v)
    ensures !IsLegalAxis(v) ==> q == p
    ensures AxisOk(p) ==> AxisOk(q)
  {
    if IsLegalAxis(v) then p.(axis := Some(v)) else p
  }

  /** One iteration of the loop of `parseDefs`. */
  function ApplyDef(st: DefState, piece: string, reg: Registry): (r: DefState)
    ensures |piece| == 0 ==> r == st
    ensures r.props.defData == st.props.defData
    ensures AxisOk(st.props) ==> AxisOk(r.props)
  {
    if |piece| == 0 then st
    else SetParam(st.props, KeyOf(ParamName(piece)), PieceValue(piece, st.paramVal), reg)
  }

  /** The loop of `parseDefs` over the pieces, in order. */
  function ApplyDefs(st: DefState, pieces: seq<string>, reg: Registry): (r: DefState)
    ensures pieces == [] ==> r == st
    ensures r.props.defData == st.props.defData
    ensures AxisOk(st.props) ==> AxisOk(r.props)
    decreases |pieces|
  {
    if pieces == [] then st
    else ApplyDef(ApplyDefs(st, pieces[..|pieces| - 1], reg), pieces[|pieces| - 1], reg)
  }

  // ------------------------------------------------------------ lemmas

  /** A name without capitals is not `latTs`. */
  lemma NoCapitalsNotLatTs(name: string)
    requires forall i :: 0 <= i < |name| ==> !('A' <= name[i] <= 'Z')
    ensures name != "latTs"
  {
    assert "latTs"[3] == 'T';
  }


  /** Parameter names come out lower-case, so the `latTs` case, spelled
      with a capital, is never selected and `latTs` is never set. */
  lemma LatTsNeverSet(st: DefState, piece: string, reg: Registry)
    ensures ParamName(piece) != "latTs"
    ensures ApplyDef(st, piece, reg).props.latTs == st.props.latTs
  {
    NoCapitalsNotLatTs(ParamName(piece));
  }

  /** A piece `key=value` (neither part holding '=') has the name `key`,
      lower-cased and trimmed, and the value `value`. */
  lemma PieceSplit(key: string, value: string, carried: Option<string>)
    requires '=' !in key && '=' !in value
    ensures ParamName(key + "=" + value) == Trim(ToLower(key))
    ensures PieceValue(key + "=" + value, carried) == Some(value)
  {
    ExplodeCons(key, '=', value);
    assert Explode(value, '=') == [value];
    assert key + "=" + value == key + ['='] + value;
  }

  /** A piece without '=' is all name and keeps the carried value. */
  lemma PieceWithoutValue(piece: string, carried: Option<string>)
    requires '=' !in piece
    ensures ParamName(piece) == Trim(ToLower(piece))
    ensures PieceValue(piece, carried) == carried
  {
  }

  /** Reading a well-formed piece `key=value` for a name already in
      normal form is the effect of that parameter with that value. */
  lemma ApplyDefPiece(st: DefState, key: string, value: string, reg: Registry)
    requires '=' !in key && '=' !in value
    requires Trim(ToLower(key)) == key
    ensures ApplyDef(st, key + "=" + value, reg) == SetParam(st.props, KeyOf(key), Some(value), reg)
  {
    PieceSplit(key, value, st.paramVal);
  }

  // The four angle parameters convert degrees to radians.

  lemma LatZeroSet(p: Props, v: string, reg: Registry)
    ensures SetProps(p, LatZero, Some(v), reg) == p.(latZero := Some(FloatVal(v) * DToR))
  {
  }

  lemma LatOneSet(p: Props, v: string, reg: Registry)
    ensures SetProps(p, LatOne, Some(v), reg) == p.(latOne := Some(FloatVal(v) * DToR))
  {
  }

  lemma LatTwoSet(p: Props, v: string, reg: Registry)
    ensures SetProps(p, LatTwo, Some(v), reg) == p.(latTwo := Some(FloatVal(v) * DToR))
  {
  }

  lemma LonZeroSet(p: Props, v: string, reg: Registry)
    ensures SetProps(p, LonZero, Some(v), reg) == p.(longZero := Some(FloatVal(v) * DToR))
  {
  }

  lemma ZoneSet(p: Props, v: string, reg: Registry)
    ensures SetProps(p, Zone, Some(v), reg) == p.(zone := Some(IntVal(v)))
  {
  }

  lemma ToWgs84Set(p: Props, v: string, reg: Registry)
    ensures SetProps(p, ToWgs84, Some(v), reg) == p.(datumParams := Some(Explode(v, ',')))
  {
  }

  lemma SouthSet(p: Props, val: Option<string>, reg: Registry)
    ensures SetProps(p, South, val, reg) == p.(utmSouth := true)
  {
  }

  /** `lat_0` (in any case, with blanks around the name) is read in
      degrees and stored in radians; nothing else changes. */
  lemma LatZeroParam(st: DefState, key: string, v: string, reg: Registry)
    requires '=' !in key && '=' !in v && Trim(ToLower(key)) == "lat_0"
    ensures ApplyDef(st, key + "=" + v, reg).props == st.props.(latZero := Some(FloatVal(v) * DToR))
  {
    PieceSplit(key, v, st.paramVal);
    assert KeyOf(Trim(ToLower(key))) == LatZero;
    assert ApplyDef(st, key + "=" + v, reg) == SetParam(st.props, LatZero, Some(v), reg);
    LatZeroSet(st.props, v, reg);
  }

  /** `lat_1` is read in degrees and stored in radians. */
  lemma LatOneParam(st: DefState, key: string, v: string, reg: Registry)
    requires '=' !in key && '=' !in v && Trim(ToLower(key)) == "lat_1"
    ensures ApplyDef(st, key + "=" + v, reg).props == st.props.(latOne := Some(FloatVal(v) * DToR))
  {
    PieceSplit(key, v, st.paramVal);
    assert KeyOf(Trim(ToLower(key))) == LatOne;
    assert ApplyDef(st, key + "=" + v, reg) == SetParam(st.props, LatOne, Some(v), reg);
    LatOneSet(st.props, v, reg);
  }

  /** `lat_2` is read in degrees and stored in radians. */
  lemma LatTwoParam(st: DefState, key: string, v: string, reg: Registry)
    requires '=' !in key && '=' !in v && Trim(ToLower(key)) == "lat_2"
    ensures ApplyDef(st, key + "=" + v, reg).props == st.props.(latTwo := Some(FloatVal(v) * DToR))
  {
    PieceSplit(key, v, st.paramVal);
    assert KeyOf(Trim(ToLower(key))) == LatTwo;
    assert ApplyDef(st, key + "=" + v, reg) == SetParam(st.props, LatTwo, Some(v), reg);
    LatTwoSet(st.props, v, reg);
  }

  /** `lon_0` is read in degrees and stored in radians. */
  lemma LonZeroParam(st: DefState, key: string, v: string, reg: Registry)
    requires '=' !in key && '=' !in v && Trim(ToLower(key)) == "lon_0"
    ensures ApplyDef(st, key + "=" + v, reg).props == st.props.(longZero := Some(FloatVal(v) * DToR))
  {
    PieceSplit(key, v, st.paramVal);
    assert KeyOf(Trim(ToLower(key))) == LonZero;
    assert ApplyDef(st, key + "=" + v, reg) == SetParam(st.props, LonZero, Some(v), reg);
    LonZeroSet(st.props, v, reg);
  }

  /** `zone` stores the integer value of its text (PHP's `intval`). */
  lemma ZoneParam(st: DefState, key: string, v: string, reg: Registry)
    requires '=' !in key && '=' !in v && Trim(ToLower(key)) == "zone"
    ensures ApplyDef(st, key + "=" + v, reg).props == st.props.(zone := Some(IntVal(v)))
  {
    PieceSplit(key, v, st.paramVal);
    assert KeyOf(Trim(ToLower(key))) == Zone;
    assert ApplyDef(st, key + "=" + v, reg) == SetParam(st.props, Zone, Some(v), reg);
    ZoneSet(st.props, v, reg);
  }

  /** `towgs84` stores its value split on ','. */
  lemma ToWgs84Param(st: DefState, key: string, v: string, reg: Registry)
    requires '=' !in key && '=' !in v && Trim(ToLower(key)) == "towgs84"
    ensures ApplyDef(st, key + "=" + v, reg).props == st.props.(datumParams := Some(Explode(v, ',')))
  {
    PieceSplit(key, v, st.paramVal);
    assert KeyOf(Trim(ToLower(key))) == ToWgs84;
    assert ApplyDef(st, key + "=" + v, reg) == SetParam(st.props, ToWgs84, Some(v), reg);
    ToWgs84Set(st.props, v, reg);
  }

  /** `south`, usually written without a value, selects the southern
      hemisphere whatever value it carries, and carries that value on. */
  lemma SouthParam(st: DefState, key: string, reg: Registry)
    requires '=' !in key && Trim(ToLower(key)) == "south"
    ensures ApplyDef(st, key, reg).props == st.props.(utmSouth := true)
    ensures ApplyDef(st, key, reg).paramVal == st.paramVal
  {
    PieceWithoutValue(key, st.paramVal);
    assert KeyOf(Trim(ToLower(key))) == South;
    assert ApplyDef(st, key, reg) == SetParam(st.props, South, st.paramVal, reg);
    SouthSet(st.props, st.paramVal, reg);
  }

  /** An axis value is stored exactly when, trimmed, it is legal; a stored
      axis is always legal. */
  lemma AxisStoredIffLegal(p: Props, value: Option<string>, reg: Registry)
    ensures var r := SetParam(p, Axis, value, reg);
      r.paramVal == Some(Trim(value.GetOr("")))
      && (IsLegalAxis(Trim(value.GetOr(""))) ==> r.props.axis == Some(Trim(value.GetOr(""))))
      && (!IsLegalAxis(Trim(value.GetOr(""))) ==> r.props == p)
  {
    var v := Trim(value.GetOr(""));
    assert SetProps(p, Axis, value, reg) == SetAxis(p, v);
    assert SetParam(p, Axis, value, reg) == DefState(SetAxis(p, v), Some(v));
  }

  lemma SetPropsKeepsDefData(p: Props, key: ParamKey, val: Option<string>, reg: Registry)
    ensures SetProps(p, key, val, reg).defData == p.defData
  {
    match key
    case Axis =>
      assert SetProps(p, key, val, reg) == SetAxis(p, Trim(val.GetOr("")));
    case _ =>
  }

  /** So, for every other piece, the value carried on is the piece's own
      value or, for a piece without '=', the value carried so far. */
  lemma CarriedValue(st: DefState, piece: string, reg: Registry)
    requires |piece| > 0 && ParamName(piece) != "pm" && ParamName(piece) != "axis"
    ensures ApplyDef(st, piece, reg).paramVal == PieceValue(piece, st.paramVal)
  {
  }

  // ------------------------------------------------------------ as written

  /** The axis check of the source, with the string whose length is
      measured as a parameter: the intended check measures the value itself
      (IsLegalAxis). */
  predicate AxisCheck(measured: string, v: string) {
    |measured| == 3 && |v| >= 3 && v[0] in AxisLetters && v[1] in AxisLetters && v[2] in AxisLetters
  }

  /** The axis check as the source writes it: the length is taken of the
      bare word `paramVal` (a PHP undefined constant, read as the string
      "paramVal", eight characters), so no value is ever accepted. */
  predicate IsLegalAxisAsWritten(v: string): (ok: bool)
    ensures !ok
  {
    AxisCheck("paramVal", v)
  }

  /** The intended check is the source's check measuring the value. */
  lemma AxisCheckIntended(v: string)
    ensures AxisCheck(v, v) <==> IsLegalAxis(v)
  {
  }

  /** The legal axis `enu` is rejected by the check as written, and so is
      every other value. */
  lemma AxisAsWrittenRejectsAll(v: string)
    ensures !IsLegalAxisAsWritten(v)
    ensures IsLegalAxis("enu") && !IsLegalAxisAsWritten("enu")
  {
  }
}
