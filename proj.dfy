/** The coordinate-system object of Proj.php: its constructor, which either
    reads a WKT string or identifies an SRS code, and the three steps that
    fill in its properties (`parseDefs`, `parseWKT`, `deriveConstants`).
    The properties are one record field of the object; each step replaces
    it, and is proved against the function of the same step. */
module ProjObject {
  import opened Wrappers
  import opened Common
  import opened PhpStrings
  import opened Datum
  import opened ProjProps
  import opened SrsCode
  import opened ProjDefs
  import opened Wkt
  import opened Derive

  /** The properties after the non-WKT branch of the constructor. */
  function IdentifiedProps(srsCode: string): (p: Props)
    ensures p.srsCodeInput == srsCode
    ensures p.srsCode == Some(Identify(srsCode).srsCode)
    ensures p.srsAuth == Some(Identify(srsCode).srsAuth)
    ensures p.srsProjNumber == Some(Identify(srsCode).srsProjNumber)
  {
    var id := Identify(srsCode);
    InitialProps(srsCode).(srsCode := Some(id.srsCode), srsAuth := Some(id.srsAuth),
                           srsProjNumber := Some(id.srsProjNumber))
  }

  /** The definition string registered for the object's code (a null code
      reads as the key ""). */
  function DefData(p: Props, reg: Registry): Option<string> {
    var key := p.srsCode.GetOr("");
    if key in reg.defs then Some(reg.defs[key]) else None
  }

  /** The properties after the loop of `parseDefs`, before the constants
      are derived; nothing but `defData` changes when there is no truthy
      definition string. */
  function ParsedDefs(p: Props, reg: Registry): (q: Props)
    ensures q.defData == DefData(p, reg)
    ensures !Truthy(DefData(p, reg)) ==> q == p.(defData := DefData(p, reg))
  {
    var p1 := p.(defData := DefData(p, reg));
    if !Truthy(p1.defData) then p1
    else
      ApplyDefs(DefState(p1, None), Explode(p1.defData.value, '+'), reg).props
  }

  /** `parseDefs` can complete: when there is a definition to read, the
      properties it yields can be derived. */
  predicate DefsDerivable(p: Props, reg: Registry) {
    Truthy(DefData(p, reg)) ==> Derivable(ParsedDefs(p, reg), reg)
  }

  /** `parseDefs` as a function of the properties. */
  function ParseDefsResult(p: Props, reg: Registry): Props
    requires DefsDerivable(p, reg)
  {
    if Truthy(DefData(p, reg)) then DeriveConstants(ParsedDefs(p, reg), reg) else ParsedDefs(p, reg)
  }

  /** A parsed definition always ends with a scale factor, an axis string
      and a datum, and keeps a legal axis legal. */
  lemma ParseDefsCompletes(p: Props, reg: Registry)
    requires DefsDerivable(p, reg) && Truthy(DefData(p, reg)) && AxisOk(p)
    ensures var q := ParseDefsResult(p, reg);
      q.kZero.Some? && q.datum.Some? && q.axis.Some? && IsLegalAxis(q.axis.value)
  {
    var p1 := p.(defData := DefData(p, reg));
    assert AxisOk(p1);
    var r := ParsedDefs(p, reg);
    assert AxisOk(r);
    assert IsLegalAxis("enu");
  }

  /** A code without a registered, truthy definition only records the
      (missing) definition string. */
  lemma ParseDefsWithoutDefinition(p: Props, reg: Registry)
    requires !Truthy(DefData(p, reg))
    ensures DefsDerivable(p, reg) && ParseDefsResult(p, reg) == p.(defData := DefData(p, reg))
  {
  }

  /** The matching half of `parseWKT`: split off the node's keyword and
      name and group its children, as `ParseNode` describes. */
  method ReadNode(wkt: string) returns (node: Option<WktNode>)
    ensures node == ParseNode(wkt)
    ensures node.Some? ==> forall k :: 0 <= k < |node.value.children| ==> |node.value.children[k]| < |wkt|
  {
    var m := WktMatch(wkt);
    if m.None? {
      return None;
    }
    var (wktObject, wktContent) := m.value;
    var wktTemp := Explode(wktContent, ',');
    var wktName := if ToUpper(wktObject) == "TOWGS84" then "TOWGS84" else wktTemp[0];
    if ToUpper(wktObject) != "TOWGS84" {
      wktTemp := wktTemp[1..];
    }
    wktName := StripQuotes(wktName);
    var wktArray := GroupChildren(wktTemp);
    node := Some(WktNode(wktObject, wktName, wktArray));
  }

  /** One node of `parseWKT`: the node's own effect, then its remaining
      children in turn. */
  lemma ApplyWktNode(p: Props, wkt: string, node: WktNode, reg: Registry)
    requires ParseNode(wkt) == Some(node)
    ensures forall k :: 0 <= k < |ApplyNode(p, node, reg).1| ==> |ApplyNode(p, node, reg).1[k]| < |wkt|
    ensures ApplyWkt(p, wkt, reg) == ApplyWktAll(ApplyNode(p, node, reg).0, ApplyNode(p, node, reg).1, |wkt|, reg)
  {
  }

  /** Reading one more child. */
  lemma ApplyWktAllStep(p: Props, cs: seq<string>, i: nat, bound: nat, reg: Registry)
    requires i < |cs|
    requires forall k :: 0 <= k < |cs| ==> |cs[k]| < bound
    ensures ApplyWktAll(p, cs[..i + 1], bound, reg) == ApplyWkt(ApplyWktAll(p, cs[..i], bound, reg), cs[i], reg)
  {
    assert cs[..i + 1][..i] == cs[..i];
  }

  class Proj {
    var props: Props

    /** The constructor: a WKT string is parsed and its constants derived;
        any other code is resolved and split into authority and number. */
    constructor(srsCode: string, reg: Registry)
      requires IsWktCode(srsCode) ==> Derivable(ApplyWkt(InitialProps(srsCode), srsCode, reg), reg)
      ensures IsWktCode(srsCode) ==> props == Derive.DeriveConstants(ApplyWkt(InitialProps(srsCode), srsCode, reg), reg)
      ensures !IsWktCode(srsCode) ==> props == IdentifiedProps(srsCode)
    {
      props := InitialProps(srsCode);
      new;
      if IsWktCode(srsCode) {
        ParseWkt(srsCode, reg);
        DeriveConstants(reg);
        return;
      }
      var code := ResolveAlias(srsCode);
      var upper := ToUpper(code);
      props := props.(srsCode := Some(upper));
      if StartsWith(upper, "EPSG") {
        props := props.(srsAuth := Some("epsg"), srsProjNumber := Some(Substr(upper, 5)));
      } else if StartsWith(upper, "IGNF") {
        props := props.(srsAuth := Some("IGNF"), srsProjNumber := Some(Substr(upper, 5)));
      } else if StartsWith(upper, "CRS") {
        props := props.(srsAuth := Some("CRS"), srsProjNumber := Some(Substr(upper, 4)));
      } else {
        props := props.(srsAuth := Some(""), srsProjNumber := Some(upper));
      }
    }

    /** `parseDefs`: read the registered definition string piece by piece,
        then derive the constants. */
    method ParseDefs(reg: Registry)
      modifies this
      requires DefsDerivable(props, reg)
      ensures props == ParseDefsResult(old(props), reg)
    {
      var defData := DefData(props, reg);
      props := props.(defData := defData);
      if !Truthy(defData) {
        return;
      }
      ReadPieces(Explode(defData.value, '+'), reg);
      DeriveConstants(reg);
    }

    /** The loop of `parseDefs`: each piece sets one parameter, and the
        last value is carried across pieces without '='. */
    method ReadPieces(paramArray: seq<string>, reg: Registry)
      modifies this
      ensures props == ApplyDefs(DefState(old(props), None), paramArray, reg).props
    {
      var paramVal: Option<string> := None;
      ghost var start := props;
      for prop := 0 to |paramArray|
        invariant DefState(props, paramVal) == ApplyDefs(DefState(start, None), paramArray[..prop], reg)
      {
        assert paramArray[..prop + 1][..prop] == paramArray[..prop];
        ghost var before := DefState(props, paramVal);
        var piece := paramArray[prop];
        if |piece| == 0 {
          continue;
        }
        var property := Explode(piece, '=');
        var paramName := ToLower(property[0]);
        if |property| >= 2 {
          paramVal := Some(property[1]);
        }
        var st := SetParam(props, KeyOf(Trim(paramName)), paramVal, reg);
        assert st == ApplyDef(before, piece, reg);
        props, paramVal := st.props, st.paramVal;
      }
      assert paramArray[..|paramArray|] == paramArray;
    }

    /** `parseWKT`: match the node, split off its name, group its
        children, apply the node and read the children it left. */
    method ParseWkt(wkt: string, reg: Registry)
      modifies this
      ensures props == ApplyWkt(old(props), wkt, reg)
      decreases |wkt|, 1
    {
      var parsed := ReadNode(wkt);
      if parsed.None? {
        return;
      }
      var node := parsed.value;
      ApplyWktNode(props, wkt, node, reg);
      var r := ApplyNode(props, node, reg);
      props := r.0;
      ParseChildren(r.1, |wkt|, reg);
    }

    /** The loop of `parseWKT` over the child nodes, each read in turn. */
    method ParseChildren(rest: seq<string>, bound: nat, reg: Registry)
      modifies this
      requires forall k :: 0 <= k < |rest| ==> |rest[k]| < bound
      ensures props == ApplyWktAll(old(props), rest, bound, reg)
      decreases bound, 0
    {
      ghost var mid := props;
      assert rest[..0] == [];
      for i := 0 to |rest|
        invariant props == ApplyWktAll(mid, rest[..i], bound, reg)
      {
        ApplyWktAllStep(mid, rest, i, bound, reg);
        ParseWkt(rest[i], reg);
      }
      assert rest[..|rest|] == rest;
    }

    /** `deriveConstants`: datum and ellipsoid from the registries, the
        shape of the ellipsoid, the defaults, and the datum object. */
    method DeriveConstants(reg: Registry)
      modifies this
      requires Derivable(props, reg)
      ensures props == Derive.DeriveConstants(old(props), reg)
    {
      props := EllipseStage(DatumStage(props, reg), reg);
      var a := props.a.value;
      var s := EllipsoidShape(a, props.b, props.rf, props.rA);
      props := DefaultsStage(ShapeStage(props, s));
      var d := NewDatum(props.datumCode, props.datumParams, props.a.value, props.b.value, props.es, props.ep2);
      props := props.(datum := Some(d));
    }
  }
}
