/** How the `Proj` constructor (Proj.php) reads the code it is given: a WKT
    string is recognised by its keywords; otherwise an OGC URN or an http URL
    is first reduced to `AUTHORITY:NUMBER`, the code is upper-cased, and the
    authority (EPSG, IGNF, the WMS pseudo-authority CRS, or none) is split
    off from the number. */
module SrsCode {
  import opened PhpStrings

  /** The code is Well-Known Text: it names one of the four coordinate
      system objects somewhere. */
  predicate IsWktCode(code: string) {
    Contains(code, "GEOGCS") || Contains(code, "GEOCCS") || Contains(code, "PROJCS") || Contains(code, "LOCAL_CS")
  }

  /** The pieces of `urn:ORIGINATOR:def:crs:CODESPACE:VERSION:ID` describe a
      CRS defined by OGC. */
  predicate IsCrsUrn(urn: seq<string>) {
    (At(urn, 1) == "ogc" || At(urn, 1) == "x-ogc") && At(urn, 2) == "def" && At(urn, 3) == "crs"
  }

  /** The code an alias stands for: a CRS URN becomes `CODESPACE:ID` (its
      last piece), an http URL with an EPSG or IGN register becomes
      `EPSG:fragment` or `IGNF:fragment`, and anything else is kept. */
  function ResolveAlias(code: string): (r: string)
    ensures !StartsWith(code, "urn:") && !StartsWith(code, "http://") ==> r == code
    ensures StartsWith(code, "urn:") && !IsCrsUrn(Explode(code, ':')) ==> r == code
    ensures StartsWith(code, "http://") ==>
              (!MatchesSomewhere(Explode(code, '#')[0], "epsg.org") && !MatchesSomewhere(Explode(code, '#')[0], "RIG.xml") ==> r == code)
  {
    if StartsWith(code, "urn:") then
      var urn := Explode(code, ':');
      if IsCrsUrn(urn) then At(urn, 4) + ":" + urn[|urn| - 1] else code
    else if StartsWith(code, "http://") then
      var url := Explode(code, '#');
      if MatchesSomewhere(url[0], "epsg.org") then "EPSG:" + At(url, 1)
      else if MatchesSomewhere(url[0], "RIG.xml") then "IGNF:" + At(url, 1)
      else code
    else code
  }

  /** The identification the constructor records for a code that is not
      WKT. */
  datatype SrsId = SrsId(srsCode: string, srsAuth: string, srsProjNumber: string)

  /** The constructor's reading of a non-WKT code: the upper-cased resolved
      code; authority `epsg`, `IGNF` or `CRS` exactly when the code starts
      with EPSG, IGNF or CRS, and otherwise none; the number is what follows
      the authority and its separator (the whole code when there is no
      authority), and empty for a bare `EPSG` or `IGNF`. */
  function Identify(code: string): (r: SrsId)
    ensures r.srsCode == ToUpper(ResolveAlias(code))
    ensures r.srsAuth == "epsg" <==> StartsWith(r.srsCode, "EPSG")
    ensures r.srsAuth == "IGNF" <==> StartsWith(r.srsCode, "IGNF")
    ensures r.srsAuth == "CRS" <==> StartsWith(r.srsCode, "CRS")
    ensures r.srsAuth in {"epsg", "IGNF", "CRS", ""}
    ensures r.srsAuth == "" ==> r.srsProjNumber == r.srsCode
    ensures (r.srsAuth == "epsg" || r.srsAuth == "IGNF") && |r.srsCode| >= 5 ==> r.srsCode == r.srsCode[..5] + r.srsProjNumber
    ensures (r.srsAuth == "epsg" || r.srsAuth == "IGNF") && |r.srsCode| <= 5 ==> r.srsProjNumber == ""
    ensures r.srsAuth == "CRS" ==> (|r.srsCode| == 3 && r.srsProjNumber == "")
                                   || (|r.srsCode| >= 4 && r.srsCode == r.srsCode[..4] + r.srsProjNumber)
  {
    var c := ToUpper(ResolveAlias(code));
    AuthoritiesExclusive(c);
    if StartsWith(c, "EPSG") then SrsId(c, "epsg", Substr(c, 5))
    else if StartsWith(c, "IGNF") then SrsId(c, "IGNF", Substr(c, 5))
    else if StartsWith(c, "CRS") then SrsId(c, "CRS", Substr(c, 4))
    else SrsId(c, "", c)
  }

  // ------------------------------------------------------------ lemmas

  /** A code starts with at most one of the authority names: their first
      letters differ. */
  lemma AuthoritiesExclusive(c: string)
    ensures StartsWith(c, "EPSG") ==> !StartsWith(c, "IGNF") && !StartsWith(c, "CRS")
    ensures StartsWith(c, "IGNF") ==> !StartsWith(c, "CRS")
  {
    if StartsWith(c, "EPSG") {
      assert c[0] == 'E';
    } else if StartsWith(c, "IGNF") {
      assert c[0] == 'I';
    }
  }

  lemma ToUpperAppend(s: string, t: string)
    ensures ToUpper(s + t) == ToUpper(s) + ToUpper(t)
  {
    var l, r := ToUpper(s + t), ToUpper(s) + ToUpper(t);
    assert |l| == |r|;
    forall i | 0 <= i < |l|
      ensures l[i] == r[i]
    {
      if i < |s| {
        assert (s + t)[i] == s[i];
      } else {
        assert (s + t)[i] == t[i - |s|];
      }
    }
  }

  /** A pattern that matches at some offset matches somewhere. */
  lemma {:induction false} MatchesSomewhereAt(s: string, pat: string, k: nat)
    requires k <= |s| && MatchesAt(s[k..], pat)
    ensures MatchesSomewhere(s, pat)
    decreases k
  {
    if k > 0 {
      assert s[1..][k - 1..] == s[k..];
      MatchesSomewhereAt(s[1..], pat, k - 1);
    } else {
      assert s[0..] == s;
    }
  }

  /** Upper-casing leaves a string without small letters alone. */
  lemma ToUpperIdle(s: string)
    requires forall i :: 0 <= i < |s| ==> !('a' <= s[i] <= 'z')
    ensures ToUpper(s) == s
  {
  }

  /** A string whose first character differs from a pattern's does not
      start with it. */
  lemma FirstCharRules(s: string, p: string)
    requires |s| > 0 && |p| > 0 && s[0] != p[0]
    ensures !StartsWith(s, p)
  {
    if |p| <= |s| {
      assert s[..|p|][0] != p[0];
    }
  }

  /** The code `EPSG:n` has authority epsg and, as its number, n
      upper-cased. */
  lemma IdentifyEpsg(n: string)
    ensures Identify("EPSG:" + n) == SrsId("EPSG:" + ToUpper(n), "epsg", ToUpper(n))
  {
    var code := "EPSG:" + n;
    FirstCharRules(code, "urn:");
    FirstCharRules(code, "http://");
    IdentifyResolvedEpsg(code, n);
  }

  /** Any code whose alias resolves to `EPSG:n` is identified as that
      EPSG code. */
  lemma IdentifyResolvedEpsg(code: string, n: string)
    requires ResolveAlias(code) == "EPSG:" + n
    ensures Identify(code) == SrsId("EPSG:" + ToUpper(n), "epsg", ToUpper(n))
  {
    ToUpperAppend("EPSG:", n);
    ToUpperIdle("EPSG:");
    var c := "EPSG:" + ToUpper(n);
    assert c[..4] == "EPSG";
    assert c[5..] == ToUpper(n);
  }

  lemma UrnShape(space: string, version: string, id: string)
    ensures "urn:ogc:def:crs:" + space + ":" + version + ":" + id
      == "urn" + [':'] + ("ogc" + [':'] + ("def" + [':'] + ("crs" + [':'] + (space + [':'] + (version + [':'] + id)))))
  {
    assert "urn:ogc:def:crs:" == "urn" + [':'] + "ogc" + [':'] + "def" + [':'] + "crs" + [':'];
  }

  /** The pieces of an OGC CRS URN `urn:ogc:def:crs:SPACE:VERSION:ID`
      whose last three parts have no colon. */
  lemma ExplodeCrsUrn(space: string, version: string, id: string)
    requires ':' !in space && ':' !in version && ':' !in id
    ensures Explode("urn:ogc:def:crs:" + space + ":" + version + ":" + id, ':')
      == ["urn", "ogc", "def", "crs", space, version, id]
    ensures StartsWith("urn:ogc:def:crs:" + space + ":" + version + ":" + id, "urn:")
  {
    assert ("urn:ogc:def:crs:" + space + ":" + version + ":" + id)[..4] == "urn:";
    var parts := ["urn", "ogc", "def", "crs", space, version, id];
    var t4 := space + [':'] + (version + [':'] + id);
    assert Join(parts[6..], ':') == id;
    assert Join(parts[5..], ':') == version + [':'] + id;
    assert Join(parts[4..], ':') == t4;
    assert Join(parts[3..], ':') == "crs" + [':'] + t4;
    assert Join(parts[2..], ':') == "def" + [':'] + ("crs" + [':'] + t4);
    assert Join(parts[1..], ':') == "ogc" + [':'] + ("def" + [':'] + ("crs" + [':'] + t4));
    assert Join(parts, ':') == "urn" + [':'] + ("ogc" + [':'] + ("def" + [':'] + ("crs" + [':'] + t4)));
    UrnShape(space, version, id);
    ExplodeJoin(parts, ':');
  }

  lemma CrsUrnPieces(space: string, version: string, id: string)
    ensures var urn := ["urn", "ogc", "def", "crs", space, version, id];
      IsCrsUrn(urn) && At(urn, 4) == space && urn[|urn| - 1] == id
  {
  }

  /** An OGC URN stands for `SPACE:ID`, whatever its version piece. */
  lemma ResolveCrsUrn(space: string, version: string, id: string)
    requires ':' !in space && ':' !in version && ':' !in id
    ensures ResolveAlias("urn:ogc:def:crs:" + space + ":" + version + ":" + id) == space + ":" + id
  {
    var code := "urn:ogc:def:crs:" + space + ":" + version + ":" + id;
    ExplodeCrsUrn(space, version, id);
    CrsUrnPieces(space, version, id);
    assert code[..4] == "urn:";
  }

  /** An OGC URN in the EPSG code space is identified as the EPSG code
      given by its last piece, upper-cased. */
  lemma IdentifyUrn(space: string, version: string, id: string)
    requires ToUpper(space) == "EPSG"
    requires ':' !in space && ':' !in version && ':' !in id
    ensures Identify("urn:ogc:def:crs:" + space + ":" + version + ":" + id)
      == SrsId("EPSG:" + ToUpper(id), "epsg", ToUpper(id))
  {
    ResolveCrsUrn(space, version, id);
    ToUpperAppend(space + ":", id);
    ToUpperAppend(space, ":");
    ToUpperIdle(":");
    var c := "EPSG:" + ToUpper(id);
    assert ToUpper(space + ":" + id) == c;
    assert c[..4] == "EPSG";
    assert c[5..] == ToUpper(id);
  }

  /** An http URL whose part before `#` mentions epsg.org stands for the
      EPSG code named by its fragment. */
  lemma ResolveEpsgUrl(address: string, fragment: string)
    requires StartsWith(address, "http://") && '#' !in address && '#' !in fragment
    requires MatchesSomewhere(address, "epsg.org")
    ensures ResolveAlias(address + "#" + fragment) == "EPSG:" + fragment
  {
    var code := address + "#" + fragment;
    assert code[0] == address[0] == 'h';
    FirstCharRules(code, "urn:");
    assert code[..7] == address[..7];
    ExplodeCons(address, '#', fragment);
    assert Explode(fragment, '#') == [fragment];
    assert Explode(code, '#') == [address, fragment];
  }

  /** Such a URL is identified as that EPSG code, number upper-cased. */
  lemma IdentifyEpsgUrl(address: string, fragment: string)
    requires StartsWith(address, "http://") && '#' !in address && '#' !in fragment
    requires MatchesSomewhere(address, "epsg.org")
    ensures Identify(address + "#" + fragment) == SrsId("EPSG:" + ToUpper(fragment), "epsg", ToUpper(fragment))
  {
    ResolveEpsgUrl(address, fragment);
    IdentifyResolvedEpsg(address + "#" + fragment, fragment);
  }

  /** An http URL whose part before `#` mentions RIG.xml, and not
      epsg.org, stands for the IGNF code named by its fragment. */
  lemma ResolveIgnfUrl(address: string, fragment: string)
    requires StartsWith(address, "http://") && '#' !in address && '#' !in fragment
    requires !MatchesSomewhere(address, "epsg.org") && MatchesSomewhere(address, "RIG.xml")
    ensures ResolveAlias(address + "#" + fragment) == "IGNF:" + fragment
  {
    var code := address + "#" + fragment;
    assert code[0] == address[0] == 'h';
    FirstCharRules(code, "urn:");
    assert code[..7] == address[..7];
    ExplodeCons(address, '#', fragment);
    assert Explode(fragment, '#') == [fragment];
    assert Explode(code, '#') == [address, fragment];
  }

  /** The code `IGNF:n` has authority IGNF and, as its number, n
      upper-cased. */
  lemma IdentifyIgnf(n: string)
    ensures Identify("IGNF:" + n) == SrsId("IGNF:" + ToUpper(n), "IGNF", ToUpper(n))
  {
    var code := "IGNF:" + n;
    FirstCharRules(code, "urn:");
    FirstCharRules(code, "http://");
    ToUpperAppend("IGNF:", n);
    ToUpperIdle("IGNF:");
    var c := "IGNF:" + ToUpper(n);
    FirstCharRules(c, "EPSG");
    assert c[..4] == "IGNF";
    assert c[5..] == ToUpper(n);
  }

  /** Such a URL is identified as that IGNF code, number upper-cased. */
  lemma IdentifyIgnfUrl(address: string, fragment: string)
    requires StartsWith(address, "http://") && '#' !in address && '#' !in fragment
    requires !MatchesSomewhere(address, "epsg.org") && MatchesSomewhere(address, "RIG.xml")
    ensures Identify(address + "#" + fragment) == SrsId("IGNF:" + ToUpper(fragment), "IGNF", ToUpper(fragment))
  {
    var code := address + "#" + fragment;
    ResolveIgnfUrl(address, fragment);
    IdentifyIgnf(fragment);
    assert ToUpper(ResolveAlias(code)) == ToUpper(ResolveAlias("IGNF:" + fragment));
  }

  /** The EPSG register's own address form resolves as expected. */
  lemma IdentifyEpsgRegister(fragment: string)
    requires '#' !in fragment
    ensures Identify("http://www.epsg.org/#" + fragment).srsProjNumber == ToUpper(fragment)
  {
    var address := "http://www.epsg.org/";
    assert MatchesAt(address[11..], "epsg.org");
    MatchesSomewhereAt(address, "epsg.org", 11);
    assert "http://www.epsg.org/#" + fragment == address + "#" + fragment;
    IdentifyEpsgUrl(address, fragment);
  }

  // ------------------------------------------------------------ as written

  /** The URN branch as the source writes it: the index of the last piece
      is computed with `strlen` of the piece array, which PHP answers with
      null, so the index is -1, a missing entry, and the code loses its
      number. */
  function ResolveAliasAsWritten(code: string): (r: string)
    ensures !StartsWith(code, "urn:") ==> r == ResolveAlias(code)
    ensures StartsWith(code, "urn:") && IsCrsUrn(Explode(code, ':')) ==> r == At(Explode(code, ':'), 4) + ":"
  {
    if StartsWith(code, "urn:") then
      var urn := Explode(code, ':');
      if IsCrsUrn(urn) then At(urn, 4) + ":" + At(urn, -1) else code
    else ResolveAlias(code)
  }

  /** For every OGC CRS URN the code as written keeps only `SPACE:`; the
      intended code is `SPACE:ID`. */
  lemma UrnAsWrittenDropsNumber(space: string, version: string, id: string)
    requires ':' !in space && ':' !in version && ':' !in id
    ensures ResolveAliasAsWritten("urn:ogc:def:crs:" + space + ":" + version + ":" + id) == space + ":"
    ensures ResolveAlias("urn:ogc:def:crs:" + space + ":" + version + ":" + id) == space + ":" + id
  {
    var code := "urn:ogc:def:crs:" + space + ":" + version + ":" + id;
    ResolveCrsUrn(space, version, id);
    ExplodeCrsUrn(space, version, id);
    AsWrittenOfPieces(code, space, version, id);
  }

  lemma AsWrittenOfPieces(code: string, space: string, version: string, id: string)
    requires StartsWith(code, "urn:")
    requires Explode(code, ':') == ["urn", "ogc", "def", "crs", space, version, id]
    ensures ResolveAliasAsWritten(code) == space + ":"
  {
    CrsUrnPieces(space, version, id);
    assert At(Explode(code, ':'), -1) == "";
  }

  /** So `urn:ogc:def:crs:EPSG::4326` becomes `EPSG:` instead of
      `EPSG:4326`. */
  lemma UrnAsWrittenExample()
    ensures var code := "urn:ogc:def:crs:" + "EPSG" + ":" + "" + ":" + "4326";
      ResolveAliasAsWritten(code) == "EPSG:" && ResolveAlias(code) == "EPSG:4326"
  {
    UrnAsWrittenDropsNumber("EPSG", "", "4326");
  }
}
