/** How `parseWKT` (Proj.php) reads an OGC Well-Known Text node such as
    `SPHEROID["WGS 84",6378137,298.257223563]`: the node is matched against
    `^(\w+)\[(.*)\]$` for its object keyword and content, the content is
    split on commas, the first piece is the node's name (quotes removed),
    and the remaining pieces are regrouped into child nodes by counting
    brackets.  The keyword then decides which property the node sets and
    how many leading children it consumes; the others are read in turn. */
module Wkt {
  import opened Wrappers
  import opened Common
  import opened PhpStrings
  import opened ProjProps

  // ------------------------------------------------------------ matching

  /** A character of the class `\w`: ASCII letter, digit or underscore. */
  predicate IsWordChar(c: char) {
    'A' <= c <= 'Z' || 'a' <= c <= 'z' || '0' <= c <= '9' || c == '_'
  }

  /** A nonempty run of word characters, as an object keyword is. */
  predicate IsKeyword(k: string) {
    |k| >= 1 && forall i :: 0 <= i < |k| ==> IsWordChar(k[i])
  }

  /** Length of the run of word characters at the front of `s`. */
  function WordLength(s: string): (n: nat)
    ensures n <= |s|
    ensures forall i :: 0 <= i < n ==> IsWordChar(s[i])
    ensures n < |s| ==> !IsWordChar(s[n])
  {
    if |s| > 0 && IsWordChar(s[0]) then 1 + WordLength(s[1..]) else 0
  }

  /** The part of the subject that must end in `]`: the anchor `$` also
      matches just before a final newline. */
  function AnchorBody(wkt: string): (body: string)
    ensures body == wkt || wkt == body + "\n"
  {
    if |wkt| > 0 && wkt[|wkt| - 1] == '\n' then wkt[..|wkt| - 1] else wkt
  }

  /** The match of `^(\w+)\[(.*)\]$`: the object keyword (a maximal run of
      word characters) and the content between the bracket after it and
      the final bracket; the content holds no newline, as `.` does not
      match one. */
  function WktMatch(wkt: string): (m: Option<(string, string)>)
    ensures m.Some? ==> |m.value.0| >= 1 && '\n' !in m.value.1
    ensures m.Some? ==> forall i :: 0 <= i < |m.value.0| ==> IsWordChar(m.value.0[i])
    ensures m.Some? ==> wkt == m.value.0 + "[" + m.value.1 + "]"
                        || wkt == m.value.0 + "[" + m.value.1 + "]" + "\n"
  {
    var body := AnchorBody(wkt);
    var n := WordLength(body);
    if n >= 1 && n + 2 <= |body| && body[n] == '[' && body[|body| - 1] == ']'
       && '\n' !in body[n + 1..|body| - 1]
    then
      BracketSplit(body, n);
      Some((body[..n], body[n + 1..|body| - 1]))
    else None
  }

  /** A subject with `[` at `n` and `]` at its end is the prefix, the
      bracket, the content and the closing bracket. */
  lemma BracketSplit(body: string, n: nat)
    requires n + 2 <= |body| && body[n] == '[' && body[|body| - 1] == ']'
    ensures body == body[..n] + "[" + body[n + 1..|body| - 1] + "]"
  {
    assert body == body[..n] + [body[n]] + body[n + 1..|body| - 1] + [body[|body| - 1]];
  }

  /** A node written out with a keyword of word characters and a content
      without newline is matched back into that keyword and content. */
  lemma WktMatchNode(keyword: string, content: string)
    requires IsKeyword(keyword)
    requires '\n' !in content
    ensures WktMatch(keyword + "[" + content + "]") == Some((keyword, content))
  {
    var wkt := keyword + "[" + content + "]";
    assert AnchorBody(wkt) == wkt;
    assert wkt[..|keyword|] == keyword;
    assert wkt[|keyword|..][1..] == wkt[|keyword| + 1..];
    WordLengthOf(wkt, |keyword|);
    assert wkt[|keyword| + 1..|wkt| - 1] == content;
  }

  lemma WordLengthOf(s: string, n: nat)
    requires n < |s| && !IsWordChar(s[n])
    requires forall i :: 0 <= i < n ==> IsWordChar(s[i])
    ensures WordLength(s) == n
  {
    if n > 0 {
      WordLengthOf(s[1..], n - 1);
    }
  }

  /** The name with one leading and one trailing double quote removed. */
  function StripQuotes(s: string): (r: string)
    ensures |r| <= |s|
    ensures r == s || ([s[0]] + r == s) || (r + [s[|s| - 1]] == s) || ([s[0]] + r + [s[|s| - 1]] == s)
    ensures '"' !in s ==> r == s
    ensures s == "\"" ==> r == ""
    ensures |s| >= 2 && s[0] == '"' && s[|s| - 1] == '"' ==> r == s[1..|s| - 1]
    ensures |s| >= 1 && s[0] == '"' && s[|s| - 1] != '"' ==> r == s[1..]
    ensures |s| >= 1 && s[0] != '"' && s[|s| - 1] == '"' ==> r == s[..|s| - 1]
    ensures |s| >= 1 && s[0] != '"' && s[|s| - 1] != '"' ==> r == s
  {
    var t := if |s| > 0 && s[0] == '"' then s[1..] else s;
    if |t| > 0 && t[|t| - 1] == '"' then t[..|t| - 1] else t
  }

  // ------------------------------------------------------------ grouping

  /** Opening minus closing brackets. */
  function Balance(s: string): int {
    CountChar(s, '[') - CountChar(s, ']')
  }

  /** The tokens, each followed by a comma, end to end. */
  function Flat(ts: seq<string>): (r: string)
    ensures |ts| > 0 ==> |r| > 0
  {
    if ts == [] then "" else Flat(ts[..|ts| - 1]) + ts[|ts| - 1] + ","
  }

  /** The grouping loop's state: the finished groups, the group being
      built (with a comma after each token so far), and the running
      bracket count. */
  datatype Grouping = Grouping(groups: seq<string>, obj: string, depth: int)

  /** One token: add it to the group being built, and close the group
      when the running bracket count is back to zero. */
  function GroupStep(g: Grouping, token: string): Grouping {
    var depth := g.depth + Balance(token);
    var obj := g.obj + token;
    if depth == 0 then Grouping(g.groups + [obj], "", 0) else Grouping(g.groups, obj + ",", depth)
  }

  /** The grouping of a token sequence, token by token. */
  function GroupTokens(tokens: seq<string>): (g: Grouping)
    ensures GroupingInvariant(g, Flat(tokens))
    decreases |tokens|
  {
    if tokens == [] then Grouping([], "", 0)
    else
      var init := tokens[..|tokens| - 1];
      GroupStepKeepsInvariant(GroupTokens(init), tokens[|tokens| - 1], Flat(init));
      GroupStep(GroupTokens(init), tokens[|tokens| - 1])
  }

  /** The grouping loop of `parseWKT`. */
  method GroupChildren(tokens: seq<string>) returns (wktArray: seq<string>)
    ensures wktArray == GroupTokens(tokens).groups
  {
    wktArray := [];
    var bkCount := 0;
    var obj := "";
    for i := 0 to |tokens|
      invariant Grouping(wktArray, obj, bkCount) == GroupTokens(tokens[..i])
    {
      assert tokens[..i + 1][..i] == tokens[..i];
      var token := tokens[i];
      bkCount := bkCount + CountChar(token, '[') - CountChar(token, ']');
      obj := obj + token;
      if bkCount == 0 {
        wktArray := wktArray + [obj];
        obj := "";
      } else {
        obj := obj + ",";
      }
    }
    assert tokens[..|tokens|] == tokens;
  }

  lemma {:induction false} FlatAppend(a: seq<string>, b: seq<string>)
    ensures Flat(a + b) == Flat(a) + Flat(b)
    decreases |b|
  {
    if b == [] {
      assert a + b == a;
    } else {
      assert (a + b)[..|a + b| - 1] == a + b[..|b| - 1];
      FlatAppend(a, b[..|b| - 1]);
    }
  }

  /** Splitting on commas and writing each piece back with a comma gives
      the string with one comma more. */
  lemma {:induction false} FlatExplode(s: string)
    ensures Flat(Explode(s, ',')) == s + ","
    decreases |s|
  {
    if ',' in s {
      var i := IndexOf(s, ',');
      var rest := Explode(s[i + 1..], ',');
      FlatExplode(s[i + 1..]);
      FlatAppend([s[..i]], rest);
      assert Flat([s[..i]]) == s[..i] + ",";
      assert s == s[..i] + "," + s[i + 1..];
    } else {
      assert Flat([s]) == Flat([]) + s + ",";
    }
  }

  /** Every token, with its comma, fits in the flattened sequence. */
  lemma {:induction false} FlatElement(ts: seq<string>, k: nat)
    requires k < |ts|
    ensures |ts[k]| + 1 <= |Flat(ts)|
    decreases |ts|
  {
    if k < |ts| - 1 {
      FlatElement(ts[..|ts| - 1], k);
    }
  }

  lemma BalanceAppend(s: string, t: string)
    ensures Balance(s + t) == Balance(s) + Balance(t)
  {
    CountCharAppend(s, t, '[');
    CountCharAppend(s, t, ']');
  }

  /** What the grouping keeps true of its state, given the tokens read so
      far flattened: the groups, each with a comma, followed by the open
      group, are those tokens (grouping loses and reorders nothing); the
      running count is the bracket balance of the open group; and every
      closed group has as many `[` as `]`. */
  predicate GroupingInvariant(g: Grouping, flat: string) {
    Flat(g.groups) + g.obj == flat
    && g.depth == Balance(g.obj)
    && forall k :: 0 <= k < |g.groups| ==> Balance(g.groups[k]) == 0
  }

  lemma GroupStepKeepsInvariant(g: Grouping, token: string, flat: string)
    requires GroupingInvariant(g, flat)
    ensures GroupingInvariant(GroupStep(g, token), flat + token + ",")
  {
    var obj := g.obj + token;
    BalanceAppend(g.obj, token);
    if g.depth + Balance(token) == 0 {
      var gs := g.groups + [obj];
      assert gs[..|gs| - 1] == g.groups;
      assert Flat(gs) == Flat(g.groups) + obj + ",";
      assert GroupStep(g, token) == Grouping(gs, "", 0);
    } else {
      BalanceAppend(obj, ",");
      assert Balance(",") == 0;
      assert GroupStep(g, token) == Grouping(g.groups, obj + ",", g.depth + Balance(token));
      assert Flat(g.groups) + (obj + ",") == flat + token + ",";
    }
  }

  lemma {:induction false} GroupTokensInvariant(tokens: seq<string>)
    ensures GroupingInvariant(GroupTokens(tokens), Flat(tokens))
    decreases |tokens|
  {
    if tokens != [] {
      var init := tokens[..|tokens| - 1];
      GroupTokensInvariant(init);
      GroupStepKeepsInvariant(GroupTokens(init), tokens[|tokens| - 1], Flat(init));
    }
  }

  /** Every group is shorter than the flattened tokens it came from. */
  lemma GroupsShorter(tokens: seq<string>)
    ensures forall k :: 0 <= k < |GroupTokens(tokens).groups| ==>
      |GroupTokens(tokens).groups[k]| < |Flat(tokens)|
  {
    var g := GroupTokens(tokens);
    GroupTokensInvariant(tokens);
    forall k | 0 <= k < |g.groups|
      ensures |g.groups[k]| < |Flat(tokens)|
    {
      FlatElement(g.groups, k);
    }
  }

  // ------------------------------------------------------------ nodes

  /** A parsed node: its object keyword, its name and its child nodes. */
  datatype WktNode = WktNode(keyword: string, name: string, children: seq<string>)

  /** The tokens of a node's content that follow its name: all of them for
      a TOWGS84 node (its name is fixed), the others after the first. */
  function NodeTokens(keyword: string, content: string): (r: seq<string>)
    ensures ToUpper(keyword) == "TOWGS84" ==> r == Explode(content, ',')
    ensures ToUpper(keyword) != "TOWGS84" ==> [Explode(content, ',')[0]] + r == Explode(content, ',')
  {
    var temp := Explode(content, ',');
    if ToUpper(keyword) == "TOWGS84" then temp else temp[1..]
  }

  /** The node that `parseWKT` reads from a string, if the string matches;
      every child is shorter than the string, so reading the children in
      turn comes to an end. */
  function ParseNode(wkt: string): (r: Option<WktNode>)
    ensures r.Some? <==> WktMatch(wkt).Some?
    ensures r.Some? ==> forall k :: 0 <= k < |r.value.children| ==> |r.value.children[k]| < |wkt|
  {
    match WktMatch(wkt)
    case None => None
    case Some((keyword, content)) =>
      var temp := Explode(content, ',');
      var name := if ToUpper(keyword) == "TOWGS84" then "TOWGS84" else temp[0];
      var tokens := NodeTokens(keyword, content);
      FlatExplode(content);
      FlatAppend([temp[0]], temp[1..]);
      assert [temp[0]] + temp[1..] == temp;
      GroupsShorter(tokens);
      Some(WktNode(keyword, StripQuotes(name), GroupTokens(tokens).groups))
  }

  // ------------------------------------------------------------ node effects

  /** The first child, or "" (null) when there is none: `array_shift`. */
  function First(cs: seq<string>): string {
    if |cs| > 0 then cs[0] else ""
  }

  /** The children after `k` shifts. */
  function Drop(cs: seq<string>, k: nat): (r: seq<string>)
    ensures |r| <= |cs| && r == cs[|cs| - |r|..]
  {
    if k <= |cs| then cs[k..] else []
  }

  /** The axis letter of a WKT axis direction; any other direction is a
      blank. */
  function AxisLetter(direction: string): (c: char)
    ensures c in "ewnsud " && (c == ' ' <==> direction !in {"EAST", "WEST", "NORTH", "SOUTH", "UP", "DOWN"})
  {
    if direction == "EAST" then 'e'
    else if direction == "WEST" then 'w'
    else if direction == "NORTH" then 'n'
    else if direction == "SOUTH" then 's'
    else if direction == "UP" then 'u'
    else if direction == "DOWN" then 'd'
    else ' '
  }

  /** The axis string an AXIS node starts from: the current one, or `enu`
      when it is unset or falsy. */
  function AxisOrDefault(axis: Option<string>): string {
    if Truthy(axis) then axis.value else "enu"
  }

  /** The axis string with the letter of the named axis (x, y or z)
      replaced: characters 0, 1 or 2. */
  function SpliceAxis(axis: string, name: string, letter: char): (r: string)
    ensures |axis| == 3 ==> |r| == 3
    ensures |axis| == 3 && name == "x" ==> r == axis[0 := letter]
    ensures |axis| == 3 && name == "y" ==> r == axis[1 := letter]
    ensures |axis| == 3 && name == "z" ==> r == axis[2 := letter]
    ensures name !in {"x", "y", "z"} ==> r == axis
  {
    if name == "x" then [letter] + Substr3(axis, 1, 2)
    else if name == "y" then Substr3(axis, 0, 1) + [letter] + Substr3(axis, 2, 1)
    else if name == "z" then Substr3(axis, 0, 2) + [letter]
    else axis
  }

  /** On a three-letter axis string the splice replaces exactly the named
      position and keeps the length. */
  lemma SpliceAxisReplaces(axis: string, name: string, letter: char)
    requires |axis| == 3
    ensures var r := SpliceAxis(axis, name, letter);
      |r| == 3
      && (name == "x" ==> r == axis[0 := letter])
      && (name == "y" ==> r == axis[1 := letter])
      && (name == "z" ==> r == axis[2 := letter])
      && (name !in {"x", "y", "z"} ==> r == axis)
  {
  }

  /** The effect of a PARAMETER node (name lower-cased): false easting and
      northing, scale factor, and central meridian and latitude of origin
      (degrees, stored in radians). */
  function SetWktParameter(p: Props, name: string, value: real): (q: Props)
    ensures q == p.(xZero := q.xZero, yZero := q.yZero, kZero := q.kZero, longZero := q.longZero, latZero := q.latZero)
  {
    if name == "false_easting" then p.(xZero := value)
    else if name == "false_northing" then p.(yZero := value)
    else if name == "scale_factor" then p.(kZero := Some(value))
    else if name == "central_meridian" then p.(longZero := Some(value * DToR))
    else if name == "latitude_of_origin" then p.(latZero := Some(value * DToR))
    else p
  }

  /** The properties `parseWKT` never sets: the code's authority and
      number, the definition string, the PROJ.4-only parameters (title,
      grids, b, the standard parallels, lat_ts, alpha, lonc, R_A, the UTM
      zone and hemisphere, to_meter), the ellipsoid's name and everything
      `deriveConstants` computes later. */
  predicate WktKeeps(p: Props, q: Props) {
    q == p.(srsCode := q.srsCode, projName := q.projName, localCS := q.localCS, geocsCode := q.geocsCode,
            datumName := q.datumName, datumCode := q.datumCode, ellps := q.ellps, a := q.a, rf := q.rf,
            fromGreenwich := q.fromGreenwich, units := q.units, unitsPerMeter := q.unitsPerMeter,
            xZero := q.xZero, yZero := q.yZero, kZero := q.kZero, longZero := q.longZero, latZero := q.latZero,
            datumParams := q.datumParams, axis := q.axis)
  }

  /** The switch of `parseWKT`: the properties a node sets, and the
      children left to read after the ones it consumed. */
  function ApplyNode(p: Props, node: WktNode, reg: Registry): (r: (Props, seq<string>))
    ensures |r.1| <= |node.children| && r.1 == node.children[|node.children| - |r.1|..]
  {
    var name, cs := node.name, node.children;
    if node.keyword == "LOCAL_CS" then
      (p.(projName := Some("identity"), localCS := true, srsCode := Some(name)), cs)
    else if node.keyword == "GEOGCS" then
      (p.(projName := Some("longlat"), geocsCode := Some(name),
          srsCode := if Truthy(p.srsCode) then p.srsCode else Some(name)), cs)
    else if node.keyword == "PROJCS" then (p.(srsCode := Some(name)), cs)
    else if node.keyword == "PROJECTION" then
      (p.(projName := if name in reg.wktProjections then Some(reg.wktProjections[name]) else None), cs)
    else if node.keyword == "DATUM" then (p.(datumName := Some(name)), cs)
    else if node.keyword == "LOCAL_DATUM" then (p.(datumCode := Some("none")), cs)
    else if node.keyword == "SPHEROID" then
      (p.(ellps := Some(name), a := Some(FloatVal(First(cs))), rf := Some(FloatVal(First(Drop(cs, 1))))), Drop(cs, 2))
    else if node.keyword == "PRIMEM" then (p.(fromGreenwich := Some(FloatVal(First(cs)))), Drop(cs, 1))
    else if node.keyword == "UNIT" then
      (p.(units := Some(name), unitsPerMeter := Some(FloatVal(First(cs)))), Drop(cs, 1))
    else if node.keyword == "PARAMETER" then
      (SetWktParameter(p, ToLower(name), FloatVal(First(cs))), Drop(cs, 1))
    else if node.keyword == "TOWGS84" then (p.(datumParams := Some(cs)), cs)
    else if node.keyword == "AXIS" then
      (p.(axis := Some(SpliceAxis(AxisOrDefault(p.axis), ToLower(name), AxisLetter(First(cs))))), Drop(cs, 1))
    else (p, cs)
  }

  /** No node sets a property `parseWKT` never sets. */
  lemma ApplyNodeKeeps(p: Props, node: WktNode, reg: Registry)
    ensures WktKeeps(p, ApplyNode(p, node, reg).0)
  {
    var k := node.keyword;
    if k == "LOCAL_CS" || k == "GEOGCS" || k == "PROJCS" {
      NamingNodeKeeps(p, node, reg);
    } else if k == "PROJECTION" || k == "DATUM" || k == "LOCAL_DATUM" {
      DatumNodeKeeps(p, node, reg);
    } else if k == "SPHEROID" || k == "PRIMEM" || k == "UNIT" {
      MeasureNodeKeeps(p, node, reg);
    } else if k == "PARAMETER" || k == "TOWGS84" || k == "AXIS" {
      ParameterNodeKeeps(p, node, reg);
    } else {
      assert ApplyNode(p, node, reg).0 == p;
    }
  }

  lemma NamingNodeKeeps(p: Props, node: WktNode, reg: Registry)
    requires node.keyword == "LOCAL_CS" || node.keyword == "GEOGCS" || node.keyword == "PROJCS"
    ensures WktKeeps(p, ApplyNode(p, node, reg).0)
  {
  }

  lemma DatumNodeKeeps(p: Props, node: WktNode, reg: Registry)
    requires node.keyword == "PROJECTION" || node.keyword == "DATUM" || node.keyword == "LOCAL_DATUM"
    ensures WktKeeps(p, ApplyNode(p, node, reg).0)
  {
  }

  lemma MeasureNodeKeeps(p: Props, node: WktNode, reg: Registry)
    requires node.keyword == "SPHEROID" || node.keyword == "PRIMEM" || node.keyword == "UNIT"
    ensures WktKeeps(p, ApplyNode(p, node, reg).0)
  {
    var name, cs := node.name, node.children;
    if node.keyword == "SPHEROID" {
      assert ApplyNode(p, node, reg).0
        == p.(ellps := Some(name), a := Some(FloatVal(First(cs))), rf := Some(FloatVal(First(Drop(cs, 1)))));
    } else if node.keyword == "PRIMEM" {
      assert ApplyNode(p, node, reg).0 == p.(fromGreenwich := Some(FloatVal(First(cs))));
    } else {
      assert ApplyNode(p, node, reg).0 == p.(units := Some(name), unitsPerMeter := Some(FloatVal(First(cs))));
    }
  }

  lemma ParameterNodeKeeps(p: Props, node: WktNode, reg: Registry)
    requires node.keyword == "PARAMETER" || node.keyword == "TOWGS84" || node.keyword == "AXIS"
    ensures WktKeeps(p, ApplyNode(p, node, reg).0)
  {
    if node.keyword == "PARAMETER" {
      assert ApplyNode(p, node, reg).0 == SetWktParameter(p, ToLower(node.name), FloatVal(First(node.children)));
    }
  }


  /** `parseWKT` as a function of the properties: read the node, apply
      it, then read the children left, in order.  A string that does not
      match changes nothing. */
  function ApplyWkt(p: Props, wkt: string, reg: Registry): (q: Props)
    ensures WktMatch(wkt).None? ==> q == p
    ensures WktKeeps(p, q)
    decreases |wkt|, 1, 0
  {
    match ParseNode(wkt)
    case None => p
    case Some(node) =>
      var r := ApplyNode(p, node, reg);
      ApplyNodeKeeps(p, node, reg);
      ApplyWktAll(r.0, r.1, |wkt|, reg)
  }

  /** Reading several nodes in turn, each shorter than `bound`. */
  function ApplyWktAll(p: Props, cs: seq<string>, bound: nat, reg: Registry): (q: Props)
    requires forall k :: 0 <= k < |cs| ==> |cs[k]| < bound
    ensures cs == [] ==> q == p
    ensures WktKeeps(p, q)
    decreases bound, 0, |cs|
  {
    if cs == [] then p
    else ApplyWkt(ApplyWktAll(p, cs[..|cs| - 1], bound, reg), cs[|cs| - 1], reg)
  }

  // ------------------------------------------------------------ lemmas

  /** A string that is not a node leaves the properties unchanged. */
  lemma NonNodeIsIgnored(p: Props, wkt: string, reg: Registry)
    requires WktMatch(wkt).None?
    ensures ApplyWkt(p, wkt, reg) == p
  {
  }

  /** A bare number, as left over from a TOWGS84 node, is not a node. */
  lemma NumberIsNotNode(s: string)
    requires forall i :: 0 <= i < |s| ==> s[i] != '['
    ensures WktMatch(s).None?
  {
    var body := AnchorBody(s);
    var n := WordLength(body);
    if n < |body| {
      assert body[n] == s[n];
    }
  }

  /** A character missing from a string is missing from each of its
      pieces. */
  lemma {:induction false} ExplodeKeepsOut(s: string, sep: char, c: char)
    requires c !in s
    ensures forall k :: 0 <= k < |Explode(s, sep)| ==> c !in Explode(s, sep)[k]
    decreases |s|
  {
    if sep in s {
      var i := IndexOf(s, sep);
      ExplodeKeepsOut(s[i + 1..], sep, c);
      assert c !in s[..i];
      assert Explode(s, sep) == [s[..i]] + Explode(s[i + 1..], sep);
    }
  }

  /** Tokens without brackets group one by one: each is a child. */
  lemma {:induction false} GroupFlatTokens(tokens: seq<string>)
    requires forall k :: 0 <= k < |tokens| ==> '[' !in tokens[k] && ']' !in tokens[k]
    ensures GroupTokens(tokens) == Grouping(tokens, "", 0)
    decreases |tokens|
  {
    if tokens != [] {
      var last := tokens[|tokens| - 1];
      GroupFlatTokens(tokens[..|tokens| - 1]);
      BracketFree(last);
      assert "" + last == last;
      assert tokens[..|tokens| - 1] + [last] == tokens;
    }
  }

  /** A quoted name loses exactly its two quotes. */
  /** A name between double quotes. */
  function Quoted(name: string): string {
    "\"" + name + "\""
  }

  lemma StripQuotesOfQuoted(name: string)
    requires '"' !in name
    ensures StripQuotes(Quoted(name)) == name
  {
    var q := Quoted(name);
    assert q[1..] == name + "\"";
    assert (name + "\"")[..|name|] == name;
  }

  /** The text `KEYWORD["name",rest]` of a node with a quoted name. */
  function QuotedNode(keyword: string, name: string, rest: string): string {
    keyword + "[" + Quoted(name) + "," + rest + "]"
  }

  lemma QuotedNodeMatches(keyword: string, name: string, rest: string)
    requires IsKeyword(keyword)
    requires '\n' !in name && '\n' !in rest
    ensures WktMatch(QuotedNode(keyword, name, rest)) == Some((keyword, Quoted(name) + "," + rest))
  {
    var content := Quoted(name) + "," + rest;
    assert QuotedNode(keyword, name, rest) == keyword + "[" + content + "]";
    assert '\n' !in content;
    WktMatchNode(keyword, content);
  }

  /** The content of a quoted node, split at its commas, gives the quoted
      name and then the tokens of the rest, which group one by one when
      they hold no bracket. */
  lemma QuotedContentTokens(keyword: string, name: string, rest: string)
    requires |keyword| != 7
    requires '"' !in name && ',' !in name
    requires '[' !in rest && ']' !in rest
    ensures var content := Quoted(name) + "," + rest;
      && Explode(content, ',')[0] == Quoted(name)
      && NodeTokens(keyword, content) == Explode(rest, ',')
      && GroupTokens(Explode(rest, ',')).groups == Explode(rest, ',')
  {
    assert ',' !in Quoted(name);
    ExplodeCons(Quoted(name), ',', rest);
    assert ToUpper(keyword) != "TOWGS84";
    ExplodeKeepsOut(rest, ',', '[');
    ExplodeKeepsOut(rest, ',', ']');
    GroupFlatTokens(Explode(rest, ','));
  }

  /** A node `KEYWORD["name",t1,...,tn]` whose tokens hold no bracket is
      read as that keyword, the unquoted name, and the tokens as its
      children. */
  lemma ParseQuotedNode(keyword: string, name: string, rest: string)
    requires IsKeyword(keyword)
    requires |keyword| != 7
    requires '"' !in name && ',' !in name && '\n' !in name
    requires '\n' !in rest && '[' !in rest && ']' !in rest
    ensures ParseNode(QuotedNode(keyword, name, rest)) == Some(WktNode(keyword, name, Explode(rest, ',')))
  {
    QuotedNodeMatches(keyword, name, rest);
    QuotedContentTokens(keyword, name, rest);
    StripQuotesOfQuoted(name);
  }

  lemma LeafKeywords()
    ensures IsKeyword("AXIS") && IsKeyword("SPHEROID") && IsKeyword("PARAMETER")
  {
  }

  /** A single value: no comma, bracket, quote or newline. */
  predicate IsPlainToken(t: string) {
    ',' !in t && '[' !in t && ']' !in t && '"' !in t && '\n' !in t
  }

  /** Reading a quoted node whose children are all consumed is applying
      it. */
  lemma ApplyQuotedLeaf(p: Props, keyword: string, name: string, rest: string, reg: Registry)
    requires IsKeyword(keyword)
    requires |keyword| != 7
    requires '"' !in name && ',' !in name && '\n' !in name
    requires '\n' !in rest && '[' !in rest && ']' !in rest
    requires ApplyNode(p, WktNode(keyword, name, Explode(rest, ',')), reg).1 == []
    ensures ApplyWkt(p, QuotedNode(keyword, name, rest), reg)
      == ApplyNode(p, WktNode(keyword, name, Explode(rest, ',')), reg).0
  {
    ParseQuotedNode(keyword, name, rest);
  }

  /** `AXIS["name",DIRECTION]`: the axis starts from the current one, or
      `enu` when it is unset or falsy, and the letter of the direction
      replaces the position of the named axis x, y or z; any other name
      leaves the starting axis.  Nothing else changes. */
  lemma AxisWkt(p: Props, name: string, direction: string, reg: Registry)
    requires IsPlainToken(name) && IsPlainToken(direction)
    ensures ApplyWkt(p, QuotedNode("AXIS", name, direction), reg)
      == p.(axis := Some(SpliceAxis(AxisOrDefault(p.axis), ToLower(name), AxisLetter(direction))))
    ensures !Truthy(p.axis) && ToLower(name) !in {"x", "y", "z"} ==>
      ApplyWkt(p, QuotedNode("AXIS", name, direction), reg).axis == Some("enu")
  {
    assert Explode(direction, ',') == [direction];
    AxisNode(p, WktNode("AXIS", name, [direction]), reg);
    LeafKeywords();
    ApplyQuotedLeaf(p, "AXIS", name, direction, reg);
  }

  lemma AxisNode(p: Props, node: WktNode, reg: Registry)
    requires node.keyword == "AXIS" && |node.children| == 1
    ensures ApplyNode(p, node, reg)
      == (p.(axis := Some(SpliceAxis(AxisOrDefault(p.axis), ToLower(node.name), AxisLetter(node.children[0])))), [])
  {
    assert Drop(node.children, 1) == [];
    assert First(node.children) == node.children[0];
    var k := node.keyword;
    assert k != "LOCAL_CS" && k != "GEOGCS" && k != "PROJCS" && k != "PROJECTION";
    assert k != "DATUM" && k != "LOCAL_DATUM" && k != "SPHEROID" && k != "PRIMEM";
    assert k != "UNIT" && k != "PARAMETER" && k != "TOWGS84";
  }

  /** `SPHEROID["name",a,rf]`: the ellipsoid name, the semi-major axis and
      the inverse flattening are set from the two values in order. */
  lemma SpheroidWkt(p: Props, name: string, major: string, invFlat: string, reg: Registry)
    requires IsPlainToken(name) && IsPlainToken(major) && IsPlainToken(invFlat)
    ensures ApplyWkt(p, QuotedNode("SPHEROID", name, major + "," + invFlat), reg)
      == p.(ellps := Some(name), a := Some(FloatVal(major)), rf := Some(FloatVal(invFlat)))
  {
    ExplodePair(major, invFlat);
    SpheroidNode(p, WktNode("SPHEROID", name, [major, invFlat]), reg);
    LeafKeywords();
    ApplyQuotedLeaf(p, "SPHEROID", name, major + "," + invFlat, reg);
  }

  lemma ExplodePair(a: string, b: string)
    requires ',' !in a && ',' !in b
    ensures Explode(a + "," + b, ',') == [a, b]
  {
    ExplodeCons(a, ',', b);
  }

  lemma SpheroidNode(p: Props, node: WktNode, reg: Registry)
    requires node.keyword == "SPHEROID" && |node.children| == 2
    ensures ApplyNode(p, node, reg)
      == (p.(ellps := Some(node.name), a := Some(FloatVal(node.children[0])), rf := Some(FloatVal(node.children[1]))), [])
  {
    var cs := node.children;
    assert Drop(cs, 1) == [cs[1]] && Drop(cs, 2) == [];
  }

  /** `PARAMETER["name",value]`: the name, lower-cased, selects false
      easting or northing, the scale factor, or the central meridian or
      latitude of origin, the last two read in degrees and stored in
      radians; any other name changes nothing. */
  lemma ParameterWkt(p: Props, name: string, value: string, reg: Registry)
    requires IsPlainToken(name) && IsPlainToken(value)
    ensures var r := ApplyWkt(p, QuotedNode("PARAMETER", name, value), reg);
      && (ToLower(name) == "false_easting" ==> r == p.(xZero := FloatVal(value)))
      && (ToLower(name) == "false_northing" ==> r == p.(yZero := FloatVal(value)))
      && (ToLower(name) == "scale_factor" ==> r == p.(kZero := Some(FloatVal(value))))
      && (ToLower(name) == "central_meridian" ==> r == p.(longZero := Some(FloatVal(value) * DToR)))
      && (ToLower(name) == "latitude_of_origin" ==> r == p.(latZero := Some(FloatVal(value) * DToR)))
      && (ToLower(name) !in {"false_easting", "false_northing", "scale_factor", "central_meridian", "latitude_of_origin"} ==> r == p)
  {
    assert Explode(value, ',') == [value];
    ParameterNode(p, WktNode("PARAMETER", name, [value]), reg);
    LeafKeywords();
    ApplyQuotedLeaf(p, "PARAMETER", name, value, reg);
  }

  lemma ParameterNode(p: Props, node: WktNode, reg: Registry)
    requires node.keyword == "PARAMETER" && |node.children| == 1
    ensures ApplyNode(p, node, reg) == (SetWktParameter(p, ToLower(node.name), FloatVal(node.children[0])), [])
  {
    assert Drop(node.children, 1) == [];
    assert First(node.children) == node.children[0];
    var k := node.keyword;
    assert k != "LOCAL_CS" && k != "GEOGCS" && k != "PROJCS" && k != "PROJECTION";
    assert k != "DATUM" && k != "LOCAL_DATUM" && k != "SPHEROID" && k != "PRIMEM" && k != "UNIT";
  }

  /** A GEOGCS node names a longitude/latitude system and its geographic
      code, and becomes the object's code only when none is set yet; all
      its children are read after it. */
  lemma GeogcsNode(p: Props, name: string, children: seq<string>, reg: Registry)
    ensures var r := ApplyNode(p, WktNode("GEOGCS", name, children), reg);
      && r.0.projName == Some("longlat") && r.0.geocsCode == Some(name)
      && (Truthy(p.srsCode) ==> r.0.srsCode == p.srsCode)
      && (!Truthy(p.srsCode) ==> r.0.srsCode == Some(name))
      && r.1 == children
  {
  }

  /** A TOWGS84 node keeps every value as a datum parameter, and the values,
      read as children afterwards, are no nodes and change nothing. */
  lemma ToWgs84Node(p: Props, children: seq<string>, bound: nat, reg: Registry)
    requires forall k :: 0 <= k < |children| ==> '[' !in children[k] && |children[k]| < bound
    ensures var r := ApplyNode(p, WktNode("TOWGS84", "TOWGS84", children), reg);
      r == (p.(datumParams := Some(children)), children)
      && ApplyWktAll(r.0, r.1, bound, reg) == r.0
  {
    var q := p.(datumParams := Some(children));
    NumbersChangeNothing(q, children, bound, reg);
  }

  /** Reading strings that are no nodes changes nothing. */
  lemma {:induction false} NumbersChangeNothing(p: Props, cs: seq<string>, bound: nat, reg: Registry)
    requires forall k :: 0 <= k < |cs| ==> '[' !in cs[k] && |cs[k]| < bound
    ensures ApplyWktAll(p, cs, bound, reg) == p
    decreases |cs|
  {
    if cs != [] {
      NumbersChangeNothing(p, cs[..|cs| - 1], bound, reg);
      var last := cs[|cs| - 1];
      NumberIsNotNode(last);
      NonNodeIsIgnored(p, last, reg);
    }
  }

  // ------------------------------------------------------------ as written

  /** One token of the grouping loop as the source writes it: the bracket
      count is recomputed from the token alone instead of being carried. */
  function GroupStepAsWritten(g: Grouping, token: string): Grouping {
    var depth := Balance(token);
    var obj := g.obj + token;
    if depth == 0 then Grouping(g.groups + [obj], "", 0) else Grouping(g.groups, obj + ",", depth)
  }

  function GroupTokensAsWritten(tokens: seq<string>): Grouping
    decreases |tokens|
  {
    if tokens == [] then Grouping([], "", 0)
    else GroupStepAsWritten(GroupTokensAsWritten(tokens[..|tokens| - 1]), tokens[|tokens| - 1])
  }

  lemma BracketFree(s: string)
    requires '[' !in s && ']' !in s
    ensures Balance(s) == 0
  {
    if s != [] {
      BracketFree(s[..|s| - 1]);
    }
  }

  /** A nested node with two commas inside it, `S["a",1,2]`, is cut after
      `1` by the per-token count: the group as written is unbalanced and
      drops `2]`, where the running count keeps the node whole. */
  lemma GroupingAsWrittenSplitsNode()
    ensures var tokens := ["S[\"a\"", "1", "2]"];
      GroupTokensAsWritten(tokens).groups == ["S[\"a\",1"]
      && Balance("S[\"a\",1") == 1
      && GroupTokens(tokens).groups == ["S[\"a\",1,2]"]
  {
    ExampleBalances();
    ExampleAsWritten();
    ExampleRunning();
  }

  /** The bracket counts of the tokens of `S["a",1,2]`. */
  lemma ExampleBalances()
    ensures Balance("S[\"a\"") == 1 && Balance("1") == 0 && Balance("2]") == -1
    ensures Balance("S[\"a\",1") == 1 && Balance("S[\"a\",1,") == 1
  {
    var t0 := "S[\"a\"";
    BracketFree("S");
    BracketFree("\"a\"");
    BracketFree("1");
    BracketFree(",1");
    BracketFree(",");
    BracketFree("2");
    assert Balance("[") == 1 && Balance("]") == -1;
    BalanceAppend("S", "[");
    assert "S" + "[" == "S[";
    BalanceAppend("S[", "\"a\"");
    assert "S[" + "\"a\"" == t0;
    BalanceAppend(t0, ",1");
    assert t0 + ",1" == "S[\"a\",1";
    BalanceAppend("S[\"a\",1", ",");
    assert "S[\"a\",1" + "," == "S[\"a\",1,";
    BalanceAppend("2", "]");
    assert "2" + "]" == "2]";
  }

  lemma ExampleAsWritten()
    requires Balance("S[\"a\"") == 1 && Balance("1") == 0
    ensures GroupTokensAsWritten(["S[\"a\"", "1", "2]"]).groups == ["S[\"a\",1"]
  {
    var t0, t1, t2 := "S[\"a\"", "1", "2]";
    var tokens := [t0, t1, t2];
    assert tokens[..2] == [t0, t1] && [t0, t1][..1] == [t0] && [t0][..0] == [];
    assert "" + t0 == t0;
    assert GroupTokensAsWritten([]) == Grouping([], "", 0);
    assert GroupTokensAsWritten([t0]) == Grouping([], t0 + ",", 1);
    assert GroupTokensAsWritten([t0, t1]) == Grouping([t0 + "," + t1], "", 0);
    assert t0 + "," + t1 == "S[\"a\",1";
  }

  lemma ExampleRunning()
    requires Balance("S[\"a\"") == 1 && Balance("1") == 0 && Balance("2]") == -1
    ensures GroupTokens(["S[\"a\"", "1", "2]"]).groups == ["S[\"a\",1,2]"]
  {
    var t0, t1, t2 := "S[\"a\"", "1", "2]";
    var tokens := [t0, t1, t2];
    assert tokens[..2] == [t0, t1] && [t0, t1][..1] == [t0] && [t0][..0] == [];
    assert "" + t0 == t0;
    assert GroupTokens([]) == Grouping([], "", 0);
    assert GroupTokens([t0]) == GroupStep(Grouping([], "", 0), t0) == Grouping([], t0 + ",", 1);
    assert GroupTokens([t0, t1]) == GroupStep(Grouping([], t0 + ",", 1), t1) == Grouping([], t0 + "," + t1 + ",", 1);
    BalanceAppend(t0 + "," + t1 + ",", t2);
    assert GroupTokens(tokens) == GroupStep(Grouping([], t0 + "," + t1 + ",", 1), t2);
    assert t0 + "," + t1 + "," + t2 == "S[\"a\",1,2]";
  }

  /** The AXIS case as the source writes it: the name is lower-cased and
      then compared with the capitals X, Y and Z. */
  function SpliceAxisAsWritten(axis: string, name: string, letter: char): string {
    if name == "X" then [letter] + Substr3(axis, 1, 2)
    else if name == "Y" then Substr3(axis, 0, 1) + [letter] + Substr3(axis, 2, 1)
    else if name == "Z" then Substr3(axis, 0, 2) + [letter]
    else axis
  }

  /** As written, no lower-cased name selects an axis, so the X/Y/Z splice
      never fires: an AXIS node only sets an unset axis to `enu`.
      `AXIS["X",NORTH]` on `enu` should give `nnu`. */
  lemma AxisAsWrittenNeverSplices(axis: string, wktName: string, letter: char)
    ensures SpliceAxisAsWritten(axis, ToLower(wktName), letter) == axis
    ensures SpliceAxisAsWritten(AxisOrDefault(None), ToLower(wktName), letter) == "enu"
    ensures SpliceAxisAsWritten("enu", ToLower("X"), 'n') == "enu" && SpliceAxis("enu", ToLower("X"), 'n') == "nnu"
  {
    var name := ToLower(wktName);
    assert name != "X" && name != "Y" && name != "Z" by {
      if |name| == 1 {
        assert !('A' <= name[0] <= 'Z');
      }
    }
    assert ToLower("X") == "x";
  }
}
