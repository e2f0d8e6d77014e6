# proj4php core, modelled in Dafny

proj4php is a PHP port of the PROJ.4 / proj4js cartographic projection
library. A `Proj` object is built from a spatial reference code. The code
can be `EPSG:4326`, an OGC URN, an EPSG or IGN register URL, or a
Well-Known Text (WKT) string. The object reads the PROJ.4 definition
registered for that code or walks the WKT tree. From those parameters it
derives the ellipsoid constants and a `Datum` object. Points then pass
through the geocentric datum shift. They are projected by code such as
UTM, which delegates to transverse Mercator, or the New Zealand Map Grid
(NZMG), which evaluates complex power series.

This project models that core:

- `Common` covers the shared constants and the datum type codes of
  `Common.php`. It also covers the helpers `sign`, `adjustLon`,
  `adjustLat`, the argument clamp of `asinz`, `e0fn`..`e3fn` and
  `pjEnfn`.
- `Datum` covers the `Datum.php` constructor's classification of a datum
  (WGS84, none, three-parameter or seven-parameter). It also covers
  `compare_datums`, the two geocentric shifts (`geocentricToWgs84` and
  `geocentric_from_wgs84`, as methods that update a `Point` in place) and
  the latitude/longitude range check of `GeodeticToGeocentric`.
- `SrsCode` covers how the `Proj` constructor normalises a code: URN and
  URL aliases, upper-casing, and the authority and number split.
- `ProjDefs` covers `parseDefs`: splitting on `+` and `=`, the value
  carried between pieces, and the property each parameter name sets,
  including the axis legality check.
- `Wkt` covers `parseWKT`: the node pattern `^(\w+)\[(.*)\]$`, the name
  and its quotes, the regrouping of comma-separated tokens into child
  nodes, the switch over node keywords (including AXIS) and the recursion
  into children.
- `Derive` covers `deriveConstants` as a pipeline of stages, in this
  order: null grids, the datum definition, the ellipsoid lookup, the semi-
  minor axis from the inverse flattening, the sphere test, the squared
  eccentricities, the authalic radius, the defaults, and the datum object.
- `ProjObject` holds the `Proj` class. Its field `props` stands for the
  object's properties. The constructor and the methods `ParseDefs`,
  `ParseWkt` and `DeriveConstants` each update `props`, and each is
  proved equal to the functions above.
- `Utm` covers `init` of the UTM projection (zone, hemisphere, origin and
  scale) and the delegation of `forward` and `inverse`.
- `ComplexArith` and `Nzmg` cover NZMG: the coefficient tables of
  `init`, the forward series, and the inverse series with Newton
  refinement. Each loop of the source is a method proved against a
  series function.
- `PhpStrings` models the PHP string built-ins the core relies on:
  `explode`, `trim`, `strtolower`/`strtoupper`, `substr`, `substr_count`,
  `floatval` and `intval`.

Numbers are Dafny `real`s, so the arithmetic is exact. PHP's loose
semantics are stated explicitly where the core depends on them:

- A missing array entry or `null` reads as 0 or "".
- Falsy strings are "" and "0".
- An undefined bare constant is a string, which is 0 in arithmetic.

The registries that proj4php keeps in static arrays (`defs`, `datum`,
`ellipsoid`, `primeMeridian`, `wktProjections`) are a `Registry` value
passed to the operations.

## Model

| member | source | states |
|---|---|---|
| Common.DatumType.Code | Common.php:27-32 | each datum type has its own code from 0 to 5, and decoding the code gives the type back |
| Common.DatumTypeOfCode | Common.php:27-32 | exactly the codes 0..5 name a datum type |
| Common.DatumCodesDistinct | Common.php:27-32 | two datum types share a code only when they are the same type |
| Common.Abs | Common.php:172-184 | the magnitude used by the adjust helpers is non-negative and equals x or -x |
| Common.Sign | Common.php:162-169 | sign is -1 exactly for negative arguments and 1 otherwise (including 0), and sign(x)·x = abs(x) |
| Common.AdjustLon | Common.php:172-176 | a longitude is unchanged exactly when it lies strictly inside ±π; otherwise one turn is taken off or added; one call brings any value within one and a half turns back into the principal range |
| Common.AdjustLonAtBoundary | Common.php:172-176 | ±π themselves are moved to the other side, and adjusting π twice returns π, so the helper is not idempotent at the boundary |
| Common.AdjustLonIdempotentInside | Common.php:172-176 | once a result lies strictly inside ±π, adjusting again leaves it alone |
| Common.AdjustLat | Common.php:180-184 | a latitude is unchanged exactly when it lies strictly inside ±π/2; otherwise π is taken off or added, bringing values within one and a half half-turns into range |
| Common.AsinzArgument | Common.php:122-128 | the argument passed on to asin is always in [-1, 1]: values inside are kept, values beyond are clamped to the nearer end |
| Common.E0fn | Common.php:131-134 | the nested form of e0 equals the series 1 - x/4 - 3x²/64 - 5x³/256 |
| Common.E1fn | Common.php:136-139 | the nested form of e1 equals 3x/8 + 3x²/32 + 45x³/1024 |
| Common.E2fn | Common.php:141-144 | the nested form of e2 equals 15x²/256 + 45x³/1024 |
| Common.E3fn | Common.php:146-149 | e3 equals 35x³/3072 |
| Common.EccentricitySeriesOnSphere | Common.php:131-149 | for zero eccentricity the meridian-distance coefficients are 1, 0, 0, 0 |
| Common.PjEnfn | Common.php:227-239 | five coefficients with en[0] - en[1] = 1 - es, en[0] the e0 series less the fourth-order term, and 1,0,0,0,0 on the sphere |
| Common.PjEnfnSecondPositive | Common.php:227-239 | for a true ellipsoid (0 < es < 1) the second coefficient is positive |
| Common.PjEnfnAsWritten | Common.php:232 | the code as written: en[1] is 0, because the bare name `es` is an undefined constant, and the other four coefficients are as intended |
| Common.PjEnfnAsWrittenBreaksSlope | Common.php:232 | for the WGS84 eccentricity, the as-written coefficients break en[0] - en[1] = 1 - es |
| Common.AdjustLonAsWritten | Common.php:172-176 | the code as written gives the intended value when no adjustment is needed and fails (None) exactly when one is |
| Common.AdjustLatAsWritten | Common.php:180-184 | the same for latitudes |
| Common.AdjustAsWrittenFailsAtBoundary | Common.php:172-184 | at π and π/2 the as-written helpers fail where the intended ones return the adjusted value |
| Datum.FloatVals | Datum.php:32-36 | each raw towgs84 entry is replaced by its floatval, in order, and the list keeps its length |
| Datum.DatumTypeFor | Datum.php:26-46 | the type is three-parameter or seven-parameter exactly when parameters are given and one of them is nonzero; seven-parameter exactly when a rotation or scale entry is nonzero; "none" otherwise gives NoDatum, and everything else is WGS84 |
| Datum.PadTo | Datum.php:38-50 | padding keeps every entry and reads missing ones as 0 |
| Datum.SevenParamUnits | Datum.php:47-50 | translations are kept, rotations are converted from arc seconds to radians, and the scale from parts per million to a factor 1 + s/10⁶ |
| Datum.SevenParamUnitsInvertible | Datum.php:47-50 | the unit conversion loses nothing: the stored rotations and scale give back the given ones |
| Datum.StoredParams | Datum.php:42-54 | the stored list is the read list, converted only when the datum is seven-parameter |
| Datum.ReadParams | Datum.php:34-36 | the floatval loop yields exactly FloatVals of the raw list |
| Datum.ClassifyParams | Datum.php:38-52 | the classification steps give the type of DatumTypeFor and the stored list of StoredParams |
| Datum.NewDatum | Datum.php:23-63 | a constructed datum has the type and parameters above, and copies a, b, es and ep2 from its projection |
| Datum.Datum.CompareDatums | Datum.php:71-99 | datums differ when the types differ, a differs, or es differs by more than 5e-11; otherwise three- and seven-parameter datums are equal exactly when their first three or seven parameters agree, a grid-shift pair is an error, and any other pair of the same type is equal exactly when a agrees and es is within 5e-11 |
| Datum.Grs80MatchesWgs84 | Datum.php:71-99 | two WGS84 datums on the GRS80 and the WGS84 squared eccentricity compare equal, as the comment at Datum.php:77-78 intends |
| Datum.CompareDatumsReflexive | Datum.php:71-99 | every datum that is not a grid shift equals itself |
| Datum.CompareDatumsSymmetric | Datum.php:71-99 | the comparison gives the same answer in either order |
| Datum.BursaWolf | Datum.php:360-372 | without rotation the seven-parameter shift is scaling by m then translating |
| Datum.BursaWolfAlongAxes | Datum.php:360-372 | the rotation part of the shift is orthogonal to the point and the rotation axis: with the translation taken off, the shifted point has the same projections on v and w as m·v |
| Datum.BursaWolfInverse | Datum.php:381-408 | without rotation the inverse shift undoes the translation and divides by the scale |
| Datum.BursaWolfInverseAlongAxes | Datum.php:381-408 | the inverse rotation leaves the projections of the unscaled point on itself and on the rotation axis unchanged |
| Datum.Datum.ToWgs84 | Datum.php:351-373 | a three-parameter datum moves a point by exactly its translation; datums that are neither three- nor seven-parameter leave it alone |
| Datum.Datum.FromWgs84 | Datum.php:381-408 | the reverse shift is undone by the forward one for three-parameter datums and for seven-parameter datums without rotation; other datums leave the point alone |
| Datum.Datum.GeocentricToWgs84 | Datum.php:351-373 | the point is replaced by its WGS84 shift: a translation for three-parameter datums, the Bursa-Wolf transform for seven-parameter ones, and no change otherwise |
| Datum.Datum.GeocentricFromWgs84 | Datum.php:381-408 | the point is replaced by the reverse shift: the translation taken off, or the inverse Bursa-Wolf step (undo the translation, divide by the scale, apply the transposed rotation) |
| Datum.ThreeParamRoundTrip | Datum.php:351-408 | for a three-parameter datum the two shifts undo each other in both orders |
| Datum.BursaWolfRoundTrip | Datum.php:360-372 | for a seven-parameter datum with rotation vector w, shifting to WGS84 and back gives v + \|w\|²v - (w·v)w: translation and scale are undone exactly, the rotation only up to terms of second order in the angles |
| Datum.InverseOfForward | Datum.php:360-398 | on plain numbers, taking the translation off the shift, dividing by the scale and rotating back gives v + \|w\|²v - (w·v)w |
| Datum.BursaWolfRoundTripWithoutRotation | Datum.php:360-398 | with zero rotations the two seven-parameter shifts undo each other exactly |
| Datum.OtherDatumsLeavePointsAlone | Datum.php:351-408 | WGS84, none, unknown and grid-shift datums leave points unchanged in both directions |
| Datum.BursaWolfAsWritten | Datum.php:370-372 | the code as written: x is right, but y and z use the already overwritten x (and y) |
| Datum.BursaWolfAsWrittenDiffers | Datum.php:370-372 | a 0.5 rad rotation about z applied to (0,1,0) gives y = 0.75 as written and 1.0 as intended |
| Datum.GeodeticRangeCheck | Datum.php:128-139 | latitudes up to 0.1% beyond a pole snap to that pole, latitudes further out are an error, and latitudes in range are kept; a longitude above π has 2π taken off |
| SrsCode.ResolveAlias | Proj.php:100-119 | codes that are neither URNs nor http URLs are kept unchanged; so are URNs that are not OGC CRS URNs, and http URLs whose address before `#` names neither epsg.org nor RIG.xml |
| SrsCode.ResolveCrsUrn | Proj.php:100-107 | `urn:ogc:def:crs:SPACE:VERSION:ID` becomes `SPACE:ID` |
| SrsCode.ResolveEpsgUrl | Proj.php:108-113 | an http URL naming epsg.org becomes `EPSG:` followed by its fragment |
| SrsCode.ResolveIgnfUrl | Proj.php:108-117 | an http URL whose address names RIG.xml (and not epsg.org) becomes `IGNF:` followed by its fragment |
| SrsCode.Identify | Proj.php:120-138 | the code is the resolved alias upper-cased; the authority is epsg, IGNF or CRS exactly when the code starts with EPSG, IGNF or CRS, and otherwise none; the number is the rest after the five-character `EPSG:`/`IGNF:` or four-character `CRS:` prefix (empty for a bare `EPSG`, `IGNF` or `CRS`), or the whole code when there is no authority |
| SrsCode.IdentifyEpsg | Proj.php:120-124 | `EPSG:n` gives authority epsg and number n upper-cased |
| SrsCode.IdentifyIgnf | Proj.php:120-129 | `IGNF:n` gives authority IGNF and number n upper-cased |
| SrsCode.IdentifyUrn | Proj.php:100-124 | an EPSG CRS URN is identified as `EPSG:ID` with number ID |
| SrsCode.IdentifyResolvedEpsg | Proj.php:120-124 | any code whose alias resolves to `EPSG:n` gets authority epsg and number n upper-cased |
| SrsCode.IdentifyEpsgUrl | Proj.php:108-124 | an epsg.org URL is identified as `EPSG:fragment` with number fragment |
| SrsCode.IdentifyIgnfUrl | Proj.php:108-129 | an IGN register URL `...RIG.xml#f` is identified as `IGNF:F` with authority IGNF and number F, f upper-cased |
| SrsCode.IdentifyEpsgRegister | Proj.php:108-124 | the EPSG register URL `http://www.epsg.org/#n` gives number n |
| SrsCode.ResolveAliasAsWritten | Proj.php:106 | the code as written: `strlen` of the exploded array is null, so the last-piece index is the piece at -1 (absent), and a CRS URN becomes `SPACE:` |
| SrsCode.UrnAsWrittenDropsNumber | Proj.php:106 | every CRS URN loses its number as written but keeps it as intended |
| SrsCode.UrnAsWrittenExample | Proj.php:106 | `urn:ogc:def:crs:EPSG::4326` resolves to `EPSG:` as written and to `EPSG:4326` as intended |
| ProjDefs.ParamName | Proj.php:520-526 | parameter names are lower-cased before the switch, so a name has no capital letters; a piece without `=` is its own name, trimmed and lower-cased |
| ProjDefs.IsLegalAxis | Proj.php:590-593 | an axis is legal exactly when it has three characters, each one of the direction letters e, w, n, s, u, d |
| ProjDefs.SetAxis | Proj.php:588-596 | a legal axis value is stored as the axis, an illegal one changes nothing, only the axis can change, and an unset or legal axis stays unset or legal |
| ProjDefs.SetParam | Proj.php:526-599 | only the axis case can change the axis, no case makes the axis illegal or changes the definition string; pm and axis set the carried value to their trimmed value, and every other case passes the value on |
| ProjDefs.ApplyDef | Proj.php:517-599 | an empty piece changes nothing; a piece never changes the definition string and keeps an unset or legal axis so |
| ProjDefs.ApplyDefs | Proj.php:516-600 | no pieces change nothing; reading the pieces never changes the definition string being read and keeps the axis unset or legal |
| ProjDefs.KeyOf | Proj.php:526-598 | the switch selects latTs, axis and pm exactly for those names |
| ProjDefs.PieceSplit | Proj.php:520-524 | a piece `key=value` names the trimmed, lower-cased key and carries value |
| ProjDefs.PieceWithoutValue | Proj.php:520-524 | a piece without `=` reuses the value carried from the piece before |
| ProjDefs.ApplyDefPiece | Proj.php:517-599 | reading a normalised `key=value` piece sets the property its key selects to that value |
| ProjDefs.LatZeroParam | Proj.php:547-548 | a piece `lat_0=v` (name in any case, blanks around it) sets latZero to v degrees in radians, and nothing else |
| ProjDefs.LatOneParam | Proj.php:549-550 | `lat_1=v` sets latOne to v degrees in radians, and nothing else |
| ProjDefs.LatTwoParam | Proj.php:551-552 | `lat_2=v` sets latTwo to v degrees in radians, and nothing else |
| ProjDefs.LonZeroParam | Proj.php:555-556 | `lon_0=v` sets longZero to v degrees in radians, and nothing else |
| ProjDefs.ZoneParam | Proj.php:571-572 | `zone=v` sets the zone to the integer value of v, and nothing else |
| ProjDefs.SouthParam | Proj.php:573-574 | `south`, with or without a value, sets the southern hemisphere flag, changes nothing else and keeps the carried value |
| ProjDefs.ToWgs84Param | Proj.php:575-576 | `towgs84=v` stores v split on commas as the datum parameters, and nothing else |
| ProjDefs.LatZeroSet | Proj.php:547-548 | the lat_0 case sets latZero to the value in degrees converted to radians, and nothing else |
| ProjDefs.LatOneSet | Proj.php:549-550 | the lat_1 case sets latOne the same way, and nothing else |
| ProjDefs.LatTwoSet | Proj.php:551-552 | the lat_2 case sets latTwo the same way, and nothing else |
| ProjDefs.LonZeroSet | Proj.php:555-556 | the lon_0 case sets longZero the same way, and nothing else |
| ProjDefs.ZoneSet | Proj.php:571-572 | the zone case sets the zone to the integer value, and nothing else |
| ProjDefs.SouthSet | Proj.php:573-574 | the south case sets the southern hemisphere flag whatever the value, and nothing else |
| ProjDefs.ToWgs84Set | Proj.php:575-576 | the towgs84 case stores the value split on commas, and nothing else |
| ProjDefs.CarriedValue | Proj.php:520-524 | after a piece (other than pm or axis) the carried value is that piece's value, or the earlier one |
| ProjDefs.LatTsNeverSet | Proj.php:521-553 | the `latTs` case can never be reached, because names are lower-cased: no definition sets latTs |
| ProjDefs.AxisStoredIffLegal | Proj.php:588-596 | an axis value is stored exactly when its trimmed form is three legal direction letters; otherwise the axis is unchanged |
| ProjDefs.SetProps | Proj.php:526-599 | only the axis case can change the axis, and no parameter makes a legal or unset axis illegal; only the latTs case can change latTs |
| ProjDefs.AxisCheckIntended | Proj.php:590-593 | checking the value itself accepts exactly the legal axes |
| ProjDefs.IsLegalAxisAsWritten | Proj.php:590 | the check as written accepts no value at all |
| ProjDefs.AxisAsWrittenRejectsAll | Proj.php:590 | as written the length is taken of the bare name `paramVal` (8 characters), so every axis, `enu` included, is rejected |
| ProjProps.InitialProps | Proj.php:23-67 | a new object records its input code and has no code, semi-major axis or datum yet |
| ProjObject.ParsedDefs | Proj.php:510-515 | defData is the registered definition of the code; without a truthy definition the properties are untouched apart from defData |
| ProjObject.ParseDefsWithoutDefinition | Proj.php:510-515 | a missing or falsy definition leaves the object as it was, without deriving constants |
| ProjObject.ParseDefsCompletes | Proj.php:507-602 | reading a definition always ends with a scale factor, a datum and an axis, and the axis is legal |
| ProjObject.Proj.ParseDefs | Proj.php:507-602 | the method's new properties are those of reading the definition and then deriving constants |
| ProjObject.Proj.ReadPieces | Proj.php:516-600 | the loop over the '+'-separated pieces leaves the properties that ApplyDefs gives, skipping empty pieces and carrying the last value to pieces without '=' |
| Wkt.WktMatch | Proj.php:352-356 | the pattern `^(\w+)\[(.*)\]$` (line 73): a match splits the string into a keyword of word characters, `[`, content without a line feed, and a closing `]` |
| Wkt.WktMatchNode | Proj.php:352-356 | every such string matches, with that keyword and content |
| Wkt.NumberIsNotNode | Proj.php:352 | a string without `[`, such as a number, is not a node |
| Wkt.NonNodeIsIgnored | Proj.php:352-500 | parsing a string that does not match changes nothing |
| Wkt.StripQuotes | Proj.php:360-361 | a leading `"` is always removed and then a trailing `"`, and nothing else: a name without quotes is kept, and a name that does not start or end with a quote keeps that end |
| Wkt.NodeTokens | Proj.php:357-359 | the content split on commas gives the child tokens: all of them for TOWGS84, whose name is fixed, and all but the first (the name) for any other keyword |
| Wkt.GroupTokens | Proj.php:371-387 | the closed groups (each followed by a comma) and the pending object together are the tokens rejoined with commas |
| Wkt.GroupChildren | Proj.php:371-387 | the token loop gives exactly the groups of GroupTokens |
| Wkt.GroupTokensInvariant | Proj.php:371-387 | the closed groups (each followed by a comma) and the pending object together are the tokens joined with commas, so nothing is lost or reordered; the running count is the bracket balance of the pending object; and each closed group has as many `[` as `]` |
| Wkt.GroupsShorter | Proj.php:371-387 | each group is shorter than the tokens rejoined with commas, so the recursion terminates |
| Wkt.ParseNode | Proj.php:352-387 | a node is found exactly when the pattern matches, and every child is shorter than the string |
| Wkt.AxisLetter | Proj.php:463-479 | EAST, WEST, NORTH, SOUTH, UP and DOWN give their letter, and anything else gives a blank |
| Wkt.SpliceAxis | Proj.php:482-491 | on a three-letter axis, x, y and z replace exactly the first, second and third letter and keep the length; any other name leaves the axis as it is |
| Wkt.SpliceAxisReplaces | Proj.php:480-491 | on a three-letter axis, X, Y and Z replace exactly the first, second and third letter |
| Wkt.ApplyNode | Proj.php:391-496 | each keyword consumes a prefix of the children, and the rest are parsed as child nodes |
| Wkt.SetWktParameter | Proj.php:429-455 | a PARAMETER node changes at most the false easting, false northing, scale factor, central meridian and latitude of origin |
| Wkt.ApplyNodeKeeps | Proj.php:391-496 | no keyword case sets any property outside those parseWKT handles (the authority and number, the definition string, the PROJ.4-only parameters and the derived constants are kept) |
| Wkt.NamingNodeKeeps | Proj.php:392-405 | the LOCAL_CS, GEOGCS and PROJCS cases keep every property parseWKT does not handle |
| Wkt.DatumNodeKeeps | Proj.php:408-416 | the PROJECTION, DATUM and LOCAL_DATUM cases keep every property parseWKT does not handle |
| Wkt.MeasureNodeKeeps | Proj.php:417-428 | the SPHEROID, PRIMEM and UNIT cases keep every property parseWKT does not handle |
| Wkt.ParameterNodeKeeps | Proj.php:429-491 | the PARAMETER, TOWGS84 and AXIS cases keep every property parseWKT does not handle |
| Wkt.ApplyWkt | Proj.php:349-500 | a string that is not a node changes nothing, and parsing never sets a property outside those parseWKT handles |
| Wkt.ApplyWktAll | Proj.php:498-499 | parsing no children changes nothing, and parsing children never sets a property outside those parseWKT handles |
| Wkt.ParseQuotedNode | Proj.php:352-387 | `KEYWORD["name",t1,...,tn]` with bracket-free tokens reads as that keyword, the unquoted name and the tokens as children |
| Wkt.ApplyQuotedLeaf | Proj.php:352-499 | parsing such a node whose keyword consumes every child is applying that keyword |
| Wkt.AxisWkt | Proj.php:460-491 | `AXIS["name",DIR]` sets the axis to the current one (or `enu` when unset or falsy) with the named x, y or z position replaced by DIR's letter; any other name leaves that starting axis; nothing else changes |
| Wkt.AxisNode | Proj.php:460-491 | an AXIS node with one child sets the axis to the current one (or `enu`) spliced at the lower-cased name with the direction's letter, and consumes the child |
| Wkt.SpheroidWkt | Proj.php:417-421 | `SPHEROID["name",a,rf]` sets the ellipsoid name, a and rf, and nothing else |
| Wkt.SpheroidNode | Proj.php:417-421 | a SPHEROID node with two children sets the ellipsoid name, a and rf from them and consumes both |
| Wkt.ParameterWkt | Proj.php:429-455 | `PARAMETER["name",v]` sets false easting, false northing or the scale factor to v, or the central meridian or latitude of origin to v degrees in radians, by the lower-cased name; any other name changes nothing |
| Wkt.ParameterNode | Proj.php:429-455 | a PARAMETER node with one child sets the parameter its lower-cased name selects to the child's value and consumes it |
| Wkt.GeogcsNode | Proj.php:397-402 | a GEOGCS node sets the projection to longlat and geocsCode to its name, sets srsCode to the name only when srsCode is unset or falsy, and leaves every child to be parsed |
| Wkt.ToWgs84Node | Proj.php:456-458 | a TOWGS84 node stores all its values as the datum parameters, and parsing those values afterwards changes nothing |
| Wkt.GroupTokensAsWritten | Proj.php:377 | the code as written counts brackets per token, not in the running object |
| Wkt.GroupingAsWrittenSplitsNode | Proj.php:377 | for the tokens of `S["a",1,2]` the as-written loop closes the unbalanced group `S["a",1` and drops the trailing `2]`, while the running count keeps the node whole |
| Wkt.SpliceAxisAsWritten | Proj.php:480-491 | the code as written: the splice compares the name with the capitals X, Y and Z |
| Wkt.AxisAsWrittenNeverSplices | Proj.php:461-491 | as written the lower-cased name never equals `X`, `Y` or `Z`, so the X/Y/Z splice never fires: the axis keeps its value, and an unset axis becomes `enu` |
| ProjObject.ReadNode | Proj.php:352-387 | reading a node gives ParseNode of the string, with children shorter than it |
| ProjObject.ApplyWktNode | Proj.php:391-499 | parsing a node applies its keyword, then parses the remaining children |
| ProjObject.Proj.ParseWkt | Proj.php:349-500 | the method's new properties are those of ApplyWkt on the old ones |
| ProjObject.Proj.ParseChildren | Proj.php:498-499 | parsing the children in order gives ApplyWktAll |
| ProjObject.ApplyWktAllStep | Proj.php:498-499 | parsing one more child parses that child after the ones before it |
| ProjObject.IdentifiedProps | Proj.php:86-138 | a non-WKT code records the input and the code, authority and number of Identify |
| ProjObject.Proj.constructor | Proj.php:83-140 | a WKT code is parsed and then derived; any other code is identified |
| Derive.DatumStage | Proj.php:612-624 | `@null` grids force datum "none"; a registered datum other than none supplies its towgs84 list, ellipsoid and name; nothing else changes |
| Derive.EllipseKey | Proj.php:626-630 | the ellipsoid used is the named one when it is registered and non-empty, and WGS84 otherwise |
| Derive.Extend | Proj.php:625-633 | extending by an ellipsoid sets a, sets b, rf and the name to the ellipsoid's where it has them and keeps the old ones where not, and changes nothing else |
| Derive.EllipseStage | Proj.php:625-633 | a given semi-major axis leaves the properties unchanged; otherwise a registered ellipsoid sets a, and its b, rf and name replace the old ones where it has them; an unregistered key changes nothing; only a, b, rf and the ellipsoid name ever change |
| Derive.ShapeOf | Proj.php:635-652 | the sphere flag is set exactly when a and b agree within epsln (and then b = a); es·a² = a² - b², ep2·b² = a² - b², and with R_A the radius is the authalic one and es = 0 |
| Derive.ShapeStage | Proj.php:635-652 | the derived a, b, squared axes, es and ep2 are written into the properties, the sphere flag is only ever switched on, and the code, projection, origin, scale, axis, R_A flag and datum fields are kept |
| Derive.SemiMinor | Proj.php:635-636 | the semi-minor axis is the given b; without b it is the one with flattening (a - b)/a = 1/rf, and without either it is 0 |
| Derive.EllipsoidalShape | Proj.php:642-652 | the squared axes are positive, and es and ep2 satisfy their defining equations |
| Derive.AuthalicShape | Proj.php:646-652 | with R_A, a becomes the authalic radius from the ellipsoidal es, and es becomes 0 |
| Derive.EllipsoidShape | Proj.php:635-652 | with b the given semi-minor axis or (1 - 1/rf)·a, the shape is a sphere exactly when \|a - b\| < epsln, and then its b is a; otherwise a given b is kept, and a b derived from rf has flattening 1/rf |
| Derive.FlatteningFromRf | Proj.php:635-636 | the semi-minor axis from rf has flattening (a - b)/a = 1/rf |
| Derive.SphereHasNoEccentricity | Proj.php:638-652 | a sphere has b = a and es = 0 (and ep2 = 0 without R_A) |
| Derive.EccentricityRange | Proj.php:642-652 | es < 1, es ≥ 0 when b ≤ a, and ep2·(1 - es) = es |
| Derive.DefaultsStage | Proj.php:653-661 | an unset scale becomes 1.0 and an unset axis becomes `enu`; nothing else changes |
| Derive.DatumObject | Proj.php:663 | the datum object is the Datum constructor's result on the derived values |
| Derive.DeriveConstants | Proj.php:609-664 | after derivation the scale and axis are set, a and b are set with b ≠ 0, the sphere flag is right, R_A gives es = 0, the datum carries a, b, es and ep2 and is classified from the datum parameters, and the code and origin are unchanged |
| Derive.NullGridsMeanNoDatum | Proj.php:612-663 | `nadgrids=@null` without a towgs84 list gives a NoDatum datum |
| Derive.Wgs84Fallback | Proj.php:626-633 | with no ellipsoid, datum or radius, the WGS84 ellipsoid is used |
| Derive.RegisteredDatumEllipse | Proj.php:615-633 | a registered datum that names GRS80 makes GRS80 the ellipsoid, and its radius is used when no radius was given (without R_A) |
| ProjObject.Proj.DeriveConstants | Proj.php:609-664 | the method's new properties are DeriveConstants of the old ones |
| Utm.CentralMeridian | projCode/utm.php:52 | zone n has central meridian (6\|n\| - 183)° in radians, within ±177° for zones 1..60 |
| Utm.UtmOrigin | projCode/utm.php:43-56 | the origin has latitude 0, false easting 500,000, scale 0.9996 and the central meridian of the zone; the false northing is 0 exactly in the northern hemisphere |
| Utm.ZoneSignIgnored | projCode/utm.php:52 | zone -n and zone n give the same origin |
| Utm.AdjacentZones | projCode/utm.php:52 | adjacent zones have central meridians 6° apart |
| Utm.MeridianInsideZone | projCode/utm.php:52 | zones 1..60 have central meridians -177°..177°, 3° east of the zone's western edge |
| Utm.HemispheresDiffer | projCode/utm.php:36-54 | the south hemisphere differs only by a false northing of 10,000,000 m |
| Utm.UtmProjection.constructor | projCode/utm.php:36 | a new UTM projection holds its zone, hemisphere and origin |
| Utm.UtmProjection.Init | projCode/utm.php:43-56 | init succeeds exactly when a zone is set; it then sets latitude 0, the zone's central meridian, false easting 500,000, the hemisphere's false northing and scale 0.9996, and without a zone nothing changes |
| Utm.RoundTripIffTmerc | projCode/utm.php:63-76 | forward and inverse both delegate to transverse Mercator, so UTM inverse undoes UTM forward at a point exactly when the transverse Mercator pair does |
| ComplexArith.Div | projCode/nzmg.php:315-317 | the quotient times the divisor is the dividend |
| ComplexArith.DivZero | projCode/nzmg.php:315-317 | the quotient is zero exactly when the dividend is |
| ComplexArith.Pow | projCode/nzmg.php:231-235 | powers of one are one, and positive powers of zero are zero |
| ComplexArith.PowAdd | projCode/nzmg.php:231-235 | the running power obeys the exponent law z^(j+k) = z^j·z^k |
| ComplexArith.Series | projCode/nzmg.php:231-238 | the power series Σ c_k·z^k vanishes at z = 0 |
| ComplexArith.SeriesStep | projCode/nzmg.php:231-238 | adding term n to the partial sum of n - 1 terms gives the partial sum of n terms |
| Nzmg.NzmgProjection.constructor | projCode/nzmg.php:133 | a new projection has one refinement iteration and empty tables |
| Nzmg.NzmgProjection.Init | projCode/nzmg.php:138-192 | init installs the A, B, C and D tables (10, 6, 6 and 9 coefficients) |
| Nzmg.PowOfReal | projCode/nzmg.php:214-235 | on the real axis the complex power is the real power |
| Nzmg.SeriesOfReal | projCode/nzmg.php:214-238 | with real coefficients and a real argument the complex series equals the real series |
| Nzmg.SumRealSeries | projCode/nzmg.php:214-217 | the real loop computes Σ c_k·x^k over its terms (also the D series at lines 326-329) |
| Nzmg.SumComplexSeries | projCode/nzmg.php:229-238 | the complex loop computes the series Σ c_k·θ^k of the split real and imaginary tables (also the C series at lines 266-278) |
| Nzmg.ForwardTerm | projCode/nzmg.php:229-237 | one pass of the loop multiplies the running power by θ and adds the coefficient times that power to the sum |
| Nzmg.SeriesUnitsInvert | projCode/nzmg.php:209-333 | the latitude scaling to 10⁻⁵ arc seconds and back loses nothing |
| Nzmg.ForwardXYOf | projCode/nzmg.php:198-244 | easting is Im z·a + x0 and northing is Re z·a + y0, with z the B series at θ = dψ + i·dλ |
| Nzmg.SeriesOfOrigin | projCode/nzmg.php:209-238 | at the grid origin θ is 0 and the B series is 0 |
| Nzmg.ForwardXY | projCode/nzmg.php:198-244 | the grid origin maps to the false easting and northing |
| Nzmg.ForwardPoint | projCode/nzmg.php:198-244 | the forward loops give the easting and northing of ForwardXY |
| Nzmg.NzmgProjection.Forward | projCode/nzmg.php:198-244 | the point is replaced by the easting and northing ForwardPoint computes, and its height is kept |
| Nzmg.InverseZ | projCode/nzmg.php:257-262 | the false origin gives z = 0 |
| Nzmg.FirstTheta | projCode/nzmg.php:266-278 | the first estimate of θ is 0 at z = 0 |
| Nzmg.NumSeries | projCode/nzmg.php:290-299 | the Newton numerator z + Σ(n - 1)·b_n·θ^n vanishes at z = θ = 0 |
| Nzmg.DenSeries | projCode/nzmg.php:301-312 | the Newton denominator Σ n·b_n·θ^(n-1) is b_1 at θ = 0 |
| Nzmg.SumNumerator | projCode/nzmg.php:285-299 | the numerator loop computes NumSeries |
| Nzmg.SumDenominator | projCode/nzmg.php:301-312 | the denominator loop computes DenSeries |
| Nzmg.RefineStep | projCode/nzmg.php:284-318 | one refinement gives 0 exactly when the Newton numerator vanishes |
| Nzmg.RefineOnce | projCode/nzmg.php:284-318 | one refinement pass computes RefineStep |
| Nzmg.DenTimesTheta | projCode/nzmg.php:290-312 | θ times the denominator is the series at θ plus the numerator less z |
| Nzmg.NewtonStep | projCode/nzmg.php:284-318 | the refinement is a Newton step: (θ - θ')·f'(θ) = f(θ) - z for f the B series |
| Nzmg.RefineAtZero | projCode/nzmg.php:284-318 | at z = 0, θ = 0 is a fixed point of every number of refinements |
| Nzmg.InverseLonLatOf | projCode/nzmg.php:250-340 | longitude is λ0 + Im θ and latitude is φ0 plus the D series of Re θ, with θ the refined value |
| Nzmg.InverseOfOrigin | projCode/nzmg.php:250-340 | the false origin maps back to the grid origin for any number of iterations |
| Nzmg.InverseAtZeroTheta | projCode/nzmg.php:320-340 | whenever the refined θ is 0 the point maps back to the grid origin |
| Nzmg.OriginRoundTrip | projCode/nzmg.php:198-340 | the forward and then inverse projection of the grid origin gives the origin back |
| Nzmg.NzmgProjection.Inverse | projCode/nzmg.php:250-340 | the point is replaced by its longitude and latitude, and its height is kept |
| Nzmg.PowAsWritten | projCode/nzmg.php:293-294 | as written the undefined constant `th_re` reads as 0, so a real θ gives zero powers |
| Nzmg.NumAsWritten | projCode/nzmg.php:293-298 | as written the numerator of a real θ is just z, because every term is lost |
| Nzmg.DenAsWritten | projCode/nzmg.php:305-311 | as written the real part of the denominator is right, but its imaginary part reads `bIm[n]` as 0 |
| Nzmg.RefineStepAsWritten | projCode/nzmg.php:284-318 | as written, at a real θ the refinement is z divided by the as-written denominator, whatever the series |
| Nzmg.RefineAsWrittenDropsSeries | projCode/nzmg.php:284-318 | at z = 0 and a real θ, the as-written refinement returns 0 whatever θ was |
| Nzmg.RefineAsWrittenAtOne | projCode/nzmg.php:284-318 | with the NZMG B table, z = 0 and θ = 1, the as-written step gives 0 |
| Nzmg.RefineAtOne | projCode/nzmg.php:284-318 | the intended step from the same input does not give 0 |
| Nzmg.CorrectedStepMoves | projCode/nzmg.php:284-318 | the intended step is nonzero whenever the numerator is |

## Left out

- `Common.php` helpers that are not part of this core (`msfnz`, `tsfnz`, `phi2z`, `qsfnz`, `mlfn`, `srat`, `latiso`, `invlatiso`, `gN`, `pjMlfn`, `pjInvMlfn` and the rest) are not modelled. `asinz` is reduced to the clamp of its argument, because Dafny has no `asin` on reals. `Sign` uses an `int` where PHP returns a number.
- Floating point is modelled by exact reals. Rounding, NaN and infinities are not represented, and the constants are taken as their decimal literals.
- `e = sqrt(es)` (Proj.php:645) is not stored, because there is no square root on reals.
- `GeodeticToGeocentric`, `geocentricToGeodetic` and `geocentricToGeodeticNoniter` are represented only by the range check at the start of the first. The rest is trigonometry and iteration over floating point.
- `loadProjDefinition`, `loadProjCode`, `initTransforms` and the dynamic `extend` of the `Proj` object with projection code are not modelled. The registries are a `Registry` value, and the projections are separate classes.
- The projections other than UTM and NZMG are not part of this model. Transverse Mercator is not part of it either: `Utm.Forward` and `Utm.Inverse` take the tmerc function as a parameter, so only the delegation is modelled.
- `Utm.UtmProjection.Init`: `reportError` becomes the `ok` result, which is false when no zone is set.
- The regular expression `^(\w+)\[(.*)\]$` is modelled directly: `\w` is an ASCII letter, digit or underscore, and the `$` anchor admits one trailing line feed.
- `floatval` and `intval` read an optional sign, digits and a decimal fraction. Exponents, hexadecimal numbers and locale forms are not modelled.
- `strtolower`, `strtoupper` and `trim` act on ASCII only, as PHP's byte functions do on ASCII input.
- `Derive.FlatteningFromRf`, `Derive.ShapeOf`, `Derive.EllipsoidalShape`, `Derive.AuthalicShape` and `Derive.EllipsoidShape` require nonzero `a`, `b` and `rf`. PHP would divide by zero, and the model does not say what happens then.
- `Derive.DeriveConstants` requires `Derivable`, which says the ellipsoid found has a nonzero radius and semi-minor axis. The same precondition is carried by `ProjObject.Proj.DeriveConstants`, `ProjObject.Proj.ParseDefs` and `ProjObject.Proj.constructor`.
- `Derive.DeriveConstants` and `ProjObject.Proj.DeriveConstants` keep the projection's own `datumParams` as the strings that were read. The datum constructor (Datum.php:34, 46-49) also rewrites that list in place: every entry becomes a float, and for seven parameters the rotations are multiplied by secToRad and the scale becomes s/10⁶ + 1. The model keeps the converted values only in the `Datum` it builds (`Datum.StoredParams`), because nothing in this core reads the projection's list after the datum exists.
- `Datum.Datum.GeocentricFromWgs84` requires a nonzero scale for a seven-parameter datum. The stored scale is 1 + s/10⁶, so this fails only for s = -10⁶.
- `Nzmg.NzmgProjection.Inverse` requires a ≠ 0 and a nonzero Newton denominator at every iteration (`Refinable`), where PHP would divide by zero.
- `rf === 0` (Proj.php:638) compares a float with an integer strictly, so it is never true. The sphere test is therefore only |a - b| < epsln.
- Some spellings in the source are read as evidently intended, not as findings:
  - the class prefixes `ProjFourphp_` and `Proj4php_`;
  - `datum_params` in `Proj.php` against `datumParams` in `Datum.php`;
  - `$pjdThreeParam` against `$pjd3Param`;
  - `$$this->srsCode` at Proj.php:404, which would be a fatal error;
  - the bare `paramVal` of the `rf` and `lonc` cases (Proj.php:545,559).
  - `ProjFourphp::$common->dToR` (projCode/utm.php:52) and `ProjFourphp::$common->secToRad` (projCode/nzmg.php:209, 333). No `$common` object is defined in these sources; the model reads them as the static `$dToR` and `$secToRad` of `Common.php:18-19`.
- `ProjDefs.LatTsNeverSet`: the `latTs` case of `parseDefs` (Proj.php:553) can never be reached, because the parameter name is lower-cased first (Proj.php:521). The model keeps the case label as written, so no definition ever sets latTs. PROJ.4 spells the parameter `lat_ts`, which the source does not recognise at all.
- Exceptions: the grid-shift case of `compare_datums` returns an `Err` value in place of throwing.
- `WSProj4PHP_1.0.php` (the web service) and the tests are not part of this model.
- `Proj::transform`, point conversion between projections, units and `to_meter` scaling are not part of this model. Of the properties only those of the core operations are tracked.

## Findings

| source | as written | input that shows it | evidently intended | confidence | as-written member | corrected member |
|---|---|---|---|---|---|---|
| Common.php:232 | `en[1]` multiplies by the bare name `es`, an undefined constant that reads as 0 | es = 0.00669437999014 (WGS84) gives en[1] = 0, so en[0] - en[1] ≠ 1 - es | `$es` | not executed | Common.PjEnfnAsWritten, Common.PjEnfnAsWrittenBreaksSlope | Common.PjEnfn, Common.PjEnfnSecondPositive |
| Common.php:174-182 | `self::$sign($x)` calls the static method named by the undefined variable `$sign`, an error, so any needed adjustment fails | x = π in adjustLon and x = π/2 in adjustLat | `self::sign($x)` | not executed | Common.AdjustLonAsWritten, Common.AdjustLatAsWritten, Common.AdjustAsWrittenFailsAtBoundary | Common.AdjustLon, Common.AdjustLat, Common.AdjustLonAtBoundary |
| Datum.php:370-372 | the seven-parameter shift overwrites `x` (and `y`) before computing `y` and `z` from them | rotation 0.5 rad about z and point (0,1,0): y = 0.75 in place of 1.0 | compute from the original x, y and z, as `geocentric_from_wgs84` does | not executed | Datum.BursaWolfAsWritten, Datum.BursaWolfAsWrittenDiffers | Datum.Datum.GeocentricToWgs84, Datum.BursaWolfRoundTrip |
| Proj.php:106 | `strlen($urn)` of an array is null, so the last piece is `$urn[-1]`, which is absent | `urn:ogc:def:crs:EPSG::4326` becomes `EPSG:` | `count($urn) - 1` | not executed | SrsCode.ResolveAliasAsWritten, SrsCode.UrnAsWrittenDropsNumber, SrsCode.UrnAsWrittenExample | SrsCode.ResolveAlias, SrsCode.ResolveCrsUrn |
| Proj.php:590 | `strlen(paramVal)` measures the bare name (8 characters), so no axis passes | `+axis=enu` is rejected | `strlen($paramVal)` | not executed | ProjDefs.IsLegalAxisAsWritten, ProjDefs.AxisAsWrittenRejectsAll | ProjDefs.IsLegalAxis, ProjDefs.AxisCheckIntended, ProjDefs.AxisStoredIffLegal |
| Proj.php:377 | the bracket count is reset for each token, not kept for the running object | `S["a",1,2]` inside a node: the count returns to zero after `1`, so the unbalanced group `S["a",1` is closed there, and the trailing `2],` stays open and is dropped | `$bkCount +=` | not executed | Wkt.GroupTokensAsWritten, Wkt.GroupingAsWrittenSplitsNode | Wkt.GroupTokens, Wkt.GroupChildren, Wkt.GroupTokensInvariant |
| Proj.php:461-488 | the AXIS name is lower-cased but compared with `X`, `Y` and `Z` | `AXIS["X",NORTH]` leaves `enu` unchanged | compare with lower-case names (or do not lower-case) | not executed | Wkt.SpliceAxisAsWritten, Wkt.AxisAsWrittenNeverSplices | Wkt.SpliceAxis, Wkt.SpliceAxisReplaces |
| projCode/nzmg.php:293-311 | `th_re`, `(n - 1)` and `bIm[n]` use undefined constants: `th_re` reads as 0, `(n - 1)` as -1, and `bIm[n]` is a missing key that reads as 0 | NZMG B table, z = 0, θ = 1: the refinement returns 0 | `$thRe`, `($n - 1)`, `bIm[$n]` | not executed | Nzmg.RefineStepAsWritten, Nzmg.RefineAsWrittenAtOne, Nzmg.RefineAsWrittenDropsSeries | Nzmg.RefineStep, Nzmg.RefineAtOne, Nzmg.NewtonStep |
