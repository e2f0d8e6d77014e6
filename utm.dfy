/** The Universal Transverse Mercator projection of projCode/utm.php: its
    `init` turns a zone number and a hemisphere into the parameters of a
    Transverse Mercator projection, to which `forward` and `inverse` hand
    every point. */
module Utm {
  import opened Wrappers
  import opened Common
  import opened Points

  /** The projection parameters `init` sets. */
  datatype Origin = Origin(latZero: real, longZero: real, xZero: real, yZero: real, kZero: real)

  const FalseEasting: real := 500000.0
  const SouthFalseNorthing: real := 10000000.0
  const UtmScale: real := 0.9996

  function IntAbs(z: int): nat {
    if z < 0 then -z else z
  }

  /** The central meridian of a zone, in radians: 3 degrees east of the
      western edge of the zone's six-degree strip, counted east from 180
      degrees west, so zones 1 to 60 lie within 177 degrees of Greenwich. */
  function CentralMeridian(zone: int): (r: real)
    ensures r == ((-180 + 6 * (IntAbs(zone) - 1)) as real + 3.0) * DToR
    ensures 1 <= IntAbs(zone) <= 60 ==> -177.0 * DToR <= r <= 177.0 * DToR
  {
    (6 * IntAbs(zone) - 183) as real * DToR
  }

  /** The parameters of a zone, in the northern or southern hemisphere:
      the equator at the zone's central meridian, whatever the sign of the
      zone number, with the fixed false easting and scale, and a false
      northing only in the south. */
  function UtmOrigin(zone: int, south: bool): (r: Origin)
    ensures r.latZero == 0.0 && r.xZero == FalseEasting && r.kZero == UtmScale
    ensures r.longZero == CentralMeridian(-zone)
    ensures r.yZero == 0.0 <==> !south
  {
    Origin(0.0, CentralMeridian(zone), FalseEasting,
           if south then SouthFalseNorthing else 0.0, UtmScale)
  }

  /** The sign of the zone number plays no part. */
  lemma ZoneSignIgnored(zone: int, south: bool)
    ensures UtmOrigin(-zone, south) == UtmOrigin(zone, south)
  {
  }

  /** Neighbouring zones have central meridians six degrees apart. */
  lemma AdjacentZones(zone: nat)
    ensures CentralMeridian(zone + 1) - CentralMeridian(zone) == 6.0 * DToR
  {
  }

  /** Zones 1 to 60 have their central meridian in the middle of their own
      six-degree strip, which runs east from 180 degrees west. */
  lemma MeridianInsideZone(zone: int)
    requires 1 <= zone <= 60
    ensures CentralMeridian(zone) == ((-180 + 6 * (zone - 1)) as real + 3.0) * DToR
    ensures -177.0 * DToR <= CentralMeridian(zone) <= 177.0 * DToR
  {
  }

  /** The two hemispheres differ in the false northing alone. */
  lemma HemispheresDiffer(zone: int)
    ensures UtmOrigin(zone, true).yZero - UtmOrigin(zone, false).yZero == SouthFalseNorthing
    ensures UtmOrigin(zone, true).(yZero := 0.0) == UtmOrigin(zone, false)
  {
  }

  class UtmProjection {
    var zone: Option<int>
    var utmSouth: bool
    var latZero: real
    var longZero: real
    var xZero: real
    var yZero: real
    var kZero: real

    /** A projection object with the parameters it was given; the
        hemisphere is the northern one unless `south` is set. */
    constructor(zone: Option<int>, south: bool, latZero: real, longZero: real,
                xZero: real, yZero: real, kZero: real)
      ensures this.zone == zone && utmSouth == south
      ensures Params() == Origin(latZero, longZero, xZero, yZero, kZero)
    {
      this.zone := zone;
      utmSouth := south;
      this.latZero := latZero;
      this.longZero := longZero;
      this.xZero := xZero;
      this.yZero := yZero;
      this.kZero := kZero;
    }

    function Params(): Origin
      reads this
    {
      Origin(latZero, longZero, xZero, yZero, kZero)
    }

    /** `init`: without a zone it reports an error (`ok` is false) and sets
        nothing; otherwise the parameters become those of the zone. */
    method Init() returns (ok: bool)
      modifies this
      ensures ok <==> old(zone).Some?
      ensures zone == old(zone) && utmSouth == old(utmSouth)
      ensures !ok ==> Params() == old(Params())
      ensures ok ==> Params() == UtmOrigin(zone.value, utmSouth)
    {
      if zone.None? {
        return false;
      }
      latZero := 0.0;
      longZero := ((6 * IntAbs(zone.value)) - 183) as real * DToR;
      xZero := 500000.0;
      yZero := if utmSouth then 10000000.0 else 0.0;
      kZero := 0.9996;
      return true;
    }
  }

  /** `forward`: the Transverse Mercator forward projection, unchanged. */
  function Forward(tmercForward: Vec3 -> Vec3, p: Vec3): Vec3 {
    tmercForward(p)
  }

  /** `inverse`: the Transverse Mercator inverse projection, unchanged. */
  function Inverse(tmercInverse: Vec3 -> Vec3, p: Vec3): Vec3 {
    tmercInverse(p)
  }

  /** Since both directions delegate, UTM undoes its own forward
      projection exactly where Transverse Mercator does. */
  lemma RoundTripIffTmerc(tmercForward: Vec3 -> Vec3, tmercInverse: Vec3 -> Vec3, p: Vec3)
    ensures Inverse(tmercInverse, Forward(tmercForward, p)) == p <==> tmercInverse(tmercForward(p)) == p
  {
  }
}
