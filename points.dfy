/** The point that every transform stage reads and overwrites in place:
    longitude/latitude in radians, projected metres, or geocentric X/Y/Z,
    depending on the stage. */
module Points {

  /** A point's three coordinates as a value. */
  datatype Vec3 = Vec3(x: real, y: real, z: real)

  class Point {
    var x: real
    var y: real
    var z: real

    constructor (x: real, y: real, z: real)
      ensures this.x == x && this.y == y && this.z == z
    {
      this.x, this.y, this.z := x, y, z;
    }

    function Coords(): Vec3
      reads this
    {
      Vec3(x, y, z)
    }
  }
}
