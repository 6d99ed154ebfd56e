/** The zone occupancy tester of python/core/utils.py (`ZoneStatus`,
    `ZoneManager`): court zones are integer polygons; a zone is occupied when
    at least one ankle lies inside it or on its boundary. OpenCV's
    `pointPolygonTest` is not modelled: it is a parameter whose sign is
    read exactly as the source reads it (positive inside, zero on the
    boundary, negative outside). */
module ZoneOccupancy {
  import opened Numeric
  import opened Configuration
  import opened Geometry

  datatype Vertex = Vertex(x: int, y: int)

  /** A polygon as an ordered list of vertices. */
  type Zone = seq<Vertex>

  /** Stand-in for `cv2.pointPolygonTest(zone, point, False)`. */
  type PolygonTest = (Point, Zone) -> real

  /** `_point_in_zone`: inside or on the boundary. */
  predicate InZone(test: PolygonTest, p: Point, z: Zone)
  {
    test(p, z) >= 0.0
  }

  datatype ZoneStatus = ZoneStatus(activeCount: int, occupancy: seq<bool>)

  /** `sum(occupied)`: the number of `True` entries. */
  function CountTrue(s: seq<bool>): (n: nat)
    ensures n <= |s|
    ensures n == |s| <==> forall i :: 0 <= i < |s| ==> s[i]
    ensures n == 0 <==> forall i :: 0 <= i < |s| ==> !s[i]
  {
    if s == [] then 0 else CountTrue(s[..|s| - 1]) + (if s[|s| - 1] then 1 else 0)
  }

  /** Some ankle of the list lies in the zone. */
  predicate Occupied(test: PolygonTest, ankles: seq<Point>, z: Zone)
  {
    exists j :: 0 <= j < |ankles| && InZone(test, ankles[j], z)
  }

  /** Numpy's `(coordinate * factor).astype(np.int32)`. */
  function ScaleCoord(c: int, factor: real): int
  {
    Trunc(c as real * factor)
  }

  /** One polygon scaled vertex by vertex. */
  function ScaleZone(z: Zone, factor: real): Zone
  {
    seq(|z|, k requires 0 <= k < |z| => Vertex(ScaleCoord(z[k].x, factor), ScaleCoord(z[k].y, factor)))
  }

  function ScaleAll(zones: seq<Zone>, factor: real): seq<Zone>
  {
    seq(|zones|, i requires 0 <= i < |zones| => ScaleZone(zones[i], factor))
  }

  /** Scaling by 1.0 (processing at the authoring width) leaves every
      polygon as it was. */
  lemma ScaleByOneIsIdentity(zones: seq<Zone>)
    ensures ScaleAll(zones, 1.0) == zones
  {
    forall i | 0 <= i < |zones|
      ensures ScaleAll(zones, 1.0)[i] == zones[i]
    {
      var z := zones[i];
      forall k | 0 <= k < |z|
        ensures ScaleZone(z, 1.0)[k] == z[k]
      {
        assert ScaleCoord(z[k].x, 1.0) == z[k].x;
        assert ScaleCoord(z[k].y, 1.0) == z[k].y;
      }
    }
  }

  /** A scaled coordinate never exceeds the exact product in magnitude, and
      is within one pixel of it. */
  lemma ScaledCoordinateBounds(c: int, factor: real)
    ensures var t := ScaleCoord(c, factor);
      (c as real * factor >= 0.0 ==> 0.0 <= c as real * factor - t as real < 1.0)
      && (c as real * factor < 0.0 ==> 0.0 <= t as real - c as real * factor < 1.0)
  {
  }

  class ZoneManager {
    const config: Config
    var zones: seq<Zone>
    var scaledZones: seq<Zone>
    var scaleFactor: real

    constructor (config: Config)
      ensures this.config == config
      ensures zones == [] && scaledZones == [] && scaleFactor == 1.0
    {
      this.config := config;
      zones := [];
      scaledZones := [];
      scaleFactor := 1.0;
    }

    /** `load_zones` once the JSON file has been read: the file's polygons
        become the zones, unchecked (no vertex-count validation). */
    method LoadZones(data: seq<Zone>)
      modifies this`zones
      ensures zones == data
    {
      zones := data;
    }

    /** `scale_zones`: records `target_width / original_width` and derives a
        truncated copy of every zone. */
    method ScaleZones(originalWidth: int, targetWidth: int)
      requires originalWidth != 0
      modifies this`scaleFactor, this`scaledZones
      ensures scaleFactor == targetWidth as real / originalWidth as real
      ensures |scaledZones| == |zones|
      ensures forall i :: 0 <= i < |zones| ==> |scaledZones[i]| == |zones[i]|
      ensures forall i, k :: 0 <= i < |zones| && 0 <= k < |zones[i]| ==>
        scaledZones[i][k] == Vertex(ScaleCoord(zones[i][k].x, scaleFactor), ScaleCoord(zones[i][k].y, scaleFactor))
    {
      scaleFactor := targetWidth as real / originalWidth as real;
      scaledZones := ScaleAll(zones, scaleFactor);
    }

    /** The polygons checked: the scaled copy if one was made, else the
        loaded zones. */
    function ZonesToCheck(): seq<Zone>
      reads this
    {
      if scaledZones != [] then scaledZones else zones
    }

    /** `check_occupancy`: one entry per checked zone, true exactly when
        some ankle lies inside it or on its boundary; the count is the
        number of true entries. */
    method CheckOccupancy(ankles: seq<Point>, test: PolygonTest) returns (status: ZoneStatus)
      ensures |status.occupancy| == |ZonesToCheck()|
      ensures forall i :: 0 <= i < |ZonesToCheck()| ==>
        (status.occupancy[i] <==> Occupied(test, ankles, ZonesToCheck()[i]))
      ensures status.activeCount == CountTrue(status.occupancy)
      ensures 0 <= status.activeCount <= |ZonesToCheck()|
      ensures ankles == [] ==> status.activeCount == 0
    {
      var checked := if scaledZones != [] then scaledZones else zones;
      var occupied := new bool[|checked|](_ => false);
      var a := 0;
      while a < |ankles|
        invariant 0 <= a <= |ankles|
        invariant forall i :: 0 <= i < |checked| ==>
          (occupied[i] <==> exists j :: 0 <= j < a && InZone(test, ankles[j], checked[i]))
      {
        var i := 0;
        while i < |checked|
          invariant 0 <= i <= |checked|
          invariant forall m :: 0 <= m < i ==>
            (occupied[m] <==> exists j :: 0 <= j < a + 1 && InZone(test, ankles[j], checked[m]))
          invariant forall m :: i <= m < |checked| ==>
            (occupied[m] <==> exists j :: 0 <= j < a && InZone(test, ankles[j], checked[m]))
        {
          if InZone(test, ankles[a], checked[i]) {
            occupied[i] := true;
          }
          i := i + 1;
        }
        a := a + 1;
      }
      status := ZoneStatus(CountTrue(occupied[..]), occupied[..]);
    }
  }
}
