/**
 * Extent culling for cube tiles: a tile whose projected envelope lies
 * entirely to one side of a dataset's projected bounding box is answered
 * with the empty tile. The tile envelope (`xyz_to_envelope`) and the
 * forward projection of the dataset corners (`ll2m`) are not modelled:
 * they are passed in as functions the proofs know nothing about.
 */
module Extent {
  import opened Js

  /** A projected coordinate in metres, or NaN. */
  datatype Coord = NotANumber | At(m: real)

  /** `a < b` on JavaScript numbers: false whenever either side is NaN. */
  predicate Below(a: Coord, b: Coord) {
    a.At? && b.At? && a.m < b.m
  }

  datatype Box = Box(west: Coord, south: Coord, east: Coord, north: Coord)

  /** The projection collaborators, uninterpreted. */
  datatype Projection = Projection(
    /** `mercator.xyz_to_envelope(x, y, z, false)`: [west, south, east, north] */
    envelope: (Number, Number, Number) -> Box,
    /** `Conv.ll2m(lon, lat)`: the point in metres, as (x, y) */
    toMeters: (Coord, Coord) -> (Coord, Coord))

  /** `geojsonExtent(extent_geojson)`: [west, south, east, north] in degrees. */
  datatype LonLatBox = LonLatBox(west: Coord, south: Coord, east: Coord, north: Coord)

  /** The dataset's bounds in metres: its south-west and north-east corners projected. */
  function RasterBounds(proj: Projection, ext: LonLatBox): Box {
    var sw := proj.toMeters(ext.west, ext.south);
    var ne := proj.toMeters(ext.east, ext.north);
    Box(sw.0, sw.1, ne.0, ne.1)
  }

  /** The tile's envelope in metres, from the request's z/x/y text read with `parseInt`. */
  function TileBounds(proj: Projection, z: string, x: string, y: string): Box {
    proj.envelope(ParseInt(x), ParseInt(y), ParseInt(z))
  }

  /**
   * The tile lies outside the raster when its north edge is south of the
   * raster's south edge, its east edge west of the raster's west edge, its
   * south edge north of the raster's north edge, or its west edge east of
   * the raster's east edge.
   */
  predicate Outside(tile: Box, raster: Box) {
    || Below(tile.north, raster.south)
    || Below(tile.east, raster.west)
    || Below(raster.north, tile.south)
    || Below(raster.east, tile.west)
  }

  /** `cubes._isOutsideExtent`: a flag set by four independent tests. */
  method IsOutsideExtent(proj: Projection, z: string, x: string, y: string, ext: LonLatBox)
    returns (outside: bool)
    ensures outside <==> Outside(TileBounds(proj, z, x, y), RasterBounds(proj, ext))
  {
    var tile := TileBounds(proj, z, x, y);
    var raster := RasterBounds(proj, ext);
    outside := false;
    if Below(tile.north, raster.south) {
      outside := true;
    }
    if Below(tile.east, raster.west) {
      outside := true;
    }
    if Below(raster.north, tile.south) {
      outside := true;
    }
    if Below(raster.east, tile.west) {
      outside := true;
    }
  }

  // ---------------------------------------------------------------------
  // What the test means geometrically

  /** A box with numeric corners, west of east and south of north. */
  predicate Proper(b: Box) {
    b.west.At? && b.south.At? && b.east.At? && b.north.At? &&
    b.west.m <= b.east.m && b.south.m <= b.north.m
  }

  predicate Contains(b: Box, px: real, py: real)
    requires Proper(b)
  {
    b.west.m <= px <= b.east.m && b.south.m <= py <= b.north.m
  }

  /**
   * For proper boxes the test is exactly disjointness: outside iff the two
   * closed boxes share no point.
   */
  lemma OutsideIffDisjoint(tile: Box, raster: Box)
    requires Proper(tile) && Proper(raster)
    ensures Outside(tile, raster) <==>
      !exists px: real, py: real :: Contains(tile, px, py) && Contains(raster, px, py)
  {
    if !Outside(tile, raster) {
      var px := if tile.west.m < raster.west.m then raster.west.m else tile.west.m;
      var py := if tile.south.m < raster.south.m then raster.south.m else tile.south.m;
      assert Contains(tile, px, py) && Contains(raster, px, py);
    }
  }
}
