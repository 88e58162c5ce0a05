/**
 * The shapely geometries the converters build, as uninterpreted constructors:
 * a value records which inputs went into which shapely call, in which order.
 * Nothing is computed about areas, ring closure or validity.
 */
module Geometry {

  /** A (longitude, latitude) pair; only equality and placement matter. */
  datatype Coord = Coord(lon: int, lat: int)

  datatype Geom =
    | Point(at: Coord)                      // shapely.geometry.Point
    | LineString(vertices: seq<Geom>)       // shapely.geometry.LineString over Point objects
    | Polygon(shell: seq<Coord>)            // shapely.geometry.Polygon over a coordinate ring
    | MultiLineString(lines: seq<Geom>)     // shapely.geometry.MultiLineString
    | UnionOfPolygonized(parts: seq<Geom>)  // cascaded_union(polygonize_full(parts))
    | Difference(minuend: Geom, subtrahend: Geom)  // minuend.difference(subtrahend)
}
