/** The GeoJSON objects the core builds and compares (RFC 7946): a Point
    geometry (section 3.1.2), a Feature (section 3.2) and a FeatureCollection
    (section 3.3). Geometries of map features other than points are left
    opaque: only the point-in-polygon search looks inside them. */
module GeoJson {
  datatype Geometry =
    | Point(coordinates: seq<real>)
    | Region(kind: string)

  /** Values of a feature's `properties` member. */
  datatype PropertyValue = Flag(flag: bool) | Text(text: string) | Number(number: real)

  /** A feature's `id` member: absent, `null`, a string or a number
      (section 3.2). Strict comparison tells all four apart, so a string
      id never equals a numeric one. */
  datatype FeatureId = Absent | Null | TextId(text: string) | NumberId(number: real)

  datatype Feature = Feature(id: FeatureId, properties: map<string, PropertyValue>, geometry: Geometry)

  datatype FeatureCollection = FeatureCollection(features: seq<Feature>)
}
