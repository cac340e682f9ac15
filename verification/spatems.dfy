/** Spatial events ("spatems"). */
module Spatems {
  import opened GeoJson

  datatype SpatemType = Position | Location

  /** A compiled spatem: the device identity, its kind (the `type` member:
      "position" or "location") and a feature
      collection. The compiler attaches no timestamp. */
  datatype Spatem = Spatem(deviceId: string, deviceIdType: int, kind: SpatemType, data: FeatureCollection)

  /** A spatem as the device store holds it: with a numeric `timestamp`. */
  datatype TimedSpatem = TimedSpatem(spatem: Spatem, timestamp: int)
}
