/** Spatem compilation (lib/positionmanager.js): the observation's position
    is looked up in a polygon index; the spatem is a "location" when some
    features contain the position and a "position" otherwise. The
    polygon-lookup library is not part of this model: its search is a
    function given at construction. */
module Positions {
  import opened Wrappers
  import opened Raddecs
  import opened GeoJson
  import opened Spatems
  import opened Devices
  import opened EnginesManager

  const DEFAULT_FEATURE_COLLECTION: FeatureCollection := FeatureCollection([])

  /** A polygon-lookup index over a feature collection. */
  datatype PolygonLookup = PolygonLookup(featureCollection: FeatureCollection)

  /** `lookup.search(x, y, -1)`: all features of the collection containing
      the point (x, y). */
  type Search = (FeatureCollection, real, real) -> seq<Feature>

  /** The search returns features of the collection it searches. */
  ghost predicate SearchesWithin(search: Search) {
    forall collection, x, y, feature :: feature in search(collection, x, y) ==> feature in collection.features
  }

  /** The guard of handleRaddec: the position is an array of at least two
      coordinates. */
  predicate HasPlanarPosition(raddec: Raddec) {
    raddec.position.Some? && |raddec.position.value| >= 2
  }

  /** The synthetic Point feature marking the device's own position. */
  function DevicePositionFeature(coordinates: seq<real>): Feature {
    Feature(Absent, map["isDevicePosition" := Flag(true)], Point(coordinates))
  }

  /** compilePositionSpatem: the device's Point alone. */
  function CompilePositionSpatem(raddec: Raddec): (spatem: Spatem)
    requires raddec.position.Some?
    ensures spatem.kind == Position
    ensures |spatem.data.features| >= 1 && spatem.data.features[0] == DevicePositionFeature(raddec.position.value)
    ensures spatem.deviceId == raddec.transmitterId && spatem.deviceIdType == raddec.transmitterIdType
    ensures DevicePositionOf(spatem) == raddec.position && LocationFeaturesOf(spatem) == []
  {
    Spatem(raddec.transmitterId, raddec.transmitterIdType, Position,
           FeatureCollection([DevicePositionFeature(raddec.position.value)]))
  }

  /** compileLocationSpatem: the found collection with the device's Point
      put in front of it. */
  function CompileLocationSpatem(raddec: Raddec, features: seq<Feature>): (spatem: Spatem)
    requires raddec.position.Some?
    ensures spatem.kind == Location
    ensures |spatem.data.features| >= 1 && spatem.data.features[0] == DevicePositionFeature(raddec.position.value)
    ensures spatem.deviceId == raddec.transmitterId && spatem.deviceIdType == raddec.transmitterIdType
    ensures DevicePositionOf(spatem) == raddec.position && LocationFeaturesOf(spatem) == features
  {
    Spatem(raddec.transmitterId, raddec.transmitterIdType, Location,
           FeatureCollection([DevicePositionFeature(raddec.position.value)] + features))
  }

  /** The branch of handleRaddec on the features found. */
  function SpatemFor(raddec: Raddec, found: seq<Feature>): (spatem: Spatem)
    requires HasPlanarPosition(raddec)
    ensures spatem.kind == Location <==> |found| > 0
  {
    if |found| > 0 then CompileLocationSpatem(raddec, found) else CompilePositionSpatem(raddec)
  }

  /** The device position a spatem reports: the coordinates of its leading
      feature when that is a device-position Point. */
  function DevicePositionOf(spatem: Spatem): Option<seq<real>> {
    var features := spatem.data.features;
    if |features| > 0 && features[0].geometry.Point? &&
       "isDevicePosition" in features[0].properties && features[0].properties["isDevicePosition"] == Flag(true)
    then Some(features[0].geometry.coordinates)
    else None
  }

  /** The containing features a spatem reports: all but the leading one. */
  function LocationFeaturesOf(spatem: Spatem): seq<Feature> {
    if |spatem.data.features| > 0 then spatem.data.features[1..] else []
  }

  /** A compiled spatem gives back the observation's identity, its position
      and exactly the features found, in their order; it is a location
      exactly when some feature was found. */
  lemma SpatemForRoundTrip(raddec: Raddec, found: seq<Feature>)
    requires HasPlanarPosition(raddec)
    ensures var spatem := SpatemFor(raddec, found);
            && spatem.deviceId == raddec.transmitterId
            && spatem.deviceIdType == raddec.transmitterIdType
            && DevicePositionOf(spatem) == raddec.position
            && LocationFeaturesOf(spatem) == found
            && |spatem.data.features| == |found| + 1
            && (spatem.kind == Location <==> |found| > 0)
  {
    var spatem := SpatemFor(raddec, found);
    assert spatem.data.features[1..] == found;
  }

  /** Searching an empty collection never yields a location. */
  lemma EmptyCollectionYieldsPositions(search: Search, raddec: Raddec, x: real, y: real)
    requires SearchesWithin(search)
    requires HasPlanarPosition(raddec)
    ensures SpatemFor(raddec, search(FeatureCollection([]), x, y)).kind == Position
  {
    var found := search(FeatureCollection([]), x, y);
    assert forall feature :: feature in found ==> feature in FeatureCollection([]).features;
    WithoutMembersIsEmpty(found);
  }

  lemma WithoutMembersIsEmpty<T>(s: seq<T>)
    ensures (forall x :: x !in s) ==> s == []
  {
    if s != [] {
      assert s[0] in s;
    }
  }

  /** Under the location rule alone, two spatems compiled from the same
      found features are no event, whatever the positions. */
  lemma SameFeaturesAreNoLocationEvent(raddec1: Raddec, raddec2: Raddec, found: seq<Feature>, timestamp1: int, timestamp2: int, parameters: Parameters)
    requires HasPlanarPosition(raddec1) && HasPlanarPosition(raddec2)
    requires "position" !in parameters.observedEvents
    ensures !DetermineEvent(TimedSpatem(SpatemFor(raddec1, found), timestamp1),
                            TimedSpatem(SpatemFor(raddec2, found), timestamp2), parameters)
  {
    var features1 := SpatemFor(raddec1, found).data.features;
    var features2 := SpatemFor(raddec2, found).data.features;
    forall i | 0 <= i < |features1| && i < |features2| ensures features1[i].id == features2[i].id {
      if i > 0 {
        assert features1[i] == found[i - 1] == features2[i];
      }
    }
  }

  /** Under the location rule, entering or leaving every feature, or a change
      of feature at some position in the found list, is an event. */
  lemma ChangedFeaturesAreLocationEvent(raddec1: Raddec, raddec2: Raddec, found1: seq<Feature>, found2: seq<Feature>,
                                        timestamp1: int, timestamp2: int, parameters: Parameters)
    requires HasPlanarPosition(raddec1) && HasPlanarPosition(raddec2)
    requires "location" in parameters.observedEvents
    requires || (|found1| > 0) != (|found2| > 0)
             || |found1| != |found2|
             || exists i :: 0 <= i < |found1| && i < |found2| && found1[i].id != found2[i].id
    ensures DetermineEvent(TimedSpatem(SpatemFor(raddec1, found1), timestamp1),
                           TimedSpatem(SpatemFor(raddec2, found2), timestamp2), parameters)
  {
    var features1 := SpatemFor(raddec1, found1).data.features;
    var features2 := SpatemFor(raddec2, found2).data.features;
    if |found1| == |found2| && (|found1| > 0) == (|found2| > 0) {
      var i :| 0 <= i < |found1| && i < |found2| && found1[i].id != found2[i].id;
      assert features1[i + 1] == found1[i] && features2[i + 1] == found2[i];
    }
  }

  class PositionManager {
    const search: Search
    var lookup: PolygonLookup

    /** Indexes the given collection, or an empty one when none is given. */
    constructor (featureCollection: Option<FeatureCollection>, search: Search)
      ensures this.search == search
      ensures lookup == PolygonLookup(featureCollection.GetOr(DEFAULT_FEATURE_COLLECTION))
    {
      this.search := search;
      lookup := PolygonLookup(featureCollection.GetOr(DEFAULT_FEATURE_COLLECTION));
    }

    /** A new feature collection replaces the index wholesale. */
    method OnFeatureCollectionChange(featureCollection: FeatureCollection)
      modifies this
      ensures lookup == PolygonLookup(featureCollection)
    {
      lookup := PolygonLookup(featureCollection);
    }

    /** handleRaddec: the spatem emitted, if any. The position comes from the
        observation itself; the engines' `positions` are not read. */
    method HandleRaddec(raddec: Raddec, positions: seq<EnginePosition>) returns (emitted: Option<Spatem>)
      ensures emitted.Some? <==> HasPlanarPosition(raddec)
      ensures HasPlanarPosition(raddec) ==>
                emitted.value == SpatemFor(raddec, search(lookup.featureCollection, raddec.position.value[0], raddec.position.value[1]))
    {
      if !HasPlanarPosition(raddec) {
        return None;
      }
      var x := raddec.position.value[0];
      var y := raddec.position.value[1];
      var collection := search(lookup.featureCollection, x, y);
      var spatem;
      if |collection| > 0 {
        spatem := CompileLocationSpatem(raddec, collection);
      } else {
        spatem := CompilePositionSpatem(raddec);
      }
      emitted := Some(spatem);
    }
  }
}
