/** A radio-identifiable device and its spatem history (lib/device.js). The
    history is kept newest first; inserting a spatem decides whether the
    insertion is an event worth reporting. */
module Devices {
  import opened Wrappers
  import opened Raddecs
  import opened GeoJson
  import opened Spatems

  /** The store's parameters: how many spatems a device keeps and which kinds
      of change count as events. */
  datatype Parameters = Parameters(maxStoredSpatems: int, observedEvents: seq<string>)

  /** What one insertion leaves behind: the new history, and the spatem to
      report, if the insertion is an event. */
  datatype InsertionResult = InsertionResult(history: seq<TimedSpatem>, event: Option<TimedSpatem>)

  /** Newest first: timestamps never increase along the history. */
  ghost predicate NewestFirst(history: seq<TimedSpatem>) {
    forall i, j :: 0 <= i < j < |history| ==> history[j].timestamp <= history[i].timestamp
  }

  /** Places `x` before the first entry that is not newer than it. Entries
      with the timestamp of `x` stay behind `x`, which is what a stable sort
      does to an element that came first. */
  function PlaceByTimestamp(x: TimedSpatem, history: seq<TimedSpatem>): (r: seq<TimedSpatem>)
    ensures |r| == |history| + 1
    ensures multiset(r) == multiset(history) + multiset{x}
  {
    if history == [] || history[0].timestamp <= x.timestamp then
      [x] + history
    else
      assert history == [history[0]] + history[1..];
      [history[0]] + PlaceByTimestamp(x, history[1..])
  }

  lemma {:induction false} PlaceKeepsNewestFirst(x: TimedSpatem, history: seq<TimedSpatem>)
    requires NewestFirst(history)
    ensures NewestFirst(PlaceByTimestamp(x, history))
  {
    if history != [] && x.timestamp < history[0].timestamp {
      var rest := PlaceByTimestamp(x, history[1..]);
      PlaceKeepsNewestFirst(x, history[1..]);
      forall k | 0 <= k < |rest|
        ensures rest[k].timestamp <= history[0].timestamp
      {
        assert rest[k] in multiset(rest);
        if rest[k] != x {
          assert rest[k] in multiset(history[1..]);
          var j :| 0 <= j < |history[1..]| && history[1..][j] == rest[k];
          assert history[j + 1] == rest[k];
        }
      }
    }
  }

  /** `spatems.sort((a, b) => b.timestamp - a.timestamp)`: a stable sort by
      decreasing timestamp. */
  function SortByDecreasingTimestamp(spatems: seq<TimedSpatem>): (r: seq<TimedSpatem>)
    ensures |r| == |spatems|
    ensures multiset(r) == multiset(spatems)
    ensures NewestFirst(r)
  {
    if spatems == [] then []
    else
      assert spatems == [spatems[0]] + spatems[1..];
      PlaceKeepsNewestFirst(spatems[0], SortByDecreasingTimestamp(spatems[1..]));
      PlaceByTimestamp(spatems[0], SortByDecreasingTimestamp(spatems[1..]))
  }

  /** A history already newest first is left as it is by the sort. */
  lemma {:induction false} SortKeepsNewestFirst(spatems: seq<TimedSpatem>)
    requires NewestFirst(spatems)
    ensures SortByDecreasingTimestamp(spatems) == spatems
  {
    if spatems != [] {
      SortKeepsNewestFirst(spatems[1..]);
      assert spatems == [spatems[0]] + spatems[1..];
    }
  }

  /** The index loop of determineEvent: some feature at or after `index`
      has an id different from the feature at the same index in the other
      collection. */
  function FeatureIdsDiffer(features1: seq<Feature>, features2: seq<Feature>, index: nat): bool
    requires |features1| == |features2| && index <= |features1|
    decreases |features1| - index
  {
    index < |features1| &&
    (features1[index].id != features2[index].id || FeatureIdsDiffer(features1, features2, index + 1))
  }

  lemma {:induction false} FeatureIdsDifferAt(features1: seq<Feature>, features2: seq<Feature>, index: nat)
    requires |features1| == |features2| && index <= |features1|
    ensures FeatureIdsDiffer(features1, features2, index) <==>
            exists i :: index <= i < |features1| && features1[i].id != features2[i].id
    decreases |features1| - index
  {
    if index < |features1| {
      FeatureIdsDifferAt(features1, features2, index + 1);
    }
  }

  /** Whether the newest spatem `spatem1`, compared with the previous one
      `spatem2`, is an event under the observed-event kinds. */
  function DetermineEvent(spatem1: TimedSpatem, spatem2: TimedSpatem, parameters: Parameters): (isEvent: bool)
    ensures "position" in parameters.observedEvents ==> isEvent
    ensures "position" !in parameters.observedEvents && "location" in parameters.observedEvents ==>
              (isEvent <==>
                 || spatem1.spatem.kind != spatem2.spatem.kind
                 || |spatem1.spatem.data.features| != |spatem2.spatem.data.features|
                 || exists i :: 0 <= i < |spatem1.spatem.data.features| && i < |spatem2.spatem.data.features| &&
                                spatem1.spatem.data.features[i].id != spatem2.spatem.data.features[i].id)
    ensures "position" !in parameters.observedEvents && "location" !in parameters.observedEvents ==> !isEvent
  {
    var features1 := spatem1.spatem.data.features;
    var features2 := spatem2.spatem.data.features;
    if "position" in parameters.observedEvents then
      true
    else if "location" in parameters.observedEvents then
      if spatem1.spatem.kind != spatem2.spatem.kind || |features1| != |features2| then
        true
      else
        FeatureIdsDifferAt(features1, features2, 0);
        FeatureIdsDiffer(features1, features2, 0)
    else
      false
  }

  /** What insertSpatem does to a history: prepend; re-sort when the new
      spatem is older than the previous head (no trim, no event); report the
      very first spatem; otherwise arbitrate the event and drop the oldest
      entry when the history has grown past `maxStoredSpatems`. */
  function Insertion(history: seq<TimedSpatem>, spatem: TimedSpatem, parameters: Parameters): (r: InsertionResult)
    ensures r.event.Some? ==> r.event.value == spatem
    ensures history == [] ==> r == InsertionResult([spatem], Some(spatem))
    ensures history != [] && spatem.timestamp < history[0].timestamp ==>
              && r.event == None
              && |r.history| == |history| + 1
              && multiset(r.history) == multiset(history) + multiset{spatem}
              && NewestFirst(r.history)
    ensures history != [] && history[0].timestamp <= spatem.timestamp ==>
              && |history| <= |r.history| <= |history| + 1
              && r.history[0] == spatem
              && r.history[1..] == history[..|r.history| - 1]
              && (r.event.Some? <==> DetermineEvent(spatem, history[0], parameters))
              && (|r.history| == |history| <==> |history| + 1 > parameters.maxStoredSpatems)
  {
    var spatems := [spatem] + history;
    if history != [] && !(history[0].timestamp <= spatem.timestamp) then
      InsertionResult(SortByDecreasingTimestamp(spatems), None)
    else if history == [] then
      InsertionResult(spatems, Some(spatem))
    else
      var isEvent := DetermineEvent(spatems[0], spatems[1], parameters);
      var kept := if |spatems| > parameters.maxStoredSpatems then spatems[..|spatems| - 1] else spatems;
      InsertionResult(kept, if isEvent then Some(spatem) else None)
  }

  /** A device: its identity and its spatem history, newest first. */
  class Device {
    const deviceId: string
    const deviceIdType: int
    var spatems: seq<TimedSpatem>

    /** The parameters are accepted and ignored, as in the source. */
    constructor (deviceId: string, deviceIdType: int, parameters: Parameters)
      ensures this.deviceId == deviceId && this.deviceIdType == deviceIdType
      ensures spatems == []
    {
      this.deviceId := deviceId;
      this.deviceIdType := deviceIdType;
      spatems := [];
    }

    /** The unique device signature `deviceId/deviceIdType`. */
    function Signature(): string {
      IdentifierSignature(deviceId, deviceIdType)
    }

    /** Inserts the spatem and returns the invocations of the event callback:
        one, with the spatem, when the insertion is an event, else none. */
    method HandleSpatem(spatem: TimedSpatem, parameters: Parameters) returns (handled: seq<TimedSpatem>)
      modifies this
      ensures spatems == Insertion(old(spatems), spatem, parameters).history
      ensures handled == if Insertion(old(spatems), spatem, parameters).event.Some? then [spatem] else []
    {
      var event := InsertSpatem(this, spatem, parameters);
      if event.Some? {
        handled := [event.value];
      } else {
        handled := [];
      }
    }
  }

  /** insertSpatem: changes the device's history in place (unshift, then sort
      or pop) and returns the spatem when the insertion is an event. */
  method InsertSpatem(device: Device, spatem: TimedSpatem, parameters: Parameters) returns (event: Option<TimedSpatem>)
    modifies device
    ensures device.spatems == Insertion(old(device.spatems), spatem, parameters).history
    ensures event == Insertion(old(device.spatems), spatem, parameters).event
  {
    device.spatems := [spatem] + device.spatems;
    var numberOfSpatems := |device.spatems|;
    var isCorrectOrder := numberOfSpatems == 1 || device.spatems[1].timestamp <= spatem.timestamp;
    event := None;
    if !isCorrectOrder {
      device.spatems := SortByDecreasingTimestamp(device.spatems);
    } else if numberOfSpatems == 1 {
      event := Some(spatem);
    } else {
      var isEvent := DetermineEvent(device.spatems[0], device.spatems[1], parameters);
      if numberOfSpatems > parameters.maxStoredSpatems {
        device.spatems := device.spatems[..numberOfSpatems - 1];
      }
      if isEvent {
        event := Some(spatem);
      }
    }
  }

  // Properties of the insertion

  /** A history kept newest first stays newest first, on both paths. */
  lemma InsertionKeepsNewestFirst(history: seq<TimedSpatem>, spatem: TimedSpatem, parameters: Parameters)
    requires NewestFirst(history)
    ensures NewestFirst(Insertion(history, spatem, parameters).history)
  {
    var r := Insertion(history, spatem, parameters);
    if history != [] && history[0].timestamp <= spatem.timestamp {
      forall i, j | 0 <= i < j < |r.history|
        ensures r.history[j].timestamp <= r.history[i].timestamp
      {
        assert r.history[j] == history[j - 1];
        if i > 0 {
          assert r.history[i] == history[i - 1];
        }
      }
    }
  }

  /** The spatems kept are the old ones plus the new one, less at most the
      oldest entry, which is dropped only by a trim. */
  lemma InsertionMultiset(history: seq<TimedSpatem>, spatem: TimedSpatem, parameters: Parameters)
    ensures var r := Insertion(history, spatem, parameters);
            || multiset(r.history) == multiset(history) + multiset{spatem}
            || (history != [] && multiset(r.history) + multiset{history[|history| - 1]} == multiset(history) + multiset{spatem})
  {
    var r := Insertion(history, spatem, parameters);
    var spatems := [spatem] + history;
    if history != [] && history[0].timestamp <= spatem.timestamp && |r.history| == |history| {
      assert spatems == spatems[..|spatems| - 1] + [history[|history| - 1]];
      assert r.history == spatems[..|spatems| - 1];
      assert multiset(spatems) == multiset(r.history) + multiset{history[|history| - 1]};
      assert multiset(spatems) == multiset{spatem} + multiset(history);
    }
  }

  /** On the in-order path the bound on the history length is kept. */
  lemma InsertionKeepsBound(history: seq<TimedSpatem>, spatem: TimedSpatem, parameters: Parameters)
    requires history != [] && history[0].timestamp <= spatem.timestamp
    requires |history| <= parameters.maxStoredSpatems
    ensures |Insertion(history, spatem, parameters).history| <= parameters.maxStoredSpatems
  {
  }

  /** An out-of-order spatem in a newest-first history lands just behind the
      entries newer than it: the sort moves no other entry. */
  lemma OutOfOrderPlacement(history: seq<TimedSpatem>, spatem: TimedSpatem, parameters: Parameters)
    requires NewestFirst(history)
    requires history != [] && spatem.timestamp < history[0].timestamp
    ensures Insertion(history, spatem, parameters) == InsertionResult(PlaceByTimestamp(spatem, history), None)
  {
    SortKeepsNewestFirst(history);
    assert ([spatem] + history)[1..] == history;
  }

  /** The out-of-order path never trims: a history at its bound grows past
      it. */
  lemma OutOfOrderExceedsBound()
    ensures var p := Parameters(1, ["position", "location"]);
            var newer := TimedSpatem(Spatem("d", 1, Position, FeatureCollection([])), 2);
            var older := TimedSpatem(Spatem("d", 1, Position, FeatureCollection([])), 1);
            |Insertion([newer], older, p).history| == 2 > p.maxStoredSpatems
  {
  }

  /** Under the location rule alone, re-inserting the head's content with the
      head's timestamp reports nothing. */
  lemma DuplicateHeadIsNoLocationEvent(history: seq<TimedSpatem>, spatem: TimedSpatem, parameters: Parameters)
    requires history != [] && spatem == history[0]
    requires "position" !in parameters.observedEvents
    ensures Insertion(history, spatem, parameters).event == None
  {
  }

  /** Re-inserting the head takes the in-order path: the duplicate is stored
      in front, and below the bound the history grows by one. */
  lemma DuplicateHeadIsStored(history: seq<TimedSpatem>, spatem: TimedSpatem, parameters: Parameters)
    requires history != [] && spatem == history[0]
    requires |history| < parameters.maxStoredSpatems
    ensures Insertion(history, spatem, parameters).history == [spatem] + history
  {
  }
}
