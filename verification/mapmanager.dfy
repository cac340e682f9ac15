/** The device table (lib/mapmanager.js): a map from device signature to
    device, the parameters every device is handled with, and the read path
    that lists the devices. */
module Store {
  import opened Wrappers
  import opened Raddecs
  import opened Spatems
  import opened Devices

  const DEFAULT_MAX_STORED_SPATEMS: int := 1
  const DEFAULT_OBSERVED_EVENTS: seq<string> := ["position", "location"]

  /** The store options; `None` is an absent option. */
  datatype Options = Options(maxStoredSpatems: Option<int>, observedEvents: Option<seq<string>>)

  /** An entry of the retrieved-devices object: the empty placeholder `{}`,
      or the assembled view of the device stored under `signature`. */
  datatype DeviceEntry = Placeholder | Assembled(signature: string)

  /** Parameters from options: a falsy (absent or zero) maximum falls back to
      1; an absent list of observed events falls back to position and
      location. A present list is kept even when empty, an array being
      truthy. */
  function CreateParameters(options: Options): (parameters: Parameters)
    ensures parameters.maxStoredSpatems ==
              if options.maxStoredSpatems.None? || options.maxStoredSpatems.value == 0 then 1
              else options.maxStoredSpatems.value
    ensures parameters.observedEvents ==
              if options.observedEvents.None? then ["position", "location"] else options.observedEvents.value
    ensures parameters.maxStoredSpatems != 0
  {
    var maxStoredSpatems :=
      if options.maxStoredSpatems.None? || options.maxStoredSpatems.value == 0 then DEFAULT_MAX_STORED_SPATEMS
      else options.maxStoredSpatems.value;
    var observedEvents := options.observedEvents.GetOr(DEFAULT_OBSERVED_EVENTS);
    Parameters(maxStoredSpatems, observedEvents)
  }

  /** With the default parameters every in-order spatem after the first is an
      event (the position rule), and the history keeps only the newest one. */
  lemma DefaultParametersReportEveryInOrderSpatem(history: seq<TimedSpatem>, spatem: TimedSpatem)
    requires history != [] && history[0].timestamp <= spatem.timestamp
    ensures var r := Insertion(history, spatem, CreateParameters(Options(None, None)));
            r.event == Some(spatem) && (|history| == 1 ==> r.history == [spatem])
  {
    var p := CreateParameters(Options(None, None));
    assert "position" in p.observedEvents;
  }

  /** The signature a spatem is stored under. */
  function SpatemSignature(spatem: TimedSpatem): string {
    IdentifierSignature(spatem.spatem.deviceId, spatem.spatem.deviceIdType)
  }

  /** `deviceId && deviceIdType`: both present and truthy. */
  predicate IsSpecificDevice(deviceId: Option<string>, deviceIdType: Option<int>) {
    deviceId.Some? && deviceId.value != "" && deviceIdType.Some? && deviceIdType.value != 0
  }

  /** `Array.isArray(properties) && properties.length > 0`. */
  predicate IsSpecificProperties(properties: Option<seq<string>>) {
    properties.Some? && |properties.value| > 0
  }

  class MapManager {
    const parameters: Parameters
    var store: map<string, Device>

    /** Every device is stored under its own signature (so distinct keys
        hold distinct devices). */
    ghost predicate Valid()
      reads this, store.Values
    {
      forall signature :: signature in store ==> store[signature].Signature() == signature
    }

    constructor (options: Options)
      ensures parameters == CreateParameters(options)
      ensures store == map[]
      ensures Valid()
    {
      parameters := CreateParameters(options);
      store := map[];
    }

    /** Finds or creates the spatem's device and hands the spatem to it;
        returns the invocations of the event callback. Only the spatem's own
        entry may be added or changed. */
    method InsertSpatem(spatem: TimedSpatem) returns (handled: seq<TimedSpatem>)
      requires Valid()
      modifies this, store.Values
      ensures Valid()
      ensures SpatemSignature(spatem) in store
      ensures store.Keys == old(store.Keys) + {SpatemSignature(spatem)}
      ensures SpatemSignature(spatem) in old(store) ==>
                store[SpatemSignature(spatem)] == old(store[SpatemSignature(spatem)])
      ensures SpatemSignature(spatem) !in old(store) ==>
                && fresh(store[SpatemSignature(spatem)])
                && store[SpatemSignature(spatem)].deviceId == spatem.spatem.deviceId
                && store[SpatemSignature(spatem)].deviceIdType == spatem.spatem.deviceIdType
      ensures forall signature :: signature in old(store) && signature != SpatemSignature(spatem) ==>
                store[signature] == old(store[signature]) && store[signature].spatems == old(store[signature].spatems)
      ensures var before := if SpatemSignature(spatem) in old(store) then old(store[SpatemSignature(spatem)].spatems) else [];
              var r := Insertion(before, spatem, parameters);
              && store[SpatemSignature(spatem)].spatems == r.history
              && handled == if r.event.Some? then [spatem] else []
    {
      var signature := SpatemSignature(spatem);
      var device: Device;
      if signature in store {
        device := store[signature];
      } else {
        device := new Device(spatem.spatem.deviceId, spatem.spatem.deviceIdType, parameters);
        store := store[signature := device];
      }
      handled := device.HandleSpatem(spatem, parameters);
    }

    /** retrieveDevices: for a specific device, its assembled entry, or
        `None` (the callback's `null`) when it is not stored; otherwise one
        entry per stored signature, a placeholder unless properties were
        requested. */
    method RetrieveDevices(deviceId: Option<string>, deviceIdType: Option<int>, properties: Option<seq<string>>)
      returns (devices: Option<map<string, DeviceEntry>>)
      ensures IsSpecificDevice(deviceId, deviceIdType) ==>
                var signature := IdentifierSignature(deviceId.value, deviceIdType.value);
                devices == if signature in store then Some(map[signature := Assembled(signature)]) else None
      ensures !IsSpecificDevice(deviceId, deviceIdType) ==>
                && devices.Some?
                && devices.value.Keys == store.Keys
                && forall signature :: signature in devices.value ==>
                     devices.value[signature] == if IsSpecificProperties(properties) then Assembled(signature) else Placeholder
    {
      if IsSpecificDevice(deviceId, deviceIdType) {
        var signature := IdentifierSignature(deviceId.value, deviceIdType.value);
        if signature in store {
          return Some(map[signature := Assembled(signature)]);
        }
        return None;
      }
      var isSpecificProperties := IsSpecificProperties(properties);
      var result: map<string, DeviceEntry> := map[];
      var remaining := store.Keys;
      while remaining != {}
        invariant remaining <= store.Keys
        invariant result.Keys == store.Keys - remaining
        invariant forall signature :: signature in result ==>
                    result[signature] == if isSpecificProperties then Assembled(signature) else Placeholder
        decreases remaining
      {
        var signature :| signature in remaining;
        result := result[signature := if isSpecificProperties then Assembled(signature) else Placeholder];
        remaining := remaining - {signature};
      }
      devices := Some(result);
    }
  }
}
