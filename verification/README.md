# chimps spatial core in Dafny

This project models the sequential, in-memory core of reelyActive's chimps.
chimps turns radio-decoding observations ("raddecs") into spatial events
("spatems"). It also proves properties of that model. There are five parts:

- **Device history and event arbitration** (`device.dfy`, module `Devices`).
  A `Device` keeps its spatems newest first. `InsertSpatem` prepends the new
  spatem. If the new spatem is older than the previous head, it re-sorts the
  history. Otherwise it drops the oldest entry when the history outgrows
  `maxStoredSpatems`. It also decides whether the insertion is an event under
  the `position` and `location` rules. The specification function `Insertion`
  states the result, and the lemmas beside it state what the insertion
  preserves.
- **Device table** (`mapmanager.dfy`, module `Store`). `MapManager` maps
  device signatures (`deviceId/deviceIdType`) to devices. It creates a device
  on its first spatem and lists the stored devices. `CreateParameters`
  supplies the defaults.
- **Positioning engines** (`positioningengines.dfy`). `External` passes
  through the position the observation already carries. `AnchorAndPull`
  compiles "positioned decodings" from the RSSI signature and the receiver
  associations. It starts at the position of the first positioned receiver in
  signature order and pulls that position toward up to `maxReceivers - 1`
  further receivers. The pull
  array is updated in place, as in the source.
- **Engine routing** (`positioningenginesmanager.dfy`, module
  `EnginesManager`). An ordered list of (input filter, engine) pairs. The
  tagged estimates are collected in engine order and forwarded only when
  there is at least one.
- **Spatem compilation** (`positionmanager.dfy`, module `Positions`). The
  observation's position is searched in a polygon index. The result is a
  `location` spatem: the device's Point feature followed by the containing
  features. When nothing contains the position, it is a `position` spatem
  with the Point alone. These are the GeoJSON FeatureCollection, Feature and
  Point of RFC 7946 (sections 3.3, 3.2 and 3.1.2).

Shared data types are in `wrappers.dfy` (`Option`), `raddecs.dfy` (the
observation, identifier signatures and the raddec library's constants),
`geojson.dfy` and `spatems.dfy`.

Modelling choices:

- Callbacks and emitted events are return values. The store's
  `handleEvent(spatem)` calls are a returned sequence of spatems. The
  `'spatem'` event of the position manager and the forward to it are
  returned `Option`s.
- Two foreign libraries are parameters. raddec-filter is a function from
  filter parameters to a predicate on raddecs. polygon-lookup's search is a
  function from a collection and a point to the features found.
- A JavaScript property that is absent or not an array is `None`. The
  falsy-option defaults (`options.x || d`) are written out: an absent or
  zero option takes the default, and a present array always counts as
  truthy, even when empty.
- Compiled spatems carry no timestamp. The store holds
  `TimedSpatem(spatem, timestamp)`, a spatem that has a numeric timestamp.
- The JavaScript `sort` is stable. It is modelled by a stable insertion sort
  by decreasing timestamp.
- A spatem's `type` member is the field `kind` (`type` is a Dafny keyword).
- A feature's `id` is absent, `null`, a string or a number, and strict
  comparison tells all four apart.

The model follows the code where it departs from the behaviour one would
expect of it:

- One might expect a single unassociated receiver to void an AnchorAndPull
  estimate. The code keeps the decodings gathered before the first
  unpositioned receiver and estimates from those.
  `UnassociatedReceiverKeepsPrefix` shows an estimate made despite an
  unassociated third receiver.
- One might expect a device history never to exceed `maxStoredSpatems`. The
  out-of-order path re-sorts without trimming. `OutOfOrderExceedsBound`
  shows a history of two under a maximum of one.
- One might expect re-inserting the newest spatem to change nothing. It
  takes the in-order path, so a duplicate is stored in front, and the history
  grows while it is below `maxStoredSpatems`. `DuplicateHeadIsStored` shows
  this. `DuplicateHeadIsNoLocationEvent` shows that no event is reported
  without the position rule.
- The position manager is handed the engines' estimates but does not read
  them. It uses `raddec.position`, the observation's own position.
- Features are never filtered by elevation, even for 3-D positions.

## Model

| member | source | states |
|---|---|---|
| `Raddecs.NumberText` | lib/device.js:35-36 | the text of the type is a minus sign exactly for negative numbers, followed by digits only |
| `Raddecs.NaturalTextInjective` | lib/device.js:35-36 | distinct natural numbers have distinct decimal texts |
| `Raddecs.NumberTextInjective` | lib/device.js:35-36 | distinct integers have distinct texts |
| `Raddecs.IdentifierSignature` | lib/device.js:34-37 | a signature is the identifier, the separator, then text that holds no separator |
| `Raddecs.SignatureIsUnique` | lib/device.js:31-37 | equal signatures have equal identifiers and equal types, so a signature identifies one device |
| `Devices.Device.Signature` | lib/device.js:34-37 | (definition: the device's identifier signature; its uniqueness is `SignatureIsUnique`) |
| `Devices.SortByDecreasingTimestamp` | lib/device.js:89-90 | the re-sort is a permutation of its input, of the same length, newest first |
| `Devices.PlaceByTimestamp` | lib/device.js:90 | placing one spatem into a history adds exactly that spatem |
| `Devices.PlaceKeepsNewestFirst` | lib/device.js:90 | placing a spatem into a newest-first history keeps it newest first |
| `Devices.SortKeepsNewestFirst` | lib/device.js:90 | sorting a history that is already newest first leaves it unchanged |
| `Devices.FeatureIdsDiffer` | lib/device.js:134-141 | (definition of the id loop; see `FeatureIdsDifferAt`) |
| `Devices.FeatureIdsDifferAt` | lib/device.js:134-141 | the index loop finds a difference iff some feature at or after the index has a different id |
| `Devices.DetermineEvent` | lib/device.js:120-145 | always an event when `position` is observed; with `location` alone, an event iff the types differ, the feature counts differ or some index has different feature ids; otherwise never |
| `Devices.Insertion` | lib/device.js:83-109 | the first spatem gives `[spatem]` and is reported; an out-of-order spatem is kept with all old entries, newest first, and is not reported; an in-order spatem goes to index 0 ahead of the unchanged old entries, less the oldest exactly when the length passes the maximum, and is reported iff `DetermineEvent` holds; only the inserted spatem is ever reported |
| `Devices.InsertSpatem` | lib/device.js:83-109 | the in-place unshift / sort / pop leaves the history and returns the event that `Insertion` specifies |
| `Devices.Device.constructor` | lib/device.js:23-29 | a new device has its identity and an empty history |
| `Devices.Device.HandleSpatem` | lib/device.js:61-70 | the event callback runs exactly once, with the spatem, when the insertion is an event, and never otherwise |
| `Devices.InsertionKeepsNewestFirst` | lib/device.js:84-101 | a newest-first history stays newest first on both paths |
| `Devices.InsertionMultiset` | lib/device.js:84-101 | the kept spatems are the old ones plus the new one, less at most the old oldest entry |
| `Devices.InsertionKeepsBound` | lib/device.js:99-101 | on the in-order path with a non-empty history, a length within the maximum stays within it |
| `Devices.OutOfOrderPlacement` | lib/device.js:86-91 | in a newest-first history the re-sort puts the late spatem right behind the entries newer than it and moves nothing else |
| `Devices.OutOfOrderExceedsBound` | lib/device.js:89-90 | the out-of-order path does not trim: a history can grow past its maximum |
| `Devices.DuplicateHeadIsNoLocationEvent` | lib/device.js:125-144 | without the position rule, re-inserting the head spatem is not an event |
| `Devices.DuplicateHeadIsStored` | lib/device.js:84-101 | re-inserting the head below the bound stores the duplicate in front and grows the history by one |
| `Store.CreateParameters` | lib/mapmanager.js:136-143 | maximum 1 and observed events `['position','location']` when the options are absent or falsy, the given values otherwise |
| `Store.DefaultParametersReportEveryInOrderSpatem` | lib/mapmanager.js:11-12 | under the defaults every in-order insertion is an event, and a one-entry history keeps only the new spatem |
| `Store.MapManager.constructor` | lib/mapmanager.js:26-31 | parameters from the options, empty store |
| `Store.MapManager.InsertSpatem` | lib/mapmanager.js:109-126 | afterwards the spatem's signature is stored; a device is created only when the signature was absent, and the stored one is reused otherwise; the store gains at most that key; other entries and their histories are unchanged; the device's history and the callback calls are those of `HandleSpatem` with the manager's parameters |
| `Store.MapManager.RetrieveDevices` | lib/mapmanager.js:40-75 | for a specific device: its assembled entry, or null when not stored; otherwise exactly the stored signatures, each mapped to `{}` unless properties were requested |
| `PositioningEngines.NewAnchorAndPull` | lib/positioningengines.js:50-57 | `minReceivers` 2, `maxReceivers` 5 and `pullFactor` 2 when the option is absent or falsy; the pull factor is never zero |
| `PositioningEngines.ConstructEngine` | lib/positioningenginesmanager.js:47 | the configured class decides the engine variant, and an AnchorAndPull engine is built from the entry's own options |
| `PositioningEngines.EngineName` | lib/positioningenginesmanager.js:75 | (definition: the engine's class name) |
| `PositioningEngines.PositionedPrefix` | lib/positioningengines.js:103-126 | at most one decoding per signature entry, each with a position of at least two coordinates |
| `PositioningEngines.PositionedPrefixIsLongestPrefix` | lib/positioningengines.js:103-126 | the decodings are, in signature order, one per entry of the longest prefix whose receivers are associated with a valid position |
| `PositioningEngines.IsValidPosition` | lib/positioningengines.js:133-135 | (definition: an array of at least two coordinates) |
| `PositioningEngines.CompiledDecodings` | lib/positioningengines.js:106 | nothing when the signature is not an array; otherwise at most one decoding per entry, each at a valid position |
| `PositioningEngines.CompilePositionedDecodings` | lib/positioningengines.js:103-126 | the loop with early returns yields that prefix, and nothing when the signature is not an array |
| `PositioningEngines.NoAssociationsNoDecodings` | lib/positioningengines.js:113-115 | with no associations no decoding is compiled |
| `PositioningEngines.PullRatio` | lib/positioningengines.js:76-78 | ratio 1 at equal RSSI; in (0, 1] for a non-negative delta and positive pull factor, below 1/2 for a positive delta |
| `PositioningEngines.ReciprocalOfPositivePull` | lib/positioningengines.js:77-78 | a positive delta puts the ratio strictly between 0 and 1/2 |
| `PositioningEngines.DeltaPosition` | lib/positioningengines.js:79-83 | the vector from anchor to pull on x and y, and on z only when both are exactly 3-D |
| `PositioningEngines.PullToward` | lib/positioningengines.js:79-86 | one pull adds `ratio * (pull - anchor)` on each pulled axis and leaves the other coordinates |
| `PositioningEngines.Pulled` | lib/positioningengines.js:74-87 | the estimate after the pulls has the anchor's dimension |
| `PositioningEngines.PullCount` | lib/positioningengines.js:71-72 | the number of participating decodings is between 1 and the number compiled |
| `PositioningEngines.Estimate` | lib/positioningengines.js:64-93 | an AnchorAndPull estimate is null or a valid position of at least two coordinates |
| `PositioningEngines.ExternalPassesPositionThrough` | lib/positioningengines.js:30-34 | External returns the observation's position unchanged |
| `PositioningEngines.AnchorAndPullNullIffTooFew` | lib/positioningengines.js:68-92 | the estimate is null iff fewer than `minReceivers` decodings were compiled, and otherwise has the anchor's dimension |
| `PositioningEngines.PulledMovesOnlyPulledAxes` | lib/positioningengines.js:79-86 | coordinates past y keep the anchor's value, except z when anchor and some pull are both exactly 3-D |
| `PositioningEngines.PulledIgnoresLaterDecodings` | lib/positioningengines.js:71-75 | decodings past the pull count do not affect the estimate |
| `PositioningEngines.AnchorAndPullUsesFirstMaxReceivers` | lib/positioningengines.js:71-75 | only the first `min(n, maxReceivers)` decodings determine the estimate |
| `PositioningEngines.EqualRssiPullLandsOnPull` | lib/positioningengines.js:76-86 | one pull at equal RSSI moves x and y exactly onto the pull's position |
| `PositioningEngines.UnassociatedReceiverKeepsPrefix` | lib/positioningengines.js:113-121 | an unassociated receiver after two associated ones does not void the estimate |
| `PositioningEngines.UnreadPullNeedsNoRatio` | lib/positioningengines.js:71-78 | with `maxReceivers` 2, a third receiver whose ratio would divide by zero is never read, and the estimate is defined |
| `PositioningEngines.NonPositiveMinimumWithOneReceiver` | lib/positioningengines.js:54 | a receiver minimum of -1 is kept, and one positioned receiver is estimated at its own position |
| `PositioningEngines.DefinedPullsFewer` | lib/positioningengines.js:74 | ratios defined for the first pulls are defined for fewer pulls |
| `PositioningEngines.PullInPlace` | lib/positioningengines.js:84-86 | the in-place forEach update makes the array equal to `PullToward` of its old contents |
| `PositioningEngines.PullFromAnchor` | lib/positioningengines.js:69-89 | copying the anchor into an array and adding the first `min(n, maxReceivers)` pulls in place gives `Pulled` |
| `PositioningEngines.AnchorAndPullEstimate` | lib/positioningengines.js:64-93 | null below the receiver minimum and the pulled anchor otherwise, as `Estimate` specifies |
| `PositioningEngines.EstimatePosition` | lib/positioningenginesmanager.js:70-71 | dispatch on the engine returns its `Estimate` |
| `EnginesManager.Collected` | lib/positioningenginesmanager.js:68-78 | no more positions are collected than there are engines |
| `EnginesManager.CollectedStep` | lib/positioningenginesmanager.js:68-80 | each engine in turn appends its tagged estimate when its filter passes and the estimate is not null, and appends nothing otherwise |
| `EnginesManager.CollectedComeFromContributors` | lib/positioningenginesmanager.js:68-78 | every collected position is `{positioningEngineName, position}` of an engine whose filter passed and whose estimate was not null |
| `EnginesManager.CollectedInEngineOrder` | lib/positioningenginesmanager.js:68-78 | collection follows engine order: the first j engines' positions are a prefix of all, and a contributing engine appends its tagged estimate |
| `EnginesManager.CollectedNonEmptyIff` | lib/positioningenginesmanager.js:82-84 | something is collected iff some engine's filter passes and it estimates a position |
| `EnginesManager.DefaultEnginesWithoutAssociations` | lib/positioningenginesmanager.js:12-19 | with the default engines and associations only External can contribute, with the observation's own position |
| `EnginesManager.PositioningEnginesManager.constructor` | lib/positioningenginesmanager.js:34-50 | one (filter, engine) pair per configured entry in order, defaults when absent; associations given or empty |
| `EnginesManager.PositioningEnginesManager.SetAssociations` | lib/positioningenginesmanager.js:56-58 | the association table is replaced |
| `EnginesManager.PositioningEnginesManager.HandleRaddec` | lib/positioningenginesmanager.js:64-85 | the loop calls each engine whose filter passes with the current associations; it forwards the collected positions iff there is at least one |
| `Positions.CompilePositionSpatem` | lib/positionmanager.js:81-98 | a position spatem of the transmitter whose only feature is the device Point: no id, properties exactly `{isDevicePosition: true}`, coordinates the observation's position |
| `Positions.CompileLocationSpatem` | lib/positionmanager.js:106-125 | a location spatem of the transmitter: the same id-less device Point, properties exactly `{isDevicePosition: true}`, then exactly the found features |
| `Positions.SpatemFor` | lib/positionmanager.js:62-70 | a location spatem exactly when some feature was found |
| `Positions.SpatemForRoundTrip` | lib/positionmanager.js:81-125 | a compiled spatem gives back the transmitter identity, the position as its `isDevicePosition` Point and exactly the found features in order; it is a location iff something was found |
| `Positions.EmptyCollectionYieldsPositions` | lib/positionmanager.js:10-13 | searching the empty (default) collection only ever yields position spatems |
| `Positions.SameFeaturesAreNoLocationEvent` | lib/positionmanager.js:106-124 | under the location rule alone, two spatems compiled from the same features are no event |
| `Positions.ChangedFeaturesAreLocationEvent` | lib/device.js:125-141 | under the location rule, gaining or losing all features, a change of count, or a different id at some index is an event |
| `Positions.PositionManager.constructor` | lib/positionmanager.js:28-44 | the index covers the given collection, or the empty default |
| `Positions.PositionManager.OnFeatureCollectionChange` | lib/positionmanager.js:39-41 | a new collection replaces the index wholesale |
| `Positions.PositionManager.HandleRaddec` | lib/positionmanager.js:50-73 | exactly one spatem iff the position is an array of at least two coordinates; it is the compiled spatem for the features found at `x = position[0]`, `y = position[1]` |

## Left out

- `removeStaleData` (lib/device.js:153-166) is not modelled. It reads the wall clock, indexes a `raddecs` array that devices do not have, and nothing calls it.
- `Device.assemble` would dereference an undefined variable. The model does not say what it returns: `Assembled(signature)` only marks the entry that `assemble` would produce.
- `retrieveContext` is not modelled. It calls `assembleContext`, which `Device` does not define.
- The Chimps event emitter is not part of this model. The same goes for interface registration, StoreManager, RaddecManager, the location engines and their manager. They only forward, are stubs, or are outside the spatial core. Emission to sinks is a returned value.
- The one-second `setTimeout` before subscribing to collection changes is timer plumbing. Only the replacement of the index is modelled.
- Point-in-polygon search and raddec filtering belong to external libraries and are function parameters. `SearchesWithin` assumes only that a search returns features of the collection it searches. The search result is taken to hold a `features` array, and only that array is modelled. The in-place `unshift` into it is modelled as building a new sequence, since no one else holds that array.
- Positions are `real`. JavaScript floating-point rounding is not modelled.
- Timestamps, RSSI values and identifier types are unbounded `int`s. Number precision above 2^53 is not modelled, nor is the exponent notation that `'' + n` uses from 1e21 on. Both bound where `SignatureIsUnique` holds for JavaScript numbers.
- `PositioningEngines.EstimatePosition`: for AnchorAndPull, requires two things only when the compiled decodings reach `minReceivers`. First, at least one decoding: with a minimum of zero or less and no decoding, the source reads the anchor of an empty list and throws. Second, a nonzero `deltaRssi / pullFactor + 2` for each unequal-RSSI pull among the first `min(n, maxReceivers)` decodings: a zero denominator gives `Infinity` in the source.
- `EnginesManager.PositioningEnginesManager.HandleRaddec`: requires the same of every engine whose filter passes.
- Feature ids that are objects or booleans are not modelled: GeoJSON allows only strings and numbers.
- `PositioningEngines.ExternalPassesPositionThrough`: a `position` that is truthy but not an array is the same `None` as an absent one. So the model does not forward such an observation. The source forwards it, and the position manager then drops it.
- A timestamp missing from a stored spatem is not modelled. JavaScript compares `undefined` as false and sorts with a NaN comparator there.
