/** The positioning engines (lib/positioningengines.js): External passes an
    upstream position through; AnchorAndPull starts at the first positioned
    receiver's fixed position and pulls it toward the following receivers,
    less the weaker their signal relative to the first. Positions are
    `real`s. */
module PositioningEngines {
  import opened Wrappers
  import opened Raddecs

  /** An association: the fixed position recorded for a receiver (`None`
      when it is not an array). */
  datatype Association = Association(position: Option<seq<real>>)

  /** Associations by receiver signature. */
  type Associations = map<string, Association>

  /** A receiver's fixed position with the RSSI it reported. */
  datatype PositionedDecoding = PositionedDecoding(position: seq<real>, rssi: int)

  /** Engine options; `None` is an absent option. */
  datatype EngineOptions = EngineOptions(minReceivers: Option<int>, maxReceivers: Option<int>, pullFactor: Option<real>)

  /** The engine classes a configuration can name. */
  datatype EngineKind = ExternalKind | AnchorAndPullKind

  /** A constructed engine. */
  datatype Engine =
    | External
    | AnchorAndPull(minReceivers: int, maxReceivers: int, pullFactor: real)

  /** `options.x || default`: an absent or zero option takes the default. */
  function IntOption(option: Option<int>, default: int): int {
    if option.None? || option.value == 0 then default else option.value
  }

  function RealOption(option: Option<real>, default: real): real {
    if option.None? || option.value == 0.0 then default else option.value
  }

  /** The AnchorAndPull constructor. */
  function NewAnchorAndPull(options: EngineOptions): (engine: Engine)
    ensures engine.AnchorAndPull?
    ensures engine.minReceivers == if options.minReceivers.None? || options.minReceivers.value == 0 then 2 else options.minReceivers.value
    ensures engine.maxReceivers == if options.maxReceivers.None? || options.maxReceivers.value == 0 then 5 else options.maxReceivers.value
    ensures engine.pullFactor == if options.pullFactor.None? || options.pullFactor.value == 0.0 then 2.0 else options.pullFactor.value
    ensures engine.pullFactor != 0.0
  {
    AnchorAndPull(IntOption(options.minReceivers, 2), IntOption(options.maxReceivers, 5), RealOption(options.pullFactor, 2.0))
  }

  /** `new entry.engine(entry.options)`. */
  function ConstructEngine(kind: EngineKind, options: EngineOptions): (engine: Engine)
    ensures engine.External? <==> kind == ExternalKind
    ensures kind == AnchorAndPullKind ==> engine == NewAnchorAndPull(options)
  {
    match kind
    case ExternalKind => External
    case AnchorAndPullKind => NewAnchorAndPull(options)
  }

  /** The engine's class name (`engine.constructor.name`). */
  function EngineName(engine: Engine): string {
    match engine
    case External => "External"
    case AnchorAndPull(_, _, _) => "AnchorAndPull"
  }

  /** isValidPosition: an array of at least two coordinates. */
  predicate IsValidPosition(position: Option<seq<real>>) {
    position.Some? && |position.value| >= 2
  }

  function ReceiverSignature(entry: RssiEntry): string {
    IdentifierSignature(entry.receiverId, entry.receiverIdType)
  }

  /** The receiver is associated with a valid position. */
  predicate IsPositioned(entry: RssiEntry, associations: Associations) {
    ReceiverSignature(entry) in associations && IsValidPosition(associations[ReceiverSignature(entry)].position)
  }

  /** The decodings gathered from an RSSI signature until the first receiver
      that is not positioned. */
  function PositionedPrefix(rssiSignature: seq<RssiEntry>, associations: Associations): (decodings: seq<PositionedDecoding>)
    ensures |decodings| <= |rssiSignature|
    ensures forall i :: 0 <= i < |decodings| ==> |decodings[i].position| >= 2
  {
    if rssiSignature == [] || !IsPositioned(rssiSignature[0], associations) then []
    else
      var entry := rssiSignature[0];
      [PositionedDecoding(associations[ReceiverSignature(entry)].position.value, entry.rssi)] +
      PositionedPrefix(rssiSignature[1..], associations)
  }

  /** The decodings are exactly the longest prefix of the signature whose
      receivers are all positioned, one per entry, in signature order. */
  lemma {:induction false} PositionedPrefixIsLongestPrefix(rssiSignature: seq<RssiEntry>, associations: Associations)
    ensures var decodings := PositionedPrefix(rssiSignature, associations);
            && (forall i :: 0 <= i < |decodings| ==>
                  && IsPositioned(rssiSignature[i], associations)
                  && decodings[i] == PositionedDecoding(
                       associations[ReceiverSignature(rssiSignature[i])].position.value, rssiSignature[i].rssi))
            && (|decodings| < |rssiSignature| ==> !IsPositioned(rssiSignature[|decodings|], associations))
  {
    if rssiSignature != [] && IsPositioned(rssiSignature[0], associations) {
      PositionedPrefixIsLongestPrefix(rssiSignature[1..], associations);
    }
  }

  /** The decodings compiled for an observation: none when its RSSI
      signature is not an array. */
  function CompiledDecodings(raddec: Raddec, associations: Associations): (decodings: seq<PositionedDecoding>)
    ensures raddec.rssiSignature.None? ==> decodings == []
    ensures raddec.rssiSignature.Some? ==> |decodings| <= |raddec.rssiSignature.value|
    ensures forall i :: 0 <= i < |decodings| ==> IsValidPosition(Some(decodings[i].position))
  {
    if raddec.rssiSignature.Some? then PositionedPrefix(raddec.rssiSignature.value, associations) else []
  }

  /** compilePositionedDecodings: pushes one decoding per positioned receiver
      and returns early at the first that is not. */
  method CompilePositionedDecodings(raddec: Raddec, associations: Associations)
    returns (positionedDecodings: seq<PositionedDecoding>)
    ensures positionedDecodings == CompiledDecodings(raddec, associations)
  {
    positionedDecodings := [];
    if raddec.rssiSignature.Some? {
      var rssiSignature := raddec.rssiSignature.value;
      var index := 0;
      while index < |rssiSignature|
        invariant 0 <= index <= |rssiSignature|
        invariant PositionedPrefix(rssiSignature, associations) ==
                  positionedDecodings + PositionedPrefix(rssiSignature[index..], associations)
      {
        var entry := rssiSignature[index];
        var receiverSignature := ReceiverSignature(entry);
        if receiverSignature !in associations {
          return;
        }
        var position := associations[receiverSignature].position;
        if !IsValidPosition(position) {
          return;
        }
        assert rssiSignature[index..][1..] == rssiSignature[index + 1..];
        positionedDecodings := positionedDecodings + [PositionedDecoding(position.value, entry.rssi)];
        index := index + 1;
      }
    }
  }

  /** With no associations (the default) nothing is positioned. */
  lemma NoAssociationsNoDecodings(raddec: Raddec)
    ensures CompiledDecodings(raddec, map[]) == []
  {
  }

  /** The pull ratio is defined: for unequal signal strengths,
      `deltaRssi / pullFactor + 2` is not zero (JavaScript would divide by
      zero and yield Infinity). */
  predicate IsDefinedPull(deltaRssi: int, pullFactor: real) {
    deltaRssi == 0 || (pullFactor != 0.0 && deltaRssi as real / pullFactor + 2.0 != 0.0)
  }

  /** 1 for equal signal strengths, else `1 / (deltaRssi / pullFactor + 2)`. */
  function PullRatio(deltaRssi: int, pullFactor: real): (ratio: real)
    requires IsDefinedPull(deltaRssi, pullFactor)
    ensures deltaRssi == 0 ==> ratio == 1.0
    ensures deltaRssi >= 0 && pullFactor > 0.0 ==> 0.0 < ratio <= 1.0
    ensures deltaRssi > 0 && pullFactor > 0.0 ==> ratio < 0.5
  {
    if deltaRssi == 0 then 1.0
    else
      var denominator := deltaRssi as real / pullFactor + 2.0;
      if deltaRssi > 0 && pullFactor > 0.0 then
        ReciprocalOfPositivePull(deltaRssi, pullFactor);
        1.0 / denominator
      else
        1.0 / denominator
  }

  lemma ReciprocalOfPositivePull(deltaRssi: int, pullFactor: real)
    requires deltaRssi > 0 && pullFactor > 0.0
    ensures 0.0 < 1.0 / (deltaRssi as real / pullFactor + 2.0) < 0.5
  {
    var d := deltaRssi as real / pullFactor + 2.0;
    assert deltaRssi as real / pullFactor > 0.0;
    assert 1.0 / d * d == 1.0;
  }

  /** The number of axes one pull moves: x and y, and z only when both
      positions have exactly three coordinates. */
  function PulledAxes(anchor: seq<real>, pull: seq<real>): nat {
    if |anchor| == 3 && |pull| == 3 then 3 else 2
  }

  /** deltaPosition: the vector from anchor to pull on the pulled axes. */
  function DeltaPosition(anchor: seq<real>, pull: seq<real>): (delta: seq<real>)
    requires |anchor| >= 2 && |pull| >= 2
    ensures |delta| == PulledAxes(anchor, pull)
    ensures forall i :: 0 <= i < |delta| ==> delta[i] == pull[i] - anchor[i]
  {
    var planar := [pull[0] - anchor[0], pull[1] - anchor[1]];
    if |anchor| == 3 && |pull| == 3 then planar + [pull[2] - anchor[2]] else planar
  }

  /** The first `count` coordinates of `estimate` moved by `ratio * delta`. */
  function AddScaled(estimate: seq<real>, delta: seq<real>, ratio: real, count: nat): (r: seq<real>)
    requires count <= |delta| <= |estimate|
    ensures |r| == |estimate|
  {
    seq(|estimate|, i requires 0 <= i < |estimate| => if i < count then estimate[i] + ratio * delta[i] else estimate[i])
  }

  /** One pull: adds `ratio * (pull - anchor)` on each pulled axis. */
  function PullToward(estimate: seq<real>, anchor: seq<real>, pull: seq<real>, ratio: real): (r: seq<real>)
    requires |anchor| >= 2 && |pull| >= 2 && |estimate| == |anchor|
    ensures |r| == |estimate|
    ensures forall i :: 0 <= i < |r| ==>
              r[i] == if i < PulledAxes(anchor, pull) then estimate[i] + ratio * (pull[i] - anchor[i]) else estimate[i]
  {
    var delta := DeltaPosition(anchor, pull);
    AddScaled(estimate, delta, ratio, |delta|)
  }

  /** The pull ratio of every decoding before `count` against the anchor is
      defined. */
  predicate DefinedPulls(decodings: seq<PositionedDecoding>, count: nat, pullFactor: real) {
    forall i :: 0 < i < count && i < |decodings| ==> IsDefinedPull(decodings[0].rssi - decodings[i].rssi, pullFactor)
  }

  /** Defined ratios for the pulls before `count` are defined for fewer. */
  lemma DefinedPullsFewer(decodings: seq<PositionedDecoding>, count: nat, fewer: nat, pullFactor: real)
    requires fewer <= count && DefinedPulls(decodings, count, pullFactor)
    ensures DefinedPulls(decodings, fewer, pullFactor)
  {
  }

  predicate ValidDecodings(decodings: seq<PositionedDecoding>) {
    forall i :: 0 <= i < |decodings| ==> |decodings[i].position| >= 2
  }

  /** The anchor's position after the pulls of decodings 1 to `count - 1`. */
  function Pulled(decodings: seq<PositionedDecoding>, count: nat, pullFactor: real): (estimate: seq<real>)
    requires 1 <= count <= |decodings|
    requires ValidDecodings(decodings) && DefinedPulls(decodings, count, pullFactor)
    ensures |estimate| == |decodings[0].position|
  {
    if count == 1 then decodings[0].position
    else
      var anchor := decodings[0];
      var pull := decodings[count - 1];
      PullToward(Pulled(decodings, count - 1, pullFactor), anchor.position, pull.position,
                 PullRatio(anchor.rssi - pull.rssi, pullFactor))
  }

  /** `Math.min(positionedDecodings.length, maxReceivers)`, read as a pull
      count: below 1 no pull is made. */
  function PullCount(numberOfDecodings: nat, maxReceivers: int): (count: nat)
    requires numberOfDecodings >= 1
    ensures 1 <= count <= numberOfDecodings
  {
    var numberOfPulls := if numberOfDecodings < maxReceivers then numberOfDecodings else maxReceivers;
    if numberOfPulls < 1 then 1 else numberOfPulls
  }

  /** What an engine needs of its input. When AnchorAndPull reaches its
      receiver minimum it needs an anchor (with a minimum of zero or less and
      no decoding the source reads the anchor of an empty list and throws)
      and a defined ratio for each pull it makes. */
  predicate IsReady(engine: Engine, raddec: Raddec, associations: Associations) {
    engine.AnchorAndPull? ==>
      var decodings := CompiledDecodings(raddec, associations);
      |decodings| >= engine.minReceivers ==>
        && |decodings| >= 1
        && DefinedPulls(decodings, PullCount(|decodings|, engine.maxReceivers), engine.pullFactor)
  }

  /** The estimate of an engine, `None` standing for null or undefined.
      An AnchorAndPull estimate is always a valid position. */
  function Estimate(engine: Engine, raddec: Raddec, associations: Associations): (estimate: Option<seq<real>>)
    requires IsReady(engine, raddec, associations)
    ensures engine.AnchorAndPull? ==> estimate.None? || IsValidPosition(estimate)
  {
    match engine
    case External => raddec.position
    case AnchorAndPull(minReceivers, maxReceivers, pullFactor) =>
      var decodings := CompiledDecodings(raddec, associations);
      if |decodings| >= minReceivers then Some(Pulled(decodings, PullCount(|decodings|, maxReceivers), pullFactor))
      else None
  }

  /** External passes the observation's position through unchanged. */
  lemma ExternalPassesPositionThrough(raddec: Raddec, associations: Associations)
    ensures Estimate(External, raddec, associations) == raddec.position
  {
  }

  /** AnchorAndPull estimates nothing exactly when fewer than minReceivers
      decodings were compiled; otherwise the estimate has the anchor's
      dimension. */
  lemma AnchorAndPullNullIffTooFew(engine: Engine, raddec: Raddec, associations: Associations)
    requires engine.AnchorAndPull? && IsReady(engine, raddec, associations)
    ensures var decodings := CompiledDecodings(raddec, associations);
            && (Estimate(engine, raddec, associations).None? <==> |decodings| < engine.minReceivers)
            && (Estimate(engine, raddec, associations).Some? ==>
                  |Estimate(engine, raddec, associations).value| == |decodings[0].position|)
  {
  }

  /** Only x, y, and z when anchor and pull are both exactly 3-D, ever move:
      every other coordinate of the estimate is the anchor's. */
  lemma {:induction false} PulledMovesOnlyPulledAxes(decodings: seq<PositionedDecoding>, count: nat, pullFactor: real, i: nat)
    requires 1 <= count <= |decodings|
    requires ValidDecodings(decodings) && DefinedPulls(decodings, count, pullFactor)
    requires 2 <= i < |decodings[0].position|
    requires i != 2 || |decodings[0].position| != 3 || forall k :: 1 <= k < count ==> |decodings[k].position| != 3
    ensures Pulled(decodings, count, pullFactor)[i] == decodings[0].position[i]
  {
    if count > 1 {
      PulledMovesOnlyPulledAxes(decodings, count - 1, pullFactor, i);
    }
  }

  /** Decodings past the pull count have no effect on the estimate. */
  lemma {:induction false} PulledIgnoresLaterDecodings(decodings: seq<PositionedDecoding>, count: nat, pullFactor: real, n: nat)
    requires 1 <= count <= n <= |decodings|
    requires ValidDecodings(decodings) && DefinedPulls(decodings, count, pullFactor)
    ensures ValidDecodings(decodings[..n]) && DefinedPulls(decodings[..n], count, pullFactor)
    ensures Pulled(decodings[..n], count, pullFactor) == Pulled(decodings, count, pullFactor)
  {
    if count > 1 {
      PulledIgnoresLaterDecodings(decodings, count - 1, pullFactor, n);
    }
  }

  /** The estimate depends only on the first maxReceivers decodings. */
  lemma AnchorAndPullUsesFirstMaxReceivers(decodings: seq<PositionedDecoding>, maxReceivers: int, pullFactor: real)
    requires |decodings| >= 1 && maxReceivers >= 1
    requires ValidDecodings(decodings) && DefinedPulls(decodings, PullCount(|decodings|, maxReceivers), pullFactor)
    ensures var n := if |decodings| < maxReceivers then |decodings| else maxReceivers;
            && ValidDecodings(decodings[..n]) && DefinedPulls(decodings[..n], PullCount(n, maxReceivers), pullFactor)
            && Pulled(decodings[..n], PullCount(n, maxReceivers), pullFactor) ==
               Pulled(decodings, PullCount(|decodings|, maxReceivers), pullFactor)
  {
    var n := if |decodings| < maxReceivers then |decodings| else maxReceivers;
    PulledIgnoresLaterDecodings(decodings, PullCount(|decodings|, maxReceivers), pullFactor, n);
  }

  /** One pull at equal signal strength moves x and y exactly onto the
      pull's position. */
  lemma EqualRssiPullLandsOnPull(anchor: PositionedDecoding, pull: PositionedDecoding, pullFactor: real)
    requires |anchor.position| >= 2 && |pull.position| >= 2 && anchor.rssi == pull.rssi
    ensures var estimate := Pulled([anchor, pull], 2, pullFactor);
            estimate[0] == pull.position[0] && estimate[1] == pull.position[1]
  {
  }

  /** The decodings stop at the first unpositioned receiver instead of
      discarding the whole signature: two associated receivers ahead of an
      unassociated third still give an estimate (an equal-RSSI pull that
      lands on the second receiver). */
  lemma UnassociatedReceiverKeepsPrefix()
    ensures var associations := map["r1/1" := Association(Some([0.0, 0.0])), "r2/1" := Association(Some([2.0, 0.0]))];
            var raddec := Raddec("t", 1, Some([RssiEntry("r1", 1, -60), RssiEntry("r2", 1, -60), RssiEntry("r3", 1, -70)]),
                                 None, [APPEARANCE]);
            && IsReady(NewAnchorAndPull(EngineOptions(None, None, None)), raddec, associations)
            && Estimate(NewAnchorAndPull(EngineOptions(None, None, None)), raddec, associations) == Some([2.0, 0.0])
  {
    var associations := map["r1/1" := Association(Some([0.0, 0.0])), "r2/1" := Association(Some([2.0, 0.0]))];
    var signature := [RssiEntry("r1", 1, -60), RssiEntry("r2", 1, -60), RssiEntry("r3", 1, -70)];
    assert NumberText(1) == "1";
    assert ReceiverSignature(signature[0]) == "r1/1";
    assert ReceiverSignature(signature[1]) == "r2/1";
    assert ReceiverSignature(signature[2]) == "r3/1";
    assert signature[1..][1..] == [signature[2]];
    assert PositionedPrefix([signature[2]], associations) == [];
    var decodings := PositionedPrefix(signature, associations);
    assert decodings == [PositionedDecoding([0.0, 0.0], -60), PositionedDecoding([2.0, 0.0], -60)];
    assert Pulled(decodings, 2, 2.0) == [2.0, 0.0];
  }

  /** Only the pulls actually made need a defined ratio: with two receivers
      at most, a third whose ratio would divide by zero is never read. */
  lemma UnreadPullNeedsNoRatio()
    ensures var associations := map["r1/1" := Association(Some([0.0, 0.0])), "r2/1" := Association(Some([2.0, 0.0])),
                                    "r3/1" := Association(Some([4.0, 4.0]))];
            var raddec := Raddec("t", 1, Some([RssiEntry("r1", 1, -60), RssiEntry("r2", 1, -60), RssiEntry("r3", 1, -56)]),
                                 None, [APPEARANCE]);
            var engine := NewAnchorAndPull(EngineOptions(None, Some(2), None));
            && !IsDefinedPull(-60 - -56, engine.pullFactor)
            && IsReady(engine, raddec, associations)
            && Estimate(engine, raddec, associations) == Some([2.0, 0.0])
  {
    var associations := map["r1/1" := Association(Some([0.0, 0.0])), "r2/1" := Association(Some([2.0, 0.0])),
                            "r3/1" := Association(Some([4.0, 4.0]))];
    var signature := [RssiEntry("r1", 1, -60), RssiEntry("r2", 1, -60), RssiEntry("r3", 1, -56)];
    assert NumberText(1) == "1";
    assert ReceiverSignature(signature[0]) == "r1/1";
    assert ReceiverSignature(signature[1]) == "r2/1";
    assert ReceiverSignature(signature[2]) == "r3/1";
    assert signature[1..][1..] == [signature[2]];
    assert [signature[2]][1..] == [];
    var decodings := PositionedPrefix(signature, associations);
    assert decodings == [PositionedDecoding([0.0, 0.0], -60), PositionedDecoding([2.0, 0.0], -60),
                         PositionedDecoding([4.0, 4.0], -56)];
    assert PullCount(3, 2) == 2;
    assert Pulled(decodings, 2, 2.0) == [2.0, 0.0];
  }

  /** A receiver minimum of zero or less is kept as given and, with at
      least one decoding, estimates as usual: one receiver gives its own
      position. */
  lemma NonPositiveMinimumWithOneReceiver()
    ensures var associations := map["r1/1" := Association(Some([1.0, 3.0]))];
            var raddec := Raddec("t", 1, Some([RssiEntry("r1", 1, -60)]), None, [APPEARANCE]);
            var engine := NewAnchorAndPull(EngineOptions(Some(-1), None, None));
            && engine.minReceivers == -1
            && IsReady(engine, raddec, associations)
            && Estimate(engine, raddec, associations) == Some([1.0, 3.0])
  {
    var associations := map["r1/1" := Association(Some([1.0, 3.0]))];
    var signature := [RssiEntry("r1", 1, -60)];
    assert NumberText(1) == "1";
    assert ReceiverSignature(signature[0]) == "r1/1";
    assert signature[1..] == [];
    assert PositionedPrefix(signature, associations) == [PositionedDecoding([1.0, 3.0], -60)];
  }

  /** One pull applied in place: `deltaPosition.forEach((delta, index) =>
      estimatedPosition[index] += pullRatio * delta)`. */
  method PullInPlace(estimatedPosition: array<real>, anchor: seq<real>, pull: seq<real>, pullRatio: real)
    requires |anchor| >= 2 && |pull| >= 2 && estimatedPosition.Length == |anchor|
    modifies estimatedPosition
    ensures estimatedPosition[..] == PullToward(old(estimatedPosition[..]), anchor, pull, pullRatio)
  {
    ghost var before := estimatedPosition[..];
    var deltaPosition := DeltaPosition(anchor, pull);
    var index := 0;
    while index < |deltaPosition|
      invariant 0 <= index <= |deltaPosition|
      invariant estimatedPosition[..] == AddScaled(before, deltaPosition, pullRatio, index)
    {
      ghost var next := AddScaled(before, deltaPosition, pullRatio, index + 1);
      estimatedPosition[index] := estimatedPosition[index] + pullRatio * deltaPosition[index];
      assert forall i :: 0 <= i < estimatedPosition.Length ==> estimatedPosition[i] == next[i];
      index := index + 1;
    }
  }

  /** The branch of AnchorAndPull's estimatePosition that has enough
      decodings: copies the anchor's position into an array and adds each
      of the first `min(n, maxReceivers)` pulls into it. */
  method PullFromAnchor(positionedDecodings: seq<PositionedDecoding>, maxReceivers: int, pullFactor: real)
    returns (estimate: seq<real>)
    requires |positionedDecodings| >= 1 && ValidDecodings(positionedDecodings)
    requires DefinedPulls(positionedDecodings, PullCount(|positionedDecodings|, maxReceivers), pullFactor)
    ensures estimate == Pulled(positionedDecodings, PullCount(|positionedDecodings|, maxReceivers), pullFactor)
  {
    ghost var count := PullCount(|positionedDecodings|, maxReceivers);
    DefinedPullsFewer(positionedDecodings, count, 1, pullFactor);
    var anchor := positionedDecodings[0];
    var estimatedPosition := new real[|anchor.position|](i requires 0 <= i < |anchor.position| => anchor.position[i]);
    assert estimatedPosition[..] == anchor.position;
    var numberOfPulls := if |positionedDecodings| < maxReceivers then |positionedDecodings| else maxReceivers;
    var cPull := 1;
    while cPull < numberOfPulls
      invariant 1 <= cPull <= count
      invariant estimatedPosition.Length == |anchor.position|
      invariant DefinedPulls(positionedDecodings, cPull, pullFactor)
      invariant estimatedPosition[..] == Pulled(positionedDecodings, cPull, pullFactor)
    {
      DefinedPullsFewer(positionedDecodings, count, cPull + 1, pullFactor);
      var pull := positionedDecodings[cPull];
      var deltaRssi := anchor.rssi - pull.rssi;
      var pullRatio := if deltaRssi == 0 then 1.0 else 1.0 / (deltaRssi as real / pullFactor + 2.0);
      assert IsDefinedPull(deltaRssi, pullFactor) && pullRatio == PullRatio(deltaRssi, pullFactor);
      PullInPlace(estimatedPosition, anchor.position, pull.position, pullRatio);
      assert estimatedPosition[..] == Pulled(positionedDecodings, cPull + 1, pullFactor);
      cPull := cPull + 1;
    }
    estimate := estimatedPosition[..];
  }

  /** AnchorAndPull's estimatePosition: null below the receiver minimum,
      the pulled anchor otherwise. */
  method AnchorAndPullEstimate(minReceivers: int, maxReceivers: int, pullFactor: real, raddec: Raddec, associations: Associations)
    returns (estimate: Option<seq<real>>)
    requires IsReady(AnchorAndPull(minReceivers, maxReceivers, pullFactor), raddec, associations)
    ensures estimate == Estimate(AnchorAndPull(minReceivers, maxReceivers, pullFactor), raddec, associations)
  {
    var positionedDecodings := CompilePositionedDecodings(raddec, associations);
    if |positionedDecodings| < minReceivers {
      return None;
    }
    var estimatedPosition := PullFromAnchor(positionedDecodings, maxReceivers, pullFactor);
    estimate := Some(estimatedPosition);
  }

  /** estimatePosition, dispatched on the engine. */
  method EstimatePosition(engine: Engine, raddec: Raddec, associations: Associations) returns (estimate: Option<seq<real>>)
    requires IsReady(engine, raddec, associations)
    ensures estimate == Estimate(engine, raddec, associations)
  {
    match engine
    case External =>
      estimate := raddec.position;
    case AnchorAndPull(minReceivers, maxReceivers, pullFactor) =>
      estimate := AnchorAndPullEstimate(minReceivers, maxReceivers, pullFactor, raddec, associations);
  }
}
