/** The engine router (lib/positioningenginesmanager.js): an ordered list of
    (input filter, engine) pairs and the association table they share. An
    observation runs through every engine whose filter passes it; the
    estimates are forwarded when there is at least one. The raddec-filter
    library is not part of this model: a filter is built from its parameters
    by a function given at construction. */
module EnginesManager {
  import opened Wrappers
  import opened Raddecs
  import opened PositioningEngines

  /** The parameters of an input filter; `acceptedEvents` is `None` when
      absent (the empty filter `{}`). */
  datatype FilterParameters = FilterParameters(acceptedEvents: Option<seq<int>>)

  /** One configured entry: filter parameters, engine class and options. */
  datatype EngineConfig = EngineConfig(inputFilterParameters: FilterParameters, kind: EngineKind, options: EngineOptions)

  /** A constructed entry. */
  datatype PositioningEngine = PositioningEngine(inputFilter: Raddec -> bool, engine: Engine)

  /** An estimate tagged with the name of the engine that made it. */
  datatype EnginePosition = EnginePosition(positioningEngineName: string, position: seq<real>)

  const NO_OPTIONS: EngineOptions := EngineOptions(None, None, None)

  /** External unfiltered, then AnchorAndPull for appearances,
      displacements and keep-alives. */
  const DEFAULT_POSITIONING_ENGINES: seq<EngineConfig> := [
    EngineConfig(FilterParameters(None), ExternalKind, NO_OPTIONS),
    EngineConfig(FilterParameters(Some([APPEARANCE, DISPLACEMENT, KEEPALIVE])), AnchorAndPullKind, NO_OPTIONS)
  ]

  /** The entry built from one configuration entry. */
  function Configured(config: EngineConfig, makeFilter: FilterParameters -> (Raddec -> bool)): PositioningEngine {
    PositioningEngine(makeFilter(config.inputFilterParameters), ConstructEngine(config.kind, config.options))
  }

  /** Every engine whose filter passes the observation can estimate it. */
  predicate ReadyFor(engines: seq<PositioningEngine>, raddec: Raddec, associations: Associations) {
    forall i :: 0 <= i < |engines| ==> engines[i].inputFilter(raddec) ==> IsReady(engines[i].engine, raddec, associations)
  }

  /** The positions the engines collect, in engine order: one per engine
      whose filter passes and whose estimate is not null. */
  function Collected(engines: seq<PositioningEngine>, raddec: Raddec, associations: Associations): (positions: seq<EnginePosition>)
    requires ReadyFor(engines, raddec, associations)
    ensures |positions| <= |engines|
  {
    if engines == [] then []
    else
      var last := engines[|engines| - 1];
      var earlier := Collected(engines[..|engines| - 1], raddec, associations);
      if last.inputFilter(raddec) && Estimate(last.engine, raddec, associations).Some? then
        earlier + [EnginePosition(EngineName(last.engine), Estimate(last.engine, raddec, associations).value)]
      else earlier
  }

  /** An engine contributes: its filter passes and it estimates a position. */
  predicate Contributes(entry: PositioningEngine, raddec: Raddec, associations: Associations)
    requires entry.inputFilter(raddec) ==> IsReady(entry.engine, raddec, associations)
  {
    entry.inputFilter(raddec) && Estimate(entry.engine, raddec, associations).Some?
  }

  /** `position` is the tagged estimate of `entry`, which contributes. */
  predicate IsContribution(entry: PositioningEngine, raddec: Raddec, associations: Associations, position: EnginePosition) {
    && entry.inputFilter(raddec)
    && IsReady(entry.engine, raddec, associations)
    && Estimate(entry.engine, raddec, associations).Some?
    && position == EnginePosition(EngineName(entry.engine), Estimate(entry.engine, raddec, associations).value)
  }

  /** Each collected position is the tagged estimate of a contributing
      engine. */
  lemma {:induction false} CollectedComeFromContributors(engines: seq<PositioningEngine>, raddec: Raddec, associations: Associations, k: nat)
    requires ReadyFor(engines, raddec, associations)
    requires k < |Collected(engines, raddec, associations)|
    ensures exists i :: 0 <= i < |engines| &&
              IsContribution(engines[i], raddec, associations, Collected(engines, raddec, associations)[k])
  {
    var init := engines[..|engines| - 1];
    ReadyForPrefix(engines, |engines| - 1, raddec, associations);
    var positions := Collected(engines, raddec, associations);
    var earlier := Collected(init, raddec, associations);
    if k < |earlier| {
      CollectedComeFromContributors(init, raddec, associations, k);
      assert positions[k] == earlier[k];
      var i :| 0 <= i < |init| && IsContribution(init[i], raddec, associations, earlier[k]);
      assert engines[i] == init[i];
    } else {
      assert IsContribution(engines[|engines| - 1], raddec, associations, positions[k]);
    }
  }

  /** Collection runs in engine order: what the first `j` engines collect
      is a prefix of what all collect, and a contributing engine adds its
      tagged estimate right after what the engines before it collected. */
  lemma {:induction false} CollectedInEngineOrder(engines: seq<PositioningEngine>, j: nat, raddec: Raddec, associations: Associations)
    requires j <= |engines|
    requires ReadyFor(engines, raddec, associations)
    ensures ReadyFor(engines[..j], raddec, associations)
    ensures Collected(engines[..j], raddec, associations) <= Collected(engines, raddec, associations)
    ensures j < |engines| && Contributes(engines[j], raddec, associations) ==>
              && ReadyFor(engines[..j + 1], raddec, associations)
              && Collected(engines[..j + 1], raddec, associations) ==
                 Collected(engines[..j], raddec, associations) +
                 [EnginePosition(EngineName(engines[j].engine), Estimate(engines[j].engine, raddec, associations).value)]
    decreases |engines|
  {
    ReadyForPrefix(engines, j, raddec, associations);
    if j < |engines| {
      ReadyForPrefix(engines, j + 1, raddec, associations);
      assert engines[..j + 1][..j] == engines[..j];
      var init := engines[..|engines| - 1];
      ReadyForPrefix(engines, |engines| - 1, raddec, associations);
      CollectedInEngineOrder(init, j, raddec, associations);
      assert init[..j] == engines[..j];
    } else {
      assert engines[..j] == engines;
    }
  }

  /** One step of the collection: engine `j` appends its tagged estimate
      when it contributes, and nothing otherwise. */
  lemma CollectedStep(engines: seq<PositioningEngine>, j: nat, raddec: Raddec, associations: Associations)
    requires j < |engines|
    requires ReadyFor(engines, raddec, associations)
    ensures ReadyFor(engines[..j], raddec, associations) && ReadyFor(engines[..j + 1], raddec, associations)
    ensures Collected(engines[..j + 1], raddec, associations) ==
            Collected(engines[..j], raddec, associations) +
            if Contributes(engines[j], raddec, associations)
            then [EnginePosition(EngineName(engines[j].engine), Estimate(engines[j].engine, raddec, associations).value)]
            else []
  {
    ReadyForPrefix(engines, j, raddec, associations);
    ReadyForPrefix(engines, j + 1, raddec, associations);
    assert engines[..j + 1][..j] == engines[..j];
  }

  lemma ReadyForPrefix(engines: seq<PositioningEngine>, j: nat, raddec: Raddec, associations: Associations)
    requires j <= |engines|
    requires ReadyFor(engines, raddec, associations)
    ensures ReadyFor(engines[..j], raddec, associations)
  {
    forall i | 0 <= i < j ensures engines[..j][i].inputFilter(raddec) ==> IsReady(engines[..j][i].engine, raddec, associations) {
      assert engines[..j][i] == engines[i];
    }
  }

  /** At least one position is collected exactly when some engine
      contributes. */
  lemma {:induction false} CollectedNonEmptyIff(engines: seq<PositioningEngine>, raddec: Raddec, associations: Associations)
    requires ReadyFor(engines, raddec, associations)
    ensures |Collected(engines, raddec, associations)| > 0 <==>
            exists i :: 0 <= i < |engines| && Contributes(engines[i], raddec, associations)
  {
    if engines != [] {
      var init := engines[..|engines| - 1];
      assert ReadyFor(init, raddec, associations) by {
        forall i | 0 <= i < |init| ensures init[i].inputFilter(raddec) ==> IsReady(init[i].engine, raddec, associations) {
          assert init[i] == engines[i];
        }
      }
      CollectedNonEmptyIff(init, raddec, associations);
      if exists i :: 0 <= i < |init| && Contributes(init[i], raddec, associations) {
        var i :| 0 <= i < |init| && Contributes(init[i], raddec, associations);
        assert engines[i] == init[i];
      }
      if exists i :: 0 <= i < |engines| && Contributes(engines[i], raddec, associations) {
        var i :| 0 <= i < |engines| && Contributes(engines[i], raddec, associations);
        if i < |init| {
          assert init[i] == engines[i];
        }
      }
    }
  }

  /** With the default engines and no associations, AnchorAndPull never
      contributes: the only position that can be forwarded is the
      observation's own, through External. */
  lemma DefaultEnginesWithoutAssociations(makeFilter: FilterParameters -> (Raddec -> bool), raddec: Raddec)
    ensures var engines := [Configured(DEFAULT_POSITIONING_ENGINES[0], makeFilter),
                            Configured(DEFAULT_POSITIONING_ENGINES[1], makeFilter)];
            && ReadyFor(engines, raddec, map[])
            && Collected(engines, raddec, map[]) ==
                 if makeFilter(FilterParameters(None))(raddec) && raddec.position.Some?
                 then [EnginePosition("External", raddec.position.value)] else []
  {
    var engines := [Configured(DEFAULT_POSITIONING_ENGINES[0], makeFilter),
                    Configured(DEFAULT_POSITIONING_ENGINES[1], makeFilter)];
    NoAssociationsNoDecodings(raddec);
    assert engines[..1] == [engines[0]];
    assert engines[..1][..0] == [];
  }

  class PositioningEnginesManager {
    const positioningEngines: seq<PositioningEngine>
    var associations: Associations

    /** Builds one entry per configured engine, in order; absent options
        take the default engines and an empty association table. */
    constructor (configs: Option<seq<EngineConfig>>, associations: Option<Associations>,
                 makeFilter: FilterParameters -> (Raddec -> bool))
      ensures var configured := configs.GetOr(DEFAULT_POSITIONING_ENGINES);
              && |positioningEngines| == |configured|
              && forall i :: 0 <= i < |configured| ==> positioningEngines[i] == Configured(configured[i], makeFilter)
      ensures this.associations == associations.GetOr(map[])
    {
      var configured := configs.GetOr(DEFAULT_POSITIONING_ENGINES);
      var engines: seq<PositioningEngine> := [];
      var index := 0;
      while index < |configured|
        invariant 0 <= index <= |configured|
        invariant |engines| == index
        invariant forall i :: 0 <= i < index ==> engines[i] == Configured(configured[i], makeFilter)
      {
        engines := engines + [PositioningEngine(makeFilter(configured[index].inputFilterParameters),
                                                ConstructEngine(configured[index].kind, configured[index].options))];
        index := index + 1;
      }
      positioningEngines := engines;
      this.associations := associations.GetOr(map[]);
    }

    /** Replaces the association table; the engines are constant. */
    method SetAssociations(associations: Associations)
      modifies this
      ensures this.associations == associations
    {
      this.associations := associations;
    }

    /** handleRaddec: the positions forwarded to the position manager, or
        `None` when nothing was collected and nothing is forwarded. */
    method HandleRaddec(raddec: Raddec) returns (forwarded: Option<seq<EnginePosition>>)
      requires ReadyFor(positioningEngines, raddec, associations)
      ensures var positions := Collected(positioningEngines, raddec, associations);
              forwarded == if |positions| > 0 then Some(positions) else None
    {
      var positions: seq<EnginePosition> := [];
      var index := 0;
      while index < |positioningEngines|
        invariant 0 <= index <= |positioningEngines|
        invariant ReadyFor(positioningEngines[..index], raddec, associations)
        invariant positions == Collected(positioningEngines[..index], raddec, associations)
      {
        var positioningEngine := positioningEngines[index];
        assert positioningEngines[..index + 1][..index] == positioningEngines[..index];
        if positioningEngine.inputFilter(raddec) {
          var position := EstimatePosition(positioningEngine.engine, raddec, associations);
          if position.Some? {
            positions := positions + [EnginePosition(EngineName(positioningEngine.engine), position.value)];
          }
        }
        index := index + 1;
      }
      assert positioningEngines[..index] == positioningEngines;
      if |positions| > 0 {
        forwarded := Some(positions);
      } else {
        forwarded := None;
      }
    }
  }
}
