/**
 * The MicroVerse controller: which terrains it drives, the once-per-frame
 * update request state machine, the "modifying terrain" flag and its
 * finished event, height read-back, terrain layer synchronisation, and the
 * ping-pong buffer passes that run the height and splat stamps.
 * The GPU work inside Modify is abstract; only its effects on the
 * controller state are kept.
 */
module MicroVerseMain {
  import opened Engine
  import opened Sequences
  import opened Wrappers

  datatype InvalidateType = All | Splats | Tree

  predicate NullFree(s: seq<Terrain?>)
  {
    forall i :: 0 <= i < |s| ==> s[i] != null
  }

  class MicroVerse {
    var enabled: bool
    var explicitTerrains: seq<Terrain?>
    /** The terrains found under the MicroVerse object (the private _terrains list). */
    var childTerrains: seq<Terrain?>
    var invalidateType: InvalidateType
    var needUpdate: bool
    var isModifyingTerrain: bool
    var isHeightSyncd: bool
    var heightSavebackRequested: bool
    var firstUpdate: bool
    /** How many times OnFinishedUpdating, OnBeginUpdating and OnCancelUpdating were raised. */
    var finishedEvents: nat
    var beginEvents: nat
    var cancelEvents: nat
    /** How many times the terrain pipeline in Modify ran to its end without throwing. */
    var modifyRuns: nat
    /** Every terrainData.SyncHeightmap call, in order. */
    var heightmapSyncs: seq<Terrain?>

    ghost predicate Valid()
      reads this`childTerrains
    {
      NullFree(childTerrains)
    }

    constructor ()
      ensures Valid()
      ensures enabled && explicitTerrains == [] && childTerrains == []
      ensures invalidateType == All && !needUpdate && !isModifyingTerrain
      ensures !isHeightSyncd && !heightSavebackRequested && !firstUpdate
      ensures finishedEvents == 0 && beginEvents == 0 && cancelEvents == 0
      ensures modifyRuns == 0 && heightmapSyncs == []
    {
      enabled := true;
      explicitTerrains := [];
      childTerrains := [];
      invalidateType := All;
      needUpdate := false;
      isModifyingTerrain := false;
      isHeightSyncd := false;
      heightSavebackRequested := false;
      firstUpdate := false;
      finishedEvents := 0;
      beginEvents := 0;
      cancelEvents := 0;
      modifyRuns := 0;
      heightmapSyncs := [];
    }

    /** The explicit terrain list is in use exactly when it is non-empty and holds no null. */
    predicate UsesExplicitTerrains()
      reads this`explicitTerrains
    {
      |explicitTerrains| > 0 && NullFree(explicitTerrains)
    }

    /** The terrains property: the explicit list when usable, otherwise the child list. */
    function Terrains(): (r: seq<Terrain?>)
      reads this`explicitTerrains, this`childTerrains
      ensures UsesExplicitTerrains() ==> r == explicitTerrains
      ensures !UsesExplicitTerrains() ==> r == childTerrains
      ensures Valid() ==> NullFree(r)
    {
      if UsesExplicitTerrains() then explicitTerrains else childTerrains
    }

    /** SyncTerrainList: re-reads the child terrains unless the explicit list is usable. */
    method SyncTerrainList(children: seq<Terrain>)
      modifies this`childTerrains
      ensures UsesExplicitTerrains() == old(UsesExplicitTerrains())
      ensures childTerrains == if old(UsesExplicitTerrains()) then old(childTerrains) else children
      ensures old(Valid()) ==> Valid()
    {
      if UsesExplicitTerrains() {
        return;
      }
      childTerrains := children;
    }

    /**
     * OnEnable: the next pipeline run is marked as the first one, and
     * outside play mode the terrain list is re-synced. The editor event
     * subscriptions are not modelled.
     */
    method OnEnable(isPlaying: bool, children: seq<Terrain>)
      requires Valid()
      modifies this`firstUpdate, this`childTerrains
      ensures Valid()
      ensures firstUpdate
      ensures childTerrains == if !isPlaying && !old(UsesExplicitTerrains()) then children else old(childTerrains)
    {
      firstUpdate := true;
      if !isPlaying {
        SyncTerrainList(children);
      }
    }

    /**
     * Invalidate: requests one update this frame. Repeated requests of the
     * same kind keep that kind; two different kinds widen to All.
     */
    method Invalidate(kind: InvalidateType)
      modifies this`needUpdate, this`invalidateType
      ensures needUpdate
      ensures !old(needUpdate) ==> invalidateType == kind
      ensures old(needUpdate) && old(invalidateType) == kind ==> invalidateType == kind
      ensures old(needUpdate) && old(invalidateType) != kind ==> invalidateType == All
    {
      if !needUpdate {
        invalidateType := kind;
      } else if invalidateType != kind {
        invalidateType := All;
      }
      needUpdate := true;
    }

    /** The IsModifyingTerrain setter: OnFinishedUpdating fires only on a true-to-false change. */
    method SetModifyingTerrain(value: bool)
      modifies this`isModifyingTerrain, this`finishedEvents
      ensures isModifyingTerrain == value
      ensures finishedEvents == old(finishedEvents) + (if old(isModifyingTerrain) && !value then 1 else 0)
    {
      var was := isModifyingTerrain;
      isModifyingTerrain := value;
      if !value && was {
        finishedEvents := finishedEvents + 1;
      }
    }

    /**
     * Modify, reduced to its effect on the controller and the terrain layers:
     * nothing happens when the component is disabled or has no terrains;
     * otherwise the modifying flag is raised, the height data is marked out
     * of sync, the terrain list is re-synced, the terrain layers are assigned
     * and the pipeline runs. Without the vegetation module the flag is
     * dropped at the end and OnFinishedUpdating is raised once more
     * explicitly. When the re-sync empties the child list, reading the first
     * terrain's resolutions throws IndexOutOfRange: the flag stays up and no
     * finished event fires. A terrain listed twice makes the second
     * occlusionDatas.Add throw ArgumentException, and a neighbour outside the
     * list makes the seam pass's heightMaps lookup throw KeyNotFoundException;
     * both leave the same state as the empty list (see PipelineError).
     * `vegetation` stands for the __MICROVERSE_VEGETATION__
     * define, `syncLayers` for keepLayersInSync or MicroSplat being in use,
     * `splatModifiers` for the texture modifiers found (disabled ones
     * included), and `inBounds(t, m)` for terrain t's bounds meeting
     * modifier m's bounds.
     */
    method Modify<M>(children: seq<Terrain>, vegetation: bool, syncLayers: bool, splatModifiers: seq<M>,
                     inq: (Terrain, M) -> seq<TerrainLayer?>, inBounds: (Terrain, M) -> bool)
      returns (error: Option<Error>)
      requires Valid()
      modifies this, TerrainObjects(SyncedTerrains(children))
      ensures Valid()
      ensures needUpdate == old(needUpdate) && invalidateType == old(invalidateType)
      ensures explicitTerrains == old(explicitTerrains) && enabled == old(enabled)
      ensures heightSavebackRequested == old(heightSavebackRequested)
      ensures !old(enabled) || |old(Terrains())| == 0 ==>
        error.None? && unchanged(this) && unchanged(old(TerrainObjects(SyncedTerrains(children))))
      ensures old(enabled) && |old(Terrains())| > 0 ==>
        PipelineRan(children, vegetation, syncLayers, splatModifiers, inq, inBounds, error)
      ensures error == Some(IndexOutOfRange) <==>
        old(enabled) && |old(Terrains())| > 0 && !old(UsesExplicitTerrains()) && children == []
    {
      if !enabled {
        return None;
      }
      if |Terrains()| == 0 {
        return None;
      }
      error := RunPipeline(children, vegetation, syncLayers, splatModifiers, inq, inBounds);
    }

    /** The body of Modify once it has decided to run; it fails as PipelineError says of the re-synced list. */
    method RunPipeline<M>(children: seq<Terrain>, vegetation: bool, syncLayers: bool, splatModifiers: seq<M>,
                          inq: (Terrain, M) -> seq<TerrainLayer?>, inBounds: (Terrain, M) -> bool)
      returns (error: Option<Error>)
      requires Valid()
      modifies this`isModifyingTerrain, this`finishedEvents, this`cancelEvents, this`beginEvents
      modifies this`isHeightSyncd, this`childTerrains, this`modifyRuns, this`heightmapSyncs, this`firstUpdate
      modifies TerrainObjects(SyncedTerrains(children))
      ensures Valid()
      ensures PipelineRan(children, vegetation, syncLayers, splatModifiers, inq, inBounds, error)
    {
      ghost var synced := SyncedTerrains(children);
      BeginPipeline(children);
      ghost var ts := Terrains();
      error := LayersAndEnd(synced, vegetation, syncLayers, splatModifiers, inq, inBounds);
      assert Terrains() == ts && SyncedTerrains(children) == synced;
    }

    /**
     * The layer step and the end of the pipeline, on the re-synced terrain
     * list; it stops with the exception PipelineError names, before the
     * end of the pipeline.
     */
    method LayersAndEnd<M>(ghost ts: seq<Terrain>, vegetation: bool, syncLayers: bool, splatModifiers: seq<M>,
                           inq: (Terrain, M) -> seq<TerrainLayer?>, inBounds: (Terrain, M) -> bool)
      returns (error: Option<Error>)
      requires Valid() && isModifyingTerrain && NonNullTerrains(Terrains()) == ts
      modifies this`heightmapSyncs, this`firstUpdate, this`isModifyingTerrain, this`finishedEvents, this`modifyRuns
      modifies TerrainObjects(ts)
      ensures error == PipelineError(ts)
      ensures error.Some? ==>
        && isModifyingTerrain
        && modifyRuns == old(modifyRuns)
        && finishedEvents == old(finishedEvents)
        && firstUpdate == old(firstUpdate)
        && heightmapSyncs == old(heightmapSyncs)
      ensures error.None? ==>
        && modifyRuns == old(modifyRuns) + 1
        && !firstUpdate
        && heightmapSyncs == old(heightmapSyncs) + (if old(firstUpdate) then Terrains() else [])
        && isModifyingTerrain == vegetation
        && finishedEvents == old(finishedEvents) + (if vegetation then 0 else 2)
      ensures LayersAssigned(ts, syncLayers, splatModifiers, inq, inBounds)
    {
      AssignTerrainLayers(ts, syncLayers, splatModifiers, inq, inBounds);
      ghost var listed := Terrains();
      error := PipelineError(NonNullTerrains(Terrains()));
      if error.Some? {
        return;
      }
      EndPipeline(vegetation);
      assert Terrains() == listed;
      return None;
    }

    /** The layer step of Modify, on the re-synced terrain list. */
    method AssignTerrainLayers<M>(ghost ts: seq<Terrain>, syncLayers: bool, splatModifiers: seq<M>,
                                  inq: (Terrain, M) -> seq<TerrainLayer?>, inBounds: (Terrain, M) -> bool)
      requires Valid() && NonNullTerrains(Terrains()) == ts
      modifies TerrainObjects(ts)
      ensures unchanged(this)
      ensures LayersAssigned(NonNullTerrains(Terrains()), syncLayers, splatModifiers, inq, inBounds)
    {
      if syncLayers {
        var allLayers, reassigned := SanatizeTerrainLayers(splatModifiers, inq);
      } else {
        AssignInBoundsLayers(NonNullTerrains(Terrains()), splatModifiers, inq, inBounds);
      }
    }

    /**
     * What the layer step of Modify leaves on the terrains: with layer
     * synchronisation every terrain holds the name-ordered, duplicate- and
     * null-free list of all the layers the modifiers ask for; without, each
     * terrain holds, duplicates removed, what the modifiers whose bounds
     * meet it ask for.
     */
    ghost predicate LayersAssigned<M>(ts: seq<Terrain>, syncLayers: bool, splatModifiers: seq<M>,
                                      inq: (Terrain, M) -> seq<TerrainLayer?>, inBounds: (Terrain, M) -> bool)
      reads TerrainObjects(ts)
    {
      forall k {:trigger ts[k].terrainLayers} :: 0 <= k < |ts| ==>
        ts[k].terrainLayers == if syncLayers then SortedLayerSet(Inquire(ts, splatModifiers, inq))
                               else Distinct(InquireInBounds(ts[k], splatModifiers, inq, inBounds))
    }

    /**
     * What one run of the pipeline leaves: the begin and cancel events have
     * fired, the height data is out of sync, the terrain list is re-synced
     * and the layers assigned; the run fails as PipelineError says of the
     * re-synced list, and only a run that does not fail is counted, clears
     * the first-run flag, syncs the heightmaps and ends the modifying flag.
     */
    twostate predicate PipelineRan<M>(children: seq<Terrain>, vegetation: bool, syncLayers: bool, splatModifiers: seq<M>,
                                      inq: (Terrain, M) -> seq<TerrainLayer?>, inBounds: (Terrain, M) -> bool,
                                      new error: Option<Error>)
      reads this, TerrainObjects(SyncedTerrains(children))
    {
      && beginEvents == old(beginEvents) + 1
      && cancelEvents == old(cancelEvents) + 1
      && !isHeightSyncd
      && childTerrains == (if old(UsesExplicitTerrains()) then old(childTerrains) else children)
      && Valid() && NonNullTerrains(Terrains()) == SyncedTerrains(children)
      && error == PipelineError(SyncedTerrains(children))
      && (error.Some? ==>
           && isModifyingTerrain
           && modifyRuns == old(modifyRuns)
           && finishedEvents == old(finishedEvents)
           && firstUpdate == old(firstUpdate)
           && heightmapSyncs == old(heightmapSyncs))
      && (error.None? ==>
           && modifyRuns == old(modifyRuns) + 1
           && !firstUpdate
           && heightmapSyncs == old(heightmapSyncs) + (if old(firstUpdate) then Terrains() else [])
           && isModifyingTerrain == vegetation
           && finishedEvents == old(finishedEvents) + (if vegetation then 0 else 2))
      && LayersAssigned(SyncedTerrains(children), syncLayers, splatModifiers, inq, inBounds)
    }

    /** The terrains Modify works on once the terrain list is re-synced. */
    ghost function SyncedTerrains(children: seq<Terrain>): seq<Terrain>
      reads this`explicitTerrains
    {
      if UsesExplicitTerrains() then NonNullTerrains(explicitTerrains) else children
    }

    /** The start of the pipeline: the modifying flag goes up, the begin and cancel events fire, the terrain list is re-synced. */
    method BeginPipeline(children: seq<Terrain>)
      requires Valid()
      modifies this`isModifyingTerrain, this`finishedEvents, this`cancelEvents, this`beginEvents
      modifies this`isHeightSyncd, this`childTerrains
      ensures Valid()
      ensures isModifyingTerrain && finishedEvents == old(finishedEvents)
      ensures beginEvents == old(beginEvents) + 1 && cancelEvents == old(cancelEvents) + 1
      ensures !isHeightSyncd
      ensures childTerrains == (if old(UsesExplicitTerrains()) then old(childTerrains) else children)
      ensures NonNullTerrains(Terrains()) == SyncedTerrains(children)
    {
      SetModifyingTerrain(true);
      cancelEvents := cancelEvents + 1;
      beginEvents := beginEvents + 1;
      isHeightSyncd := false;
      SyncTerrainList(children);
    }

    /**
     * The end of the pipeline: the run is counted, the first run syncs every
     * heightmap, and without vegetation the flag drops and the finished
     * event fires twice.
     */
    method EndPipeline(vegetation: bool)
      requires isModifyingTerrain
      modifies this`heightmapSyncs, this`firstUpdate, this`isModifyingTerrain, this`finishedEvents, this`modifyRuns
      ensures modifyRuns == old(modifyRuns) + 1
      ensures !firstUpdate
      ensures heightmapSyncs == old(heightmapSyncs) + (if old(firstUpdate) then Terrains() else [])
      ensures isModifyingTerrain == vegetation
      ensures finishedEvents == old(finishedEvents) + (if vegetation then 0 else 2)
    {
      if firstUpdate {
        heightmapSyncs := heightmapSyncs + Terrains();
        firstUpdate := false;
      }
      if !vegetation {
        SetModifyingTerrain(false);
        finishedEvents := finishedEvents + 1;
      }
      modifyRuns := modifyRuns + 1;
    }

    /**
     * RequestHeightSaveback: when the height data is out of sync, clears the
     * request, re-syncs the terrain list and reads every terrain's heightmap
     * back; a second call changes nothing.
     */
    method RequestHeightSaveback(children: seq<Terrain>)
      requires Valid()
      modifies this
      ensures Valid()
      ensures SavedBack(children)
    {
      if !isHeightSyncd {
        heightSavebackRequested := false;
        SyncTerrainList(children);
        var ts := Terrains();
        var i := 0;
        while i < |ts|
          invariant 0 <= i <= |ts|
          invariant heightmapSyncs == old(heightmapSyncs) + ts[..i]
          invariant ts == Terrains() && Valid() && !heightSavebackRequested
          invariant childTerrains == (if old(UsesExplicitTerrains()) then old(childTerrains) else children)
          invariant explicitTerrains == old(explicitTerrains) && enabled == old(enabled)
          invariant needUpdate == old(needUpdate) && invalidateType == old(invalidateType)
          invariant isModifyingTerrain == old(isModifyingTerrain) && firstUpdate == old(firstUpdate)
          invariant finishedEvents == old(finishedEvents) && beginEvents == old(beginEvents)
          invariant cancelEvents == old(cancelEvents) && modifyRuns == old(modifyRuns)
        {
          heightmapSyncs := heightmapSyncs + [ts[i]];
          i := i + 1;
        }
        assert ts[..|ts|] == ts;
        isHeightSyncd := true;
      }
    }

    /**
     * What RequestHeightSaveback leaves: the height data is in sync; when it
     * was not, the request is cleared, the terrain list re-synced and every
     * terrain's heightmap read back, in list order. Nothing else of the
     * controller changes.
     */
    twostate predicate SavedBack(children: seq<Terrain>)
      reads this
    {
      && isHeightSyncd
      && (old(isHeightSyncd) ==> unchanged(this))
      && (!old(isHeightSyncd) ==>
           && !heightSavebackRequested
           && childTerrains == (if old(UsesExplicitTerrains()) then old(childTerrains) else children)
           && heightmapSyncs == old(heightmapSyncs) + Terrains())
      && explicitTerrains == old(explicitTerrains) && enabled == old(enabled)
      && needUpdate == old(needUpdate) && invalidateType == old(invalidateType)
      && isModifyingTerrain == old(isModifyingTerrain) && firstUpdate == old(firstUpdate)
      && finishedEvents == old(finishedEvents) && beginEvents == old(beginEvents)
      && cancelEvents == old(cancelEvents) && modifyRuns == old(modifyRuns)
    }

    /**
     * Every field of the controller except the child terrain list and the
     * update request (needUpdate and invalidateType) is as it was.
     */
    twostate predicate RunStateKept()
      reads this
    {
      && enabled == old(enabled) && explicitTerrains == old(explicitTerrains)
      && isModifyingTerrain == old(isModifyingTerrain)
      && isHeightSyncd == old(isHeightSyncd) && heightSavebackRequested == old(heightSavebackRequested)
      && firstUpdate == old(firstUpdate) && finishedEvents == old(finishedEvents)
      && beginEvents == old(beginEvents) && cancelEvents == old(cancelEvents)
      && modifyRuns == old(modifyRuns) && heightmapSyncs == old(heightmapSyncs)
    }

    /**
     * Update: in play mode a pending request is cleared before Modify runs,
     * so one or many invalidations in a frame give at most one Modify; in
     * edit mode a pending height save-back request is served instead.
     */
    method Update<M>(isPlaying: bool, children: seq<Terrain>, vegetation: bool, syncLayers: bool, splatModifiers: seq<M>,
                     inq: (Terrain, M) -> seq<TerrainLayer?>, inBounds: (Terrain, M) -> bool)
      returns (error: Option<Error>)
      requires Valid()
      modifies this, TerrainObjects(SyncedTerrains(children))
      ensures Valid()
      ensures modifyRuns <= old(modifyRuns) + 1
      ensures modifyRuns == old(modifyRuns) + 1 ==> isPlaying && old(needUpdate)
      ensures error == Some(IndexOutOfRange) <==>
        isPlaying && old(needUpdate) && old(enabled) && |old(Terrains())| > 0 && !old(UsesExplicitTerrains()) && children == []
      ensures isPlaying ==> !needUpdate
      ensures isPlaying && !old(needUpdate) ==>
        error.None? && unchanged(this) && unchanged(old(TerrainObjects(SyncedTerrains(children))))
      ensures isPlaying && old(needUpdate) && (!old(enabled) || |old(Terrains())| == 0) ==>
        && error.None? && RunStateKept()
        && childTerrains == old(childTerrains) && invalidateType == old(invalidateType)
        && unchanged(old(TerrainObjects(SyncedTerrains(children))))
      ensures isPlaying && old(needUpdate) && old(enabled) && |old(Terrains())| > 0 ==>
        && PipelineRan(children, vegetation, syncLayers, splatModifiers, inq, inBounds, error)
        && invalidateType == old(invalidateType) && heightSavebackRequested == old(heightSavebackRequested)
        && explicitTerrains == old(explicitTerrains) && enabled == old(enabled)
      ensures !isPlaying ==> error.None? && unchanged(old(TerrainObjects(SyncedTerrains(children))))
      ensures !isPlaying && old(heightSavebackRequested) ==> SavedBack(children)
      ensures !isPlaying && !old(heightSavebackRequested) ==> unchanged(this)
    {
      error := None;
      if isPlaying {
        if needUpdate {
          needUpdate := false;
          error := Modify(children, vegetation, syncLayers, splatModifiers, inq, inBounds);
        }
      } else if heightSavebackRequested {
        RequestHeightSaveback(children);
      }
    }

    /**
     * LateUpdate: drops the modifying flag (raising OnFinishedUpdating) unless
     * the spawn processor is still writing. `spawnerBusy` is
     * SpawnProcessor.IsModifyingTerrain, false without the vegetation or objects module.
     */
    method LateUpdate(spawnerBusy: bool)
      modifies this
      ensures isModifyingTerrain == (old(isModifyingTerrain) && spawnerBusy)
      ensures finishedEvents == old(finishedEvents) + (if old(isModifyingTerrain) && !spawnerBusy then 1 else 0)
      ensures enabled == old(enabled) && explicitTerrains == old(explicitTerrains) && childTerrains == old(childTerrains)
      ensures invalidateType == old(invalidateType) && needUpdate == old(needUpdate) && isHeightSyncd == old(isHeightSyncd)
      ensures heightSavebackRequested == old(heightSavebackRequested) && firstUpdate == old(firstUpdate)
      ensures beginEvents == old(beginEvents) && cancelEvents == old(cancelEvents) && modifyRuns == old(modifyRuns)
      ensures heightmapSyncs == old(heightmapSyncs)
    {
      if isModifyingTerrain {
        var busy := spawnerBusy;
        if !busy {
          SetModifyingTerrain(false);
        }
      }
    }

    /**
     * SanatizeTerrainLayers: every terrain ends up with the name-ordered,
     * duplicate- and null-free list of the layers the modifiers ask for; the
     * terrains are reassigned only when one of them did not already hold
     * exactly that list. The returned list is what OnTerrainLayersChanged receives.
     * `inq(t, m)` is what modifier m appends in InqTerrainLayers for terrain t.
     */
    method SanatizeTerrainLayers<M>(modifiers: seq<M>, inq: (Terrain, M) -> seq<TerrainLayer?>)
      returns (allLayers: seq<TerrainLayer>, reassigned: bool)
      requires Valid()
      modifies TerrainObjects(NonNullTerrains(Terrains()))
      ensures allLayers == SortedLayerSet(Inquire(NonNullTerrains(Terrains()), modifiers, inq))
      ensures reassigned <==> exists i :: 0 <= i < |Terrains()| && old(Terrains()[i].terrainLayers) != allLayers
      ensures forall i :: 0 <= i < |Terrains()| ==> Terrains()[i].terrainLayers == allLayers
      ensures !reassigned ==> unchanged(TerrainObjects(NonNullTerrains(Terrains())))
    {
      var ts := NonNullTerrains(Terrains());
      allLayers := CollectSortedLayers(ts, modifiers, inq);
      reassigned := AnyLayersMismatch(ts, allLayers);
      if reassigned {
        AssignLayers(ts, allLayers);
      }
    }
  }

  /** The objects of a terrain list. */
  ghost function TerrainObjects(ts: seq<Terrain>): set<Terrain>
  {
    set t | t in ts
  }

  /** The first loop of SanatizeTerrainLayers: does some terrain not hold exactly the given layers? */
  method AnyLayersMismatch(ts: seq<Terrain>, layers: seq<TerrainLayer>) returns (mismatch: bool)
    ensures mismatch <==> exists k :: 0 <= k < |ts| && ts[k].terrainLayers != layers
  {
    mismatch := false;
    var i := 0;
    while i < |ts|
      invariant 0 <= i <= |ts|
      invariant mismatch <==> exists k :: 0 <= k < i && ts[k].terrainLayers != layers
    {
      var same := DoTerrainLayersMatch(layers, ts[i].terrainLayers);
      if !same {
        mismatch := true;
      }
      i := i + 1;
    }
  }

  /** The second loop of SanatizeTerrainLayers: give every terrain the same layer list. */
  method AssignLayers(ts: seq<Terrain>, layers: seq<TerrainLayer>)
    modifies TerrainObjects(ts)
    ensures forall k :: 0 <= k < |ts| ==> ts[k].terrainLayers == layers
  {
    var i := 0;
    while i < |ts|
      invariant 0 <= i <= |ts|
      invariant forall k :: 0 <= k < i ==> ts[k].terrainLayers == layers
    {
      ts[i].terrainLayers := layers;
      i := i + 1;
    }
  }

  /**
   * The layer step of Modify without layer synchronisation: each terrain
   * gets, duplicates removed, the layers of the modifiers whose bounds meet it.
   */
  method AssignInBoundsLayers<M>(ts: seq<Terrain>, modifiers: seq<M>, inq: (Terrain, M) -> seq<TerrainLayer?>,
                                 inBounds: (Terrain, M) -> bool)
    modifies TerrainObjects(ts)
    ensures forall k :: 0 <= k < |ts| ==> ts[k].terrainLayers == Distinct(InquireInBounds(ts[k], modifiers, inq, inBounds))
  {
    var i := 0;
    while i < |ts|
      invariant 0 <= i <= |ts|
      invariant forall k :: 0 <= k < i ==> ts[k].terrainLayers == Distinct(InquireInBounds(ts[k], modifiers, inq, inBounds))
    {
      var layers := CollectInBoundsLayers(ts[i], modifiers, inq, inBounds);
      ts[i].terrainLayers := Distinct(layers);
      i := i + 1;
    }
  }

  /** The inner loop of that step: the modifiers whose bounds meet the terrain append their layers. */
  method CollectInBoundsLayers<M>(t: Terrain, modifiers: seq<M>, inq: (Terrain, M) -> seq<TerrainLayer?>,
                                  inBounds: (Terrain, M) -> bool)
    returns (layers: seq<TerrainLayer?>)
    ensures layers == InquireInBounds(t, modifiers, inq, inBounds)
  {
    layers := [];
    var j := 0;
    while j < |modifiers|
      invariant 0 <= j <= |modifiers|
      invariant layers == InquireInBounds(t, modifiers[..j], inq, inBounds)
    {
      assert modifiers[..j + 1][..j] == modifiers[..j];
      if inBounds(t, modifiers[j]) {
        layers := layers + inq(t, modifiers[j]);
      }
      j := j + 1;
    }
    assert modifiers[..|modifiers|] == modifiers;
  }

  /** The terrain list with its element type narrowed; the list must hold no null. */
  function NonNullTerrains(s: seq<Terrain?>): (r: seq<Terrain>)
    requires NullFree(s)
    ensures |r| == |s| && forall i :: 0 <= i < |s| ==> r[i] == s[i]
  {
    if s == [] then [] else NonNullTerrains(s[..|s|-1]) + [s[|s|-1]]
  }

  /** Every non-null neighbour of a listed terrain is itself listed, so the seam pass finds its height map. */
  predicate SeamsResolve(ts: seq<Terrain>)
  {
    forall k, n :: 0 <= k < |ts| && n in ts[k].Neighbors() && n != null ==> n in ts
  }

  /**
   * The exception the pipeline of Modify throws on the re-synced terrain
   * list, in the order the passes meet them: reading the first terrain's
   * resolutions on an empty list, adding a terrain's occlusion data a second
   * time, and looking up a neighbour's height map in the seam pass.
   */
  function PipelineError(ts: seq<Terrain>): (r: Option<Error>)
    ensures r == Some(IndexOutOfRange) <==> |ts| == 0
    ensures r == Some(Argument) <==> |ts| > 0 && exists i, j :: 0 <= i < j < |ts| && ts[i] == ts[j]
    ensures r == Some(KeyNotFound) <==>
      && |ts| > 0 && NoDuplicates(ts)
      && exists k, n :: 0 <= k < |ts| && n in ts[k].Neighbors() && n != null && n !in ts
    ensures r.None? <==> |ts| > 0 && NoDuplicates(ts) && SeamsResolve(ts)
  {
    if |ts| == 0 then Some(IndexOutOfRange)
    else if !NoDuplicates(ts) then Some(Argument)
    else if !SeamsResolve(ts) then Some(KeyNotFound)
    else None
  }

  /** DoTerrainLayersMatch: same length and the same layer object in every slot. */
  method DoTerrainLayersMatch(a: seq<TerrainLayer?>, b: seq<TerrainLayer?>) returns (r: bool)
    ensures r <==> a == b
  {
    if |a| != |b| {
      return false;
    }
    var i := 0;
    while i < |a|
      invariant 0 <= i <= |a|
      invariant a[..i] == b[..i]
    {
      if a[i] != b[i] {
        return false;
      }
      assert a[..i + 1] == a[..i] + [a[i]] && b[..i + 1] == b[..i] + [b[i]];
      i := i + 1;
    }
    assert a == a[..|a|] && b == b[..|b|];
    return true;
  }

  /** What the modifiers append, in order, when asked about one terrain. */
  function InquireOne<M>(t: Terrain, modifiers: seq<M>, inq: (Terrain, M) -> seq<TerrainLayer?>): seq<TerrainLayer?>
  {
    if modifiers == [] then []
    else InquireOne(t, modifiers[..|modifiers|-1], inq) + inq(t, modifiers[|modifiers|-1])
  }

  /** What the modifiers append, terrain by terrain. */
  function Inquire<M>(ts: seq<Terrain>, modifiers: seq<M>, inq: (Terrain, M) -> seq<TerrainLayer?>): seq<TerrainLayer?>
  {
    if ts == [] then [] else Inquire(ts[..|ts|-1], modifiers, inq) + InquireOne(ts[|ts|-1], modifiers, inq)
  }

  /** What the modifiers whose bounds meet one terrain append, in order. */
  function InquireInBounds<M>(t: Terrain, modifiers: seq<M>, inq: (Terrain, M) -> seq<TerrainLayer?>,
                              inBounds: (Terrain, M) -> bool): seq<TerrainLayer?>
  {
    if modifiers == [] then []
    else
      var m := modifiers[|modifiers|-1];
      InquireInBounds(t, modifiers[..|modifiers|-1], inq, inBounds) + (if inBounds(t, m) then inq(t, m) else [])
  }

  /** The bounds test for one terrain. */
  function MeetsTerrain<M>(t: Terrain, inBounds: (Terrain, M) -> bool): M -> bool
  {
    m => inBounds(t, m)
  }

  /** Asking only the modifiers in bounds is asking the in-bounds subsequence of the modifiers. */
  lemma {:induction false} InquireInBoundsIsFilteredInquiry<M>(t: Terrain, modifiers: seq<M>,
                                                              inq: (Terrain, M) -> seq<TerrainLayer?>, inBounds: (Terrain, M) -> bool)
    ensures InquireInBounds(t, modifiers, inq, inBounds) == InquireOne(t, Filter(modifiers, MeetsTerrain(t, inBounds)), inq)
  {
    if modifiers != [] {
      var init, m := modifiers[..|modifiers|-1], modifiers[|modifiers|-1];
      InquireInBoundsIsFilteredInquiry(t, init, inq, inBounds);
      var f := Filter(init, MeetsTerrain(t, inBounds));
      assert MeetsTerrain(t, inBounds)(m) == inBounds(t, m);
      assert Filter(modifiers, MeetsTerrain(t, inBounds)) == f + (if inBounds(t, m) then [m] else []);
      if inBounds(t, m) {
        assert (f + [m])[..|f|] == f;
        assert InquireOne(t, f + [m], inq) == InquireOne(t, f, inq) + inq(t, m);
      } else {
        assert f + [] == f;
      }
      assert InquireInBounds(t, modifiers, inq, inBounds) ==
        InquireInBounds(t, init, inq, inBounds) + (if inBounds(t, m) then inq(t, m) else []);
    }
  }

  /** A layer asked for by a modifier in bounds is asked for by the modifiers as a whole. */
  lemma {:induction false} InquireInBoundsWithin<M>(t: Terrain, modifiers: seq<M>, inq: (Terrain, M) -> seq<TerrainLayer?>,
                                                    inBounds: (Terrain, M) -> bool, l: TerrainLayer?)
    requires l in InquireInBounds(t, modifiers, inq, inBounds)
    ensures l in InquireOne(t, modifiers, inq)
  {
    var init, m := modifiers[..|modifiers|-1], modifiers[|modifiers|-1];
    if l in InquireInBounds(t, init, inq, inBounds) {
      InquireInBoundsWithin(t, init, inq, inBounds, l);
    }
  }

  /** What one terrain of the list is asked for is part of what the whole list is asked for. */
  lemma {:induction false} InquireOneWithin<M>(ts: seq<Terrain>, k: int, modifiers: seq<M>,
                                               inq: (Terrain, M) -> seq<TerrainLayer?>, l: TerrainLayer?)
    requires 0 <= k < |ts| && l in InquireOne(ts[k], modifiers, inq)
    ensures l in Inquire(ts, modifiers, inq)
  {
    if k < |ts| - 1 {
      InquireOneWithin(ts[..|ts|-1], k, modifiers, inq, l);
    }
  }

  /**
   * The two layer steps of Modify agree on what may appear: every layer a
   * terrain gets without synchronisation is null or one of the layers the
   * synchronised list would give every terrain.
   */
  lemma InBoundsLayersWithinSyncedList<M>(ts: seq<Terrain>, k: int, modifiers: seq<M>,
                                          inq: (Terrain, M) -> seq<TerrainLayer?>, inBounds: (Terrain, M) -> bool)
    requires 0 <= k < |ts|
    ensures var own := Distinct(InquireInBounds(ts[k], modifiers, inq, inBounds));
      forall i :: 0 <= i < |own| && own[i] != null ==> own[i] in SortedLayerSet(Inquire(ts, modifiers, inq))
  {
    var own := Distinct(InquireInBounds(ts[k], modifiers, inq, inBounds));
    var all := Inquire(ts, modifiers, inq);
    SortedLayerSetProperties(all);
    forall i | 0 <= i < |own| && own[i] != null
      ensures own[i] in SortedLayerSet(all)
    {
      InquireInBoundsWithin(ts[k], modifiers, inq, inBounds, own[i]);
      InquireOneWithin(ts, k, modifiers, inq, own[i]);
    }
  }

  /** List.RemoveAll(item => item == null). */
  function NonNullLayers(s: seq<TerrainLayer?>): (r: seq<TerrainLayer>)
    ensures forall i :: 0 <= i < |r| ==> r[i] in s
    ensures forall i :: 0 <= i < |s| && s[i] != null ==> s[i] in r
  {
    if s == [] then []
    else if s[|s|-1] == null then NonNullLayers(s[..|s|-1])
    else var l: TerrainLayer := s[|s|-1]; NonNullLayers(s[..|s|-1]) + [l]
  }

  function LayerName(l: TerrainLayer): string { l.name }

  /** RemoveAll(null), then Distinct().OrderBy(name). */
  function SortedLayerSet(collected: seq<TerrainLayer?>): seq<TerrainLayer>
  {
    SortBy(Distinct(NonNullLayers(collected)), LayerName, LexLe)
  }

  /**
   * The synchronised layer list holds exactly the non-null layers asked for,
   * each once, in ascending name order.
   */
  lemma SortedLayerSetProperties(collected: seq<TerrainLayer?>)
    ensures var r := SortedLayerSet(collected);
      && NoDuplicates(r)
      && (forall i, j :: 0 <= i < j < |r| ==> LexLe(r[i].name, r[j].name))
      && (forall i :: 0 <= i < |r| ==> r[i] in collected)
      && (forall i :: 0 <= i < |collected| && collected[i] != null ==> collected[i] in r)
  {
    var d := Distinct(NonNullLayers(collected));
    var r := SortBy(d, LayerName, LexLe);
    SortByPermutes(d, LayerName, LexLe);
    PermutationKeepsNoDuplicates(d, r);
    LexLeIsTotalPreorder();
    SortBySorted(d, LayerName, LexLe);
    forall i | 0 <= i < |r| ensures r[i] in collected {
      assert r[i] in multiset(d);
    }
    forall i | 0 <= i < |collected| && collected[i] != null ensures collected[i] in r {
      assert collected[i] in multiset(d);
    }
  }

  /**
   * The layer collection loop shared by SanatizeTerrainLayers and the
   * MicroSplat sync: ask each modifier about each terrain, then drop nulls,
   * remove duplicates and order by name.
   */
  method CollectSortedLayers<M>(ts: seq<Terrain>, modifiers: seq<M>, inq: (Terrain, M) -> seq<TerrainLayer?>)
    returns (layers: seq<TerrainLayer>)
    ensures layers == SortedLayerSet(Inquire(ts, modifiers, inq))
  {
    var collected: seq<TerrainLayer?> := [];
    var i := 0;
    while i < |ts|
      invariant 0 <= i <= |ts|
      invariant collected == Inquire(ts[..i], modifiers, inq)
    {
      collected := AppendInquiries(collected, ts[i], modifiers, inq);
      assert ts[..i + 1][..i] == ts[..i];
      i := i + 1;
    }
    assert ts[..|ts|] == ts;
    layers := SortedLayerSet(collected);
  }

  /** The inner loop: every modifier appends its layers for one terrain. */
  method AppendInquiries<M>(collected: seq<TerrainLayer?>, t: Terrain, modifiers: seq<M>, inq: (Terrain, M) -> seq<TerrainLayer?>)
    returns (r: seq<TerrainLayer?>)
    ensures r == collected + InquireOne(t, modifiers, inq)
  {
    r := collected;
    var j := 0;
    while j < |modifiers|
      invariant 0 <= j <= |modifiers|
      invariant r == collected + InquireOne(t, modifiers[..j], inq)
    {
      assert modifiers[..j + 1][..j] == modifiers[..j];
      r := r + inq(t, modifiers[j]);
      j := j + 1;
    }
    assert modifiers[..|modifiers|] == modifiers;
  }

  /** One ApplyHeightStamp / ApplyTextureStamp call: the modifier and the buffers it read and wrote. */
  datatype StampCall<M, B> = StampCall(modifier: M, source: B, dest: B)

  /** The modifiers of a call log, in call order. */
  function CallModifiers<M, B>(calls: seq<StampCall<M, B>>): (r: seq<M>)
    ensures |r| == |calls|
  {
    if calls == [] then [] else CallModifiers(calls[..|calls| - 1]) + [calls[|calls| - 1].modifier]
  }

  /** The (front, back) buffer pair after a call log: a stamp that reports a write swaps them. */
  function BuffersAfter<M, B>(calls: seq<StampCall<M, B>>, applies: M -> bool, front: B, back: B): (B, B)
  {
    if calls == [] then (front, back)
    else
      var p := BuffersAfter(calls[..|calls| - 1], applies, front, back);
      if applies(calls[|calls| - 1].modifier) then (p.1, p.0) else p
  }

  /** Each call reads the current front buffer and writes the current back buffer. */
  ghost predicate Chained<M, B>(calls: seq<StampCall<M, B>>, applies: M -> bool, front: B, back: B)
  {
    calls == [] ||
    (var p := BuffersAfter(calls[..|calls| - 1], applies, front, back);
     && Chained(calls[..|calls| - 1], applies, front, back)
     && calls[|calls| - 1].source == p.0 && calls[|calls| - 1].dest == p.1)
  }

  /** The buffer written by the last stamp that reported a write, if any. */
  function LastWritten<M, B>(calls: seq<StampCall<M, B>>, applies: M -> bool): Option<B>
  {
    if calls == [] then None
    else if applies(calls[|calls| - 1].modifier) then Some(calls[|calls| - 1].dest)
    else LastWritten(calls[..|calls| - 1], applies)
  }

  /**
   * The ping-pong loop of GenerateHeightmap and GenerateSplatmaps: every
   * modifier whose bounds meet the terrain is applied from the front buffer
   * to the back buffer, and the two change places exactly when the stamp
   * reports that it wrote. The result is the front buffer at the end.
   */
  method PingPong<M, B>(modifiers: seq<M>, inBounds: M -> bool, applies: M -> bool, front: B, back: B)
    returns (result: B, calls: seq<StampCall<M, B>>)
    ensures CallModifiers(calls) == Filter(modifiers, inBounds)
    ensures Chained(calls, applies, front, back)
    ensures result == BuffersAfter(calls, applies, front, back).0
  {
    var a, b := front, back;
    calls := [];
    var i := 0;
    while i < |modifiers|
      invariant 0 <= i <= |modifiers|
      invariant CallModifiers(calls) == Filter(modifiers[..i], inBounds)
      invariant Chained(calls, applies, front, back)
      invariant (a, b) == BuffersAfter(calls, applies, front, back)
    {
      var m := modifiers[i];
      FilterPrefixStep(modifiers, i, inBounds);
      if inBounds(m) {
        var c := StampCall(m, a, b);
        ChainStep(calls, c, applies, front, back);
        calls := calls + [c];
        if applies(m) {
          a, b := b, a;
        }
      }
      i := i + 1;
    }
    assert modifiers[..|modifiers|] == modifiers;
    result := a;
  }

  /** Appending a call that reads the current front buffer and writes the back one keeps the log chained. */
  lemma ChainStep<M, B>(calls: seq<StampCall<M, B>>, c: StampCall<M, B>, applies: M -> bool, front: B, back: B)
    requires Chained(calls, applies, front, back)
    requires (c.source, c.dest) == BuffersAfter(calls, applies, front, back)
    ensures Chained(calls + [c], applies, front, back)
    ensures CallModifiers(calls + [c]) == CallModifiers(calls) + [c.modifier]
    ensures BuffersAfter(calls + [c], applies, front, back) == if applies(c.modifier) then (c.dest, c.source) else (c.source, c.dest)
  {
    assert (calls + [c])[..|calls|] == calls;
  }

  /**
   * After a ping-pong chain the front buffer is the one the last writing
   * stamp wrote into; with no writing stamp the buffers are where they started.
   */
  lemma {:induction false} LastWriterOwnsResult<M, B>(calls: seq<StampCall<M, B>>, applies: M -> bool, front: B, back: B)
    requires Chained(calls, applies, front, back)
    ensures LastWritten(calls, applies).Some? ==>
      BuffersAfter(calls, applies, front, back).0 == LastWritten(calls, applies).value
    ensures LastWritten(calls, applies).None? ==> BuffersAfter(calls, applies, front, back) == (front, back)
  {
    if calls != [] {
      LastWriterOwnsResult(calls[..|calls| - 1], applies, front, back);
    }
  }

  /** The two buffers only ever change places: the pair stays {front, back}. */
  lemma {:induction false} BuffersArePermuted<M, B>(calls: seq<StampCall<M, B>>, applies: M -> bool, front: B, back: B)
    ensures var p := BuffersAfter(calls, applies, front, back);
      (p == (front, back)) || (p == (back, front))
  {
    if calls != [] {
      BuffersArePermuted(calls[..|calls| - 1], applies, front, back);
    }
  }

  /**
   * GenerateHeightmap: stamps run in list order over two buffers; the
   * returned buffer holds the result and the other one is released.
   */
  method GenerateHeightmap<M>(modifiers: seq<M>, inBounds: M -> bool, applies: M -> bool, rt1: RenderTexture, rt2: RenderTexture)
    returns (result: RenderTexture, released: RenderTexture, calls: seq<StampCall<M, RenderTexture>>)
    requires rt1 != rt2
    ensures {result, released} == {rt1, rt2} && result != released
    ensures CallModifiers(calls) == Filter(modifiers, inBounds)
    ensures Chained(calls, applies, rt1, rt2)
    ensures LastWritten(calls, applies).None? ==> result == rt1
    ensures LastWritten(calls, applies).Some? ==> result == LastWritten(calls, applies).value
  {
    result, calls := PingPong(modifiers, inBounds, applies, rt1, rt2);
    var after := BuffersAfter(calls, applies, rt1, rt2);
    released := after.1;
    BuffersArePermuted(calls, applies, rt1, rt2);
    LastWriterOwnsResult(calls, applies, rt1, rt2);
  }

  /** The index and weight targets of the splat pass, swapped together. */
  datatype SplatTargets = SplatTargets(indexMap: RenderTexture, weightMap: RenderTexture)

  /**
   * GenerateSplatmaps: nothing is produced when there are no texture
   * modifiers, the terrain has no layers, or the modifiers contribute no
   * layer entry at all (null entries count); otherwise the stamps run in
   * REVERSE list order over two index/weight pairs.
   */
  method GenerateSplatmaps<M>(modifiers: seq<M>, terrain: Terrain, inq: (Terrain, M) -> seq<TerrainLayer?>,
                              inBounds: M -> bool, applies: M -> bool, first: SplatTargets, second: SplatTargets)
    returns (result: Option<SplatTargets>, calls: seq<StampCall<M, SplatTargets>>)
    ensures result.None? <==> |modifiers| == 0 || |terrain.terrainLayers| == 0 || |InquireOne(terrain, modifiers, inq)| == 0
    ensures result.None? ==> calls == []
    ensures result.Some? ==>
      && CallModifiers(calls) == Filter(Reverse(modifiers), inBounds)
      && Chained(calls, applies, first, second)
      && result.value == BuffersAfter(calls, applies, first, second).0
  {
    if |modifiers| == 0 || |terrain.terrainLayers| == 0 {
      return None, [];
    }
    var layers: seq<TerrainLayer?> := [];
    var j := 0;
    while j < |modifiers|
      invariant 0 <= j <= |modifiers|
      invariant layers == InquireOne(terrain, modifiers[..j], inq)
    {
      layers := layers + inq(terrain, modifiers[j]);
      assert modifiers[..j + 1][..j] == modifiers[..j];
      j := j + 1;
    }
    assert modifiers[..|modifiers|] == modifiers;
    if |layers| == 0 {
      return None, [];
    }
    var front;
    front, calls := PingPong(Reverse(modifiers), inBounds, applies, first, second);
    result := Some(front);
  }

  /**
   * The occlusion buffer size chosen in Modify: the larger of heightmap
   * resolution - 1 and splatmap resolution, clamped to [512, 1024].
   */
  function OcclusionSize(heightmapResolution: int, alphamapResolution: int): (r: int)
    ensures 512 <= r <= 1024
    ensures var m := if alphamapResolution > heightmapResolution - 1 then alphamapResolution else heightmapResolution - 1;
      && (512 <= m <= 1024 ==> r == m)
      && (m < 512 ==> r == 512)
      && (m > 1024 ==> r == 1024)
  {
    var maskSize := heightmapResolution - 1;
    var maskSize' := if alphamapResolution > maskSize then alphamapResolution else maskSize;
    var od := if maskSize' > 1024 then 1024 else maskSize';
    if od < 512 then 512 else od
  }
}
