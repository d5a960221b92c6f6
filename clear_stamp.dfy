/**
 * ClearStamp: a vegetation modifier that clears trees and details inside
 * its filters. Each clear pass replaces the clear map with a freshly
 * rendered one and moves the modifier counter on by one.
 */
module ClearStampModel {
  import opened Engine
  import opened Wrappers
  import opened FalloffFilterModel
  import opened FilterSetModel
  import opened VegetationData

  const ReconstructNormalKeyword := "_RECONSTRUCTNORMAL"

  /** The box a Global clear stamp covers: centred at the origin, 99999 by 999999 by 99999. */
  const GlobalBounds := Bounds(Zero3, Vec3(99999.0, 999999.0, 99999.0))

  class ClearStamp {
    var clearTrees: bool
    var clearDetails: bool
    const filterSet: FilterSet
    /** The last table of texture weights (null until a clear pass ran). */
    var textureLayerWeights: Option<seq<real>>
    /** The stamp's keyword builder list. */
    var keywords: seq<string>
    /** The value last given to the material's _LayerIndex. */
    var materialLayerIndex: int

    constructor (filterSet: FilterSet)
      ensures clearTrees && clearDetails && this.filterSet == filterSet
      ensures textureLayerWeights.None? && keywords == [] && materialLayerIndex == 0
    {
      clearTrees := true;
      clearDetails := true;
      this.filterSet := filterSet;
      textureLayerWeights := None;
      keywords := [];
      materialLayerIndex := 0;
    }

    predicate NeedTreeClear()
      reads this
    {
      clearTrees
    }

    predicate NeedDetailClear()
      reads this
    {
      clearDetails
    }

    predicate NeedCurvatureMap()
      reads this, filterSet
    {
      filterSet.NeedCurvatureMap()
    }

    predicate OccludesOthers() { false }
    predicate NeedSDF() { false }
    predicate UsesOtherTreeSDF() { false }
    predicate UsesOtherObjectSDF() { false }
    predicate NeedParentSDF() { false }
    predicate NeedToGenerateSDFForChilden() { false }
    function GetSDF(t: Terrain): RenderTexture? { null }

    /**
     * The clear stamp's queries follow its settings: trees and details are
     * cleared as configured, and a curvature map is needed exactly when the
     * clear pass's keywords switch the curvature filter on.
     */
    lemma QueriesFollowSettings(fo: Option<FalloffFilter>, terrain: Terrain, splines: bool)
      ensures NeedTreeClear() <==> clearTrees
      ensures NeedDetailClear() <==> clearDetails
      ensures KeywordsFor(fo, terrain, splines) ==> (NeedCurvatureMap() <==> CurvatureFilterKeyword in keywords)
    {
      filterSet.CurvatureMapIffKeyword(fo, terrain, splines);
      assert CurvatureFilterKeyword != ReconstructNormalKeyword;
    }

    /** A clear stamp takes no part in the SDF passes: every SDF query is false and it has no SDF. */
    lemma NoSdfParticipation(t: Terrain)
      ensures !OccludesOthers() && !NeedSDF() && !UsesOtherTreeSDF() && !UsesOtherObjectSDF()
      ensures !NeedParentSDF() && !NeedToGenerateSDFForChilden() && GetSDF(t) == null
    {
    }

    /**
     * GetBounds: the effective falloff type (the parent override's when
     * present) decides; with the splines define a spline area gives the
     * area's bounds, Global gives the fixed huge box, anything else the
     * transform's bounds.
     */
    function GetBounds(fo: Option<FalloffFilter>, splines: bool, areaBounds: SplineArea -> Bounds, transformBounds: Bounds): (r: Bounds)
      reads this, filterSet
      ensures var t := EffectiveFilter(filterSet.falloffFilter, fo).filterType;
        var area := filterSet.falloffFilter.splineArea;
        r == if splines && t == SplineArea && area != null then areaBounds(area)
             else if t == Global then GlobalBounds else transformBounds
    {
      var foType := if fo.Some? then fo.value.filterType else filterSet.falloffFilter.filterType;
      if splines && foType == SplineArea && filterSet.falloffFilter.splineArea != null then
        areaBounds(filterSet.falloffFilter.splineArea)
      else if foType == Global then GlobalBounds
      else transformBounds
    }

    /** The texture weights of the last pass are those of the given terrain layers. */
    predicate WeightsFor(layers: seq<TerrainLayer?>)
      reads this, filterSet
    {
      textureLayerWeights.Some? && |textureLayerWeights.value| == WeightSlots &&
      forall i :: 0 <= i < WeightSlots ==>
        textureLayerWeights.value[i] == SlotWeight(filterSet.textureFilters, layers, filterSet.otherTextureWeight, i)
    }

    /** The keywords of a clear pass: _RECONSTRUCTNORMAL, then the filter set's. */
    predicate KeywordsFor(fo: Option<FalloffFilter>, terrain: Terrain, splines: bool)
      reads this, filterSet
    {
      keywords == [ReconstructNormalKeyword] + filterSet.PrepareMaterialKeywords(fo, terrain, splines)
    }

    /**
     * The shared start of both clear passes: the keywords, then the texture
     * weights, which fail when a texture filter matches past the weight
     * table, then the filter keywords.
     */
    method PrepareClearPass(terrain: Terrain, fo: Option<FalloffFilter>, splines: bool) returns (error: Option<Error>)
      modifies this`keywords, this`textureLayerWeights
      ensures error.Some? <==> OverflowingMatch(filterSet.textureFilters, terrain.terrainLayers)
      ensures error.Some? ==> error.value == IndexOutOfRange && textureLayerWeights == old(textureLayerWeights)
      ensures error.None? ==> WeightsFor(terrain.terrainLayers) && KeywordsFor(fo, terrain, splines)
    {
      keywords := [ReconstructNormalKeyword];
      var weights := filterSet.GetTextureWeights(terrain.terrainLayers);
      if weights.Failure? {
        return Some(weights.error);
      }
      textureLayerWeights := Some(weights.value);
      keywords := keywords + filterSet.PrepareMaterialKeywords(fo, terrain, splines);
      return None;
    }

    /**
     * ApplyTreeClear: nothing happens when tree clearing is off. Otherwise
     * the keywords are _RECONSTRUCTNORMAL and the filter keywords, the
     * texture weights are recomputed, the clear map is replaced by a new
     * render texture and layerIndex moves on by one. The errors the C#
     * code would throw stop the pass where they arise.
     */
    method ApplyTreeClear(td: TreeData, fo: Option<FalloffFilter>, splines: bool) returns (error: Option<Error>)
      modifies this, td
      ensures !old(clearTrees) ==> error.None? && unchanged(this, td)
      ensures error == Some(IndexOutOfRange) <==> clearTrees && OverflowingMatch(filterSet.textureFilters, td.terrain.terrainLayers)
      ensures error == Some(NullReference) <==>
        clearTrees && !OverflowingMatch(filterSet.textureFilters, td.terrain.terrainLayers) && old(td.treeClearMap) == null
      ensures error.Some? ==> td.layerIndex == old(td.layerIndex) && td.treeClearMap == old(td.treeClearMap)
      ensures clearTrees && error.None? ==>
        td.layerIndex == old(td.layerIndex) + 1 && fresh(td.treeClearMap) && materialLayerIndex == old(td.layerIndex) &&
        KeywordsFor(fo, td.terrain, splines)
      ensures clearTrees == old(clearTrees) && clearDetails == old(clearDetails)
      ensures td.BuffersKept()
      ensures clearTrees && !OverflowingMatch(filterSet.textureFilters, td.terrain.terrainLayers) ==> WeightsFor(td.terrain.terrainLayers)
      ensures !clearTrees || OverflowingMatch(filterSet.textureFilters, td.terrain.terrainLayers) ==>
        textureLayerWeights == old(textureLayerWeights)
    {
      if !clearTrees {
        return None;
      }
      error := PrepareClearPass(td.terrain, fo, splines);
      if error.Some? {
        return;
      }
      error := StampTreeClearMap(td);
    }

    /** The end of a clear pass: the clear map is replaced by a new one and the counter moves on, unless there is no clear map. */
    method StampTreeClearMap(td: TreeData) returns (error: Option<Error>)
      modifies this`materialLayerIndex, td
      ensures error == (if old(td.treeClearMap) == null then Some(NullReference) else None)
      ensures error.Some? ==> unchanged(td)
      ensures error.None? ==>
        fresh(td.treeClearMap) && td.layerIndex == old(td.layerIndex) + 1 && materialLayerIndex == old(td.layerIndex)
      ensures td.BuffersKept()
    {
      if td.treeClearMap == null {
        return Some(NullReference);
      }
      var temp := new RenderTexture();
      materialLayerIndex := td.layerIndex;
      td.treeClearMap := temp;
      td.layerIndex := td.layerIndex + 1;
      return None;
    }

    /** ApplyDetailClear: the same protocol on a DetailData and its clear map, switched by clearDetails. */
    method ApplyDetailClear(dd: DetailData, fo: Option<FalloffFilter>, splines: bool) returns (error: Option<Error>)
      modifies this, dd
      ensures !old(clearDetails) ==> error.None? && unchanged(this, dd)
      ensures error == Some(IndexOutOfRange) <==> clearDetails && OverflowingMatch(filterSet.textureFilters, dd.terrain.terrainLayers)
      ensures error == Some(NullReference) <==>
        clearDetails && !OverflowingMatch(filterSet.textureFilters, dd.terrain.terrainLayers) && old(dd.clearMap) == null
      ensures error.Some? ==> dd.layerIndex == old(dd.layerIndex) && dd.clearMap == old(dd.clearMap)
      ensures clearDetails && error.None? ==>
        dd.layerIndex == old(dd.layerIndex) + 1 && fresh(dd.clearMap) && materialLayerIndex == old(dd.layerIndex) &&
        KeywordsFor(fo, dd.terrain, splines)
      ensures clearTrees == old(clearTrees) && clearDetails == old(clearDetails)
      ensures dd.BuffersKept()
      ensures clearDetails && !OverflowingMatch(filterSet.textureFilters, dd.terrain.terrainLayers) ==> WeightsFor(dd.terrain.terrainLayers)
      ensures !clearDetails || OverflowingMatch(filterSet.textureFilters, dd.terrain.terrainLayers) ==>
        textureLayerWeights == old(textureLayerWeights)
    {
      if !clearDetails {
        return None;
      }
      error := PrepareClearPass(dd.terrain, fo, splines);
      if error.Some? {
        return;
      }
      error := StampDetailClearMap(dd);
    }

    /** The end of a clear pass: the clear map is replaced by a new one and the counter moves on, unless there is no clear map. */
    method StampDetailClearMap(dd: DetailData) returns (error: Option<Error>)
      modifies this`materialLayerIndex, dd
      ensures error == (if old(dd.clearMap) == null then Some(NullReference) else None)
      ensures error.Some? ==> unchanged(dd)
      ensures error.None? ==>
        fresh(dd.clearMap) && dd.layerIndex == old(dd.layerIndex) + 1 && materialLayerIndex == old(dd.layerIndex)
      ensures dd.BuffersKept()
    {
      if dd.clearMap == null {
        return Some(NullReference);
      }
      var temp := new RenderTexture();
      materialLayerIndex := dd.layerIndex;
      dd.clearMap := temp;
      dd.layerIndex := dd.layerIndex + 1;
      return None;
    }

    /** ApplyTreeStamp: a clear stamp spawns nothing; it only moves the counter on. */
    method ApplyTreeStamp(td: TreeData)
      modifies td
      ensures td.layerIndex == old(td.layerIndex) + 1
      ensures td.terrain == old(td.terrain) && td.treeClearMap == old(td.treeClearMap) && td.heightMap == old(td.heightMap)
      ensures td.normalMap == old(td.normalMap) && td.curveMap == old(td.curveMap)
      ensures td.indexMap == old(td.indexMap) && td.weightMap == old(td.weightMap)
    {
      td.layerIndex := td.layerIndex + 1;
    }

    /** ApplyDetailStamp: likewise for details. */
    method ApplyDetailStamp(dd: DetailData)
      modifies dd
      ensures dd.layerIndex == old(dd.layerIndex) + 1
      ensures dd.terrain == old(dd.terrain) && dd.clearMap == old(dd.clearMap) && dd.heightMap == old(dd.heightMap)
      ensures dd.normalMap == old(dd.normalMap) && dd.curveMap == old(dd.curveMap)
      ensures dd.indexMap == old(dd.indexMap) && dd.weightMap == old(dd.weightMap)
    {
      dd.layerIndex := dd.layerIndex + 1;
    }
  }
}
