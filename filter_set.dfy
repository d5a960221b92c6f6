/**
 * FilterSet: the height, slope, angle, curvature and texture filters a
 * stamp applies, the 32-slot texture-weight table, the keyword list and
 * the SDF distance-range setup of spawners.
 */
module FilterSetModel {
  import opened Engine
  import opened Wrappers
  import opened FalloffFilterModel
  import Sequences

  /** FilterSet.Filter: one range filter with its weight, range, smoothness and noise. */
  datatype Filter = Filter(enabled: bool, weight: real, range: Vec2, smoothness: Vec2, noise: Noise)

  /** A new Filter(range, smoothness): disabled, full weight. */
  function NewFilter(range: Vec2, smoothness: Vec2, noise: Noise): (f: Filter)
    ensures !f.enabled && f.weight == 1.0 && f.range == range && f.smoothness == smoothness && f.noise == noise
  {
    Filter(false, 1.0, range, smoothness, noise)
  }

  /** FilterSet.TextureFilter: a terrain layer and the weight it is given. */
  datatype TextureFilter = TextureFilter(layer: TerrainLayer?, weight: real)

  /** The size of the texture-weight table handed to the shaders. */
  const WeightSlots := 32

  /** The slope scale applied once to data saved before version 1 (the C# float literal 1.57894736842f). */
  const SlopeMigrationFactor := 1.57894736842

  function Scale2(v: Vec2, k: real): Vec2 { Vec2(v.x * k, v.y * k) }

  /** The weight of the last texture filter whose layer is the given reference, if any. */
  function LastMatch(tfs: seq<TextureFilter>, l: TerrainLayer?): Option<real>
  {
    if |tfs| == 0 then None
    else if tfs[|tfs| - 1].layer == l then Some(tfs[|tfs| - 1].weight)
    else LastMatch(tfs[..|tfs| - 1], l)
  }

  /** LastMatch finds a filter exactly when one references the layer, and it is the last such filter. */
  lemma {:induction false} LastMatchIsLastFilter(tfs: seq<TextureFilter>, l: TerrainLayer?)
    ensures LastMatch(tfs, l).None? <==> forall j :: 0 <= j < |tfs| ==> tfs[j].layer != l
    ensures LastMatch(tfs, l).Some? ==>
      exists j :: 0 <= j < |tfs| && tfs[j].layer == l && LastMatch(tfs, l).value == tfs[j].weight &&
        forall k :: j < k < |tfs| ==> tfs[k].layer != l
    decreases |tfs|
  {
    if |tfs| > 0 {
      var n := |tfs| - 1;
      if tfs[n].layer != l {
        LastMatchIsLastFilter(tfs[..n], l);
        assert forall j :: 0 <= j < n ==> tfs[..n][j] == tfs[j];
        if LastMatch(tfs[..n], l).Some? {
          var j :| 0 <= j < n && tfs[..n][j].layer == l && LastMatch(tfs[..n], l).value == tfs[..n][j].weight &&
            forall k :: j < k < n ==> tfs[..n][k].layer != l;
          assert forall k :: j < k < |tfs| ==> tfs[k].layer != l;
        }
      }
    }
  }

  /** The entry of slot i: one minus the last matching filter's weight, or one minus otherTextureWeight. */
  function SlotWeight(tfs: seq<TextureFilter>, layers: seq<TerrainLayer?>, other: real, i: int): real
  {
    if 0 <= i < |layers| && LastMatch(tfs, layers[i]).Some? then 1.0 - LastMatch(tfs, layers[i]).value
    else 1.0 - other
  }

  /** A layer beyond the table that a texture filter references: writing its slot indexes out of range. */
  predicate OverflowingMatch(tfs: seq<TextureFilter>, layers: seq<TerrainLayer?>)
  {
    exists k :: WeightSlots <= k < |layers| && LastMatch(tfs, layers[k]).Some?
  }

  const HeightFilterKeyword := "_HEIGHTFILTER"
  const SlopeFilterKeyword := "_SLOPEFILTER"
  const AngleFilterKeyword := "_ANGLEFILTER"
  const CurvatureFilterKeyword := "_CURVATUREFILTER"
  const TextureFilterKeyword := "_TEXTUREFILTER"

  /** The filter keywords in the order PrepareMaterial adds them. */
  const FilterKeywordOrder := [HeightFilterKeyword, SlopeFilterKeyword, AngleFilterKeyword, CurvatureFilterKeyword, TextureFilterKeyword]

  function Optional(b: bool, k: string): seq<string> { if b then [k] else [] }

  /** The filter keywords PrepareMaterial adds after the falloff keywords. */
  function FilterKeywords(height: bool, slope: bool, angle: bool, curvature: bool, texture: bool): seq<string>
  {
    Optional(height, HeightFilterKeyword) + Optional(slope, SlopeFilterKeyword) + Optional(angle, AngleFilterKeyword) +
    Optional(curvature, CurvatureFilterKeyword) + Optional(texture, TextureFilterKeyword)
  }

  /** Whether a keyword of the canonical order is switched on by the given filter flags. */
  function EnabledBy(height: bool, slope: bool, angle: bool, curvature: bool, texture: bool): string -> bool
  {
    k => (k == HeightFilterKeyword && height) || (k == SlopeFilterKeyword && slope) || (k == AngleFilterKeyword && angle) ||
         (k == CurvatureFilterKeyword && curvature) || (k == TextureFilterKeyword && texture)
  }

  /** The keywords are exactly the enabled ones, kept in the canonical order. */
  lemma FilterKeywordsAreOrderedSelection(height: bool, slope: bool, angle: bool, curvature: bool, texture: bool)
    ensures FilterKeywords(height, slope, angle, curvature, texture) ==
      Sequences.Filter(FilterKeywordOrder, EnabledBy(height, slope, angle, curvature, texture))
  {
    var p := EnabledBy(height, slope, angle, curvature, texture);
    var o := FilterKeywordOrder;
    assert o[..4] == [HeightFilterKeyword, SlopeFilterKeyword, AngleFilterKeyword, CurvatureFilterKeyword];
    assert o[..4][..3] == [HeightFilterKeyword, SlopeFilterKeyword, AngleFilterKeyword];
    assert o[..4][..3][..2] == [HeightFilterKeyword, SlopeFilterKeyword];
    assert o[..4][..3][..2][..1] == [HeightFilterKeyword];
    assert o[..4][..3][..2][..1][..0] == [];
    assert Sequences.Filter([HeightFilterKeyword], p) == Optional(height, HeightFilterKeyword);
    assert Sequences.Filter([HeightFilterKeyword, SlopeFilterKeyword], p) ==
      Optional(height, HeightFilterKeyword) + Optional(slope, SlopeFilterKeyword);
    assert Sequences.Filter([HeightFilterKeyword, SlopeFilterKeyword, AngleFilterKeyword], p) ==
      Optional(height, HeightFilterKeyword) + Optional(slope, SlopeFilterKeyword) + Optional(angle, AngleFilterKeyword);
    assert Sequences.Filter(o[..4], p) ==
      Optional(height, HeightFilterKeyword) + Optional(slope, SlopeFilterKeyword) + Optional(angle, AngleFilterKeyword) +
      Optional(curvature, CurvatureFilterKeyword);
  }

  /** Each filter keyword is present exactly when its filter is enabled, and appears once at most. */
  lemma FilterKeywordPresence(height: bool, slope: bool, angle: bool, curvature: bool, texture: bool)
    ensures var r := FilterKeywords(height, slope, angle, curvature, texture);
      (HeightFilterKeyword in r <==> height) && (SlopeFilterKeyword in r <==> slope) &&
      (AngleFilterKeyword in r <==> angle) && (CurvatureFilterKeyword in r <==> curvature) &&
      (TextureFilterKeyword in r <==> texture) && Sequences.NoDuplicates(r)
  {
  }

  /** No falloff keyword is the curvature filter keyword. */
  lemma CurvatureKeywordNotFalloff(own: FalloffFilter, fo: Option<FalloffFilter>, terrain: Terrain, splines: bool)
    ensures CurvatureFilterKeyword !in PrepareMaterial(own, fo, terrain, splines).keywords
  {
    PrepareMaterialFollowsTable(own, fo, terrain, splines);
  }

  /** The SDF-related shader state PrepareSDFFilter sets; None is a property left unset. */
  datatype SdfSetup = SdfSetup(
    distancesFromTrees: Option<Vec2>,
    placementSdf: Option<RenderTexture?>,
    distancesFromObject: Option<Vec2>,
    placementSdf2: Option<RenderTexture?>,
    distancesFromParent: Option<Vec2>,
    placementSdf3: Option<RenderTexture?>,
    sdfClamp: real)

  /** A maximum at or above 255 means "no upper limit" and is replaced by the minimum. */
  function Unclamped(lo: real, hi: real): (r: real)
    ensures r < 255.0 || r == lo
    ensures hi < 255.0 ==> r == hi
  {
    if hi >= 255.0 then lo else hi
  }

  /**
   * The inputs of PrepareSDFFilter that come from the scene: the tree and
   * object SDFs of the occlusion data, whether the transform has a parent,
   * and the ISpawner found above it: None when there is none, otherwise the
   * SDF it returns for the terrain (possibly null).
   */
  datatype SdfScene = SdfScene(treeSdf: RenderTexture?, objectSdf: RenderTexture?, hasParent: bool,
                               parentSpawner: Option<RenderTexture?>)

  /** The tree and object ranges and the clamp flag, shared by the code as written and the corrected code. */
  function TreeObjectSetup(scene: SdfScene, ratio: real, sdfClamp: bool, minTree: real, maxTree: real,
                           minObj: real, maxObj: real): SdfSetup
  {
    var mt := Unclamped(minTree, maxTree);
    var mo := Unclamped(minObj, maxObj);
    SdfSetup(
      if minTree > 0.0 || mt > 0.0 then Some(Vec2(minTree * ratio, mt * ratio)) else None,
      if minTree > 0.0 || mt > 0.0 then Some(scene.treeSdf) else None,
      if minObj > 0.0 || mo > 0.0 then Some(Vec2(minObj * ratio, mo * ratio)) else None,
      if minObj > 0.0 || mo > 0.0 then Some(scene.objectSdf) else None,
      None, None,
      if sdfClamp then 1.0 else 0.0)
  }

  /** The parent range, set only when the spawner above the parent returns a non-null SDF. */
  function WithParentRange(s: SdfSetup, scene: SdfScene, ratio: real, minParent: real, mp: real): SdfSetup
  {
    if scene.parentSpawner.Some? && scene.parentSpawner.value != null then
      s.(distancesFromParent := Some(Vec2(minParent * ratio, mp * ratio)), placementSdf3 := Some(scene.parentSpawner.value))
    else s
  }

  /**
   * FilterSet.PrepareSDFFilter as written: `minParent > 0 || maxParent > 0 &&
   * parent != null` binds as `minParent > 0 || (maxParent > 0 && parent != null)`,
   * so a positive minParent without a parent dereferences the null parent.
   */
  function PrepareSDFFilterAsWritten(scene: SdfScene, ratio: real, sdfClamp: bool, minTree: real, maxTree: real,
                                     minObj: real, maxObj: real, minParent: real, maxParent: real): (r: Result<SdfSetup>)
  {
    var s := TreeObjectSetup(scene, ratio, sdfClamp, minTree, maxTree, minObj, maxObj);
    var mp := Unclamped(minParent, maxParent);
    if minParent > 0.0 || (mp > 0.0 && scene.hasParent) then
      if !scene.hasParent then Failure(NullReference)
      else Success(WithParentRange(s, scene, ratio, minParent, mp))
    else Success(s)
  }

  /** The input that shows the discrepancy: a positive minimum parent distance on a stamp without a parent. */
  lemma PrepareSDFFilterAsWrittenFailsWithoutParent(scene: SdfScene, ratio: real, sdfClamp: bool, minTree: real, maxTree: real,
                                                    minObj: real, maxObj: real, minParent: real, maxParent: real)
    requires minParent > 0.0 && !scene.hasParent
    ensures PrepareSDFFilterAsWritten(scene, ratio, sdfClamp, minTree, maxTree, minObj, maxObj, minParent, maxParent) ==
      Failure(NullReference)
  {
  }

  /**
   * FilterSet.PrepareSDFFilter with the parent test guarding the whole
   * parent condition: a max of 255 or more stands for the min, each range
   * is set (scaled by ratio) only when it is non-zero, the parent range
   * only when a parent spawner supplies an SDF, and _SDFClamp is 1 or 0.
   */
  function PrepareSDFFilter(scene: SdfScene, ratio: real, sdfClamp: bool, minTree: real, maxTree: real,
                            minObj: real, maxObj: real, minParent: real, maxParent: real): (r: SdfSetup)
    ensures r.distancesFromTrees.Some? <==> minTree > 0.0 || Unclamped(minTree, maxTree) > 0.0
    ensures r.distancesFromTrees.Some? ==>
      r.distancesFromTrees.value == Vec2(minTree * ratio, Unclamped(minTree, maxTree) * ratio) && r.placementSdf == Some(scene.treeSdf)
    ensures r.distancesFromObject.Some? <==> minObj > 0.0 || Unclamped(minObj, maxObj) > 0.0
    ensures r.distancesFromObject.Some? ==>
      r.distancesFromObject.value == Vec2(minObj * ratio, Unclamped(minObj, maxObj) * ratio) && r.placementSdf2 == Some(scene.objectSdf)
    ensures r.distancesFromParent.Some? <==>
      (minParent > 0.0 || Unclamped(minParent, maxParent) > 0.0) && scene.hasParent &&
      scene.parentSpawner.Some? && scene.parentSpawner.value != null
    ensures r.distancesFromParent.Some? ==>
      r.distancesFromParent.value == Vec2(minParent * ratio, Unclamped(minParent, maxParent) * ratio) &&
      r.placementSdf3 == Some(scene.parentSpawner.value)
    ensures r.sdfClamp == (if sdfClamp then 1.0 else 0.0)
  {
    var s := TreeObjectSetup(scene, ratio, sdfClamp, minTree, maxTree, minObj, maxObj);
    var mp := Unclamped(minParent, maxParent);
    if (minParent > 0.0 || mp > 0.0) && scene.hasParent then WithParentRange(s, scene, ratio, minParent, mp)
    else s
  }

  /** Wherever the code as written does not fail, it agrees with the corrected code; it fails only in the null-parent case. */
  lemma PrepareSDFFilterAgreement(scene: SdfScene, ratio: real, sdfClamp: bool, minTree: real, maxTree: real,
                                  minObj: real, maxObj: real, minParent: real, maxParent: real)
    ensures var w := PrepareSDFFilterAsWritten(scene, ratio, sdfClamp, minTree, maxTree, minObj, maxObj, minParent, maxParent);
      (w.Failure? <==> minParent > 0.0 && !scene.hasParent) &&
      (w.Success? ==> w.value == PrepareSDFFilter(scene, ratio, sdfClamp, minTree, maxTree, minObj, maxObj, minParent, maxParent))
  {
  }

  /** A FilterSet: its falloff, its range filters, its texture filters and the serialisation version. */
  class FilterSet {
    var falloffFilter: FalloffFilter
    var weight: real
    var version: int
    var heightFilter: Filter
    var slopeFilter: Filter
    var angleFilter: Filter
    var curvatureFilter: Filter
    var textureFilterEnabled: bool
    var otherTextureWeight: real
    var textureFilters: seq<TextureFilter>

    /** The field initialisers of FilterSet. */
    constructor ()
      ensures falloffFilter.filterType == Global && falloffFilter.falloffRange == Vec2(0.8, 1.0)
      ensures weight == 1.0 && version == 0 && !textureFilterEnabled && otherTextureWeight == 1.0 && textureFilters == []
      ensures heightFilter.range == Vec2(0.0, 500.0) && heightFilter.smoothness == Vec2(20.0, 20.0)
      ensures slopeFilter.range == Vec2(0.0, 18.0) && slopeFilter.smoothness == Vec2(4.0, 4.0)
      ensures angleFilter.range == Vec2(0.0, 90.0) && angleFilter.smoothness == Vec2(12.0, 12.0)
      ensures curvatureFilter.range == Vec2(0.6, 1.0) && curvatureFilter.smoothness == Vec2(0.1, 0.1)
      ensures !heightFilter.enabled && !slopeFilter.enabled && !angleFilter.enabled && !curvatureFilter.enabled
    {
      var e := new Easing();
      var n := new Noise();
      falloffFilter := DefaultFalloffFilter(e, n);
      weight := 1.0;
      version := 0;
      var hn := new Noise();
      var sn := new Noise();
      var an := new Noise();
      var cn := new Noise();
      heightFilter := NewFilter(Vec2(0.0, 500.0), Vec2(20.0, 20.0), hn);
      slopeFilter := NewFilter(Vec2(0.0, 18.0), Vec2(4.0, 4.0), sn);
      angleFilter := NewFilter(Vec2(0.0, 90.0), Vec2(12.0, 12.0), an);
      curvatureFilter := NewFilter(Vec2(0.6, 1.0), Vec2(0.1, 0.1), cn);
      textureFilterEnabled := false;
      otherTextureWeight := 1.0;
      textureFilters := [];
    }

    /**
     * OnAfterDeserialize: data saved at version 0 has its slope range and
     * smoothness rescaled once; afterwards the version is 1, so a second
     * call changes nothing.
     */
    method OnAfterDeserialize()
      modifies this
      ensures version == 1
      ensures old(version) == 0 ==>
        slopeFilter == old(slopeFilter).(range := Scale2(old(slopeFilter).range, SlopeMigrationFactor),
                                         smoothness := Scale2(old(slopeFilter).smoothness, SlopeMigrationFactor))
      ensures old(version) != 0 ==> slopeFilter == old(slopeFilter)
      ensures falloffFilter == old(falloffFilter) && weight == old(weight) && heightFilter == old(heightFilter)
      ensures angleFilter == old(angleFilter) && curvatureFilter == old(curvatureFilter)
      ensures textureFilterEnabled == old(textureFilterEnabled) && otherTextureWeight == old(otherTextureWeight)
      ensures textureFilters == old(textureFilters)
    {
      if version == 0 {
        slopeFilter := slopeFilter.(range := Scale2(slopeFilter.range, SlopeMigrationFactor));
        slopeFilter := slopeFilter.(smoothness := Scale2(slopeFilter.smoothness, SlopeMigrationFactor));
      }
      version := 1;
    }

    /** NeedCurvatureMap: a curvature map is needed exactly when the curvature filter is on. */
    predicate NeedCurvatureMap()
      reads this
    {
      curvatureFilter.enabled
    }

    /** A curvature map is needed exactly when PrepareMaterial switches the curvature filter keyword on. */
    lemma CurvatureMapIffKeyword(fo: Option<FalloffFilter>, terrain: Terrain, splines: bool)
      ensures NeedCurvatureMap() <==> CurvatureFilterKeyword in PrepareMaterialKeywords(fo, terrain, splines)
    {
      var fk := PrepareMaterial(falloffFilter, fo, terrain, splines).keywords;
      var r := PrepareMaterialKeywords(fo, terrain, splines);
      var tail := FilterKeywords(heightFilter.enabled, slopeFilter.enabled, angleFilter.enabled,
                                 curvatureFilter.enabled, textureFilterEnabled);
      FilterKeywordPresence(heightFilter.enabled, slopeFilter.enabled, angleFilter.enabled,
                            curvatureFilter.enabled, textureFilterEnabled);
      CurvatureKeywordNotFalloff(falloffFilter, fo, terrain, splines);
      assert r == fk + tail;
    }

    /**
     * GetTextureWeights: a 32-entry table whose entry i is one minus the
     * weight of the last texture filter naming layers[i], or one minus
     * otherTextureWeight when none does. A filter naming a layer at index
     * 32 or beyond makes the write index out of range.
     */
    method GetTextureWeights(layers: seq<TerrainLayer?>) returns (r: Result<seq<real>>)
      ensures r.Failure? <==> OverflowingMatch(textureFilters, layers)
      ensures r.Failure? ==> r.error == IndexOutOfRange
      ensures r.Success? ==> |r.value| == WeightSlots
      ensures r.Success? ==> forall i :: 0 <= i < WeightSlots ==> r.value[i] == SlotWeight(textureFilters, layers, otherTextureWeight, i)
    {
      var other := otherTextureWeight;
      var weights := new real[WeightSlots](_ => 1.0 - other);
      var i := 0;
      while i < |layers|
        invariant 0 <= i <= |layers|
        invariant forall k :: 0 <= k < WeightSlots ==>
          weights[k] == (if k < i then SlotWeight(textureFilters, layers, other, k) else 1.0 - other)
        invariant forall k :: WeightSlots <= k < i ==> LastMatch(textureFilters, layers[k]).None?
      {
        var j := 0;
        while j < |textureFilters|
          invariant 0 <= j <= |textureFilters|
          invariant forall k :: 0 <= k < WeightSlots && k != i ==>
            weights[k] == (if k < i then SlotWeight(textureFilters, layers, other, k) else 1.0 - other)
          invariant i < WeightSlots ==>
            weights[i] == (if LastMatch(textureFilters[..j], layers[i]).Some?
                           then 1.0 - LastMatch(textureFilters[..j], layers[i]).value else 1.0 - other)
          invariant i >= WeightSlots ==> LastMatch(textureFilters[..j], layers[i]).None?
        {
          assert textureFilters[..j + 1][..j] == textureFilters[..j];
          if textureFilters[j].layer == layers[i] {
            if i >= WeightSlots {
              LastMatchIsLastFilter(textureFilters, layers[i]);
              return Failure(IndexOutOfRange);
            }
            weights[i] := 1.0 - textureFilters[j].weight;
          }
          j := j + 1;
        }
        assert textureFilters[..j] == textureFilters;
        i := i + 1;
      }
      return Success(weights[..]);
    }

    /**
     * The keywords PrepareMaterial adds: the falloff keywords first, then
     * one keyword per enabled filter in the fixed order.
     */
    function PrepareMaterialKeywords(fo: Option<FalloffFilter>, terrain: Terrain, splines: bool): (r: seq<string>)
      reads this
      ensures var fk := PrepareMaterial(falloffFilter, fo, terrain, splines).keywords;
        |fk| <= |r| && r[..|fk|] == fk &&
        r[|fk|..] == Sequences.Filter(FilterKeywordOrder,
          EnabledBy(heightFilter.enabled, slopeFilter.enabled, angleFilter.enabled, curvatureFilter.enabled, textureFilterEnabled))
    {
      FilterKeywordsAreOrderedSelection(heightFilter.enabled, slopeFilter.enabled, angleFilter.enabled,
                                        curvatureFilter.enabled, textureFilterEnabled);
      PrepareMaterial(falloffFilter, fo, terrain, splines).keywords +
      FilterKeywords(heightFilter.enabled, slopeFilter.enabled, angleFilter.enabled, curvatureFilter.enabled, textureFilterEnabled)
    }
  }
}
