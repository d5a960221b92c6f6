/**
 * SplinePath: a stamp that follows a spline. The model keeps its bounds
 * cache (zero bounds meaning "not computed"), the per-terrain memo of
 * spline renderers and the decisions of its height and texture passes;
 * rendering the spline's distance field is GPU work and is not modelled.
 */
module SplinePathModel {
  import opened Engine
  import opened Wrappers
  import opened MicroVerseMain
  import Sequences

  /** A spline distance-field renderer made for one terrain. */
  class SplineRenderer {
    constructor () {}
  }

  /** The occlusion data of one terrain: the terrain and its current placement mask. */
  class OcclusionData {
    const terrain: Terrain
    var terrainMask: RenderTexture

    constructor (terrain: Terrain, terrainMask: RenderTexture)
      ensures this.terrain == terrain && this.terrainMask == terrainMask
    {
      this.terrain := terrain;
      this.terrainMask := terrainMask;
    }
  }

  /** The bounds ComputeBounds returns when there is no spline: a unit box far outside any terrain. */
  const NoSplineBounds := Bounds(Vec3(-999999.0, -999999.0, -99999.0), Vec3(1.0, 1.0, 1.0))

  /** Spline bounds always span this height above and below zero. */
  const PathHalfHeight := 100000.0

  /** The Bounds.max setter: the minimum corner stays. */
  function WithMax(b: Bounds, hi: Vec3): (r: Bounds)
    ensures r.Min() == b.Min() && r.Max() == hi
  {
    FromMinMax(b.Min(), hi)
  }

  /** The Bounds.min setter: the maximum corner stays. */
  function WithMin(b: Bounds, lo: Vec3): (r: Bounds)
    ensures r.Min() == lo && r.Max() == b.Max()
  {
    FromMinMax(lo, b.Max())
  }

  /** outer holds inner on every axis. */
  predicate Contains(outer: Bounds, inner: Bounds)
  {
    outer.Min().x <= inner.Min().x && outer.Min().y <= inner.Min().y && outer.Min().z <= inner.Min().z &&
    inner.Max().x <= outer.Max().x && inner.Max().y <= outer.Max().y && inner.Max().z <= outer.Max().z
  }

  /** The vertical band every spline bound is stretched to. */
  predicate FullHeight(b: Bounds)
  {
    b.Min().y == -PathHalfHeight && b.Max().y == PathHalfHeight
  }

  /**
   * One spline's box: its local bounds grown by expand, the centre moved to
   * world space, and the vertical extent replaced by the full band; the
   * horizontal extent is that of the grown box.
   */
  function SplineBounds(s: Spline, expand: real, toWorld: Vec3 -> Vec3): (r: Bounds)
    ensures FullHeight(r)
    ensures var e := s.localBounds.Expand(expand); var b := Bounds(toWorld(e.center), e.size);
      r.Min().x == b.Min().x && r.Max().x == b.Max().x && r.Min().z == b.Min().z && r.Max().z == b.Max().z
  {
    var e := s.localBounds.Expand(expand);
    var b := Bounds(toWorld(e.center), e.size);
    var b1 := WithMax(b, Vec3(b.Max().x, PathHalfHeight, b.Max().z));
    WithMin(b1, Vec3(b1.Min().x, -PathHalfHeight, b1.Min().z))
  }

  /** The box of the main spline encapsulating the boxes of the given splines, in order. */
  function EncapsulateAll(first: Bounds, ss: seq<Spline>, expand: real, toWorld: Vec3 -> Vec3): Bounds
  {
    if |ss| == 0 then first
    else EncapsulateAll(first, ss[..|ss| - 1], expand, toWorld).Encapsulate(SplineBounds(ss[|ss| - 1], expand, toWorld))
  }

  /** The value of ComputeBounds. */
  function ComputedBounds(c: SplineContainer?, expand: real): Bounds
  {
    if c == null || c.mainSpline == null then NoSplineBounds
    else EncapsulateAll(SplineBounds(c.mainSpline, expand, c.localToWorld), c.splines, expand, c.localToWorld)
  }

  /** Computed bounds are never the zero bounds, so a filled cache is never mistaken for an empty one. */
  lemma ComputedBoundsAreNotZero(c: SplineContainer?, expand: real)
    ensures ComputedBounds(c, expand) != ZeroBounds
  {
    if c != null && c.mainSpline != null {
      ContainmentOfAll(c, expand, |c.splines|);
      assert c.splines[..|c.splines|] == c.splines;
      var b := ComputedBounds(c, expand);
      assert FullHeight(b);
      assert b.size.y == b.Max().y - b.Min().y;
    }
  }

  /** Encapsulating keeps both boxes and the full height band. */
  lemma EncapsulateContains(a: Bounds, o: Bounds)
    ensures Contains(a.Encapsulate(o), a) && Contains(a.Encapsulate(o), o)
    ensures FullHeight(a) && FullHeight(o) ==> FullHeight(a.Encapsulate(o))
  {
  }

  lemma ContainsTransitive(a: Bounds, b: Bounds, c: Bounds)
    requires Contains(a, b) && Contains(b, c)
    ensures Contains(a, c)
  {
  }

  /** The running box of the first n splines is in the full band and holds the main spline's and their boxes. */
  lemma {:induction false} ContainmentOfAll(c: SplineContainer, expand: real, n: nat)
    requires c.mainSpline != null && n <= |c.splines|
    ensures var first := SplineBounds(c.mainSpline, expand, c.localToWorld);
      var b := EncapsulateAll(first, c.splines[..n], expand, c.localToWorld);
      FullHeight(b) && Contains(b, first) &&
      forall i :: 0 <= i < n ==> Contains(b, SplineBounds(c.splines[i], expand, c.localToWorld))
  {
    var first := SplineBounds(c.mainSpline, expand, c.localToWorld);
    if n == 0 {
      assert c.splines[..0] == [];
    } else {
      ContainmentOfAll(c, expand, n - 1);
      var prev := EncapsulateAll(first, c.splines[..n - 1], expand, c.localToWorld);
      var last := SplineBounds(c.splines[n - 1], expand, c.localToWorld);
      assert c.splines[..n][..n - 1] == c.splines[..n - 1];
      var b := prev.Encapsulate(last);
      assert EncapsulateAll(first, c.splines[..n], expand, c.localToWorld) == b;
      EncapsulateContains(prev, last);
      ContainsTransitive(b, prev, first);
      forall i | 0 <= i < n
        ensures Contains(b, SplineBounds(c.splines[i], expand, c.localToWorld))
      {
        if i < n - 1 {
          ContainsTransitive(b, prev, SplineBounds(c.splines[i], expand, c.localToWorld));
        }
      }
    }
  }

  /**
   * SplinePath.ComputeBounds: without a container or main spline, the
   * sentinel box. Otherwise the box of the main spline and of every spline
   * of the container, each grown by expand, spanning the full height band.
   */
  method ComputeBounds(c: SplineContainer?, expand: real) returns (b: Bounds)
    ensures b == ComputedBounds(c, expand)
    ensures c == null || c.mainSpline == null ==> b == NoSplineBounds
    ensures c != null && c.mainSpline != null ==>
      FullHeight(b) && Contains(b, SplineBounds(c.mainSpline, expand, c.localToWorld)) &&
      forall i :: 0 <= i < |c.splines| ==> Contains(b, SplineBounds(c.splines[i], expand, c.localToWorld))
  {
    if c == null || c.mainSpline == null {
      return NoSplineBounds;
    }
    var first := SplineBounds(c.mainSpline, expand, c.localToWorld);
    b := first;
    var i := 0;
    while i < |c.splines|
      invariant 0 <= i <= |c.splines|
      invariant b == EncapsulateAll(first, c.splines[..i], expand, c.localToWorld)
    {
      assert c.splines[..i + 1][..i] == c.splines[..i];
      b := b.Encapsulate(SplineBounds(c.splines[i], expand, c.localToWorld));
      i := i + 1;
    }
    assert c.splines[..i] == c.splines;
    ContainmentOfAll(c, expand, |c.splines|);
  }

  class SplinePath {
    var spline: SplineContainer?
    var modifyHeightMap: bool
    var width: real
    var smoothness: real
    var modifySplatMap: bool
    var layer: TerrainLayer?
    var splatWidth: real
    var splatSmoothness: real
    var embankmentLayer: TerrainLayer?
    var clearTrees: bool
    var clearDetails: bool
    /** The renderer memo, one per terrain. */
    var splineRenderers: map<Terrain, SplineRenderer>
    /** The bounds cache; ZeroBounds means "not computed". */
    var bounds: Bounds
    var mainChannelIndex: int
    var embankmentChannelIndex: int

    /** The field initialisers of SplinePath. */
    constructor (spline: SplineContainer?)
      ensures this.spline == spline && modifyHeightMap && modifySplatMap && clearTrees && clearDetails
      ensures width == 1.0 && smoothness == 2.0 && splatWidth == 1.0 && splatSmoothness == 2.0
      ensures layer == null && embankmentLayer == null && splineRenderers == map[] && bounds == ZeroBounds
      ensures mainChannelIndex == -1 && embankmentChannelIndex == 0
    {
      this.spline := spline;
      modifyHeightMap := true;
      width := 1.0;
      smoothness := 2.0;
      modifySplatMap := true;
      layer := null;
      splatWidth := 1.0;
      splatSmoothness := 2.0;
      embankmentLayer := null;
      clearTrees := true;
      clearDetails := true;
      splineRenderers := map[];
      bounds := ZeroBounds;
      mainChannelIndex := -1;
      embankmentChannelIndex := 0;
    }

    /** How far the spline bounds are grown: the largest of the two widths and the two smoothness values. */
    function ExpandAmount(): (r: real)
      reads this
      ensures r >= width && r >= splatWidth && r >= smoothness && r >= splatSmoothness
      ensures r == width || r == splatWidth || r == smoothness || r == splatSmoothness
    {
      MaxReal(MaxReal(MaxReal(width, splatWidth), smoothness), splatSmoothness)
    }

    /** The bounds GetBounds returns in the current state. */
    function CachedBounds(): Bounds
      reads this
    {
      if bounds == ZeroBounds then ComputedBounds(spline, ExpandAmount()) else bounds
    }

    /** The cache agrees with the current settings (it is empty or holds their bounds). */
    predicate CacheConsistent()
      reads this
    {
      bounds == ZeroBounds || bounds == ComputedBounds(spline, ExpandAmount())
    }

    /** Nothing but the renderer memo, the bounds cache and the channel indices changes. */
    twostate predicate SettingsUnchanged()
      reads this
    {
      spline == old(spline) && modifyHeightMap == old(modifyHeightMap) && width == old(width) &&
      smoothness == old(smoothness) && modifySplatMap == old(modifySplatMap) && layer == old(layer) &&
      splatWidth == old(splatWidth) && splatSmoothness == old(splatSmoothness) &&
      embankmentLayer == old(embankmentLayer) && clearTrees == old(clearTrees) && clearDetails == old(clearDetails)
    }

    /**
     * OnEnable: without a container the one on the same object is taken;
     * `found` is what GetComponent<SplineContainer>() returns (null if none).
     */
    method OnEnable(found: SplineContainer?)
      modifies this`spline
      ensures old(spline) == null ==> spline == found
      ensures old(spline) != null ==> spline == old(spline)
    {
      if spline == null {
        spline := found;
      }
    }

    /**
     * GetBounds: computes and caches the bounds only when the cache holds
     * the zero bounds; afterwards the cache is filled and stays so.
     */
    method GetBounds() returns (r: Bounds)
      modifies this
      ensures r == old(CachedBounds()) && bounds == r && bounds != ZeroBounds
      ensures old(bounds) != ZeroBounds ==> bounds == old(bounds)
      ensures SettingsUnchanged() && splineRenderers == old(splineRenderers)
      ensures mainChannelIndex == old(mainChannelIndex) && embankmentChannelIndex == old(embankmentChannelIndex)
    {
      if bounds.center == Zero3 && bounds.size == Zero3 {
        var expand := MaxReal(width, splatWidth);
        expand := MaxReal(expand, smoothness);
        expand := MaxReal(expand, splatSmoothness);
        bounds := ComputeBounds(spline, expand);
        ComputedBoundsAreNotZero(spline, expand);
      }
      r := bounds;
    }

    /**
     * GetSplineRenderer: the memoised renderer for the terrain; otherwise a
     * new one, memoised, only when the terrain's bounds intersect the
     * spline's (creating one empties the bounds cache); otherwise null.
     * terrainBounds stands for TerrainUtil.ComputeTerrainBounds.
     */
    method GetSplineRenderer(terrain: Terrain, terrainBounds: Terrain -> Bounds) returns (sr: SplineRenderer?)
      modifies this
      ensures old(terrain in splineRenderers) ==>
        sr == old(splineRenderers[terrain]) && splineRenderers == old(splineRenderers) && bounds == old(bounds)
      ensures !old(terrain in splineRenderers) ==>
        (sr != null <==> terrainBounds(terrain).Intersects(old(CachedBounds())))
      ensures !old(terrain in splineRenderers) && sr != null ==>
        fresh(sr) && splineRenderers == old(splineRenderers)[terrain := sr] && bounds == ZeroBounds
      ensures !old(terrain in splineRenderers) && sr == null ==>
        splineRenderers == old(splineRenderers) && bounds == old(CachedBounds())
      ensures sr != null <==> terrain in splineRenderers
      ensures sr != null ==> sr == splineRenderers[terrain]
      ensures SettingsUnchanged()
      ensures mainChannelIndex == old(mainChannelIndex) && embankmentChannelIndex == old(embankmentChannelIndex)
    {
      if terrain in splineRenderers {
        return splineRenderers[terrain];
      }
      var tb := terrainBounds(terrain);
      var b := GetBounds();
      if tb.Intersects(b) {
        sr := new SplineRenderer();
        bounds := ZeroBounds;
        splineRenderers := splineRenderers[terrain := sr];
        return sr;
      }
      return null;
    }

    /**
     * What one GetSplineRenderer lookup for the terrain leaves behind: the
     * memo keeps every earlier entry; a terrain already memoised changes
     * nothing; a new renderer is memoised for this terrain only and empties
     * the bounds cache; otherwise the bounds cache is filled.
     */
    twostate predicate MemoLookedUp(terrain: Terrain, terrainBounds: Terrain -> Bounds)
      reads this
    {
      && (forall t :: t in old(splineRenderers) ==> t in splineRenderers && splineRenderers[t] == old(splineRenderers)[t])
      && (forall t :: t in splineRenderers && t != terrain ==> t in old(splineRenderers))
      && (old(terrain in splineRenderers) ==> splineRenderers == old(splineRenderers) && bounds == old(bounds))
      && (!old(terrain in splineRenderers) && terrain in splineRenderers ==>
            fresh(splineRenderers[terrain]) && bounds == ZeroBounds &&
            terrainBounds(terrain).Intersects(old(CachedBounds())))
      && (!old(terrain in splineRenderers) && terrain !in splineRenderers ==>
            splineRenderers == old(splineRenderers) && bounds == old(CachedBounds()) &&
            !terrainBounds(terrain).Intersects(old(CachedBounds())))
    }

    /**
     * UpdateSplineSDFs: the memo is always emptied first; with a spline and
     * a MicroVerse instance, the terrain list is re-synced and a renderer is
     * made for every terrain the spline's bounds reach.
     */
    method UpdateSplineSDFs(mv: MicroVerse?, children: seq<Terrain>, terrainBounds: Terrain -> Bounds)
      requires mv != null ==> mv.Valid()
      modifies this, mv
      ensures mv != null ==> mv.RunStateKept() && mv.needUpdate == old(mv.needUpdate) && mv.invalidateType == old(mv.invalidateType)
      ensures old(spline) == null || mv == null ==> splineRenderers == map[]
      ensures mv != null && old(spline) != null ==>
        (mv.Valid() && mv.explicitTerrains == old(mv.explicitTerrains) &&
         mv.childTerrains == (if old(mv.UsesExplicitTerrains()) then old(mv.childTerrains) else children))
      ensures mv != null && old(spline) != null ==> forall t :: t in splineRenderers ==> t in mv.Terrains()
      ensures mv != null && old(spline) != null && old(CacheConsistent()) ==>
        forall t: Terrain :: t in splineRenderers <==>
          t in mv.Terrains() && terrainBounds(t).Intersects(ComputedBounds(spline, ExpandAmount()))
      ensures forall t :: t in splineRenderers ==> fresh(splineRenderers[t])
      ensures SettingsUnchanged()
    {
      splineRenderers := map[];
      if spline == null {
        return;
      }
      if mv == null {
        return;
      }
      mv.SyncTerrainList(children);
      var ts := mv.Terrains();
      label Synced:
      ghost var consistent := CacheConsistent();
      ghost var target := ComputedBounds(spline, ExpandAmount());
      var i := 0;
      while i < |ts|
        invariant 0 <= i <= |ts|
        invariant SettingsUnchanged() && unchanged@Synced(mv)
        invariant forall t :: t in splineRenderers ==> t in ts[..i] && fresh(splineRenderers[t])
        invariant consistent ==> CacheConsistent() && ComputedBounds(spline, ExpandAmount()) == target
        invariant consistent ==> forall t: Terrain :: t in splineRenderers <==> t in ts[..i] && terrainBounds(t).Intersects(target)
      {
        assert ts[..i + 1] == ts[..i] + [ts[i]];
        var sr := GetSplineRenderer(ts[i], terrainBounds);
        i := i + 1;
      }
      assert ts[..i] == ts;
    }

    /**
     * ApplyHeightStamp: writes (returns true) exactly when there is a
     * spline, a renderer for the terrain and modifyHeightMap is set. Tree
     * or detail clearing replaces the occlusion mask but does not change
     * the result.
     */
    method ApplyHeightStamp(od: OcclusionData, terrainBounds: Terrain -> Bounds) returns (ret: bool)
      modifies this, od
      ensures ret <==> spline != null && modifyHeightMap && od.terrain in splineRenderers
      ensures spline != null ==>
        (od.terrain in splineRenderers <==> old(od.terrain in splineRenderers) || terrainBounds(od.terrain).Intersects(old(CachedBounds())))
      ensures spline != null && od.terrain in splineRenderers && (clearTrees || clearDetails) ==> fresh(od.terrainMask)
      ensures !(spline != null && od.terrain in splineRenderers && (clearTrees || clearDetails)) ==>
        od.terrainMask == old(od.terrainMask)
      ensures old(spline) == null ==> splineRenderers == old(splineRenderers) && bounds == old(bounds)
      ensures spline != null ==> MemoLookedUp(od.terrain, terrainBounds)
      ensures SettingsUnchanged()
      ensures mainChannelIndex == old(mainChannelIndex) && embankmentChannelIndex == old(embankmentChannelIndex)
    {
      if spline == null {
        return false;
      }
      ret := false;
      var sr := GetSplineRenderer(od.terrain, terrainBounds);
      if sr != null {
        if modifyHeightMap {
          ret := true;
        }
        if clearTrees || clearDetails {
          var rt := new RenderTexture();
          od.terrainMask := rt;
        }
      }
    }

    /**
     * ApplyTextureStamp: false without a layer, with splat painting off,
     * without a renderer, or when the layer is not on the terrain; true
     * otherwise. The channel of a layer is its index in the terrain's layers.
     */
    method ApplyTextureStamp(od: OcclusionData, terrainBounds: Terrain -> Bounds) returns (ret: bool)
      modifies this
      ensures ret <==>
        (layer != null && modifySplatMap && od.terrain in splineRenderers &&
         Sequences.IndexOf(od.terrain.terrainLayers, layer) != -1)
      ensures layer == null || !modifySplatMap ==>
        splineRenderers == old(splineRenderers) && bounds == old(bounds) && mainChannelIndex == old(mainChannelIndex)
      ensures layer != null && modifySplatMap && od.terrain in splineRenderers ==>
        mainChannelIndex == Sequences.IndexOf(od.terrain.terrainLayers, layer) &&
        embankmentChannelIndex == Sequences.IndexOf(od.terrain.terrainLayers, embankmentLayer)
      ensures layer != null && modifySplatMap ==> MemoLookedUp(od.terrain, terrainBounds)
      ensures !(layer != null && modifySplatMap && od.terrain in splineRenderers) ==>
        mainChannelIndex == old(mainChannelIndex) && embankmentChannelIndex == old(embankmentChannelIndex)
      ensures SettingsUnchanged()
    {
      if layer == null {
        return false;
      }
      if !modifySplatMap {
        return false;
      }
      var sr := GetSplineRenderer(od.terrain, terrainBounds);
      if sr != null {
        mainChannelIndex := Sequences.IndexOf(od.terrain.terrainLayers, layer);
        embankmentChannelIndex := Sequences.IndexOf(od.terrain.terrainLayers, embankmentLayer);
        if mainChannelIndex == -1 {
          return false;
        }
        return true;
      }
      return false;
    }

    /**
     * ActiveSplineOnChanged: a change to one of the container's own splines
     * (by reference) rebuilds the renderers and invalidates the MicroVerse
     * instance; changes to other splines are ignored. Without a container
     * the loop dereferences null.
     */
    method ActiveSplineOnChanged(changed: Spline, mv: MicroVerse?, children: seq<Terrain>, terrainBounds: Terrain -> Bounds)
      returns (r: Result<bool>)
      requires mv != null ==> mv.Valid()
      modifies this, mv
      ensures mv != null ==> mv.RunStateKept()
      ensures r == Failure(NullReference) <==> old(spline) == null
      ensures r == Success(true) <==> old(spline) != null && changed in old(spline).splines
      ensures r == Success(true) && mv != null ==> mv.needUpdate && mv.invalidateType == All
      ensures r == Success(true) && mv == null ==> splineRenderers == map[]
      ensures r == Success(true) && mv != null ==>
        && mv.Valid()
        && mv.childTerrains == (if old(mv.UsesExplicitTerrains()) then old(mv.childTerrains) else children)
        && (forall t :: t in splineRenderers ==> t in mv.Terrains())
        && (old(CacheConsistent()) ==>
              forall t: Terrain :: t in splineRenderers <==>
                t in mv.Terrains() && terrainBounds(t).Intersects(ComputedBounds(spline, ExpandAmount())))
      ensures r == Success(true) ==> forall t :: t in splineRenderers ==> fresh(splineRenderers[t])
      ensures r.Failure? || r == Success(false) ==>
        splineRenderers == old(splineRenderers) && bounds == old(bounds) && (mv != null ==> unchanged(mv))
      ensures SettingsUnchanged()
    {
      if spline == null {
        return Failure(NullReference);
      }
      var ss := spline.splines;
      var i := 0;
      while i < |ss|
        invariant 0 <= i <= |ss|
        invariant changed !in ss[..i]
      {
        if changed == ss[i] {
          UpdateSplineSDFs(mv, children, terrainBounds);
          if mv != null {
            mv.Invalidate(All);
          }
          return Success(true);
        }
        assert ss[..i + 1] == ss[..i] + [ss[i]];
        i := i + 1;
      }
      assert ss[..i] == ss;
      return Success(false);
    }

    /** InqTerrainLayers: the layers this stamp adds to the list, main layer first, nulls skipped. */
    function InqTerrainLayers(): (r: seq<TerrainLayer?>)
      reads this
      ensures forall i :: 0 <= i < |r| ==> r[i] != null
      ensures |r| == (if layer != null then 1 else 0) + (if embankmentLayer != null then 1 else 0)
      ensures layer != null ==> r[0] == layer
      ensures embankmentLayer != null ==> r[|r| - 1] == embankmentLayer
    {
      (if layer != null then [layer] else []) + (if embankmentLayer != null then [embankmentLayer] else [])
    }
  }
}
