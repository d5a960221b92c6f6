/**
 * The per-terrain buffers the vegetation pass hands to tree and detail
 * modifiers. layerIndex counts the modifiers that have stamped so far.
 */
module VegetationData {
  import opened Engine

  /** TreeData: the terrain, its height/normal/curvature/splat buffers and the tree clear map. */
  class TreeData {
    var terrain: Terrain
    var heightMap: RenderTexture?
    var normalMap: RenderTexture?
    var curveMap: RenderTexture?
    var indexMap: RenderTexture?
    var weightMap: RenderTexture?
    var treeClearMap: RenderTexture?
    var layerIndex: int

    constructor (terrain: Terrain, height: RenderTexture?, normal: RenderTexture?, curve: RenderTexture?,
                 indexMap: RenderTexture?, weightMap: RenderTexture?, clearMap: RenderTexture?)
      ensures this.terrain == terrain && heightMap == height && normalMap == normal && curveMap == curve
      ensures this.indexMap == indexMap && this.weightMap == weightMap && treeClearMap == clearMap
      ensures layerIndex == 0
    {
      this.terrain := terrain;
      heightMap := height;
      normalMap := normal;
      curveMap := curve;
      this.indexMap := indexMap;
      this.weightMap := weightMap;
      treeClearMap := clearMap;
      layerIndex := 0;
    }

    /** The terrain and the five shared buffers are as before. */
    twostate predicate BuffersKept()
      reads this
    {
      terrain == old(terrain) && heightMap == old(heightMap) && normalMap == old(normalMap) &&
      curveMap == old(curveMap) && indexMap == old(indexMap) && weightMap == old(weightMap)
    }
  }

  /** DetailData: the terrain, its buffers and the detail clear map. */
  class DetailData {
    var terrain: Terrain
    var heightMap: RenderTexture?
    var normalMap: RenderTexture?
    var curveMap: RenderTexture?
    var indexMap: RenderTexture?
    var weightMap: RenderTexture?
    var clearMap: RenderTexture?
    var layerIndex: int

    constructor (terrain: Terrain, height: RenderTexture?, normal: RenderTexture?, curve: RenderTexture?,
                 indexMap: RenderTexture?, weightMap: RenderTexture?, clearMap: RenderTexture?)
      ensures this.terrain == terrain && heightMap == height && normalMap == normal && curveMap == curve
      ensures this.indexMap == indexMap && this.weightMap == weightMap && this.clearMap == clearMap
      ensures layerIndex == 0
    {
      this.terrain := terrain;
      heightMap := height;
      normalMap := normal;
      curveMap := curve;
      this.indexMap := indexMap;
      this.weightMap := weightMap;
      this.clearMap := clearMap;
      layerIndex := 0;
    }

    /** The terrain and the five shared buffers are as before. */
    twostate predicate BuffersKept()
      reads this
    {
      terrain == old(terrain) && heightMap == old(heightMap) && normalMap == old(normalMap) &&
      curveMap == old(curveMap) && indexMap == old(indexMap) && weightMap == old(weightMap)
    }
  }
}
