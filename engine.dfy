/**
 * Unity engine objects the terrain code manipulates. Engine objects are
 * opaque references compared by identity (C# ReferenceEquals); only the
 * state the modelled code reads or writes is kept.
 */
module Engine {
  /**
   * A Unity terrain; terrainLayers stands for terrainData.terrainLayers.
   * The four neighbours are fixed while the modelled code runs.
   */
  class Terrain {
    var terrainLayers: seq<TerrainLayer?>
    const leftNeighbor: Terrain?
    const rightNeighbor: Terrain?
    const topNeighbor: Terrain?
    const bottomNeighbor: Terrain?

    constructor (layers: seq<TerrainLayer?>, left: Terrain?, right: Terrain?, top: Terrain?, bottom: Terrain?)
      ensures terrainLayers == layers
      ensures leftNeighbor == left && rightNeighbor == right && topNeighbor == top && bottomNeighbor == bottom
    {
      terrainLayers := layers;
      leftNeighbor := left;
      rightNeighbor := right;
      topNeighbor := top;
      bottomNeighbor := bottom;
    }

    /** The neighbours in the order the seam pass visits them: left, right, top, bottom. */
    function Neighbors(): seq<Terrain?>
    {
      [leftNeighbor, rightNeighbor, topNeighbor, bottomNeighbor]
    }
  }

  /** A terrain texture layer asset, ordered by its name. */
  class TerrainLayer {
    const name: string

    constructor (name: string)
      ensures this.name == name
    {
      this.name := name;
    }
  }

  /** A GPU render target (temporary or persistent). */
  class RenderTexture {
    constructor () {}
  }

  /** TextureWrapMode. */
  datatype WrapMode = Clamp | Repeat

  /** A Texture2D asset referenced by a stamp; the model keeps its wrap mode. */
  class TextureAsset {
    var wrapMode: WrapMode

    constructor (wrapMode: WrapMode)
      ensures this.wrapMode == wrapMode
    {
      this.wrapMode := wrapMode;
    }
  }

  /** A scene object (prefab instance or prefab asset). */
  class GameObject {}

  /** A spline; the model keeps its local-space bounds (SplineUtility.GetBounds). */
  class Spline {
    const localBounds: Bounds

    constructor (localBounds: Bounds)
      ensures this.localBounds == localBounds
    {
      this.localBounds := localBounds;
    }
  }

  /**
   * A SplineContainer: its main spline (container.Spline, possibly null),
   * all of its splines, and the point mapping of its localToWorldMatrix.
   */
  class SplineContainer {
    const mainSpline: Spline?
    const splines: seq<Spline>
    const localToWorld: Vec3 -> Vec3

    constructor (mainSpline: Spline?, splines: seq<Spline>, localToWorld: Vec3 -> Vec3)
      ensures this.mainSpline == mainSpline && this.splines == splines && this.localToWorld == localToWorld
    {
      this.mainSpline := mainSpline;
      this.splines := splines;
      this.localToWorld := localToWorld;
    }
  }

  /** A spline-area component whose signed distance field a falloff can sample. */
  class SplineArea {}

  /** The CPU-side contents of a Texture2D: the model keeps size and raw bytes. */
  datatype Texture2D = Texture2D(width: int, height: int, data: seq<bv8>)

  datatype Vec2 = Vec2(x: real, y: real)
  datatype Vec3 = Vec3(x: real, y: real, z: real)
  datatype Vec4 = Vec4(x: real, y: real, z: real, w: real)

  const Zero3 := Vec3(0.0, 0.0, 0.0)

  /** Mathf.Max on two values. */
  function MaxReal(a: real, b: real): (r: real)
    ensures r >= a && r >= b && (r == a || r == b)
  {
    if a >= b then a else b
  }

  function MinReal(a: real, b: real): (r: real)
    ensures r <= a && r <= b && (r == a || r == b)
  {
    if a <= b then a else b
  }

  function Add3(a: Vec3, b: Vec3): Vec3 { Vec3(a.x + b.x, a.y + b.y, a.z + b.z) }
  function Sub3(a: Vec3, b: Vec3): Vec3 { Vec3(a.x - b.x, a.y - b.y, a.z - b.z) }
  function Scale3(a: Vec3, k: real): Vec3 { Vec3(a.x * k, a.y * k, a.z * k) }
  function Min3(a: Vec3, b: Vec3): Vec3 { Vec3(MinReal(a.x, b.x), MinReal(a.y, b.y), MinReal(a.z, b.z)) }
  function Max3(a: Vec3, b: Vec3): Vec3 { Vec3(MaxReal(a.x, b.x), MaxReal(a.y, b.y), MaxReal(a.z, b.z)) }

  /** UnityEngine.Bounds: an axis-aligned box given by its centre and size. */
  datatype Bounds = Bounds(center: Vec3, size: Vec3)
  {
    function Min(): Vec3 { Sub3(center, Scale3(size, 0.5)) }
    function Max(): Vec3 { Add3(center, Scale3(size, 0.5)) }

    /** Bounds.Intersects: the closed boxes overlap on every axis. */
    predicate Intersects(o: Bounds)
    {
      Min().x <= o.Max().x && Max().x >= o.Min().x &&
      Min().y <= o.Max().y && Max().y >= o.Min().y &&
      Min().z <= o.Max().z && Max().z >= o.Min().z
    }

    /** Bounds.Expand(amount): the size grows by amount on every axis. */
    function Expand(amount: real): (r: Bounds)
      ensures r.center == center
    {
      Bounds(center, Add3(size, Vec3(amount, amount, amount)))
    }

    /** Bounds.Encapsulate(other): the smallest box holding both. */
    function Encapsulate(o: Bounds): (r: Bounds)
      ensures r.Min() == Min3(Min(), o.Min()) && r.Max() == Max3(Max(), o.Max())
    {
      FromMinMax(Min3(Min(), o.Min()), Max3(Max(), o.Max()))
    }
  }

  /** Bounds.SetMinMax: the box with the given corners. */
  function FromMinMax(lo: Vec3, hi: Vec3): (r: Bounds)
    ensures r.Min() == lo && r.Max() == hi
  {
    Bounds(Scale3(Add3(lo, hi), 0.5), Sub3(hi, lo))
  }

  /** The default-constructed Bounds, used as "not computed yet". */
  const ZeroBounds := Bounds(Zero3, Zero3)
}
