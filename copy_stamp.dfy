/**
 * CopyStamp: a saved copy of a terrain region. The textures are stored as
 * raw byte arrays and rebuilt lazily: Unpack creates a texture only when
 * it is missing and there are bytes to load, so unpacking twice is the
 * same as unpacking once.
 */
module CopyStampModel {
  import opened Engine
  import opened Wrappers

  /** Vector2Int. */
  datatype Size2 = Size2(x: int, y: int)

  const ZeroSize := Size2(0, 0)

  /** DetailPrototypeSerializable, compared with its Equals; its fields are not part of this model. */
  datatype DetailPrototype = DetailPrototype(id: nat)

  /** TreePrototypeSerializable; carried along untouched. */
  datatype TreePrototype = TreePrototype(id: nat)

  /** The texture an Unpack step leaves: an existing texture is kept, a missing one is loaded from non-empty bytes. */
  function Unpacked(tex: Option<Texture2D>, data: Option<seq<bv8>>, size: Size2): (r: Option<Texture2D>)
  {
    if tex.None? && data.Some? && |data.value| != 0 then Some(Texture2D(size.x, size.y, data.value)) else tex
  }

  /** Unpacking never replaces an existing texture, and creates one exactly from non-empty bytes. */
  lemma UnpackedKeepsOrLoads(tex: Option<Texture2D>, data: Option<seq<bv8>>, size: Size2)
    ensures tex.Some? ==> Unpacked(tex, data, size) == tex
    ensures tex.None? ==> (Unpacked(tex, data, size).Some? <==> data.Some? && |data.value| != 0)
    ensures Unpacked(tex, data, size).Some? && tex.None? ==>
      Unpacked(tex, data, size).value == Texture2D(size.x, size.y, data.value)
  {
  }

  /** A second unpack changes nothing. */
  lemma UnpackedIdempotent(tex: Option<Texture2D>, data: Option<seq<bv8>>, size: Size2)
    ensures Unpacked(Unpacked(tex, data, size), data, size) == Unpacked(tex, data, size)
  {
  }

  /** The raw bytes stored for a texture: null for a null texture. */
  function RawData(t: Option<Texture2D>): (r: Option<seq<bv8>>)
    ensures r.None? <==> t.None?
    ensures t.Some? ==> r.value == t.value.data
  {
    if t.Some? then Some(t.value.data) else None
  }

  /** A creation followed by an unpack gives back the textures that were saved, for non-empty textures. */
  lemma SavedTextureRoundTrip(t: Option<Texture2D>)
    requires t.Some? ==> |t.value.data| != 0
    ensures Unpacked(None, RawData(t), if t.Some? then Size2(t.value.width, t.value.height) else ZeroSize) == t
  {
  }

  /** CopyStamp.TreeCopyData: the tree position and random maps and their bytes. */
  class TreeCopyData {
    var positionsTex: Option<Texture2D>
    var randomsTex: Option<Texture2D>
    var prototypes: seq<TreePrototype>
    var randomsData: Option<seq<bv8>>
    var positionsData: Option<seq<bv8>>
    var dataSize: Size2

    constructor (prototypes: seq<TreePrototype>, positionsData: Option<seq<bv8>>, randomsData: Option<seq<bv8>>, dataSize: Size2)
      ensures positionsTex.None? && randomsTex.None? && this.prototypes == prototypes
      ensures this.positionsData == positionsData && this.randomsData == randomsData && this.dataSize == dataSize
    {
      positionsTex := None;
      randomsTex := None;
      this.prototypes := prototypes;
      this.positionsData := positionsData;
      this.randomsData := randomsData;
      this.dataSize := dataSize;
    }

    method Unpack()
      modifies this
      ensures positionsTex == Unpacked(old(positionsTex), positionsData, dataSize)
      ensures randomsTex == Unpacked(old(randomsTex), randomsData, dataSize)
      ensures prototypes == old(prototypes) && randomsData == old(randomsData)
      ensures positionsData == old(positionsData) && dataSize == old(dataSize)
    {
      if positionsTex.None? && positionsData.Some? && |positionsData.value| != 0 {
        positionsTex := Some(Texture2D(dataSize.x, dataSize.y, positionsData.value));
      }
      if randomsTex.None? && randomsData.Some? && |randomsData.value| != 0 {
        randomsTex := Some(Texture2D(dataSize.x, dataSize.y, randomsData.value));
      }
    }
  }

  /** CopyStamp.DetailCopyData.Layer: one detail layer's map, its bytes and its prototype. */
  class Layer {
    var texture: Option<Texture2D>
    var bytes: Option<seq<bv8>>
    var prototype: DetailPrototype
    var dataSize: Size2

    /** new Layer() followed by setting its prototype. */
    constructor (prototype: DetailPrototype)
      ensures texture.None? && bytes.None? && this.prototype == prototype && dataSize == ZeroSize
    {
      texture := None;
      bytes := None;
      this.prototype := prototype;
      dataSize := ZeroSize;
    }
  }

  /** The position of the first layer whose prototype equals p, if any. */
  function FindPrototype(layers: seq<Layer>, p: DetailPrototype): (r: Option<nat>)
    reads set l | l in layers
    ensures r.None? <==> forall i :: 0 <= i < |layers| ==> layers[i].prototype != p
    ensures r.Some? ==>
      r.value < |layers| && layers[r.value].prototype == p && forall i :: 0 <= i < r.value ==> layers[i].prototype != p
  {
    if |layers| == 0 then None
    else if layers[0].prototype == p then Some(0)
    else
      var t := FindPrototype(layers[1..], p);
      if t.None? then None else Some(t.value + 1)
  }

  /** CopyStamp.DetailCopyData: the list of detail layers. */
  class DetailCopyData {
    var layers: seq<Layer>

    constructor ()
      ensures layers == []
    {
      layers := [];
    }

    /**
     * FindOrCreateLayer: the first layer whose prototype equals the
     * argument, or else a new layer for it appended at the end.
     */
    method FindOrCreateLayer(prototype: DetailPrototype) returns (l: Layer)
      modifies this
      ensures FindPrototype(old(layers), prototype).Some? ==>
        layers == old(layers) && l == layers[FindPrototype(old(layers), prototype).value]
      ensures FindPrototype(old(layers), prototype).None? ==>
        fresh(l) && layers == old(layers) + [l] && l.texture.None? && l.bytes.None?
      ensures l.prototype == prototype && l in layers
      ensures FindPrototype(layers, prototype).Some? && l == layers[FindPrototype(layers, prototype).value]
    {
      var i := 0;
      while i < |layers|
        invariant 0 <= i <= |layers|
        invariant forall k :: 0 <= k < i ==> layers[k].prototype != prototype
      {
        if layers[i].prototype == prototype {
          return layers[i];
        }
        i := i + 1;
      }
      l := new Layer(prototype);
      layers := layers + [l];
      assert layers[..|layers| - 1] == old(layers);
    }

    /**
     * Unpack: every layer is unpacked on its own; a layer listed twice is
     * the same object and is unpacked once.
     */
    method Unpack()
      modifies set l | l in layers
      ensures forall i :: 0 <= i < |layers| ==>
        layers[i].texture == Unpacked(old(layers[i].texture), layers[i].bytes, layers[i].dataSize)
      ensures forall i :: 0 <= i < |layers| ==>
        layers[i].bytes == old(layers[i].bytes) && layers[i].prototype == old(layers[i].prototype) &&
        layers[i].dataSize == old(layers[i].dataSize)
    {
      var i := 0;
      while i < |layers|
        invariant 0 <= i <= |layers|
        invariant forall k :: 0 <= k < |layers| ==>
          layers[k].bytes == old(layers[k].bytes) && layers[k].prototype == old(layers[k].prototype) &&
          layers[k].dataSize == old(layers[k].dataSize)
        invariant forall k :: 0 <= k < |layers| ==>
          layers[k].texture == if layers[k] in layers[..i] then Unpacked(old(layers[k].texture), layers[k].bytes, layers[k].dataSize)
                               else old(layers[k].texture)
      {
        var l := layers[i];
        assert forall k :: 0 <= k < |layers| ==> (layers[k] in layers[..i + 1] <==> layers[k] in layers[..i] || layers[k] == l);
        if l.texture.None? && l.bytes.Some? && |l.bytes.value| > 0 {
          l.texture := Some(Texture2D(l.dataSize.x, l.dataSize.y, l.bytes.value));
        }
        i := i + 1;
      }
      assert forall k :: 0 <= k < |layers| ==> layers[k] in layers[..i];
    }
  }

  /** A CopyStamp asset. */
  class CopyStamp {
    var heightMap: Option<Texture2D>
    var indexMap: Option<Texture2D>
    var weightMap: Option<Texture2D>
    var layers: Option<seq<TerrainLayer?>>
    var heightRenorm: Vec2
    var treeData: TreeCopyData?
    var detailData: DetailCopyData?
    var heightData: Option<seq<bv8>>
    var indexData: Option<seq<bv8>>
    var weightData: Option<seq<bv8>>
    var heightSize: Size2
    var indexWeightSize: Size2

    /**
     * CopyStamp.Create: the raw bytes of each texture are stored (null for
     * a null texture); the height size is recorded with a height map, the
     * index/weight size (from the index map) only when both maps exist.
     */
    constructor Create(height: Option<Texture2D>, index: Option<Texture2D>, weight: Option<Texture2D>,
                       tLayers: Option<seq<TerrainLayer?>>, heightRenorm: Vec2,
                       treeData: TreeCopyData?, detailData: DetailCopyData?)
      ensures heightMap.None? && indexMap.None? && weightMap.None?
      ensures layers == tLayers && this.heightRenorm == heightRenorm
      ensures heightData == RawData(height) && indexData == RawData(index) && weightData == RawData(weight)
      ensures heightSize == if height.Some? then Size2(height.value.width, height.value.height) else ZeroSize
      ensures indexWeightSize == if index.Some? && weight.Some? then Size2(index.value.width, index.value.height) else ZeroSize
      ensures this.treeData == treeData && this.detailData == detailData
    {
      heightMap := None;
      indexMap := None;
      weightMap := None;
      layers := tLayers;
      this.heightRenorm := heightRenorm;
      heightData := RawData(height);
      indexData := RawData(index);
      weightData := RawData(weight);
      heightSize := if height.Some? then Size2(height.value.width, height.value.height) else ZeroSize;
      indexWeightSize := if index.Some? && weight.Some? then Size2(index.value.width, index.value.height) else ZeroSize;
      this.treeData := treeData;
      this.detailData := detailData;
    }

    /** Everything Unpack may change: this asset, its tree data, its detail data and the detail layers. */
    ghost function Footprint(): set<object>
      reads this, detailData
    {
      {this} + (if treeData != null then {treeData} else {}) +
      (if detailData != null then {detailData} + (set l: Layer | l in detailData.layers :: l as object) else {})
    }

    /** The first half of Unpack: the height, index and weight maps. */
    method UnpackMaps()
      modifies this
      ensures heightMap == Unpacked(old(heightMap), heightData, heightSize)
      ensures indexMap == Unpacked(old(indexMap), indexData, indexWeightSize)
      ensures weightMap == Unpacked(old(weightMap), weightData, indexWeightSize)
      ensures treeData == old(treeData) && detailData == old(detailData)
      ensures heightData == old(heightData) && indexData == old(indexData) && weightData == old(weightData)
      ensures heightSize == old(heightSize) && indexWeightSize == old(indexWeightSize) && layers == old(layers)
      ensures heightRenorm == old(heightRenorm)
    {
      if heightMap.None? && heightData.Some? && |heightData.value| != 0 {
        heightMap := Some(Texture2D(heightSize.x, heightSize.y, heightData.value));
      }
      if indexMap.None? && indexData.Some? && |indexData.value| != 0 {
        indexMap := Some(Texture2D(indexWeightSize.x, indexWeightSize.y, indexData.value));
      }
      if weightMap.None? && weightData.Some? && |weightData.value| != 0 {
        weightMap := Some(Texture2D(indexWeightSize.x, indexWeightSize.y, weightData.value));
      }
    }

    /**
     * Unpack: the three maps are each rebuilt from their bytes if missing,
     * and the tree and detail data are unpacked when present.
     */
    method Unpack()
      modifies Footprint()
      ensures heightMap == Unpacked(old(heightMap), heightData, heightSize)
      ensures indexMap == Unpacked(old(indexMap), indexData, indexWeightSize)
      ensures weightMap == Unpacked(old(weightMap), weightData, indexWeightSize)
      ensures treeData == old(treeData) && detailData == old(detailData)
      ensures heightData == old(heightData) && indexData == old(indexData) && weightData == old(weightData)
      ensures heightSize == old(heightSize) && indexWeightSize == old(indexWeightSize) && layers == old(layers)
      ensures heightRenorm == old(heightRenorm)
      ensures treeData != null ==>
        treeData.prototypes == old(treeData.prototypes) && treeData.dataSize == old(treeData.dataSize) &&
        treeData.positionsData == old(treeData.positionsData) && treeData.randomsData == old(treeData.randomsData)
      ensures treeData != null ==>
        treeData.positionsTex == Unpacked(old(treeData.positionsTex), treeData.positionsData, treeData.dataSize) &&
        treeData.randomsTex == Unpacked(old(treeData.randomsTex), treeData.randomsData, treeData.dataSize)
      ensures detailData != null ==> detailData.layers == old(detailData.layers)
      ensures detailData != null ==> forall i :: 0 <= i < |detailData.layers| ==>
        detailData.layers[i].texture ==
          Unpacked(old(detailData.layers[i].texture), detailData.layers[i].bytes, detailData.layers[i].dataSize)
      ensures detailData != null ==> forall i :: 0 <= i < |detailData.layers| ==>
        detailData.layers[i].bytes == old(detailData.layers[i].bytes) &&
        detailData.layers[i].prototype == old(detailData.layers[i].prototype) &&
        detailData.layers[i].dataSize == old(detailData.layers[i].dataSize)
    {
      UnpackMaps();
      var td := treeData;
      var dd := detailData;
      if td != null {
        td.Unpack();
      }
      if dd != null {
        dd.Unpack();
      }
    }
  }
}
