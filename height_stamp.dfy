/**
 * HeightStamp: the version migration run when the stamp is enabled, the
 * choice of its bounds, and the keywords and parameters it hands to the
 * heightmap shader. The blit itself is GPU work and is not modelled.
 */
module HeightStampModel {
  import opened Engine
  import opened Wrappers
  import opened FalloffFilterModel

  /** HeightStamp.CombineMode, numbered Override = 0 to SqrtMultiply = 8. */
  datatype CombineMode = Override | Max | Min | Add | Subtract | Multiply | Average | Difference | SqrtMultiply

  /** Every combine mode in declaration order. */
  const CombineModes: seq<CombineMode> := [Override, Max, Min, Add, Subtract, Multiply, Average, Difference, SqrtMultiply]

  /** The integer handed to _CombineMode: the mode's position in declaration order, so it identifies the mode. */
  function CombineModeValue(m: CombineMode): (r: int)
    ensures 0 <= r < |CombineModes| && CombineModes[r] == m
  {
    match m
    case Override => 0
    case Max => 1
    case Min => 2
    case Add => 3
    case Subtract => 4
    case Multiply => 5
    case Average => 6
    case Difference => 7
    case SqrtMultiply => 8
  }

  const AbsoluteHeightKeyword := "_ABSOLUTEHEIGHT"
  const TwistKeyword := "_TWIST"
  const ErosionKeyword := "_EROSION"

  /** The scale/offset value for which the stamp texture is sampled clamped. */
  const IdentityScaleOffset := Vec4(1.0, 1.0, 0.0, 0.0)

  /** The shader parameters of PrepareMaterial that the model keeps. */
  datatype HeightSetup = HeightSetup(
    falloff: FalloffSetup,
    heightRemap: Vec2,
    combineMode: int,
    twist: Option<real>,
    erosion: Option<(real, real)>)

  /** The twist and erosion keywords, after the falloff keywords. */
  function ShapeKeywords(twist: real, erosion: real): (r: seq<string>)
    ensures TwistKeyword in r <==> twist != 0.0
    ensures ErosionKeyword in r <==> erosion != 0.0
    ensures |r| <= 2 && (twist != 0.0 ==> r[0] == TwistKeyword)
  {
    (if twist != 0.0 then [TwistKeyword] else []) + (if erosion != 0.0 then [ErosionKeyword] else [])
  }

  class HeightStamp {
    var stamp: TextureAsset?
    var mode: CombineMode
    var falloff: FalloffFilter
    var twist: real
    var erosion: real
    var erosionSize: real
    var remapRange: Vec2
    var scaleOffset: Vec4
    var mipBias: real
    var version: int
    /** transform.position and transform.lossyScale. */
    var position: Vec3
    var lossyScale: Vec3
    /** The stamp's keyword builder list. */
    var keywords: seq<string>

    /** The field initialisers of HeightStamp, placed at the given transform. */
    constructor (falloff: FalloffFilter, position: Vec3, lossyScale: Vec3)
      ensures stamp == null && mode == Max && this.falloff == falloff
      ensures twist == 0.0 && erosion == 0.0 && erosionSize == 4.0
      ensures remapRange == Vec2(0.0, 1.0) && scaleOffset == IdentityScaleOffset && mipBias == 0.0
      ensures version == 0 && this.position == position && this.lossyScale == lossyScale && keywords == []
    {
      stamp := null;
      mode := Max;
      this.falloff := falloff;
      twist := 0.0;
      erosion := 0.0;
      erosionSize := 4.0;
      remapRange := Vec2(0.0, 1.0);
      scaleOffset := IdentityScaleOffset;
      mipBias := 0.0;
      version := 0;
      this.position := position;
      this.lossyScale := lossyScale;
      keywords := [];
    }

    /** Whether OnEnable moves the stamp to height 0: old Max stamps, and version-1 stamps of the other blending modes. */
    predicate NeedsGrounding()
      reads this
    {
      (version == 0 && mode == Max) || (version == 1 && mode != Override && mode != Max)
    }

    /**
     * OnEnable: stamps saved before version 2 whose height was implicit are
     * moved to y = 0; x and z never change and the version becomes 2, so
     * enabling again leaves the position alone.
     */
    method OnEnable()
      modifies this
      ensures version == 2
      ensures position.x == old(position.x) && position.z == old(position.z)
      ensures position.y == if old(NeedsGrounding()) then 0.0 else old(position.y)
      ensures old(version) == 2 ==> position == old(position)
      ensures stamp == old(stamp) && mode == old(mode) && falloff == old(falloff) && twist == old(twist)
      ensures erosion == old(erosion) && erosionSize == old(erosionSize) && remapRange == old(remapRange)
      ensures scaleOffset == old(scaleOffset) && mipBias == old(mipBias) && lossyScale == old(lossyScale)
      ensures keywords == old(keywords)
    {
      if version == 0 && mode == Max {
        position := position.(y := 0.0);
      } else if version == 1 && mode != Override && mode != Max {
        position := position.(y := 0.0);
      }
      version := 2;
    }

    /**
     * GetBounds: with the splines define, a spline area falloff (the parent
     * override's type decides, this falloff's area is used) gives the
     * area's bounds; otherwise the transform's bounds.
     */
    function GetBounds(fo: Option<FalloffFilter>, splines: bool, areaBounds: SplineArea -> Bounds, transformBounds: Bounds): (r: Bounds)
      reads this
      ensures splines && EffectiveFilter(falloff, fo).filterType == SplineArea && falloff.splineArea != null ==>
        r == areaBounds(falloff.splineArea)
      ensures !(splines && EffectiveFilter(falloff, fo).filterType == SplineArea && falloff.splineArea != null) ==>
        r == transformBounds
    {
      var foType := if fo.Some? then fo.value.filterType else falloff.filterType;
      if splines && foType == SplineArea && falloff.splineArea != null then areaBounds(falloff.splineArea)
      else transformBounds
    }

    /**
     * PrepareMaterial: the stamp texture is clamped exactly for the identity
     * scale/offset, the height range is mapped into the terrain's height
     * units, and _TWIST and _EROSION follow the falloff keywords when set.
     * toTerrain is the terrain's world-to-terrain point mapping.
     */
    method PrepareMaterial(toTerrain: Vec3 -> Vec3, realHeight: real, fo: Option<FalloffFilter>, terrain: Terrain, splines: bool)
      returns (setup: HeightSetup)
      requires realHeight != 0.0
      modifies this, stamp
      ensures stamp == old(stamp)
      ensures stamp != null ==> stamp.wrapMode == if scaleOffset == IdentityScaleOffset then Clamp else Repeat
      ensures setup.falloff == FalloffFilterModel.PrepareMaterial(falloff, fo, terrain, splines)
      ensures keywords == old(keywords) + setup.falloff.keywords + ShapeKeywords(twist, erosion)
      ensures setup.heightRemap.x * realHeight == toTerrain(position).y
      ensures setup.heightRemap.y * realHeight == toTerrain(position).y + lossyScale.y
      ensures setup.combineMode == CombineModeValue(mode)
      ensures setup.twist.Some? <==> twist != 0.0
      ensures setup.twist.Some? ==> setup.twist.value == twist
      ensures setup.erosion.Some? <==> erosion != 0.0
      ensures setup.erosion.Some? ==> setup.erosion.value == (erosion, erosionSize)
      ensures mode == old(mode) && falloff == old(falloff) && twist == old(twist) && erosion == old(erosion)
      ensures erosionSize == old(erosionSize) && scaleOffset == old(scaleOffset) && version == old(version)
      ensures position == old(position) && lossyScale == old(lossyScale)
      ensures remapRange == old(remapRange) && mipBias == old(mipBias)
    {
      var y := toTerrain(position).y;
      if stamp != null {
        stamp.wrapMode := if scaleOffset == IdentityScaleOffset then Clamp else Repeat;
      }
      var fs := FalloffFilterModel.PrepareMaterial(falloff, fo, terrain, splines);
      keywords := keywords + fs.keywords;
      var remap := Vec2(y / realHeight, (y + lossyScale.y) / realHeight);
      var tw: Option<real> := None;
      var er: Option<(real, real)> := None;
      if twist != 0.0 {
        keywords := keywords + [TwistKeyword];
        tw := Some(twist);
      }
      if erosion != 0.0 {
        keywords := keywords + [ErosionKeyword];
        er := Some((erosion, erosionSize));
      }
      setup := HeightSetup(fs, remap, CombineModeValue(mode), tw, er);
    }

    /** ApplyHeightStamp: the keyword list is rebuilt from scratch and the stamp always reports that it wrote. */
    method ApplyHeightStamp(toTerrain: Vec3 -> Vec3, realHeight: real, fo: Option<FalloffFilter>, terrain: Terrain, splines: bool)
      returns (applied: bool, setup: HeightSetup)
      requires realHeight != 0.0
      modifies this, stamp
      ensures applied
      ensures keywords == FalloffFilterModel.PrepareMaterial(falloff, fo, terrain, splines).keywords + ShapeKeywords(twist, erosion)
      ensures stamp != null ==> stamp.wrapMode == if scaleOffset == IdentityScaleOffset then Clamp else Repeat
      ensures setup.falloff == FalloffFilterModel.PrepareMaterial(falloff, fo, terrain, splines)
      ensures setup.heightRemap.x * realHeight == toTerrain(position).y
      ensures setup.heightRemap.y * realHeight == toTerrain(position).y + lossyScale.y
      ensures setup.combineMode == CombineModeValue(mode)
      ensures setup.twist.Some? <==> twist != 0.0
      ensures setup.twist.Some? ==> setup.twist.value == twist
      ensures setup.erosion.Some? <==> erosion != 0.0
      ensures setup.erosion.Some? ==> setup.erosion.value == (erosion, erosionSize)
      ensures stamp == old(stamp) && mode == old(mode) && falloff == old(falloff) && twist == old(twist) && erosion == old(erosion)
      ensures erosionSize == old(erosionSize) && scaleOffset == old(scaleOffset) && version == old(version)
      ensures position == old(position) && lossyScale == old(lossyScale)
      ensures remapRange == old(remapRange) && mipBias == old(mipBias)
    {
      keywords := [];
      setup := PrepareMaterial(toTerrain, realHeight, fo, terrain, splines);
      applied := true;
    }

    /** ApplyHeightStampAbsolute (used by the copy stamp): as ApplyHeightStamp, with _ABSOLUTEHEIGHT first. */
    method ApplyHeightStampAbsolute(toTerrain: Vec3 -> Vec3, realHeight: real, fo: Option<FalloffFilter>, terrain: Terrain, splines: bool)
      returns (applied: bool, setup: HeightSetup)
      requires realHeight != 0.0
      modifies this, stamp
      ensures applied
      ensures |keywords| >= 1 && keywords[0] == AbsoluteHeightKeyword
      ensures keywords[1..] == FalloffFilterModel.PrepareMaterial(falloff, fo, terrain, splines).keywords + ShapeKeywords(twist, erosion)
      ensures stamp != null ==> stamp.wrapMode == if scaleOffset == IdentityScaleOffset then Clamp else Repeat
      ensures setup.falloff == FalloffFilterModel.PrepareMaterial(falloff, fo, terrain, splines)
      ensures setup.heightRemap.x * realHeight == toTerrain(position).y
      ensures setup.heightRemap.y * realHeight == toTerrain(position).y + lossyScale.y
      ensures setup.combineMode == CombineModeValue(mode)
      ensures setup.twist.Some? <==> twist != 0.0
      ensures setup.twist.Some? ==> setup.twist.value == twist
      ensures setup.erosion.Some? <==> erosion != 0.0
      ensures setup.erosion.Some? ==> setup.erosion.value == (erosion, erosionSize)
      ensures stamp == old(stamp) && mode == old(mode) && falloff == old(falloff) && twist == old(twist) && erosion == old(erosion)
      ensures erosionSize == old(erosionSize) && scaleOffset == old(scaleOffset) && version == old(version)
      ensures position == old(position) && lossyScale == old(lossyScale)
      ensures remapRange == old(remapRange) && mipBias == old(mipBias)
    {
      keywords := [AbsoluteHeightKeyword];
      setup := PrepareMaterial(toTerrain, realHeight, fo, terrain, splines);
      applied := true;
    }
  }
}
