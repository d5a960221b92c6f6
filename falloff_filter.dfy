/**
 * FalloffFilter: how a stamp's falloff chooses its shader keyword and the
 * falloff parameters it hands to the shader. A FalloffOverride component on
 * a parent object replaces the filter whose type and settings are used.
 * The splines package define (__MICROVERSE_SPLINES__) is a parameter.
 */
module FalloffFilterModel {
  import opened Engine
  import opened Wrappers

  /** FalloffFilter.FilterType. */
  datatype FilterType = Global | Box | Range | Texture | SplineArea

  /** FalloffFilter.TextureChannel: R = 0 to A = 3. */
  datatype TextureChannel = R | G | B | A

  function ChannelValue(c: TextureChannel): (r: int)
    ensures 0 <= r < 4
  {
    match c
    case R => 0
    case G => 1
    case B => 2
    case A => 3
  }

  /**
   * The easing curve and the noise settings of a filter. Their own
   * keyword and parameter code is not part of this model; only which
   * objects were asked to prepare the material is kept.
   */
  class Easing {
    constructor () {}
  }

  class Noise {
    constructor () {}
  }

  /** The serialised settings of a FalloffFilter. splineArea exists only with the splines define. */
  datatype FalloffFilter = FalloffFilter(
    filterType: FilterType,
    texture: Option<Texture2D>,
    textureChannel: TextureChannel,
    textureParams: Vec2,
    textureRotationScale: Vec4,
    splineArea: SplineArea?,
    splineAreaFalloff: real,
    splineAreaFalloffBoost: real,
    easing: Easing,
    noise: Noise,
    falloffRange: Vec2)

  /** A new FalloffFilter with the field initialisers of the class. */
  function DefaultFalloffFilter(easing: Easing, noise: Noise): (f: FalloffFilter)
    ensures f.filterType == Global && f.texture.None? && f.textureChannel == R && f.splineArea == null
    ensures f.textureParams == Vec2(1.0, 0.0) && f.textureRotationScale == Vec4(0.0, 1.0, 0.0, 0.0)
    ensures f.falloffRange == Vec2(0.8, 1.0)
    ensures f.easing == easing && f.noise == noise
  {
    FalloffFilter(Global, None, R, Vec2(1.0, 0.0), Vec4(0.0, 1.0, 0.0, 0.0), null, 0.0, 0.0,
                  easing, noise, Vec2(0.8, 1.0))
  }

  const UseFalloff := "_USEFALLOFF"
  const UseFalloffRange := "_USEFALLOFFRANGE"
  const UseFalloffTexture := "_USEFALLOFFTEXTURE"
  const UseFalloffSplineArea := "_USEFALLOFFSPLINEAREA"

  /** What the falloff texture slot is bound to: the filter's texture, or a spline area's SDF for a terrain. */
  datatype FalloffTexture = StampTexture(texture: Option<Texture2D>) | AreaSdf(area: SplineArea, terrain: Terrain)

  /**
   * What PrepareMaterial hands to the shader. `shaping` names the easing
   * and noise objects whose keywords were prepared; every None is a
   * material property the call leaves alone.
   */
  datatype FalloffSetup = FalloffSetup(
    shaping: Option<(Easing, Noise)>,
    keywords: seq<string>,
    falloff: Option<Vec2>,
    texture: Option<FalloffTexture>,
    textureChannel: Option<int>,
    textureParams: Option<Vec2>,
    textureRotationScale: Option<Vec4>,
    areaRange: Option<real>,
    areaBoost: Option<real>)

  /** A setup that sets no falloff keyword and no falloff parameter. */
  predicate SetsNothing(r: FalloffSetup)
  {
    r.keywords == [] && r.falloff.None? && r.texture.None? && r.textureChannel.None? &&
    r.textureParams.None? && r.textureRotationScale.None? && r.areaRange.None? && r.areaBoost.None?
  }

  /** The filter whose type and settings are used: the parent override's when there is one. */
  function EffectiveFilter(own: FalloffFilter, fo: Option<FalloffFilter>): (r: FalloffFilter)
    ensures fo.Some? ==> r == fo.value
    ensures fo.None? ==> r == own
  {
    if fo.Some? then fo.value else own
  }

  /** The start of every setup: easing and noise of this filter, prepared unless the effective type is Global. */
  function Shaping(own: FalloffFilter, use: FalloffFilter): FalloffSetup
  {
    FalloffSetup(if use.filterType != Global then Some((own.easing, own.noise)) else None,
                 [], None, None, None, None, None, None, None)
  }

  /** The setup of the three branches shared by the code as written and the corrected code. */
  function BoxRangeTexture(s: FalloffSetup, use: FalloffFilter): FalloffSetup
    requires use.filterType in {Box, Range, Texture}
  {
    match use.filterType
    case Box => s.(keywords := [UseFalloff], falloff := Some(use.falloffRange))
    case Range => s.(keywords := [UseFalloffRange], falloff := Some(use.falloffRange))
    case Texture =>
      s.(keywords := [UseFalloffTexture], texture := Some(StampTexture(use.texture)),
         textureChannel := Some(ChannelValue(use.textureChannel)), textureParams := Some(use.textureParams),
         textureRotationScale := Some(use.textureRotationScale), falloff := Some(use.falloffRange))
  }

  /** The spline-area branch with the splines define. */
  function AreaSetup(s: FalloffSetup, use: FalloffFilter, terrain: Terrain): FalloffSetup
    requires use.splineArea != null
  {
    s.(keywords := [UseFalloffSplineArea], texture := Some(AreaSdf(use.splineArea, terrain)),
       areaRange := Some(use.splineAreaFalloff), areaBoost := Some(use.splineAreaFalloffBoost))
  }

  /**
   * FalloffFilter.PrepareMaterial as written: without the splines define
   * the last branch tests this filter's own type instead of the effective one.
   */
  function PrepareMaterialAsWritten(own: FalloffFilter, fo: Option<FalloffFilter>, terrain: Terrain, splines: bool): (r: FalloffSetup)
  {
    var use := EffectiveFilter(own, fo);
    var s := Shaping(own, use);
    if use.filterType in {Box, Range, Texture} then BoxRangeTexture(s, use)
    else if splines then
      (if use.filterType == SplineArea && use.splineArea != null then AreaSetup(s, use, terrain) else s)
    else if own.filterType == SplineArea then s.(keywords := [UseFalloffRange], falloff := Some(use.falloffRange))
    else s
  }

  /**
   * FalloffFilter.PrepareMaterial, with the no-splines spline-area branch
   * testing the effective type like every other branch.
   */
  function PrepareMaterial(own: FalloffFilter, fo: Option<FalloffFilter>, terrain: Terrain, splines: bool): (r: FalloffSetup)
    ensures r.shaping.Some? <==> EffectiveFilter(own, fo).filterType != Global
    ensures r.shaping.Some? ==> r.shaping.value == (own.easing, own.noise)
    ensures |r.keywords| <= 1
    ensures EffectiveFilter(own, fo).filterType == Global ==> SetsNothing(r)
    ensures r.keywords == [] <==>
      EffectiveFilter(own, fo).filterType == Global ||
      (splines && EffectiveFilter(own, fo).filterType == SplineArea && EffectiveFilter(own, fo).splineArea == null)
    ensures r.falloff.Some? ==> r.falloff.value == EffectiveFilter(own, fo).falloffRange
  {
    var use := EffectiveFilter(own, fo);
    var s := Shaping(own, use);
    if use.filterType in {Box, Range, Texture} then BoxRangeTexture(s, use)
    else if splines then
      (if use.filterType == SplineArea && use.splineArea != null then AreaSetup(s, use, terrain) else s)
    else if use.filterType == SplineArea then s.(keywords := [UseFalloffRange], falloff := Some(use.falloffRange))
    else s
  }

  /** The keyword each effective type selects, as a table. */
  function KeywordOf(t: FilterType, splines: bool, hasArea: bool): Option<string>
  {
    match t
    case Global => None
    case Box => Some(UseFalloff)
    case Range => Some(UseFalloffRange)
    case Texture => Some(UseFalloffTexture)
    case SplineArea => if !splines then Some(UseFalloffRange) else if hasArea then Some(UseFalloffSplineArea) else None
  }

  /** PrepareMaterial adds exactly the keyword the table gives for the effective type, and the falloff range with it. */
  lemma PrepareMaterialFollowsTable(own: FalloffFilter, fo: Option<FalloffFilter>, terrain: Terrain, splines: bool)
    ensures var use := EffectiveFilter(own, fo);
      var k := KeywordOf(use.filterType, splines, use.splineArea != null);
      var r := PrepareMaterial(own, fo, terrain, splines);
      (r.keywords == if k.Some? then [k.value] else []) &&
      (r.falloff.Some? <==> k.Some? && k.value != UseFalloffSplineArea) &&
      (r.texture.Some? <==> k == Some(UseFalloffTexture) || k == Some(UseFalloffSplineArea))
  {
  }

  /** The code as written and the corrected code differ exactly on the no-splines spline-area branch under an override of another type. */
  lemma AsWrittenDiffersOnlyUnderOverride(own: FalloffFilter, fo: Option<FalloffFilter>, terrain: Terrain, splines: bool)
    ensures var use := EffectiveFilter(own, fo);
      PrepareMaterialAsWritten(own, fo, terrain, splines) != PrepareMaterial(own, fo, terrain, splines) <==>
      !splines && use.filterType !in {Box, Range, Texture} &&
      (own.filterType == SplineArea) != (use.filterType == SplineArea)
  {
    var use := EffectiveFilter(own, fo);
    var s := Shaping(own, use);
    if !splines && use.filterType !in {Box, Range, Texture} &&
       (own.filterType == SplineArea) != (use.filterType == SplineArea) {
      if own.filterType == SplineArea {
        assert PrepareMaterialAsWritten(own, fo, terrain, splines).keywords == [UseFalloffRange];
      } else {
        assert PrepareMaterial(own, fo, terrain, splines).keywords == [UseFalloffRange];
      }
    }
  }

  /**
   * The input that shows the discrepancy: a Global override above a filter
   * whose own type is SplineArea, without the splines define, still gets
   * the range keyword and the override's falloff range.
   */
  lemma GlobalOverrideGetsRangeKeyword(own: FalloffFilter, over: FalloffFilter, terrain: Terrain)
    requires own.filterType == SplineArea && over.filterType == Global
    ensures PrepareMaterialAsWritten(own, Some(over), terrain, false).keywords == [UseFalloffRange]
    ensures PrepareMaterialAsWritten(own, Some(over), terrain, false).falloff == Some(over.falloffRange)
    ensures PrepareMaterial(own, Some(over), terrain, false).keywords == []
  {
  }
}
