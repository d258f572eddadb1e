// The renderer's settings (Config.hpp): plain records with default values,
// plus the fields the passes read that the header of this revision does not
// declare (fog range, depth of field, SSAO switch, Kulla-Conty switch, the
// context's texture names). Float settings are reals the passes only forward
// to shaders.
module Configs {
  import opened Wrappers
  import opened LinearAlgebra
  import opened GL
  import opened Entities

  datatype PolygonMode = Shaded | WireFrame

  datatype FogType = None | Linear | Exponential | ExponentialSquare

  /** The light camera's projection kind (declared with the camera). */
  datatype ProjectionType = Perspective | Orthogonal

  /** Tone-mapping operators, in the order the editor lists them (its
      menu casts the entry's index to the type): none, logarithmic, ACES. */
  datatype ToneMappingType = NoToneMapping | Logarithmic | ACES

  /** The integer a `(int)` cast of a ToneMappingType gives. */
  function ToneMappingCode(t: ToneMappingType): (code: nat)
    ensures code < 3
  {
    match t
    case NoToneMapping => 0
    case Logarithmic => 1
    case ACES => 2
  }

  function ToneMappingOfCode(code: int): (r: Option<ToneMappingType>)
    ensures r.None? <==> !(0 <= code < 3)
  {
    if code == 0 then Some(NoToneMapping)
    else if code == 1 then Some(Logarithmic)
    else if code == 2 then Some(ACES)
    else Option.None
  }

  /** The tone-mapping code a shader receives identifies the operator. */
  lemma ToneMappingCodeRoundTrip(t: ToneMappingType, code: int)
    ensures ToneMappingOfCode(ToneMappingCode(t)) == Some(t)
    ensures ToneMappingOfCode(code) == Some(t) ==> code == ToneMappingCode(t)
  {
  }

  /** The integer a `(int)` cast of a FogType gives: declaration order. */
  function FogTypeCode(f: FogType): (code: nat)
    ensures code < 4
  {
    match f
    case None => 0
    case Linear => 1
    case Exponential => 2
    case ExponentialSquare => 3
  }

  function FogTypeOfCode(code: int): (r: Option<FogType>)
    ensures r.None? <==> !(0 <= code < 4)
  {
    if code == 0 then Some(FogType.None)
    else if code == 1 then Some(Linear)
    else if code == 2 then Some(Exponential)
    else if code == 3 then Some(ExponentialSquare)
    else Option.None
  }

  /** The fog code a shader receives identifies the fog type. */
  lemma FogTypeCodeRoundTrip(f: FogType, code: int)
    ensures FogTypeOfCode(FogTypeCode(f)) == Some(f)
    ensures FogTypeOfCode(code) == Some(f) ==> code == FogTypeCode(f)
  {
  }

  datatype LightSetting = LightSetting(
    cameraProjection: ProjectionType,
    lightColor: Vec3,
    lightIntensity: real,
    castShadow: bool,
    useEnvMap: bool)

  datatype PostprocessSetting = PostprocessSetting(
    enablePostprocess: bool,
    exposure: real,
    tonemappingType: ToneMappingType,
    enableBloom: bool,
    bloomThreshold: real,
    bloomIntensity: real,
    bloomFilterRadius: real,
    enableFXAA: bool,
    enableFog: bool,
    fogType: FogType,
    fogDensity: real,
    // read by the merge shader setup, absent from the header
    fogStart: real,
    fogEnd: real,
    enableDoF: bool,
    enableSSAO: bool)

  datatype PBRSetting = PBRSetting(
    baseColor: Vec3,
    metallic: real,
    roughness: real,
    ao: real,
    // read by the forward pass, absent from the header
    baseF: real,
    enableKullaConty: bool)

  datatype GraphicsConfig = GraphicsConfig(
    vsync: bool,
    polygonMode: PolygonMode,
    lightSetting: LightSetting,
    pbrSetting: PBRSetting,
    postprocessSetting: PostprocessSetting,
    environmentMapResolution: nat)

  /** The context the passes share: the configuration, the selected entity
      (none when no entity is selected), and the texture names other passes
      publish for the forward, SSAO and merge shaders. */
  datatype GraphicsContext = GraphicsContext(
    config: GraphicsConfig,
    activeEntity: Option<Entity>,
    depthMap: Name,
    depthMapLS: Name,
    gPosition: Name,
    gNormal: Name,
    mainImage: Name)

  function DefaultLightSetting(): (s: LightSetting)
    ensures s.castShadow && !s.useEnvMap && s.cameraProjection == Orthogonal
    ensures s.lightIntensity == 7.0
  {
    LightSetting(Orthogonal, Vec3(0.2, 1.0, 0.2), 7.0, true, false)
  }

  function DefaultPostprocessSetting(): (s: PostprocessSetting)
    ensures s.enablePostprocess && s.enableBloom && s.enableFXAA && s.enableFog
    ensures s.tonemappingType == ACES && s.fogType == FogType.None
    ensures s.exposure == 0.8 && s.bloomThreshold == 2.0 && s.bloomIntensity == 0.1
    ensures s.bloomFilterRadius == 0.005 && s.fogDensity == 0.3
  {
    PostprocessSetting(true, 0.8, ACES, true, 2.0, 0.1, 0.005, true, true, FogType.None, 0.3,
                       0.0, 0.0, false, false)
  }

  function DefaultPBRSetting(): (s: PBRSetting)
    ensures s.baseColor == Vec3(0.6, 0.6, 0.6) && s.metallic == 0.0 && s.roughness == 0.1 && s.ao == 1.0
  {
    PBRSetting(Vec3(0.6, 0.6, 0.6), 0.0, 0.1, 1.0, 0.0, false)
  }

  /** A fresh configuration: vsync on, shaded polygons, 2048 environment map. */
  function DefaultGraphicsConfig(): (c: GraphicsConfig)
    ensures c.vsync && c.polygonMode == Shaded && c.environmentMapResolution == 2048
    ensures c.lightSetting == DefaultLightSetting() && c.pbrSetting == DefaultPBRSetting()
    ensures c.postprocessSetting == DefaultPostprocessSetting()
  {
    GraphicsConfig(true, Shaded, DefaultLightSetting(), DefaultPBRSetting(), DefaultPostprocessSetting(), 2048)
  }

  /** A fresh context: a fresh configuration and no selected entity. */
  function DefaultGraphicsContext(): (c: GraphicsContext)
    ensures c.config == DefaultGraphicsConfig() && c.activeEntity.None?
  {
    GraphicsContext(DefaultGraphicsConfig(), Option.None, 0, 0, 0, 0, 0)
  }
}
