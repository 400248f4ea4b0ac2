/**
 * The importer-settings decision at the end of CombineCUBE: when the freshly
 * imported strip is not already a cube texture, the importer is told to read it
 * as a full, seamless, trilinear-filtered, mip-mapped cubemap, with specular
 * convolution when the bake asks for it; otherwise the importer is left alone.
 */
module CubemapImport {
  import opened Wrappers

  /** The dimension of a loaded texture; Unspecified stands for the engine's None. */
  datatype TextureDimension = Unknown | Unspecified | Any | Tex2D | Tex3D | Cube | Tex2DArray | CubeArray

  datatype TextureShape = Texture2DShape | TextureCube | Texture2DArrayShape | Texture3DShape

  datatype GenerateCubemap = Spheremap | Cylindrical | SimpleSpheremap | NiceSpheremap | FullCubemap | AutoCubemap

  datatype FilterMode = Point | Bilinear | Trilinear

  /** NoConvolution stands for the engine's None convolution. */
  datatype CubemapConvolution = NoConvolution | Specular | Diffuse

  datatype WrapMode = Repeat | Clamp | Mirror | MirrorOnce

  /** The importer fields the bake touches, and two it leaves as they are. */
  datatype TextureImporterSettings = TextureImporterSettings(
    seamlessCubemap: bool,
    textureShape: TextureShape,
    generateCubemap: GenerateCubemap,
    filterMode: FilterMode,
    mipmapEnabled: bool,
    cubemapConvolution: CubemapConvolution,
    wrapMode: WrapMode,
    aniso: int)

  /**
   * The settings the importer is given, or None when the loaded strip is already
   * a cube and nothing is changed or reimported. `initial` is a freshly
   * constructed settings record, which the decision starts from.
   */
  function CubeImportSettings(loaded: TextureDimension, specularConvolution: bool, initial: TextureImporterSettings)
    : (r: Option<TextureImporterSettings>)
    ensures r.Some? <==> loaded != Cube
    ensures r.Some? ==>
      && r.value.textureShape == TextureCube
      && r.value.seamlessCubemap
      && r.value.generateCubemap == FullCubemap
      && r.value.filterMode == Trilinear
      && r.value.mipmapEnabled
    ensures r.Some? && specularConvolution ==> r.value.cubemapConvolution == Specular
    ensures r.Some? && !specularConvolution ==> r.value.cubemapConvolution == initial.cubemapConvolution
    ensures r.Some? ==> r.value.wrapMode == initial.wrapMode && r.value.aniso == initial.aniso
  {
    if loaded != Cube then
      var cube := initial.(
        seamlessCubemap := true,
        textureShape := TextureCube,
        generateCubemap := FullCubemap,
        filterMode := Trilinear,
        mipmapEnabled := true);
      Some(if specularConvolution then cube.(cubemapConvolution := Specular) else cube)
    else
      None
  }

  /**
   * Starting from a fresh settings record (whose convolution is None), the strip
   * is convolved specularly exactly when the bake asks for it.
   */
  lemma SpecularExactlyWhenRequested(loaded: TextureDimension, specularConvolution: bool, initial: TextureImporterSettings)
    requires loaded != Cube && initial.cubemapConvolution == NoConvolution
    ensures CubeImportSettings(loaded, specularConvolution, initial).Some?
    ensures CubeImportSettings(loaded, specularConvolution, initial).value.cubemapConvolution == Specular
            <==> specularConvolution
  {
  }

  /** The dimension the importer gives a texture imported under `settings`. */
  function ImportedDimension(settings: TextureImporterSettings): (d: TextureDimension)
    ensures d == Cube <==> settings.textureShape == TextureCube
  {
    match settings.textureShape
    case Texture2DShape => Tex2D
    case TextureCube => Cube
    case Texture2DArrayShape => Tex2DArray
    case Texture3DShape => Tex3D
  }

  /**
   * The decision is settled by one reimport: once the chosen settings are
   * applied, the strip loads as a cube and a second decision changes nothing.
   */
  lemma DecisionIsIdempotent(loaded: TextureDimension, specularConvolution: bool, initial: TextureImporterSettings)
    requires loaded != Cube
    ensures
      var chosen := CubeImportSettings(loaded, specularConvolution, initial);
      chosen.Some? && CubeImportSettings(ImportedDimension(chosen.value), specularConvolution, initial).None?
  {
  }
}
