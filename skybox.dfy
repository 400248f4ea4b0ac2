/**
 * ConverToUnityStaticSkybox end to end: capture and save the six faces, load
 * them back by their format-string paths, stitch them into a strip, save the
 * strip, decide the importer settings and delete the face assets.
 *
 * The asset store is a map from asset path to texture. The renderer is the
 * parameter `render`, which gives the image a camera at an orientation sees.
 */
module SkyboxBake {
  import opened CubeFaces
  import opened Wrappers
  import opened Textures
  import opened AssetPaths
  import opened Stitching
  import opened CubemapImport
  import opened SkyCapture

  /**
   * The TextureObjectCUBE record filled from the asset store; None when some
   * face is missing (the engine's loader returns null there).
   */
  function LoadCube(sceneFolder: string, name: string, assets: map<string, Texture>): (r: Option<CubeTextures>)
    ensures r.Some? <==> forall f: Face :: FaceLoadPath(sceneFolder, name, f) in assets
    ensures r.Some? ==> forall f: Face :: r.value.Of(f) == assets[FaceLoadPath(sceneFolder, name, f)]
  {
    if forall f: Face :: FaceLoadPath(sceneFolder, name, f) in assets then
      Some(CubeTextures(
        assets[FaceLoadPath(sceneFolder, name, XPos)], assets[FaceLoadPath(sceneFolder, name, YPos)],
        assets[FaceLoadPath(sceneFolder, name, ZPos)], assets[FaceLoadPath(sceneFolder, name, XNeg)],
        assets[FaceLoadPath(sceneFolder, name, YNeg)], assets[FaceLoadPath(sceneFolder, name, ZNeg)]))
    else
      None
  }

  /** The six faces as the camera sees them: each rendered from its capture orientation. */
  function BakedFaces(render: Orientation -> Texture): (faces: CubeTextures)
    ensures forall f: Face :: faces.Of(f) == render(CaptureOrientation(f))
  {
    CubeTextures(
      render(CaptureOrientation(XPos)), render(CaptureOrientation(YPos)), render(CaptureOrientation(ZPos)),
      render(CaptureOrientation(XNeg)), render(CaptureOrientation(YNeg)), render(CaptureOrientation(ZNeg)))
  }

  /**
   * Capture and load agree: after the saves of a capture with directory
   * sceneFolder + "/", loading from sceneFolder finds all six faces, and each is
   * the render from that face's orientation, whatever the store held before.
   */
  lemma LoadAfterCapture(
    sceneFolder: string, name: string, render: Orientation -> Texture,
    assets: map<string, Texture>, captures: seq<Capture>)
    requires IsCaptureLog(captures, render)
    ensures LoadCube(sceneFolder, name, SaveAll(assets, sceneFolder + "/", name, captures)) == Some(BakedFaces(render))
  {
    var saved := SaveAll(assets, sceneFolder + "/", name, captures);
    forall f: Face
      ensures FaceLoadPath(sceneFolder, name, f) in saved
      ensures saved[FaceLoadPath(sceneFolder, name, f)] == render(CaptureOrientation(f))
    {
      SaveLoadRoundTrip(sceneFolder, name, f);
      CaptureLogFaces(captures, sceneFolder + "/", name, render, assets, f);
    }
    var loaded := LoadCube(sceneFolder, name, saved);
    assert loaded.value.Of(XPos) == BakedFaces(render).Of(XPos);
    assert loaded.value.Of(YPos) == BakedFaces(render).Of(YPos);
  }

  /** The renders all have the size of the render target: resolution x resolution. */
  ghost predicate RendersSquare(render: Orientation -> Texture, resolution: nat) {
    forall o :: render(o).Valid() && render(o).width == resolution && render(o).height == resolution
  }

  /** Square renders of one size make a well-formed set of cube faces. */
  lemma BakedFacesValid(render: Orientation -> Texture, resolution: nat)
    requires RendersSquare(render, resolution)
    ensures BakedFaces(render).Valid()
    ensures BakedFaces(render).Width() == resolution && BakedFaces(render).Height() == resolution
  {
    var faces := BakedFaces(render);
    assert faces.Of(XPos) == render(CaptureOrientation(XPos));
  }

  /** The paths the face assets are deleted at: the ones they were loaded from. */
  function FaceLoadPaths(sceneFolder: string, name: string): (r: set<string>)
    ensures forall f: Face :: FaceLoadPath(sceneFolder, name, f) in r
  {
    {FaceLoadPath(sceneFolder, name, XPos), FaceLoadPath(sceneFolder, name, XNeg),
     FaceLoadPath(sceneFolder, name, YPos), FaceLoadPath(sceneFolder, name, YNeg),
     FaceLoadPath(sceneFolder, name, ZPos), FaceLoadPath(sceneFolder, name, ZNeg)}
  }

  /** The faces are deleted at exactly the paths they were saved at. */
  lemma LoadPathsAreSavePaths(sceneFolder: string, name: string)
    ensures FaceLoadPaths(sceneFolder, name) == FaceAssetPaths(sceneFolder + "/", name)
  {
    forall f: Face
      ensures FaceLoadPath(sceneFolder, name, f) == FaceAssetPath(sceneFolder + "/", name, Label(f))
    {
      SaveLoadRoundTrip(sceneFolder, name, f);
    }
  }

  /**
   * The store at the end of the bake: the strip is saved after the faces and
   * survives their deletion, no face asset is left, and every asset outside the
   * strip's and the faces' paths is as it was before the bake.
   */
  lemma StoreAfterBake(
    sceneFolder: string, name: string, assets: map<string, Texture>, captures: seq<Capture>, strip: Texture)
    ensures
      var remaining := SaveAll(assets, sceneFolder + "/", name, captures)[StripAssetPath(sceneFolder + "/", name) := strip]
                       - FaceLoadPaths(sceneFolder, name);
      && StripAssetPath(sceneFolder + "/", name) in remaining
      && remaining[StripAssetPath(sceneFolder + "/", name)] == strip
      && (forall f: Face :: FaceLoadPath(sceneFolder, name, f) !in remaining)
      && (forall p :: p != StripAssetPath(sceneFolder + "/", name) && p !in FaceAssetPaths(sceneFolder + "/", name) ==>
            (p in remaining <==> p in assets) && (p in assets ==> remaining[p] == assets[p]))
  {
    var directory := sceneFolder + "/";
    var stripPath := StripAssetPath(directory, name);
    var saved := SaveAll(assets, directory, name, captures);
    LoadPathsAreSavePaths(sceneFolder, name);
    forall f: Face
      ensures stripPath != FaceLoadPath(sceneFolder, name, f)
    {
      SaveLoadRoundTrip(sceneFolder, name, f);
      StripPathIsNoFacePath(directory, name, f);
    }
    forall p | p != stripPath && p !in FaceAssetPaths(directory, name)
      ensures p in saved <==> p in assets
      ensures p in assets ==> saved[p] == assets[p]
    {
      SaveAllFrame(assets, directory, name, captures, p);
    }
  }

  /** A buffer holding the strip of the baked faces holds each render in its face's slot. */
  lemma BakedStripFidelity(strip: array2<Pixel>, render: Orientation -> Texture, resolution: nat)
    requires RendersSquare(render, resolution)
    requires Snapshot(strip) == Stitch(BakedFaces(render))
    ensures forall f: Face, x, y :: 0 <= x < resolution && 0 <= y < resolution ==>
      strip[Slot(f) * resolution + x, y] == render(CaptureOrientation(f)).GetPixel(x, y)
  {
    BakedFacesValid(render, resolution);
    BufferFidelity(strip, BakedFaces(render));
  }

  /**
   * The whole bake. Captures and saves the faces, loads them back, stitches the
   * strip and saves it at <sceneFolder>/<name>_CUBE.exr, computes the importer
   * settings for the strip (given the dimension it first loads with), and
   * deletes the face assets.
   */
  method ConvertToStaticSkybox(
    sceneFolder: string, name: string, resolution: nat, render: Orientation -> Texture,
    assets: map<string, Texture>, loadedDimension: TextureDimension, specularConvolution: bool,
    initial: TextureImporterSettings)
    returns (strip: array2<Pixel>, importSettings: Option<TextureImporterSettings>, remaining: map<string, Texture>)
    requires RendersSquare(render, resolution)
    ensures fresh(strip)
    ensures strip.Length0 == 6 * resolution && strip.Length1 == resolution
    ensures Snapshot(strip) == Stitch(BakedFaces(render))
    ensures forall f: Face, x, y :: 0 <= x < resolution && 0 <= y < resolution ==>
      strip[Slot(f) * resolution + x, y] == render(CaptureOrientation(f)).GetPixel(x, y)
    ensures importSettings == CubeImportSettings(loadedDimension, specularConvolution, initial)
    ensures StripAssetPath(sceneFolder + "/", name) in remaining
    ensures remaining[StripAssetPath(sceneFolder + "/", name)] == Snapshot(strip)
    ensures forall f: Face :: FaceLoadPath(sceneFolder, name, f) !in remaining
    ensures forall p :: p != StripAssetPath(sceneFolder + "/", name) && p !in FaceAssetPaths(sceneFolder + "/", name) ==>
      (p in remaining <==> p in assets) && (p in assets ==> remaining[p] == assets[p])
  {
    var directory := sceneFolder + "/";
    var captures, saved := CaptureSkyFaces(directory, name, render, assets);

    LoadAfterCapture(sceneFolder, name, render, assets, captures);
    var faces := LoadCube(sceneFolder, name, saved).value;
    assert faces == BakedFaces(render);
    BakedFacesValid(render, resolution);
    strip := CombineCube(faces);
    BakedStripFidelity(strip, render, resolution);

    var stripPath := StripAssetPath(directory, name);
    saved := saved[stripPath := Snapshot(strip)];
    importSettings := CubeImportSettings(loadedDimension, specularConvolution, initial);

    // each face is deleted at the path it was loaded from
    remaining := saved - FaceLoadPaths(sceneFolder, name);
    StoreAfterBake(sceneFolder, name, assets, captures, Snapshot(strip));
  }
}
