/**
 * Asset path naming. Each face is written to
 * <directory><name>_CUBE_<LABEL>.exr with directory = sceneFolder + "/", read
 * back through a per-face format string "{0}/{1}_CUBE_<LABEL>.exr", and the
 * stitched strip is written to <directory><name>_CUBE.exr.
 */
module AssetPaths {
  import opened CubeFaces

  /** Where SaveCUBE_Face writes a face captured under `faceLabel`. */
  function FaceAssetPath(directory: string, name: string, faceLabel: string): (r: string)
    ensures |r| == |directory| + |name| + |faceLabel| + 10
    ensures r[..|directory|] == directory && r[|r| - 4..] == ".exr"
  {
    directory + name + "_CUBE_" + faceLabel + ".exr"
  }

  /** The tail of the format string each face is loaded with. */
  function LoadFormatTail(f: Face): string {
    match f
    case XPos => "_CUBE_X_POS.exr"
    case YPos => "_CUBE_Y_POS.exr"
    case ZPos => "_CUBE_Z_POS.exr"
    case XNeg => "_CUBE_X_NEG.exr"
    case YNeg => "_CUBE_Y_NEG.exr"
    case ZNeg => "_CUBE_Z_NEG.exr"
  }

  /** Where the combine step loads a face from: "{0}/{1}<tail>" with sceneFolder, name. */
  function FaceLoadPath(sceneFolder: string, name: string, f: Face): (r: string)
    ensures |r| == |sceneFolder| + |name| + 16
    ensures r[..|sceneFolder|] == sceneFolder && r[|sceneFolder|] == '/'
  {
    sceneFolder + "/" + name + LoadFormatTail(f)
  }

  /** Where CombineCUBE writes the stitched strip. */
  function StripAssetPath(directory: string, name: string): (r: string)
    ensures |r| == |directory| + |name| + 9
    ensures r[..|directory|] == directory && r[|r| - 4..] == ".exr"
  {
    directory + name + "_CUBE.exr"
  }

  /**
   * Round trip: the path a face is saved under, with directory = sceneFolder + "/"
   * and its capture label, is the path it is loaded from.
   */
  lemma SaveLoadRoundTrip(sceneFolder: string, name: string, f: Face)
    ensures FaceAssetPath(sceneFolder + "/", name, Label(f)) == FaceLoadPath(sceneFolder, name, f)
  {
    assert "_CUBE_" + Label(f) + ".exr" == LoadFormatTail(f);
    assert sceneFolder + "/" + name + "_CUBE_" + Label(f) + ".exr"
        == sceneFolder + "/" + name + ("_CUBE_" + Label(f) + ".exr");
  }

  /** Distinct faces are saved to distinct paths, so no face overwrites another. */
  lemma FaceAssetPathsDistinct(directory: string, name: string, f: Face, g: Face)
    requires f != g
    ensures FaceAssetPath(directory, name, Label(f)) != FaceAssetPath(directory, name, Label(g))
  {
    var k := |directory| + |name| + 6;
    var p, q := FaceAssetPath(directory, name, Label(f)), FaceAssetPath(directory, name, Label(g));
    assert p[k..k + 5] == Label(f);
    assert q[k..k + 5] == Label(g);
    LabelInjective(f, g);
  }

  /**
   * The strip's path is not the path of any face, so deleting the face assets
   * after stitching leaves the strip in place.
   */
  lemma StripPathIsNoFacePath(directory: string, name: string, f: Face)
    ensures StripAssetPath(directory, name) != FaceAssetPath(directory, name, Label(f))
  {
    var k := |directory| + |name| + 5;
    assert StripAssetPath(directory, name)[k] == '.';
    assert FaceAssetPath(directory, name, Label(f))[k] == '_';
  }
}
