/**
 * The capture sequence of ConverToUnityStaticSkybox: one camera, starting at
 * the identity orientation, is rotated relative to its current orientation
 * before each of six renders, and each render is saved under a face label.
 *
 * Orientation is kept as whole (yaw, pitch) degrees mod 360. This is exact for
 * this sequence: the four yaw turns come first and bring yaw back to 0, and
 * the two pitch turns are then about the same axis.
 */
module SkyCapture {
  import opened CubeFaces
  import opened Textures
  import opened AssetPaths

  datatype Orientation = Orientation(yaw: int, pitch: int)
  {
    predicate Normal() {
      0 <= yaw < 360 && 0 <= pitch < 360
    }
  }

  const Identity := Orientation(0, 0)

  /** A relative rotation Transform.Rotate(xAngle, yAngle, 0): pitch by x, yaw by y. */
  datatype Rotation = Rotation(xAngle: int, yAngle: int)

  /** The orientation after a relative rotation, both angles reduced mod 360. */
  function Rotated(o: Orientation, r: Rotation): (o': Orientation)
    ensures o'.Normal()
  {
    Orientation((o.yaw + r.yAngle) % 360, (o.pitch + r.xAngle) % 360)
  }

  /** The orientation each face is captured from, as (yaw, pitch). */
  function CaptureOrientation(f: Face): (o: Orientation)
    ensures o.Normal()
  {
    match f
    case XPos => Orientation(90, 0)
    case ZNeg => Orientation(180, 0)
    case XNeg => Orientation(270, 0)
    case ZPos => Orientation(0, 0)
    case YPos => Orientation(0, 90)
    case YNeg => Orientation(0, 270)
  }

  /** Four quarter turns bring any normalised angle back to itself. */
  lemma QuarterTurns(a: int)
    requires 0 <= a < 360
    ensures ((((a + 90) % 360 + 90) % 360 + 90) % 360 + 90) % 360 == a
  {
    if a < 90 {
      assert (a + 90) % 360 == a + 90 && (a + 180) % 360 == a + 180 && (a + 270) % 360 == a + 270;
    } else if a < 180 {
      assert (a + 90) % 360 == a + 90 && (a + 180) % 360 == a + 180 && (a - 90) % 360 == a - 90;
    } else if a < 270 {
      assert (a + 90) % 360 == a + 90 && (a - 180) % 360 == a - 180 && (a - 90) % 360 == a - 90;
    } else {
      assert (a - 270) % 360 == a - 270 && (a - 180) % 360 == a - 180 && (a - 90) % 360 == a - 90;
    }
  }

  /**
   * The four yaw turns bring ANY normalised orientation back to itself, so the
   * pitch turns start from the starting yaw.
   */
  lemma YawTurnsReturnToStart(start: Orientation)
    requires start.Normal()
    ensures
      var yaw := Rotation(0, 90);
      Rotated(Rotated(Rotated(Rotated(start, yaw), yaw), yaw), yaw) == start
  {
    QuarterTurns(start.yaw);
  }

  /** The six faces are captured from six different orientations. */
  lemma CaptureOrientationsDistinct(f: Face, g: Face)
    ensures CaptureOrientation(f) == CaptureOrientation(g) <==> f == g
  {
  }

  /** One render, taken for a face from an orientation. */
  datatype Capture = Capture(face: Face, orientation: Orientation, image: Texture)

  /** Render from orientation `o` and take the image as face `f`. */
  function Shot(f: Face, o: Orientation, render: Orientation -> Texture): Capture {
    Capture(f, o, render(o))
  }

  /**
   * The capture log of a bake: the i-th capture is face i of the capture order,
   * rendered from that face's listed orientation.
   */
  predicate IsCaptureLog(captures: seq<Capture>, render: Orientation -> Texture) {
    && |captures| == 6
    && forall i :: 0 <= i < 6 ==>
         captures[i] == Shot(CaptureOrder[i], CaptureOrientation(CaptureOrder[i]), render)
  }

  /** The six face asset paths of a bake. */
  function FaceAssetPaths(directory: string, name: string): (r: set<string>)
    ensures forall f: Face :: FaceAssetPath(directory, name, Label(f)) in r
    ensures forall p :: p in r ==> exists f: Face :: p == FaceAssetPath(directory, name, Label(f))
  {
    {FaceAssetPath(directory, name, Label(XPos)), FaceAssetPath(directory, name, Label(XNeg)),
     FaceAssetPath(directory, name, Label(YPos)), FaceAssetPath(directory, name, Label(YNeg)),
     FaceAssetPath(directory, name, Label(ZPos)), FaceAssetPath(directory, name, Label(ZNeg))}
  }

  /**
   * SaveCUBE_Face's effect on the asset store: any asset at the face's path is
   * replaced by the new image; every other asset is kept.
   */
  function SaveCubeFace(assets: map<string, Texture>, directory: string, name: string, faceLabel: string, image: Texture)
    : (r: map<string, Texture>)
    ensures FaceAssetPath(directory, name, faceLabel) in r && r[FaceAssetPath(directory, name, faceLabel)] == image
    ensures forall p :: p != FaceAssetPath(directory, name, faceLabel) ==>
      (p in r <==> p in assets) && (p in assets ==> r[p] == assets[p])
  {
    assets[FaceAssetPath(directory, name, faceLabel) := image]
  }

  /**
   * The asset store after saving each capture in turn under its face's label:
   * every capture's path is present, no earlier asset is removed, and the path
   * of the last capture holds its image.
   */
  function SaveAll(assets: map<string, Texture>, directory: string, name: string, captures: seq<Capture>)
    : (r: map<string, Texture>)
    ensures forall i :: 0 <= i < |captures| ==> FaceAssetPath(directory, name, Label(captures[i].face)) in r
    ensures forall p :: p in assets ==> p in r
    ensures |captures| > 0 ==>
      r[FaceAssetPath(directory, name, Label(captures[|captures| - 1].face))] == captures[|captures| - 1].image
    decreases |captures|
  {
    if captures == [] then assets
    else
      var last := captures[|captures| - 1];
      SaveCubeFace(SaveAll(assets, directory, name, captures[..|captures| - 1]), directory, name, Label(last.face), last.image)
  }

  /**
   * When no face is captured twice, each capture's image is found at its face's
   * path after all the saves: a later save never overwrites an earlier one.
   */
  lemma {:induction false} SaveAllKeepsEachCapture(
    assets: map<string, Texture>, directory: string, name: string, captures: seq<Capture>, i: nat)
    requires i < |captures|
    requires forall j, k :: 0 <= j < k < |captures| ==> captures[j].face != captures[k].face
    ensures FaceAssetPath(directory, name, Label(captures[i].face)) in SaveAll(assets, directory, name, captures)
    ensures SaveAll(assets, directory, name, captures)[FaceAssetPath(directory, name, Label(captures[i].face))]
            == captures[i].image
    decreases |captures|
  {
    var n := |captures| - 1;
    if i < n {
      SaveAllKeepsEachCapture(assets, directory, name, captures[..n], i);
      FaceAssetPathsDistinct(directory, name, captures[i].face, captures[n].face);
    }
  }

  /** Saving captures changes no asset outside the six face paths. */
  lemma {:induction false} SaveAllFrame(
    assets: map<string, Texture>, directory: string, name: string, captures: seq<Capture>, p: string)
    requires p !in FaceAssetPaths(directory, name)
    ensures p in SaveAll(assets, directory, name, captures) <==> p in assets
    ensures p in assets ==> SaveAll(assets, directory, name, captures)[p] == assets[p]
    decreases |captures|
  {
    if captures != [] {
      SaveAllFrame(assets, directory, name, captures[..|captures| - 1], p);
    }
  }

  /**
   * What a capture log promises: every face is captured exactly once, from its
   * listed orientation, and after the saves its image is found at its path.
   */
  lemma CaptureLogFaces(
    captures: seq<Capture>, directory: string, name: string, render: Orientation -> Texture,
    assets: map<string, Texture>, f: Face)
    requires IsCaptureLog(captures, render)
    ensures exists i :: 0 <= i < 6 && captures[i].face == f
    ensures forall j, k :: 0 <= j < k < |captures| ==> captures[j].face != captures[k].face
    ensures FaceAssetPath(directory, name, Label(f)) in SaveAll(assets, directory, name, captures)
    ensures SaveAll(assets, directory, name, captures)[FaceAssetPath(directory, name, Label(f))]
            == render(CaptureOrientation(f))
  {
    CaptureOrderDistinct();
    var i := CaptureIndex(f);
    assert captures[i].face == f;
    SaveAllKeepsEachCapture(assets, directory, name, captures, i);
  }

  /** The six shots of the bake, written out, form its capture log. */
  lemma ShotsAreCaptureLog(render: Orientation -> Texture)
    ensures IsCaptureLog(
      [Shot(XPos, Orientation(90, 0), render), Shot(ZNeg, Orientation(180, 0), render),
        Shot(XNeg, Orientation(270, 0), render), Shot(ZPos, Orientation(0, 0), render),
        Shot(YPos, Orientation(0, 90), render), Shot(YNeg, Orientation(0, 270), render)],
      render)
  {
  }

  /** Saving one more capture is one more SaveCubeFace on top of the earlier saves. */
  lemma SaveAllAppend(assets: map<string, Texture>, directory: string, name: string, captures: seq<Capture>, c: Capture)
    ensures SaveAll(assets, directory, name, captures + [c])
         == SaveCubeFace(SaveAll(assets, directory, name, captures), directory, name, Label(c.face), c.image)
  {
    assert (captures + [c])[..|captures|] == captures;
  }

  /**
   * One rotate, render, save block: turn the camera by `turn` relative to its
   * current orientation, render, and save the image under the face's label.
   * The asset store stays the result of saving the capture log over `assets`.
   */
  method CaptureFace(
    f: Face, turn: Rotation, orientation: Orientation, directory: string, name: string,
    render: Orientation -> Texture, ghost assets: map<string, Texture>,
    captures: seq<Capture>, saved: map<string, Texture>)
    returns (orientation': Orientation, captures': seq<Capture>, saved': map<string, Texture>)
    requires saved == SaveAll(assets, directory, name, captures)
    ensures orientation' == Rotated(orientation, turn)
    ensures captures' == captures + [Shot(f, orientation', render)]
    ensures saved' == SaveAll(assets, directory, name, captures')
    ensures saved'[FaceAssetPath(directory, name, Label(f))] == render(orientation')
  {
    orientation' := Rotated(orientation, turn);
    var image := render(orientation');
    captures' := captures + [Capture(f, orientation', image)];
    saved' := SaveCubeFace(saved, directory, name, Label(f), image);
    SaveAllAppend(assets, directory, name, captures, captures'[|captures|]);
  }

  /**
   * The four yaw turns of the bake, from the identity orientation: the views
   * labelled X_POS, Z_NEG, X_NEG and Z_POS, each rendered and saved in turn.
   * The camera ends where it started.
   */
  method CaptureHorizon(
    directory: string, name: string, render: Orientation -> Texture, ghost assets: map<string, Texture>,
    captures: seq<Capture>, saved: map<string, Texture>)
    returns (orientation': Orientation, captures': seq<Capture>, saved': map<string, Texture>)
    requires saved == SaveAll(assets, directory, name, captures)
    ensures orientation' == Identity
    ensures captures' == captures + [Shot(XPos, Orientation(90, 0), render), Shot(ZNeg, Orientation(180, 0), render),
      Shot(XNeg, Orientation(270, 0), render), Shot(ZPos, Orientation(0, 0), render)]
    ensures saved' == SaveAll(assets, directory, name, captures')
  {
    orientation', captures', saved' := Identity, captures, saved;
    // the view labelled X_POS
    orientation', captures', saved' := CaptureFace(XPos, Rotation(0, 90), orientation', directory, name, render, assets, captures', saved');
    assert orientation' == Orientation(90, 0);
    // the view labelled Z_NEG
    orientation', captures', saved' := CaptureFace(ZNeg, Rotation(0, 90), orientation', directory, name, render, assets, captures', saved');
    assert orientation' == Orientation(180, 0);
    // the view labelled X_NEG
    orientation', captures', saved' := CaptureFace(XNeg, Rotation(0, 90), orientation', directory, name, render, assets, captures', saved');
    assert orientation' == Orientation(270, 0);
    // the view labelled Z_POS
    orientation', captures', saved' := CaptureFace(ZPos, Rotation(0, 90), orientation', directory, name, render, assets, captures', saved');
    assert orientation' == Orientation(0, 0);
  }

  /**
   * The two pitch turns of the bake, from the identity orientation: 90° to
   * the view labelled Y_POS, then a further 180° to the view labelled Y_NEG.
   */
  method CapturePoles(
    directory: string, name: string, render: Orientation -> Texture, ghost assets: map<string, Texture>,
    orientation: Orientation, captures: seq<Capture>, saved: map<string, Texture>)
    returns (orientation': Orientation, captures': seq<Capture>, saved': map<string, Texture>)
    requires orientation == Identity
    requires saved == SaveAll(assets, directory, name, captures)
    ensures orientation' == Orientation(0, 270)
    ensures captures' == captures + [Shot(YPos, Orientation(0, 90), render), Shot(YNeg, Orientation(0, 270), render)]
    ensures saved' == SaveAll(assets, directory, name, captures')
  {
    // the view labelled Y_POS
    orientation', captures', saved' := CaptureFace(YPos, Rotation(90, 0), orientation, directory, name, render, assets, captures, saved);
    assert orientation' == Orientation(0, 90);
    // the view labelled Y_NEG
    orientation', captures', saved' := CaptureFace(YNeg, Rotation(180, 0), orientation', directory, name, render, assets, captures', saved');
    assert orientation' == Orientation(0, 270);
  }

  /**
   * The six rotate, render, save steps of the bake, from the identity
   * orientation. Returns the capture log and the asset store after the saves.
   */
  method CaptureSkyFaces(directory: string, name: string, render: Orientation -> Texture, assets: map<string, Texture>)
    returns (captures: seq<Capture>, saved: map<string, Texture>)
    ensures IsCaptureLog(captures, render)
    ensures saved == SaveAll(assets, directory, name, captures)
  {
    // the camera's orientation, turned relative to itself before each render
    var orientation;
    orientation, captures, saved := CaptureHorizon(directory, name, render, assets, [], assets);
    orientation, captures, saved := CapturePoles(directory, name, render, assets, orientation, captures, saved);
    assert captures == [Shot(XPos, Orientation(90, 0), render), Shot(ZNeg, Orientation(180, 0), render),
      Shot(XNeg, Orientation(270, 0), render), Shot(ZPos, Orientation(0, 0), render),
      Shot(YPos, Orientation(0, 90), render), Shot(YNeg, Orientation(0, 270), render)];
    ShotsAreCaptureLog(render);
  }
}
