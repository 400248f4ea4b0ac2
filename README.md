# Static sky cubemap bake of CubemapFog, in Dafny

This project models the editor tool that bakes the scene's sky into a static
cubemap for CubemapFog (`GenerateSkyCubemap.cs`). The bake works in four steps:

- **Capture.** One camera starts at the identity orientation. Before each of
  six renders it is turned relative to its current orientation: four 90° yaw
  turns (the views labelled X_POS, Z_NEG, X_NEG, Z_POS), then a 90° pitch (the
  view labelled Y_POS) and a further 180° pitch (the view labelled Y_NEG).
  Each render is saved as `<sceneFolder>/<name>_CUBE_<LABEL>.exr`.
- **Load.** The six faces are loaded back through per-face format strings
  `"{0}/{1}_CUBE_<LABEL>.exr"`.
- **Stitch (CombineCUBE).** The faces are copied column by column into one
  6W × H strip, in slot order X_POS, X_NEG, Y_NEG, Y_POS, Z_POS, Z_NEG. That is
  not the capture order: Y_NEG comes before Y_POS.
- **Save and import.** The strip is saved as `<sceneFolder>/<name>_CUBE.exr`.
  If it does not already load as a cube, the importer is told to read it as a
  seamless, trilinear, mip-mapped full cubemap, convolved specularly when the
  bake asks for it. The face assets are then deleted.

The modules:

- `Wrappers` (wrappers.dfy): the `Option` type, for a load that finds
  nothing and a decision that changes nothing.
- `CubeFaces` (faces.dfy): the six faces, their labels, their strip slots, and
  the slot and capture orders.
- `Textures` (textures.dfy): textures as values, with `GetPixel(x, y)`
  column-major; `Snapshot` reads a pixel buffer as a texture.
- `AssetPaths` (asset_paths.dfy): the save path of each face, the load path of
  each face, and the path of the strip.
- `Stitching` (stitch.dfy): the copy loops of CombineCUBE, run in place on an
  `array2` buffer by `CopyFace` and `CombineCube`. They are proved against the
  reference strip `Stitch`, in which column X holds column X % W of the face in
  slot X / W. `PasteSlot` and `PasteAll` give the value-level meaning of one
  copy loop and of a run of them, and the stitch is proved independent of the
  loop order and of the buffer's initial contents.
- `SkyCapture` (capture.dfy): the orientation variable, the six
  rotate/render/save blocks (the four yaw turns, then the two pitch turns), and the asset store as a map from path to texture.
- `CubemapImport` (importer.dfy): the importer-settings decision.
- `SkyboxBake` (skybox.dfy): the whole bake, from capture to face deletion. Its
  end-to-end contract: column `Slot(f) * R + x`, row `y` of the strip is pixel
  `(x, y)` of the render from face `f`'s capture orientation. The strip is the
  only new asset, and the face assets are gone.

The renderer is a parameter `render: Orientation -> Texture`. Two things
about the program shape the contracts:

- Neither the capture nor CombineCUBE checks any size, and neither has an
  error path. The model therefore has no error results. Equal face sizes are
  a precondition (see "## Left out").
- CombineCUBE sets Specular only when `specularConvolution` is set. Otherwise
  it keeps the fresh settings' convolution, which is None.
  `SpecularExactlyWhenRequested` states the if-and-only-if for such settings.

## Model

| member | source | states |
|---|---|---|
| CubeFaces.Label | CubemapFog/Assets/CubemapFog/Editor/GenerateSkyCubemap.cs:114-141 | each face's label has the form `<axis>_<sign>`: five characters, an axis letter X/Y/Z, then `_` |
| CubeFaces.LabelInjective | CubemapFog/Assets/CubemapFog/Editor/GenerateSkyCubemap.cs:181 | two faces have the same label if and only if they are the same face |
| CubeFaces.Slot | CubemapFog/Assets/CubemapFog/Editor/GenerateSkyCubemap.cs:211-293 | every face gets a strip slot below 6 (multiplier 0..5 of the face width) |
| CubeFaces.SlotFace | CubemapFog/Assets/CubemapFog/Editor/GenerateSkyCubemap.cs:211-293 | the face in slot s is the face whose slot is s |
| CubeFaces.SlotBijection | CubemapFog/Assets/CubemapFog/Editor/GenerateSkyCubemap.cs:211-293 | Slot and SlotFace are inverse bijections between the six faces and 0..5, so no two copy loops share a slot |
| CubeFaces.OrdersArePermutations | CubemapFog/Assets/CubemapFog/Editor/GenerateSkyCubemap.cs:112-141 | the capture order and the copy-loop order each list every face exactly once; the i-th copy loop writes slot i |
| CubeFaces.CaptureOrderDistinct | CubemapFog/Assets/CubemapFog/Editor/GenerateSkyCubemap.cs:112-141 | no face is captured twice |
| CubeFaces.CaptureIndex | CubemapFog/Assets/CubemapFog/Editor/GenerateSkyCubemap.cs:112-141 | every face is captured, at a position below 6 in the capture order |
| Textures.Snapshot | CubemapFog/Assets/CubemapFog/Editor/GenerateSkyCubemap.cs:206 | the buffer read as a texture has the buffer's dimensions and pixel (x, y) equal to the buffer's [x, y] |
| AssetPaths.FaceAssetPath | CubemapFog/Assets/CubemapFog/Editor/GenerateSkyCubemap.cs:181 | a face's save path starts with the directory, ends in `.exr`, and is 10 characters longer than directory, name and label together |
| AssetPaths.FaceLoadPath | CubemapFog/Assets/CubemapFog/Editor/GenerateSkyCubemap.cs:146-151 | a face's load path starts with the scene folder followed by `/`, and is 16 characters longer than folder and name together |
| AssetPaths.StripAssetPath | CubemapFog/Assets/CubemapFog/Editor/GenerateSkyCubemap.cs:301 | the strip path starts with the directory, ends in `.exr`, and is 9 characters longer than directory and name together |
| AssetPaths.SaveLoadRoundTrip | CubemapFog/Assets/CubemapFog/Editor/GenerateSkyCubemap.cs:146-151 | a face saved with directory `sceneFolder + "/"` under its label is loaded from exactly that path |
| AssetPaths.FaceAssetPathsDistinct | CubemapFog/Assets/CubemapFog/Editor/GenerateSkyCubemap.cs:181 | distinct faces are saved to distinct paths |
| AssetPaths.StripPathIsNoFacePath | CubemapFog/Assets/CubemapFog/Editor/GenerateSkyCubemap.cs:301 | the strip's path differs from every face's path |
| Stitching.SlotPartition | CubemapFog/Assets/CubemapFog/Editor/GenerateSkyCubemap.cs:216 | strip column X lies in slot s's range [s·W, s·W + W) if and only if s = X / W, and X / W is below 6 |
| Stitching.CubeTextures.Of | CubemapFog/Assets/CubemapFog/Editor/GenerateSkyCubemap.cs:144-152 | in a valid face record, every face is well formed and has X_POS's size |
| Stitching.Stitch | CubemapFog/Assets/CubemapFog/Editor/GenerateSkyCubemap.cs:200-206 | the strip is well formed, 6W wide and H high, with W and H read off X_POS |
| Stitching.StitchFidelity | CubemapFog/Assets/CubemapFog/Editor/GenerateSkyCubemap.cs:211-293 | pixel (Slot(f)·W + x, y) of the strip is pixel (x, y) of face f, for every face and in-range x, y |
| Stitching.StitchSource | CubemapFog/Assets/CubemapFog/Editor/GenerateSkyCubemap.cs:211-293 | every strip pixel (X, y) comes from pixel (X % W, y) of the face in slot X / W |
| Stitching.PasteSlot | CubemapFog/Assets/CubemapFog/Editor/GenerateSkyCubemap.cs:211-222 | one copy loop writes face pixel (X - s·W, y) to every column X of slot s and keeps every other column |
| Stitching.PasteAll | CubemapFog/Assets/CubemapFog/Editor/GenerateSkyCubemap.cs:211-293 | a run of copy loops keeps the strip well formed and of the same size |
| Stitching.PasteAllPixel | CubemapFog/Assets/CubemapFog/Editor/GenerateSkyCubemap.cs:211-293 | after copy loops for the faces of any order, a column holds its slot face's column if that face occurs in the order, and otherwise keeps its initial content |
| Stitching.PasteAllIsStitch | CubemapFog/Assets/CubemapFog/Editor/GenerateSkyCubemap.cs:211-293 | copy loops in any order that covers all six faces, over any initial buffer, yield exactly the strip |
| Stitching.PasteAllStep | CubemapFog/Assets/CubemapFog/Editor/GenerateSkyCubemap.cs:211-293 | each further copy loop extends the run of the earlier ones by one paste |
| Stitching.SixCopiesAreStitch | CubemapFog/Assets/CubemapFog/Editor/GenerateSkyCubemap.cs:211-293 | six copy loops, one per face in any order, turn any buffer into the strip |
| Stitching.CopyFace | CubemapFog/Assets/CubemapFog/Editor/GenerateSkyCubemap.cs:211-222 | the nested x/y loop sets output[slot·W + x, y] to face pixel (x, y), leaves other columns unchanged, and leaves the buffer equal to PasteSlot of its old contents |
| Stitching.BufferFidelity | CubemapFog/Assets/CubemapFog/Editor/GenerateSkyCubemap.cs:211-293 | a buffer that holds the strip holds each face's pixel (x, y) at [Slot(f)·W + x, y] |
| Stitching.CombineCube | CubemapFog/Assets/CubemapFog/Editor/GenerateSkyCubemap.cs:198-295 | a fresh 6W × H buffer, filled by the six copy loops in the source order, equals the strip and holds face f's pixel (x, y) at [Slot(f)·W + x, y] |
| CubemapImport.CubeImportSettings | CubemapFog/Assets/CubemapFog/Editor/GenerateSkyCubemap.cs:313-326 | settings are produced if and only if the strip does not load as a cube; they ask for a seamless full cubemap, trilinear and mip-mapped, are Specular when the flag is set, and otherwise keep the fresh settings' convolution, wrap mode and aniso |
| CubemapImport.SpecularExactlyWhenRequested | CubemapFog/Assets/CubemapFog/Editor/GenerateSkyCubemap.cs:321-322 | from fresh settings without convolution, the strip is convolved specularly if and only if the flag is set |
| CubemapImport.ImportedDimension | CubemapFog/Assets/CubemapFog/Editor/GenerateSkyCubemap.cs:313 | a model of the engine, not of this program: a texture imported under settings loads as a cube if and only if the settings' shape is TextureCube |
| CubemapImport.DecisionIsIdempotent | CubemapFog/Assets/CubemapFog/Editor/GenerateSkyCubemap.cs:313-326 | under that engine model, the chosen settings make the strip load as a cube, which is what the decision is for; a second decision would change nothing (the program never makes one, since each bake deletes the strip asset before importing it) |
| SkyCapture.Rotated | CubemapFog/Assets/CubemapFog/Editor/GenerateSkyCubemap.cs:114 | a relative rotation leaves the orientation normalised to [0, 360) in yaw and pitch |
| SkyCapture.CaptureOrientation | CubemapFog/Assets/CubemapFog/Editor/GenerateSkyCubemap.cs:112-141 | each face's capture orientation is normalised |
| SkyCapture.YawTurnsReturnToStart | CubemapFog/Assets/CubemapFog/Editor/GenerateSkyCubemap.cs:114-131 | the four 90° yaw turns bring any normalised orientation back to itself |
| SkyCapture.CaptureOrientationsDistinct | CubemapFog/Assets/CubemapFog/Editor/GenerateSkyCubemap.cs:112-141 | two faces share a capture orientation if and only if they are the same face |
| SkyCapture.FaceAssetPaths | CubemapFog/Assets/CubemapFog/Editor/GenerateSkyCubemap.cs:181 | the set of face paths contains every face's path and nothing else |
| SkyCapture.SaveCubeFace | CubemapFog/Assets/CubemapFog/Editor/GenerateSkyCubemap.cs:181-186 | after a save, the face's path holds the new image and every other asset is unchanged |
| SkyCapture.SaveAll | CubemapFog/Assets/CubemapFog/Editor/GenerateSkyCubemap.cs:116-141 | after saving the captures in turn, every capture's face path is present, no earlier asset is removed, and the last capture's path holds its image |
| SkyCapture.SaveAllKeepsEachCapture | CubemapFog/Assets/CubemapFog/Editor/GenerateSkyCubemap.cs:112-141 | when no face is captured twice, every capture's image is found at its face's path after all the saves |
| SkyCapture.SaveAllFrame | CubemapFog/Assets/CubemapFog/Editor/GenerateSkyCubemap.cs:181-186 | the saves change no asset outside the six face paths |
| SkyCapture.CaptureLogFaces | CubemapFog/Assets/CubemapFog/Editor/GenerateSkyCubemap.cs:112-141 | in a capture log every face is captured exactly once, and after the saves its path holds the render from its capture orientation |
| SkyCapture.CaptureFace | CubemapFog/Assets/CubemapFog/Editor/GenerateSkyCubemap.cs:114-116 | one block turns the orientation relative to itself, appends the render under the face's label, and keeps the store equal to the saves of the log |
| SkyCapture.CaptureHorizon | CubemapFog/Assets/CubemapFog/Editor/GenerateSkyCubemap.cs:113-131 | the four 90° yaw turns from the identity render X_POS, Z_NEG, X_NEG, Z_POS at yaw 90, 180, 270 and 0, save each in turn, and leave the camera back at the identity |
| SkyCapture.CapturePoles | CubemapFog/Assets/CubemapFog/Editor/GenerateSkyCubemap.cs:133-141 | from the identity, a 90° pitch renders Y_POS at pitch 90 and a further 180° pitch renders Y_NEG at pitch 270, each saved in turn |
| SkyCapture.CaptureSkyFaces | CubemapFog/Assets/CubemapFog/Editor/GenerateSkyCubemap.cs:112-141 | the six relative turns from the identity reach the listed orientation of each face in capture order; the store is the result of the six saves |
| SkyboxBake.LoadCube | CubemapFog/Assets/CubemapFog/Editor/GenerateSkyCubemap.cs:144-152 | the face record is loaded if and only if all six load paths exist, and each face is the asset at its load path |
| SkyboxBake.BakedFaces | CubemapFog/Assets/CubemapFog/Editor/GenerateSkyCubemap.cs:112-152 | each baked face is the render from that face's capture orientation |
| SkyboxBake.LoadAfterCapture | CubemapFog/Assets/CubemapFog/Editor/GenerateSkyCubemap.cs:116-151 | after the capture's saves, loading finds all six faces, each the render from its orientation, whatever the store held before |
| SkyboxBake.FaceLoadPaths | CubemapFog/Assets/CubemapFog/Editor/GenerateSkyCubemap.cs:329-334 | the deleted paths include every face's load path |
| SkyboxBake.LoadPathsAreSavePaths | CubemapFog/Assets/CubemapFog/Editor/GenerateSkyCubemap.cs:329-334 | the faces are deleted at exactly the paths they were saved at |
| SkyboxBake.StoreAfterBake | CubemapFog/Assets/CubemapFog/Editor/GenerateSkyCubemap.cs:301-334 | after the strip save and the face deletions, the strip survives, no face asset is left, and every other asset is as it was before the bake |
| SkyboxBake.BakedStripFidelity | CubemapFog/Assets/CubemapFog/Editor/GenerateSkyCubemap.cs:112-293 | a buffer that holds the strip of the baked faces holds render(face orientation) pixel (x, y) at [Slot(f)·R + x, y] |
| SkyboxBake.ConvertToStaticSkybox | CubemapFog/Assets/CubemapFog/Editor/GenerateSkyCubemap.cs:84-157 | the bake yields a 6R × R strip holding each face's render in its slot, the importer settings of the decision, a store holding the strip, no face assets, and every other asset unchanged |

## Left out

- The editor window (`ShowWindow`, `OnGUI`), the temporary camera object and its lens settings, and `PostProcess/CubemapFog.cs` (the runtime fog effect): none of them belongs to the bake's logic.
- Rendering and pixel readback: `render` is a parameter giving the image seen from an orientation. Floating-point HDR colours are an opaque `Pixel` type.
- File I/O, EXR encoding, `Directory.Exists`/`CreateDirectory`, and `AssetDatabase` import/reimport: the asset store is a map from path to texture. The store is assumed to be pixel-exact: saving, importing and reloading return exactly the saved pixels. Format conversion or compression at import time would break the end-to-end pixel equality of `ConvertToStaticSkybox`, and the model does not capture it.
- The readable-flag reimport in `SaveCUBE_Face`: it only changes an import flag, not the stored pixels.
- The sampler settings copied onto each texture (aniso level, filter mode and wrap mode from `rtSettings`): they do not affect pixel contents.
- `Path.GetDirectoryName` of the scene path: the scene folder is a parameter.
- Orientation is whole (yaw, pitch) degrees mod 360, not a general 3D rotation. This is exact for the source's sequence: the z angle of every `Rotate` call is 0, and the pitch turns only start once yaw is back at its start.
- The camera object, whose transform `Rotate` changes, is modelled as an orientation variable.
- Stitching.CombineCube: requires all six faces to have X_POS's size. The source reads only X_POS's size and checks nothing. For a smaller face, `GetPixel` would clamp or repeat out-of-range coordinates according to the face's wrap mode. That is the importer's wrap mode: the `Clamp` set on the in-memory texture is not stored in the EXR file. A larger face would be truncated. The model captures neither case.
- SkyboxBake.ConvertToStaticSkybox: requires every render to be resolution × resolution, as the render target guarantees. An unvalidated (zero or negative) `cubemapResolution` is not modelled.
- Error handling: the bake checks no sizes and catches nothing (GenerateSkyCubemap.cs:84-335). A missing face only shows up as `LoadCube` returning None, and the bake proves this cannot happen after its own capture.
- SkyboxBake.ConvertToStaticSkybox: the strip's dimension when it is first loaded (`loadedDimension`) and the fresh importer settings (`initial`) are parameters, because they come from the engine.
