/**
 * Textures as the bake sees them: a width, a height and a grid of opaque
 * pixels addressed as GetPixel(x, y). Pixel values are half-float RGBA in the
 * engine; here they are never inspected, only copied.
 */
module Textures {

  /** An opaque pixel value. Auto-initialisable, like a freshly allocated texture. */
  type Pixel(0)

  /** A texture stored column by column: pixels[x][y] is the pixel at (x, y). */
  datatype Texture = Texture(width: nat, height: nat, pixels: seq<seq<Pixel>>)
  {
    predicate Valid() {
      |pixels| == width && forall x :: 0 <= x < width ==> |pixels[x]| == height
    }

    function GetPixel(x: int, y: int): Pixel
      requires Valid() && 0 <= x < width && 0 <= y < height
    {
      pixels[x][y]
    }
  }

  /** Two well-formed textures with the same size and the same pixels are equal. */
  lemma TextureEquality(a: Texture, b: Texture)
    requires a.Valid() && b.Valid()
    requires a.width == b.width && a.height == b.height
    requires forall x, y :: 0 <= x < a.width && 0 <= y < a.height ==> a.GetPixel(x, y) == b.GetPixel(x, y)
    ensures a == b
  {
    forall x | 0 <= x < a.width
      ensures a.pixels[x] == b.pixels[x]
    {
      assert forall y :: 0 <= y < a.height ==> a.pixels[x][y] == a.GetPixel(x, y) == b.GetPixel(x, y);
    }
  }

  /** The current contents of an in-memory texture buffer, as a texture value. */
  function Snapshot(a: array2<Pixel>): (t: Texture)
    reads a
    ensures t.Valid() && t.width == a.Length0 && t.height == a.Length1
    ensures forall x, y :: 0 <= x < a.Length0 && 0 <= y < a.Length1 ==> t.GetPixel(x, y) == a[x, y]
  {
    Texture(a.Length0, a.Length1,
      seq(a.Length0, x requires 0 <= x < a.Length0 reads a =>
        seq(a.Length1, y requires 0 <= y < a.Length1 reads a => a[x, y])))
  }
}
