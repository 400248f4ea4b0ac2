/**
 * The strip stitcher (CombineCUBE): six equal-size face textures are copied,
 * pixel for pixel, into one strip six faces wide and one face high, face f
 * occupying columns [Slot(f) * W, Slot(f) * W + W).
 *
 * Stitch is the reference definition of the strip (column X comes from the face
 * in slot X / W, column X % W); PasteSlot and PasteAll describe what the copy
 * loops do; CopyFace and CombineCube are the loops themselves, over a buffer
 * updated in place.
 */
module Stitching {
  import opened CubeFaces
  import opened Textures

  // ---------------------------------------------------------------------------
  // Slot arithmetic

  /** A positive multiple of a positive width is at least that width. */
  lemma {:induction false} MulAtLeast(d: int, w: int)
    requires d >= 1 && w > 0
    ensures d * w >= w
  {
    assert d * w == (d - 1) * w + w;
    assert (d - 1) * w >= 0;
  }

  /** Quotient and remainder are determined by q * w + r with 0 <= r < w. */
  lemma {:induction false} DivModUnique(a: int, w: int, q: int, r: int)
    requires w > 0 && 0 <= r < w && a == q * w + r
    ensures a / w == q && a % w == r
  {
    var q', r' := a / w, a % w;
    assert q' * w + r' == q * w + r;
    if q' > q {
      MulAtLeast(q' - q, w);
      assert false;
    } else if q' < q {
      MulAtLeast(q - q', w);
      assert false;
    }
  }

  /** Column x of the face in slot s lands at strip column s * w + x, and back. */
  lemma SlotColumn(s: int, w: int, x: int)
    requires w > 0 && 0 <= x < w
    ensures (s * w + x) / w == s && (s * w + x) % w == x
  {
    DivModUnique(s * w + x, w, s, x);
  }

  /** A slot below six fits inside a strip six faces wide. */
  lemma {:induction false} SlotFits(s: nat, w: nat)
    requires s < 6
    ensures 0 <= s * w && s * w + w <= 6 * w
  {
    assert (5 - s) * w >= 0;
    assert 6 * w - (s * w + w) == (5 - s) * w;
  }

  /**
   * The six slot ranges are disjoint and cover [0, 6w): column X lies in the
   * range of slot s exactly when s == X / w, and that slot is below six.
   */
  lemma {:induction false} SlotPartition(X: int, w: nat, s: nat)
    requires 0 <= X < 6 * w
    ensures 0 <= X / w < 6
    ensures s * w <= X < s * w + w <==> s == X / w
  {
    var q := X / w;
    assert q * w + X % w == X;
    if s * w <= X < s * w + w {
      DivModUnique(X, w, s, X - s * w);
    }
  }

  // ---------------------------------------------------------------------------
  // The six face textures

  /** The six textures handed to the stitcher (the TextureObjectCUBE record). */
  datatype CubeTextures = CubeTextures(
    xPositive: Texture, yPositive: Texture, zPositive: Texture,
    xNegative: Texture, yNegative: Texture, zNegative: Texture)
  {
    function Of(f: Face): (t: Texture)
      ensures Valid() ==> t.Valid() && t.width == Width() && t.height == Height()
    {
      match f
      case XPos => xPositive
      case XNeg => xNegative
      case YPos => yPositive
      case YNeg => yNegative
      case ZPos => zPositive
      case ZNeg => zNegative
    }

    /** Face edge sizes are read off the X_POS face. */
    function Width(): nat { xPositive.width }
    function Height(): nat { xPositive.height }

    /**
     * Every face is well formed and has the size of the X_POS face. The stitcher
     * reads the size of X_POS only and assumes the others agree.
     */
    predicate Valid() {
      && FitsCube(xPositive) && FitsCube(yPositive) && FitsCube(zPositive)
      && FitsCube(xNegative) && FitsCube(yNegative) && FitsCube(zNegative)
    }

    predicate FitsCube(t: Texture) {
      t.Valid() && t.width == Width() && t.height == Height()
    }
  }

  // ---------------------------------------------------------------------------
  // Reference definition of the strip

  /** The stitched strip: column X holds column X % W of the face in slot X / W. */
  function Stitch(faces: CubeTextures): (r: Texture)
    requires faces.Valid()
    ensures r.Valid() && r.width == 6 * faces.Width() && r.height == faces.Height()
  {
    var w, h := faces.Width(), faces.Height();
    Texture(6 * w, h, seq(6 * w, X requires 0 <= X < 6 * w =>
      SlotPartition(X, w, 0);
      faces.Of(SlotFace(X / w)).pixels[X % w]))
  }

  /**
   * Pixel fidelity: every pixel of every face appears unchanged in the strip,
   * at the face's slot offset, in the same row; no flip and no offset in y.
   */
  lemma StitchFidelity(faces: CubeTextures, f: Face, x: int, y: int)
    requires faces.Valid()
    requires 0 <= x < faces.Width() && 0 <= y < faces.Height()
    ensures Slot(f) * faces.Width() + x < 6 * faces.Width()
    ensures Stitch(faces).GetPixel(Slot(f) * faces.Width() + x, y) == faces.Of(f).GetPixel(x, y)
  {
    var w := faces.Width();
    SlotFits(Slot(f), w);
    SlotColumn(Slot(f), w, x);
  }

  /** Conversely, every strip pixel is some face's pixel: the one in slot X / W. */
  lemma StitchSource(faces: CubeTextures, X: int, y: int)
    requires faces.Valid()
    requires 0 <= X < 6 * faces.Width() && 0 <= y < faces.Height()
    ensures 0 <= X / faces.Width() < 6
    ensures Stitch(faces).GetPixel(X, y) == faces.Of(SlotFace(X / faces.Width())).GetPixel(X % faces.Width(), y)
  {
    SlotPartition(X, faces.Width(), 0);
  }

  // ---------------------------------------------------------------------------
  // What one copy loop does, and what a sequence of them does

  /** Copy a face into the columns of one slot; every other column is kept. */
  function PasteSlot(strip: Texture, face: Texture, slot: nat): (r: Texture)
    requires strip.Valid() && face.Valid() && slot < 6
    requires strip.width == 6 * face.width && strip.height == face.height
    ensures r.Valid() && r.width == strip.width && r.height == strip.height
    ensures forall X, y :: 0 <= X < r.width && 0 <= y < r.height ==>
      r.GetPixel(X, y) ==
        if slot * face.width <= X < slot * face.width + face.width
        then face.GetPixel(X - slot * face.width, y)
        else strip.GetPixel(X, y)
  {
    var w := face.width;
    SlotFits(slot, w);
    Texture(strip.width, strip.height, seq(strip.width, X requires 0 <= X < strip.width =>
      if slot * w <= X < slot * w + w then face.pixels[X - slot * w] else strip.pixels[X]))
  }

  /** Run the copy loops for the faces of `order`, first to last, over `strip`. */
  function PasteAll(strip: Texture, faces: CubeTextures, order: seq<Face>): (r: Texture)
    requires faces.Valid() && strip.Valid()
    requires strip.width == 6 * faces.Width() && strip.height == faces.Height()
    ensures r.Valid() && r.width == strip.width && r.height == strip.height
    decreases |order|
  {
    if order == [] then strip
    else
      var last := order[|order| - 1];
      PasteSlot(PasteAll(strip, faces, order[..|order| - 1]), faces.Of(last), Slot(last))
  }

  /**
   * After the copy loops of `order`, a column in the slot of a face that occurs
   * in `order` holds that face's column; any other column is untouched.
   */
  lemma {:induction false} PasteAllPixel(strip: Texture, faces: CubeTextures, order: seq<Face>, X: int, y: int)
    requires faces.Valid() && strip.Valid()
    requires strip.width == 6 * faces.Width() && strip.height == faces.Height()
    requires 0 <= X < strip.width && 0 <= y < strip.height
    ensures 0 <= X / faces.Width() < 6
    ensures PasteAll(strip, faces, order).GetPixel(X, y) ==
      if SlotFace(X / faces.Width()) in order
      then faces.Of(SlotFace(X / faces.Width())).GetPixel(X % faces.Width(), y)
      else strip.GetPixel(X, y)
    decreases |order|
  {
    var w := faces.Width();
    var target := SlotFace(SlotPartitionQuotient(X, w));
    if order != [] {
      var init, last := order[..|order| - 1], order[|order| - 1];
      var prev := PasteAll(strip, faces, init);
      PasteAllPixel(strip, faces, init, X, y);
      assert PasteAll(strip, faces, order) == PasteSlot(prev, faces.Of(last), Slot(last));
      SlotPartition(X, w, Slot(last));
      if Slot(last) == X / w {
        SlotColumn(Slot(last), w, X - Slot(last) * w);
        SlotBijection(last, target, X / w);
        assert target == last && target in order;
      } else {
        assert order == init + [last];
        assert target != last;
        assert target in order <==> target in init;
      }
    }
  }

  /** X / w, with the fact that it names a slot. */
  function SlotPartitionQuotient(X: int, w: nat): (s: nat)
    requires 0 <= X < 6 * w
    ensures s < 6 && s == X / w
  {
    SlotPartition(X, w, 0);
    X / w
  }

  /**
   * Order independence: running the copy loops in ANY order that mentions all
   * six faces, over a buffer of ANY initial contents, yields the strip.
   */
  lemma PasteAllIsStitch(strip: Texture, faces: CubeTextures, order: seq<Face>)
    requires faces.Valid() && strip.Valid()
    requires strip.width == 6 * faces.Width() && strip.height == faces.Height()
    requires forall f: Face :: f in order
    ensures PasteAll(strip, faces, order) == Stitch(faces)
  {
    var r, s := PasteAll(strip, faces, order), Stitch(faces);
    forall X, y | 0 <= X < r.width && 0 <= y < r.height
      ensures r.GetPixel(X, y) == s.GetPixel(X, y)
    {
      PasteAllPixel(strip, faces, order, X, y);
      StitchSource(faces, X, y);
    }
    TextureEquality(r, s);
  }

  /** One more copy loop, for the next face of `order`, extends the prefix run. */
  lemma PasteAllStep(strip: Texture, faces: CubeTextures, order: seq<Face>, k: nat)
    requires faces.Valid() && strip.Valid()
    requires strip.width == 6 * faces.Width() && strip.height == faces.Height()
    requires k < |order|
    ensures PasteAll(strip, faces, order[..k + 1]) ==
      PasteSlot(PasteAll(strip, faces, order[..k]), faces.Of(order[k]), Slot(order[k]))
  {
    assert order[..k + 1][..k] == order[..k];
  }

  /**
   * Six copy loops, one per face in any order, turn a buffer of any initial
   * contents into the strip.
   */
  lemma SixCopiesAreStitch(blank: Texture, faces: CubeTextures, order: seq<Face>)
    requires faces.Valid() && blank.Valid()
    requires blank.width == 6 * faces.Width() && blank.height == faces.Height()
    requires |order| == 6 && forall f: Face :: f in order
    ensures
      var s1 := PasteSlot(blank, faces.Of(order[0]), Slot(order[0]));
      var s2 := PasteSlot(s1, faces.Of(order[1]), Slot(order[1]));
      var s3 := PasteSlot(s2, faces.Of(order[2]), Slot(order[2]));
      var s4 := PasteSlot(s3, faces.Of(order[3]), Slot(order[3]));
      var s5 := PasteSlot(s4, faces.Of(order[4]), Slot(order[4]));
      PasteSlot(s5, faces.Of(order[5]), Slot(order[5])) == Stitch(faces)
  {
    assert order[..0] == [];
    PasteAllStep(blank, faces, order, 0);
    PasteAllStep(blank, faces, order, 1);
    PasteAllStep(blank, faces, order, 2);
    PasteAllStep(blank, faces, order, 3);
    PasteAllStep(blank, faces, order, 4);
    PasteAllStep(blank, faces, order, 5);
    assert order[..6] == order;
    PasteAllIsStitch(blank, faces, order);
  }

  // ---------------------------------------------------------------------------
  // The copy loops over the output buffer

  /**
   * One of the six copy blocks of CombineCUBE: for every column x and row y of
   * the face, output[slot * W + x, y] := face[x, y]. Only the slot's columns
   * are written.
   */
  method CopyFace(face: Texture, output: array2<Pixel>, slot: nat)
    requires face.Valid() && slot < 6
    requires output.Length0 == 6 * face.width && output.Length1 == face.height
    modifies output
    ensures forall X, y :: 0 <= X < output.Length0 && 0 <= y < output.Length1 ==>
      output[X, y] ==
        if slot * face.width <= X < slot * face.width + face.width
        then face.GetPixel(X - slot * face.width, y)
        else old(output[X, y])
    ensures Snapshot(output) == PasteSlot(old(Snapshot(output)), face, slot)
  {
    var w, h := face.width, face.height;
    SlotFits(slot, w);
    var offset := slot * w;
    var x := 0;
    while x < w
      invariant 0 <= x <= w
      invariant forall X, y :: 0 <= X < output.Length0 && 0 <= y < output.Length1 ==>
        output[X, y] == if offset <= X < offset + x then face.GetPixel(X - offset, y) else old(output[X, y])
    {
      var y := 0;
      while y < h
        invariant 0 <= y <= h
        invariant forall X, y' :: 0 <= X < output.Length0 && 0 <= y' < output.Length1 ==>
          output[X, y'] ==
            if offset <= X < offset + x || (X == offset + x && y' < y)
            then face.GetPixel(X - offset, y')
            else old(output[X, y'])
      {
        output[offset + x, y] := face.GetPixel(x, y);
        y := y + 1;
      }
      x := x + 1;
    }
    TextureEquality(Snapshot(output), PasteSlot(old(Snapshot(output)), face, slot));
  }

  /** A buffer holding the strip holds every face pixel at its slot offset. */
  lemma BufferFidelity(output: array2<Pixel>, faces: CubeTextures)
    requires faces.Valid() && Snapshot(output) == Stitch(faces)
    ensures forall f: Face, x, y :: 0 <= x < faces.Width() && 0 <= y < faces.Height() ==>
      output[Slot(f) * faces.Width() + x, y] == faces.Of(f).GetPixel(x, y)
  {
    forall f: Face, x, y | 0 <= x < faces.Width() && 0 <= y < faces.Height()
      ensures output[Slot(f) * faces.Width() + x, y] == faces.Of(f).GetPixel(x, y)
    {
      StitchFidelity(faces, f, x, y);
    }
  }

  /**
   * CombineCUBE's stitch: allocate a 6W x H buffer (W, H taken from X_POS) and
   * run the six copy blocks in the source's order X_POS, X_NEG, Y_NEG, Y_POS,
   * Z_POS, Z_NEG. The result is the strip, whatever the buffer held initially.
   */
  method CombineCube(faces: CubeTextures) returns (output: array2<Pixel>)
    requires faces.Valid()
    ensures fresh(output)
    ensures output.Length0 == 6 * faces.Width() && output.Length1 == faces.Height()
    ensures Snapshot(output) == Stitch(faces)
    ensures forall f: Face, x, y :: 0 <= x < faces.Width() && 0 <= y < faces.Height() ==>
      output[Slot(f) * faces.Width() + x, y] == faces.Of(f).GetPixel(x, y)
  {
    var w, h := faces.Width(), faces.Height();
    output := new Pixel[6 * w, h];
    ghost var blank := Snapshot(output);
    CopyFace(faces.xPositive, output, 0);
    CopyFace(faces.xNegative, output, 1);
    CopyFace(faces.yNegative, output, 2);
    CopyFace(faces.yPositive, output, 3);
    CopyFace(faces.zPositive, output, 4);
    CopyFace(faces.zNegative, output, 5);
    OrdersArePermutations(XPos);
    SixCopiesAreStitch(blank, faces, SlotOrder);
    BufferFidelity(output, faces);
  }
}
