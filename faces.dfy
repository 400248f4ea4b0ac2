/**
 * The six cube faces of the sky bake, their asset labels, the horizontal slot
 * each one occupies in the stitched strip, and the order in which the camera
 * captures them. Slot order and capture order are two independent conventions.
 */
module CubeFaces {

  datatype Face = XPos | XNeg | YPos | YNeg | ZPos | ZNeg

  /** The label a face is saved under, as it appears in the asset file names. */
  function Label(f: Face): (r: string)
    ensures |r| == 5
    ensures r[1] == '_' && r[0] in {'X', 'Y', 'Z'}
  {
    match f
    case XPos => "X_POS"
    case XNeg => "X_NEG"
    case YPos => "Y_POS"
    case YNeg => "Y_NEG"
    case ZPos => "Z_POS"
    case ZNeg => "Z_NEG"
  }

  /** Distinct faces are saved under distinct labels. */
  lemma LabelInjective(f: Face, g: Face)
    ensures Label(f) == Label(g) <==> f == g
  {
    if f != g {
      // the labels differ in the axis letter or in the sign letter
      assert Label(f)[0] != Label(g)[0] || Label(f)[2] != Label(g)[2];
    }
  }

  /**
   * The horizontal slot of a face in the strip: X_POS, X_NEG, Y_NEG, Y_POS,
   * Z_POS, Z_NEG from left to right. Y_NEG precedes Y_POS.
   */
  function Slot(f: Face): (s: nat)
    ensures s < 6
  {
    match f
    case XPos => 0
    case XNeg => 1
    case YNeg => 2
    case YPos => 3
    case ZPos => 4
    case ZNeg => 5
  }

  /** The face that occupies a given slot; the inverse of Slot. */
  function SlotFace(s: nat): (f: Face)
    requires s < 6
    ensures Slot(f) == s
  {
    if s == 0 then XPos
    else if s == 1 then XNeg
    else if s == 2 then YNeg
    else if s == 3 then YPos
    else if s == 4 then ZPos
    else ZNeg
  }

  /** Slot is a bijection from the six faces onto 0..5. */
  lemma SlotBijection(f: Face, g: Face, s: nat)
    ensures Slot(f) == Slot(g) ==> f == g
    ensures s < 6 ==> Slot(SlotFace(s)) == s
    ensures SlotFace(Slot(f)) == f
  {
  }

  /** The faces in slot order, left to right; also the order of the copy loops. */
  const SlotOrder: seq<Face> := [XPos, XNeg, YNeg, YPos, ZPos, ZNeg]

  /** The faces in the order the camera captures them. */
  const CaptureOrder: seq<Face> := [XPos, ZNeg, XNeg, ZPos, YPos, YNeg]

  /** Both orders list each of the six faces exactly once. */
  lemma OrdersArePermutations(f: Face)
    ensures |SlotOrder| == 6 && |CaptureOrder| == 6
    ensures multiset(SlotOrder)[f] == 1 && multiset(CaptureOrder)[f] == 1
    ensures forall i :: 0 <= i < 6 ==> Slot(SlotOrder[i]) == i
    ensures forall g: Face :: g in SlotOrder && g in CaptureOrder
  {
    forall g: Face
      ensures g in SlotOrder && g in CaptureOrder
    {
      assert SlotOrder[Slot(g)] == g;
      assert CaptureOrder[0] == XPos && CaptureOrder[1] == ZNeg && CaptureOrder[2] == XNeg;
      assert CaptureOrder[3] == ZPos && CaptureOrder[4] == YPos && CaptureOrder[5] == YNeg;
    }
  }

  /** No face is captured twice. */
  lemma CaptureOrderDistinct()
    ensures |CaptureOrder| == 6
    ensures forall j, k :: 0 <= j < k < 6 ==> CaptureOrder[j] != CaptureOrder[k]
  {
  }

  /** The position of a face in the capture order. */
  function CaptureIndex(f: Face): (i: nat)
    ensures i < 6 && CaptureOrder[i] == f
  {
    match f
    case XPos => 0
    case ZNeg => 1
    case XNeg => 2
    case ZPos => 3
    case YPos => 4
    case YNeg => 5
  }
}
