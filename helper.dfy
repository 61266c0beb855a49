/**
 * Geometry records and the orientation classifier of Photon/Source/Common/Helper.swift.
 * CGFloat values are modelled as exact reals; only equality tests are made on them here.
 */
module Geometry {

  /** A `CGAffineTransform` [a b; c d] with translation (tx, ty). */
  datatype AffineTransform = AffineTransform(a: real, b: real, c: real, d: real, tx: real, ty: real)

  /** A `CGSize`. */
  datatype Size = Size(width: real, height: real)

  const ZeroSize := Size(0.0, 0.0)

  /** The four `UIImageOrientation` values the classifier produces. */
  datatype ImageOrientation = Up | Down | Left | Right

  /** `FillMode` of a clip or a builder. */
  datatype FillMode = AspectFit | AspectFill | Fill

  /**
   * `orientation(preferredTransform:)`: a 90-degree rotation is portrait (`.up`), a -90-degree one
   * is upside-down portrait (`.down`), the identity is `.right`, and everything else is `.left`.
   */
  function OrientationOf(t: AffineTransform): (r: ImageOrientation)
    ensures r == Up <==> (t.a == 0.0 && t.b == 1.0 && t.c == -1.0 && t.d == 0.0)
    ensures r == Down <==> (t.a == 0.0 && t.b == -1.0 && t.c == 1.0 && t.d == 0.0)
    ensures r == Right <==> (t.a == 1.0 && t.b == 0.0 && t.c == 0.0 && t.d == 1.0)
    ensures r == Left <==> !(t.a == 0.0 && t.d == 0.0 && ((t.b == 1.0 && t.c == -1.0) || (t.b == -1.0 && t.c == 1.0)))
                           && !(t.a == 1.0 && t.b == 0.0 && t.c == 0.0 && t.d == 1.0)
  {
    if t.a == 0.0 && t.b == 1.0 && t.c == -1.0 && t.d == 0.0 then Up
    else if t.a == 0.0 && t.b == -1.0 && t.c == 1.0 && t.d == 0.0 then Down
    else if t.a == 1.0 && t.b == 0.0 && t.c == 0.0 && t.d == 1.0 then Right
    else Left
  }

  /** The translation part of the transform plays no part in the classification. */
  lemma OrientationIgnoresTranslation(t: AffineTransform, tx: real, ty: real)
    ensures OrientationOf(t.(tx := tx, ty := ty)) == OrientationOf(t)
  {
  }

  /** Portrait orientations (`.up`, `.down`) are the ones whose width and height are exchanged for display. */
  predicate IsPortrait(o: ImageOrientation) {
    o == Up || o == Down
  }

  /** A size as displayed in orientation `o`: width and height swapped for portrait tracks. */
  function DisplaySize(o: ImageOrientation, natural: Size): (r: Size)
    ensures IsPortrait(o) ==> r.width == natural.height && r.height == natural.width
    ensures !IsPortrait(o) ==> r == natural
  {
    if IsPortrait(o) then Size(natural.height, natural.width) else natural
  }
}
