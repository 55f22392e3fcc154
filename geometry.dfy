/**
 * Placement of the optional logo on the rendered barcode image: the logo is
 * scaled to a fifth of the image on each axis (floor division) and pasted at
 * the offset that centres it (floor division again).
 */
module Geometry {

  /** The fixed scale factor between image side and logo side. */
  const LogoFactor: nat := 5

  /** Width and height of an image, in pixels. */
  datatype Size = Size(width: nat, height: nat)

  /** An axis-aligned rectangle: top-left corner and extent, in pixels. */
  datatype Rect = Rect(x: nat, y: nat, width: nat, height: nat)

  /** The rectangle lies entirely inside an image of the given size. */
  predicate Within(r: Rect, image: Size) {
    r.x + r.width <= image.width && r.y + r.height <= image.height
  }

  /** On one axis, the margin after the part is the margin before it or one pixel more. */
  predicate CentredOnAxis(origin: nat, extent: nat, side: nat) {
    origin + extent <= side && origin <= side - extent - origin <= origin + 1
  }

  /** The rectangle is centred in the image to within one pixel on both axes. */
  predicate Centred(r: Rect, image: Size) {
    CentredOnAxis(r.x, r.width, image.width) && CentredOnAxis(r.y, r.height, image.height)
  }

  /** The logo's extent on an axis of the given length: the floor of a fifth of it. */
  function LogoExtent(side: nat): (r: nat)
    ensures LogoFactor * r <= side < LogoFactor * (r + 1)
    ensures r <= side
  {
    side / LogoFactor
  }

  /** The logo's offset on an axis of the given length: half the room left by the logo, rounded down. */
  function LogoOrigin(side: nat): (r: nat)
    ensures CentredOnAxis(r, LogoExtent(side), side)
    ensures 2 * r + LogoExtent(side) <= side <= 2 * r + LogoExtent(side) + 1
  {
    (side - LogoExtent(side)) / 2
  }

  /** Where the resized logo goes on an image of the given size. */
  function LogoPlacement(image: Size): (r: Rect)
    ensures LogoFactor * r.width <= image.width < LogoFactor * (r.width + 1)
    ensures LogoFactor * r.height <= image.height < LogoFactor * (r.height + 1)
    ensures Within(r, image)
    ensures Centred(r, image)
  {
    Rect(LogoOrigin(image.width), LogoOrigin(image.height),
         LogoExtent(image.width), LogoExtent(image.height))
  }

  /** The placement is the only rectangle of the logo's size that is centred this way (the left margin never exceeds the right one). */
  lemma PlacementUnique(image: Size, r: Rect)
    requires r.width == LogoExtent(image.width) && r.height == LogoExtent(image.height)
    requires Centred(r, image)
    ensures r == LogoPlacement(image)
  {
  }

  /** A 500 by 500 image takes a 100 by 100 logo at offset (200, 200). */
  lemma Placement500()
    ensures LogoPlacement(Size(500, 500)) == Rect(200, 200, 100, 100)
  {
  }
}
