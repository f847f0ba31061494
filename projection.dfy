/**
  Placement of a hotspot's overlay control on the screen, once per frame.

  The camera's forward direction, the dot product with the hotspot's direction and the
  projected normalized device coordinates come from the 3D library; here they are inputs.
  What is modelled is the culling decision and the affine map from device coordinates
  to pixels.
 */
module Projection {

  /** Normalized device coordinates of a projected point; `z` is the clip-space depth. */
  datatype Ndc = Ndc(x: real, y: real, z: real)

  /** A pixel offset from the top-left corner of the drawing surface. */
  datatype Pixel = Pixel(left: real, top: real)

  datatype Placement = Hidden | Shown(at: Pixel)

  /** Device coordinates to pixels: x in [-1, 1] runs left to right, y in [-1, 1]
      runs bottom to top, so the y axis is flipped. */
  function ToPixel(x: real, y: real, width: real, height: real): (p: Pixel)
    ensures x == -1.0 ==> p.left == 0.0
    ensures x == 1.0 ==> p.left == width
    ensures y == 1.0 ==> p.top == 0.0
    ensures y == -1.0 ==> p.top == height
  {
    Pixel((x + 1.0) / 2.0 * width, (-y + 1.0) / 2.0 * height)
  }

  /** Pixels back to device coordinates, for a drawing surface of non-zero size. */
  function FromPixel(p: Pixel, width: real, height: real): (real, real)
    requires width != 0.0 && height != 0.0
  {
    (2.0 * p.left / width - 1.0, 1.0 - 2.0 * p.top / height)
  }

  /** Points inside the view volume land on the drawing surface. */
  lemma ToPixelOnSurface(x: real, y: real, width: real, height: real)
    requires -1.0 <= x <= 1.0 && -1.0 <= y <= 1.0
    requires width >= 0.0 && height >= 0.0
    ensures 0.0 <= ToPixel(x, y, width, height).left <= width
    ensures 0.0 <= ToPixel(x, y, width, height).top <= height
  {
    var s, t := (x + 1.0) / 2.0, (-y + 1.0) / 2.0;
    assert 0.0 <= s <= 1.0 && 0.0 <= t <= 1.0;
    assert s * width <= 1.0 * width by { ScaleBelow(s, 1.0, width); }
    assert t * height <= 1.0 * height by { ScaleBelow(t, 1.0, height); }
    assert 0.0 <= s * width by { ScaleBelow(0.0, s, width); }
    assert 0.0 <= t * height by { ScaleBelow(0.0, t, height); }
    assert ToPixel(x, y, width, height) == Pixel(s * width, t * height);
  }

  lemma ScaleBelow(a: real, b: real, c: real)
    requires a <= b && c >= 0.0
    ensures a * c <= b * c
  {
  }

  /** The pixel mapping loses nothing: from device coordinates to pixels and back. */
  lemma PixelRoundTrip(x: real, y: real, width: real, height: real)
    requires width != 0.0 && height != 0.0
    ensures FromPixel(ToPixel(x, y, width, height), width, height) == (x, y)
  {
    var p := ToPixel(x, y, width, height);
    assert 2.0 * p.left / width == x + 1.0 by {
      HalfScale(x + 1.0, width);
      DivExact(2.0 * p.left, x + 1.0, width);
    }
    assert 2.0 * p.top / height == -y + 1.0 by {
      HalfScale(-y + 1.0, height);
      DivExact(2.0 * p.top, -y + 1.0, height);
    }
  }

  lemma HalfScale(a: real, c: real)
    ensures 2.0 * (a / 2.0 * c) == a * c
  {
  }

  lemma DivExact(a: real, b: real, c: real)
    requires c != 0.0 && a == b * c
    ensures a / c == b
  {
  }

  /** ... and from pixels to device coordinates and back. */
  lemma PixelRoundTripBack(p: Pixel, width: real, height: real)
    requires width != 0.0 && height != 0.0
    ensures var (x, y) := FromPixel(p, width, height); ToPixel(x, y, width, height) == p
  {
  }

  /** A hotspot's overlay is shown only if the hotspot lies in the camera's forward
      hemisphere (`facing`, the dot product of the camera direction with the unit vector
      toward the hotspot, is positive) and its projected depth is within [-1, 1]. A shown
      overlay sits at the pixel its device coordinates map to. */
  function Place(facing: real, projected: Ndc, width: real, height: real): (r: Placement)
    ensures r.Shown? <==> facing > 0.0 && -1.0 <= projected.z <= 1.0
    ensures r.Shown? ==> r.at == ToPixel(projected.x, projected.y, width, height)
  {
    if facing <= 0.0 then Hidden
    else if projected.z < -1.0 || projected.z > 1.0 then Hidden
    else Shown(ToPixel(projected.x, projected.y, width, height))
  }
}
