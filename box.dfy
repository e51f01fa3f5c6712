/** The bounding box of the foot mask, with the central fallback box used
    when too few pixels were classified as foot. */
module FootBox {
  import opened Grid

  datatype Box = Box(minX: real, maxX: real, minY: real, maxY: real)

  /** The box from 10% to 90% of each dimension. */
  function FallbackBox(width: nat, height: nat): Box
  {
    Box(width as real * 0.1, width as real * 0.9, height as real * 0.1, height as real * 0.9)
  }

  /** Foot pixels (x, y) of row y with x < n. */
  function RowCount(gray: seq<real>, width: nat, height: nat, y: int, n: nat): nat
    requires |gray| == width * height && 0 <= y < height && n <= width
  {
    if n == 0 then 0
    else RowCount(gray, width, height, y, n - 1) + (if IsFoot(gray, width, height, n - 1, y) then 1 else 0)
  }

  /** Foot pixels in the rows above m. */
  function RowsCount(gray: seq<real>, width: nat, height: nat, m: nat): nat
    requires |gray| == width * height && m <= height
  {
    if m == 0 then 0
    else RowsCount(gray, width, height, m - 1) + RowCount(gray, width, height, m - 1, width)
  }

  /** The number of foot pixels in the whole grid. */
  function FootCount(gray: seq<real>, width: nat, height: nat): nat
    requires |gray| == width * height
  {
    RowsCount(gray, width, height, height)
  }

  predicate IsWhole(r: real)
  {
    r.Floor as real == r
  }

  /** Every foot pixel scanned so far (rows above y, and row y left of x)
      lies inside the bounds. */
  ghost predicate EnclosesScanned(gray: seq<real>, width: nat, height: nat, x: int, y: int,
                                  minX: int, maxX: int, minY: int, maxY: int)
    requires |gray| == width * height
  {
    forall xx, yy ::
      (InBounds(width, height, xx, yy) && (yy < y || (yy == y && xx < x)) && IsFoot(gray, width, height, xx, yy))
      ==> minX <= xx <= maxX && minY <= yy <= maxY
  }

  /** Each bound is attained by a foot pixel: (minX, yMinX), (maxX, yMaxX),
      (xMinY, minY) and (xMaxY, maxY). */
  ghost predicate Attained(gray: seq<real>, width: nat, height: nat,
                           minX: int, maxX: int, minY: int, maxY: int,
                           yMinX: int, yMaxX: int, xMinY: int, xMaxY: int)
    requires |gray| == width * height
  {
    && InBounds(width, height, minX, yMinX) && IsFoot(gray, width, height, minX, yMinX)
    && InBounds(width, height, maxX, yMaxX) && IsFoot(gray, width, height, maxX, yMaxX)
    && InBounds(width, height, xMinY, minY) && IsFoot(gray, width, height, xMinY, minY)
    && InBounds(width, height, xMaxY, maxY) && IsFoot(gray, width, height, xMaxY, maxY)
  }

  /** [minX, maxX] x [minY, maxY] is the bounding box of the foot mask: it
      holds every foot pixel and each of its bounds is attained. */
  ghost predicate TightBox(gray: seq<real>, width: nat, height: nat,
                           minX: int, maxX: int, minY: int, maxY: int)
    requires |gray| == width * height
  {
    && (forall x, y :: InBounds(width, height, x, y) && IsFoot(gray, width, height, x, y)
          ==> minX <= x <= maxX && minY <= y <= maxY)
    && 0 <= minX < width && (exists y :: 0 <= y < height && IsFoot(gray, width, height, minX, y))
    && 0 <= maxX < width && (exists y :: 0 <= y < height && IsFoot(gray, width, height, maxX, y))
    && 0 <= minY < height && (exists x :: 0 <= x < width && IsFoot(gray, width, height, x, minY))
    && 0 <= maxY < height && (exists x :: 0 <= x < width && IsFoot(gray, width, height, x, maxY))
  }

  /** The box the extractor works with: the fallback box when the foot mask
      covers less than a tenth of the image, the mask's bounding box otherwise. */
  ghost predicate BoxFits(gray: seq<real>, width: nat, height: nat, box: Box)
    requires |gray| == width * height
  {
    if 10 * FootCount(gray, width, height) < width * height then box == FallbackBox(width, height)
    else
      && IsWhole(box.minX) && IsWhole(box.maxX) && IsWhole(box.minY) && IsWhole(box.maxY)
      && TightBox(gray, width, height, box.minX.Floor, box.maxX.Floor, box.minY.Floor, box.maxY.Floor)
  }

  /** The classification at one pixel, with the short-circuit of the source:
      the neighbourhood is searched only for a pixel brighter than the threshold. */
  method ClassifyPixel(x: int, y: int, grayscale: seq<real>, width: nat, height: nat) returns (isFoot: bool)
    requires |grayscale| == width * height && InBounds(width, height, x, y)
    ensures isFoot == IsFoot(grayscale, width, height, x, y)
  {
    IndexInRange(width, height, x, y);
    var gray := grayscale[y * width + x];
    isFoot := gray < Threshold;
    if !isFoot && gray > Threshold {
      isFoot := IsNearFoot(x, y, grayscale, width, height);
    }
  }

  /** The scan over every pixel that counts the foot pixels and grows the
      bounding box, followed by the fallback to the central box. */
  method FindFootBox(grayscale: seq<real>, width: nat, height: nat) returns (box: Box, footPixels: nat)
    requires |grayscale| == width * height
    requires width >= 1 && height >= 1
    ensures footPixels == FootCount(grayscale, width, height)
    ensures BoxFits(grayscale, width, height, box)
    ensures 0.0 <= box.minX <= box.maxX < width as real
    ensures 0.0 <= box.minY <= box.maxY < height as real
  {
    var minX: int, maxX: int, minY: int, maxY: int := width, 0, height, 0;
    footPixels := 0;
    ghost var yMinX, yMaxX, xMinY, xMaxY := 0, 0, 0, 0;

    var y := 0;
    while y < height
      invariant 0 <= y <= height
      invariant footPixels == RowsCount(grayscale, width, height, y)
      invariant EnclosesScanned(grayscale, width, height, 0, y, minX, maxX, minY, maxY)
      invariant footPixels == 0 ==> minX == width && maxX == 0 && minY == height && maxY == 0
      invariant footPixels > 0 ==>
        Attained(grayscale, width, height, minX, maxX, minY, maxY, yMinX, yMaxX, xMinY, xMaxY)
    {
      var x := 0;
      while x < width
        invariant 0 <= x <= width
        invariant footPixels == RowsCount(grayscale, width, height, y) + RowCount(grayscale, width, height, y, x)
        invariant EnclosesScanned(grayscale, width, height, x, y, minX, maxX, minY, maxY)
        invariant footPixels == 0 ==> minX == width && maxX == 0 && minY == height && maxY == 0
        invariant footPixels > 0 ==>
          Attained(grayscale, width, height, minX, maxX, minY, maxY, yMinX, yMaxX, xMinY, xMaxY)
      {
        var isFoot := ClassifyPixel(x, y, grayscale, width, height);
        if isFoot {
          if footPixels == 0 || x <= minX { yMinX := y; }
          if footPixels == 0 || x >= maxX { yMaxX := y; }
          if footPixels == 0 || y <= minY { xMinY := x; }
          if footPixels == 0 || y >= maxY { xMaxY := x; }
          footPixels := footPixels + 1;
          minX := if x < minX then x else minX;
          maxX := if x > maxX then x else maxX;
          minY := if y < minY then y else minY;
          maxY := if y > maxY then y else maxY;
        }
        x := x + 1;
      }
      y := y + 1;
    }

    if (footPixels as real) < (width * height) as real * 0.1 {
      box := FallbackBox(width, height);
    } else {
      assert footPixels > 0;
      assert IsFoot(grayscale, width, height, minX, yMinX);
      box := Box(minX as real, maxX as real, minY as real, maxY as real);
      assert TightBox(grayscale, width, height, minX, maxX, minY, maxY);
    }
  }
}
