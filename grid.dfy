/** The pixel grid of the photo: grayscale conversion and the foot/background
    classification of one pixel. */
module Grid {

  /** One channel of the canvas's RGBA data. */
  type Byte = b: int | 0 <= b < 256

  /** Grayscale threshold on the 0-255 scale. */
  const Threshold: real := 128.0

  /** Half the side of the square neighbourhood that `isNearFoot` searches. */
  const Radius: int := 5

  /** r + g + b of pixel k of RGBA data (four bytes per pixel, alpha unused). */
  function ChannelSum(data: seq<Byte>, k: nat): int
    requires 4 * k + 2 < |data|
  {
    data[4 * k] as int + data[4 * k + 1] as int + data[4 * k + 2] as int
  }

  /** The grayscale array: the mean of the three colour channels of each pixel. */
  function GrayOf(data: seq<Byte>): (gray: seq<real>)
    requires |data| % 4 == 0
    ensures |gray| == |data| / 4
  {
    seq(|data| / 4, k requires 0 <= k < |data| / 4 => ChannelSum(data, k) as real / 3.0)
  }

  /** The conversion loop: one grayscale value pushed per four bytes. */
  method Grayscale(pixels: seq<Byte>) returns (grayscale: seq<real>)
    requires |pixels| % 4 == 0
    ensures grayscale == GrayOf(pixels)
  {
    grayscale := [];
    var i := 0;
    while i < |pixels|
      invariant 0 <= i <= |pixels| && i % 4 == 0
      invariant |grayscale| == i / 4
      invariant forall k :: 0 <= k < |grayscale| ==> grayscale[k] == ChannelSum(pixels, k) as real / 3.0
    {
      var r := pixels[i];
      var g := pixels[i + 1];
      var b := pixels[i + 2];
      var gray := (r as int + g as int + b as int) as real / 3.0;
      grayscale := grayscale + [gray];
      i := i + 4;
    }
  }

  predicate InBounds(width: nat, height: nat, x: int, y: int)
  {
    0 <= x < width && 0 <= y < height
  }

  /** Row-major index y * width + x of an in-bounds pixel lies in the grid. */
  lemma IndexInRange(width: nat, height: nat, x: int, y: int)
    requires InBounds(width, height, x, y)
    ensures 0 <= y * width + x < width * height
  {
    assert y * width + x < (y + 1) * width;
    assert (y + 1) * width <= height * width by {
      MulLeq(y + 1, height, width);
    }
  }

  lemma MulLeq(a: nat, b: nat, c: nat)
    requires a <= b
    ensures a * c <= b * c
  {
  }

  /** The grayscale value of an in-bounds pixel. */
  function GrayAt(gray: seq<real>, width: nat, height: nat, x: int, y: int): real
    requires |gray| == width * height && InBounds(width, height, x, y)
  {
    IndexInRange(width, height, x, y);
    gray[y * width + x]
  }

  /** An in-bounds pixel below the threshold. */
  predicate DarkAt(gray: seq<real>, width: nat, height: nat, x: int, y: int)
    requires |gray| == width * height
  {
    InBounds(width, height, x, y) && GrayAt(gray, width, height, x, y) < Threshold
  }

  /** Some in-bounds pixel at Chebyshev distance at most Radius is dark. */
  predicate NearDark(gray: seq<real>, width: nat, height: nat, x: int, y: int)
    requires |gray| == width * height
  {
    exists nx, ny :: x - Radius <= nx <= x + Radius && y - Radius <= ny <= y + Radius
      && DarkAt(gray, width, height, nx, ny)
  }

  /** The foot mask: dark, or strictly brighter than the threshold and near a
      dark pixel. A pixel exactly at the threshold is never foot. */
  predicate IsFoot(gray: seq<real>, width: nat, height: nat, x: int, y: int)
    requires |gray| == width * height && InBounds(width, height, x, y)
  {
    var g := GrayAt(gray, width, height, x, y);
    g < Threshold || (g > Threshold && NearDark(gray, width, height, x, y))
  }

  /** `isNearFoot`: a double loop over the neighbourhood that returns as soon
      as it meets a dark in-bounds pixel. */
  method IsNearFoot(x: int, y: int, grayscale: seq<real>, width: nat, height: nat) returns (near: bool)
    requires |grayscale| == width * height
    ensures near == NearDark(grayscale, width, height, x, y)
  {
    var radius := Radius;
    var dy := -radius;
    while dy <= radius
      invariant -radius <= dy <= radius + 1
      invariant forall nx, ny :: (x - radius <= nx <= x + radius && y - radius <= ny < y + dy
        ==> !DarkAt(grayscale, width, height, nx, ny))
    {
      var ny := y + dy;
      var dx := -radius;
      while dx <= radius
        invariant -radius <= dx <= radius + 1
        invariant forall nx, ny :: (x - radius <= nx <= x + radius && y - radius <= ny < y + dy
          ==> !DarkAt(grayscale, width, height, nx, ny))
        invariant forall nx :: x - radius <= nx < x + dx ==> !DarkAt(grayscale, width, height, nx, ny)
      {
        var nx := x + dx;
        if nx >= 0 && nx < width && ny >= 0 && ny < height {
          IndexInRange(width, height, nx, ny);
          var idx := ny * width + nx;
          if grayscale[idx] < Threshold {
            assert DarkAt(grayscale, width, height, nx, ny);
            return true;
          }
        }
        dx := dx + 1;
      }
      dy := dy + 1;
    }
    return false;
  }

  /** The channel sum of an in-bounds pixel. */
  function SumAt(data: seq<Byte>, width: nat, height: nat, x: int, y: int): int
    requires |data| == 4 * (width * height) && InBounds(width, height, x, y)
  {
    IndexInRange(width, height, x, y);
    ChannelSum(data, y * width + x)
  }

  /** An in-bounds pixel whose channel sum is below 3 * 128. */
  predicate DarkSum(data: seq<Byte>, width: nat, height: nat, x: int, y: int)
    requires |data| == 4 * (width * height)
  {
    InBounds(width, height, x, y) && SumAt(data, width, height, x, y) < 384
  }

  lemma DarkAtIffDarkSum(data: seq<Byte>, width: nat, height: nat, x: int, y: int)
    requires |data| == 4 * (width * height)
    ensures DarkAt(GrayOf(data), width, height, x, y) <==> DarkSum(data, width, height, x, y)
  {
    if InBounds(width, height, x, y) {
      IndexInRange(width, height, x, y);
      assert GrayAt(GrayOf(data), width, height, x, y) == SumAt(data, width, height, x, y) as real / 3.0;
    }
  }

  /** The foot test stays in integers: a pixel is foot exactly when its
      channel sum is below 384, or above 384 with some in-bounds pixel within
      Chebyshev distance 5 whose sum is below 384; a sum of exactly 384
      (gray 128) is never foot. */
  lemma {:induction false} FootIffChannelSums(data: seq<Byte>, width: nat, height: nat, x: int, y: int)
    requires |data| == 4 * (width * height) && InBounds(width, height, x, y)
    ensures IsFoot(GrayOf(data), width, height, x, y) <==>
      SumAt(data, width, height, x, y) < 384
      || (SumAt(data, width, height, x, y) > 384
          && exists nx, ny :: x - Radius <= nx <= x + Radius && y - Radius <= ny <= y + Radius
               && DarkSum(data, width, height, nx, ny))
    ensures SumAt(data, width, height, x, y) == 384 ==> !IsFoot(GrayOf(data), width, height, x, y)
  {
    var gray := GrayOf(data);
    IndexInRange(width, height, x, y);
    assert GrayAt(gray, width, height, x, y) == SumAt(data, width, height, x, y) as real / 3.0;
    var nearSum := exists nx, ny :: (x - Radius <= nx <= x + Radius && y - Radius <= ny <= y + Radius
      && DarkSum(data, width, height, nx, ny));
    if NearDark(gray, width, height, x, y) {
      var nx, ny :| x - Radius <= nx <= x + Radius && y - Radius <= ny <= y + Radius
        && DarkAt(gray, width, height, nx, ny);
      DarkAtIffDarkSum(data, width, height, nx, ny);
    }
    if nearSum {
      var nx, ny :| x - Radius <= nx <= x + Radius && y - Radius <= ny <= y + Radius
        && DarkSum(data, width, height, nx, ny);
      DarkAtIffDarkSum(data, width, height, nx, ny);
    }
  }
}
