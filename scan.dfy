/** Width of the foot along one horizontal scan-line: a scan from the left
    and a scan from the right for the first dark pixel between the box's
    horizontal bounds. */
module Scan {
  import opened Grid

  /** `idx >= 0 && idx < grayscale.length && grayscale[idx] < threshold`.
      Only an integer index reads a value; a non-integer index (possible
      with the fallback box's fractional bounds) reads `undefined`, which is
      never below the threshold. */
  predicate DarkIndex(gray: seq<real>, idx: real)
  {
    idx == idx.Floor as real && 0 <= idx.Floor < |gray| && gray[idx.Floor] < Threshold
  }

  /** How many positions each scan visits: minX, minX + 1, ... strictly below
      maxX from the left, and maxX, maxX - 1, ... strictly above minX from the right. */
  function Steps(minX: real, maxX: real): nat
  {
    if maxX > minX then -((minX - maxX).Floor) else 0
  }

  lemma StepsMeaning(minX: real, maxX: real, k: int)
    requires k >= 0
    ensures k < Steps(minX, maxX) <==> minX + k as real < maxX
  {
    if maxX > minX {
      var t := minX - maxX;
      assert t.Floor as real <= t < t.Floor as real + 1.0;
      if minX + k as real < maxX {
        assert t < -(k as real);
        assert t.Floor < -k;
      }
    }
  }

  /** The left scan, k steps in, reads a dark pixel; base is floor(y) * width. */
  predicate LeftHit(gray: seq<real>, base: real, minX: real, k: int)
  {
    DarkIndex(gray, base + minX + k as real)
  }

  /** The right scan, j steps in, reads a dark pixel. */
  predicate RightHit(gray: seq<real>, base: real, maxX: real, j: int)
  {
    DarkIndex(gray, base + maxX - j as real)
  }

  /** The first step at or after k where the left scan hits, or n if none. */
  function FirstLeftHit(gray: seq<real>, base: real, minX: real, n: nat, k: nat): (i: nat)
    requires k <= n
    ensures k <= i <= n
    ensures i < n ==> LeftHit(gray, base, minX, i)
    ensures forall i' :: k <= i' < i ==> !LeftHit(gray, base, minX, i')
    decreases n - k
  {
    if k == n then n
    else if LeftHit(gray, base, minX, k) then k
    else FirstLeftHit(gray, base, minX, n, k + 1)
  }

  /** The first step at or after j where the right scan hits, or n if none. */
  function FirstRightHit(gray: seq<real>, base: real, maxX: real, n: nat, j: nat): (i: nat)
    requires j <= n
    ensures j <= i <= n
    ensures i < n ==> RightHit(gray, base, maxX, i)
    ensures forall i' :: j <= i' < i ==> !RightHit(gray, base, maxX, i')
    decreases n - j
  {
    if j == n then n
    else if RightHit(gray, base, maxX, j) then j
    else FirstRightHit(gray, base, maxX, n, j + 1)
  }

  /** The left edge: the first dark position from the left, else minX. */
  function LeftEdge(gray: seq<real>, base: real, minX: real, maxX: real): real
  {
    var i := FirstLeftHit(gray, base, minX, Steps(minX, maxX), 0);
    if i < Steps(minX, maxX) then minX + i as real else minX
  }

  /** The right edge: the first dark position from the right, else maxX. */
  function RightEdge(gray: seq<real>, base: real, minX: real, maxX: real): real
  {
    var j := FirstRightHit(gray, base, maxX, Steps(minX, maxX), 0);
    if j < Steps(minX, maxX) then maxX - j as real else maxX
  }

  /** `rightEdge - leftEdge || (maxX - minX) * 0.6`; with minX <= maxX it
      lies in [0, maxX - minX]. */
  function WidthAtY(gray: seq<real>, width: nat, y: real, minX: real, maxX: real): (w: real)
    ensures minX <= maxX ==> 0.0 <= w <= maxX - minX
  {
    var base := (y.Floor * width) as real;
    var d := RightEdge(gray, base, minX, maxX) - LeftEdge(gray, base, minX, maxX);
    var w := if d != 0.0 then d else (maxX - minX) * 0.6;
    if minX <= maxX then (EdgesOrdered(gray, base, minX, maxX); w) else w
  }

  /** `getWidthAtY`: the two scanning loops, each stopping at its first dark pixel. */
  method GetWidthAtY(y: real, grayscale: seq<real>, width: nat, height: nat, minX: real, maxX: real)
    returns (w: real)
    ensures w == WidthAtY(grayscale, width, y, minX, maxX)
  {
    var row := y.Floor;
    ghost var base := (row * width) as real;
    ghost var n := Steps(minX, maxX);
    var leftEdge := minX;
    var rightEdge := maxX;

    var x := minX;
    ghost var k := 0;
    while x < maxX
      invariant 0 <= k <= n && x == minX + k as real
      invariant forall i :: 0 <= i < k ==> !LeftHit(grayscale, base, minX, i)
      invariant leftEdge == minX
      decreases n - k
    {
      StepsMeaning(minX, maxX, k);
      var idx := (row * width) as real + x;
      if DarkIndex(grayscale, idx) {
        assert LeftHit(grayscale, base, minX, k);
        leftEdge := x;
        break;
      }
      x := x + 1.0;
      k := k + 1;
    }
    StepsMeaning(minX, maxX, k);
    assert leftEdge == LeftEdge(grayscale, base, minX, maxX);

    x := maxX;
    ghost var j := 0;
    while x > minX
      invariant 0 <= j <= n && x == maxX - j as real
      invariant forall i :: 0 <= i < j ==> !RightHit(grayscale, base, maxX, i)
      invariant rightEdge == maxX
      decreases n - j
    {
      StepsMeaning(minX, maxX, j);
      var idx := (row * width) as real + x;
      if DarkIndex(grayscale, idx) {
        assert RightHit(grayscale, base, maxX, j);
        rightEdge := x;
        break;
      }
      x := x - 1.0;
      j := j + 1;
    }
    StepsMeaning(minX, maxX, j);
    assert rightEdge == RightEdge(grayscale, base, minX, maxX);

    var d := rightEdge - leftEdge;
    w := if d != 0.0 then d else (maxX - minX) * 0.6;
  }

  /** Along any scan-line, each edge lies in [minX, maxX] and the right edge
      is never left of the left edge; so the width is in [0, maxX - minX]. */
  lemma EdgesOrdered(gray: seq<real>, base: real, minX: real, maxX: real)
    requires minX <= maxX
    ensures minX <= LeftEdge(gray, base, minX, maxX) <= RightEdge(gray, base, minX, maxX) <= maxX
  {
    var n := Steps(minX, maxX);
    var i := FirstLeftHit(gray, base, minX, n, 0);
    var j := FirstRightHit(gray, base, maxX, n, 0);
    var L := LeftEdge(gray, base, minX, maxX);
    var R := RightEdge(gray, base, minX, maxX);
    StepsMeaning(minX, maxX, i);
    StepsMeaning(minX, maxX, j);
    if i < n && j < n && R < L {
      // Both reads hit an integer index, so the edges are a whole number of
      // steps apart, and the right scan would have met the left edge first.
      var a := (base + L).Floor;
      var b := (base + R).Floor;
      assert a as real == base + L && b as real == base + R;
      var m := a - b;
      assert m >= 1;
      var j' := j - m;
      assert L == maxX - j' as real;
      assert 0 <= j' < j;
      assert RightHit(gray, base, maxX, j');
      assert false;
    }
  }

  /** The pixel in column x of the row containing y is below the threshold. */
  predicate DarkPixel(gray: seq<real>, width: nat, y: real, x: int)
  {
    DarkIndex(gray, (y.Floor * width) as real + x as real)
  }

  /** When no pixel strictly inside the box's bounds on the scan-line is
      dark, the width is the whole box width: a dark pixel on either bound
      only confirms the edge the scan starts from. */
  lemma NoDarkGivesBoxWidth(gray: seq<real>, width: nat, y: real, minX: real, maxX: real)
    requires minX <= maxX
    requires forall x: int :: minX < x as real < maxX ==> !DarkPixel(gray, width, y, x)
    ensures WidthAtY(gray, width, y, minX, maxX) == maxX - minX
  {
    var base := (y.Floor * width) as real;
    var n := Steps(minX, maxX);
    var i := FirstLeftHit(gray, base, minX, n, 0);
    var j := FirstRightHit(gray, base, maxX, n, 0);
    if 0 < i < n {
      // The hit reads an integer index, so minX + i is a whole position
      // strictly inside the bounds.
      var x := (base + minX + i as real).Floor - y.Floor * width;
      assert x as real == minX + i as real;
      StepsMeaning(minX, maxX, i);
      assert DarkPixel(gray, width, y, x);
    }
    if 0 < j < n {
      var x := (base + maxX - j as real).Floor - y.Floor * width;
      assert x as real == maxX - j as real;
      StepsMeaning(minX, maxX, j);
      assert DarkPixel(gray, width, y, x);
    }
    assert LeftEdge(gray, base, minX, maxX) == minX;
    assert RightEdge(gray, base, minX, maxX) == maxX;
  }

  /** When the two edges coincide (a single dark pixel on the line) the width
      falls back to 60% of the box width. */
  lemma CoincidingEdgesFallBack(gray: seq<real>, width: nat, y: real, minX: real, maxX: real)
    requires LeftEdge(gray, (y.Floor * width) as real, minX, maxX)
          == RightEdge(gray, (y.Floor * width) as real, minX, maxX)
    ensures WidthAtY(gray, width, y, minX, maxX) == (maxX - minX) * 0.6
  {
  }

  /** A scan-line of an ordered box measures zero exactly when the box has
      width zero, so the `||` width fallbacks of the extractor fire only then. */
  lemma ZeroWidthBox(gray: seq<real>, width: nat, y: real, minX: real, maxX: real)
    requires minX <= maxX
    ensures WidthAtY(gray, width, y, minX, maxX) == 0.0 <==> minX == maxX
  {
  }
}
