/** The measurement extractor: from the photo's RGBA data to six relative
    foot measurements, and from those to the four shape ratios. */
module Measurements {
  import opened Grid
  import opened FootBox
  import opened Scan
  import opened Shape

  datatype Measurements = Measurements(
    footLength: real,
    forefootWidth: real,
    midfootWidth: real,
    heelWidth: real,
    bigToeLength: real,
    littleToeLength: real)

  /** JavaScript's `v || fallback` on a number: zero (like NaN) is falsy. */
  function Or(v: real, fallback: real): real
  {
    if v != 0.0 then v else fallback
  }

  /** The record the extractor returns: each raw measurement, or its fallback
      proportion when it is zero. The toe fallbacks are proportions of the
      raw foot length, not of the foot length's own fallback. */
  function WithFallbacks(raw: Measurements, height: nat, footWidth: real): Measurements
  {
    Measurements(
      Or(raw.footLength, height as real * 0.85),
      Or(raw.forefootWidth, footWidth * 0.75),
      Or(raw.midfootWidth, footWidth * 0.55),
      Or(raw.heelWidth, footWidth * 0.50),
      Or(raw.bigToeLength, raw.footLength * 0.22),
      Or(raw.littleToeLength, raw.footLength * 0.15))
  }

  /** The little-toe estimate: the big toe (22% of the foot length) scaled
      by 0.5 + 0.3 * forefootWidth / footLength. With a zero foot length the
      browser computes 0 * Infinity or 0 * NaN, which is NaN and as falsy as
      the 0 written here. */
  function LittleToe(footLength: real, forefootWidth: real): real
  {
    if footLength == 0.0 then 0.0 else footLength * 0.22 * (0.5 + (forefootWidth / footLength) * 0.3)
  }

  /** The raw record from the foot length and the three widths. */
  function RawFrom(footLength: real, forefootWidth: real, midfootWidth: real, heelWidth: real): Measurements
  {
    Measurements(footLength, forefootWidth, midfootWidth, heelWidth,
                 footLength * 0.22, LittleToe(footLength, forefootWidth))
  }

  /** The scan-line a fraction of the way down the box. */
  function LineY(box: Box, fraction: real): real
  {
    box.minY + (box.maxY - box.minY) * fraction
  }

  /** The measurements read off a box before the fallbacks: the box height
      and the widths at 30%, 50% and 80% of the way down. */
  function RawMeasurements(gray: seq<real>, width: nat, box: Box): Measurements
  {
    RawFrom(box.maxY - box.minY,
      WidthAtY(gray, width, LineY(box, 0.3), box.minX, box.maxX),
      WidthAtY(gray, width, LineY(box, 0.5), box.minX, box.maxX),
      WidthAtY(gray, width, LineY(box, 0.8), box.minX, box.maxX))
  }

  /** The measurements the extractor returns for a given box. */
  function MeasureBox(gray: seq<real>, width: nat, height: nat, box: Box): Measurements
  {
    WithFallbacks(RawMeasurements(gray, width, box), height, box.maxX - box.minX)
  }

  /** What every returned record satisfies: a positive foot length,
      nonnegative values, a zero divisor only where its numerator is zero
      too, and a little toe at least half the big toe. */
  predicate Plausible(m: Measurements)
  {
    && m.footLength > 0.0
    && m.forefootWidth >= 0.0 && m.midfootWidth >= 0.0 && m.heelWidth >= 0.0
    && m.bigToeLength >= 0.0 && m.littleToeLength >= 0.0
    && (m.forefootWidth == 0.0 ==> m.midfootWidth == 0.0 && m.heelWidth == 0.0)
    && (m.bigToeLength == 0.0 ==> m.littleToeLength == 0.0)
    && (m.bigToeLength > 0.0 ==> m.littleToeLength >= 0.5 * m.bigToeLength)
  }

  /** Each returned measurement is its raw value when that is nonzero and
      its fallback when it is zero. */
  lemma ZeroMeasurementsFallBack(raw: Measurements, height: nat, footWidth: real)
    ensures var m := WithFallbacks(raw, height, footWidth);
      && m.footLength == (if raw.footLength == 0.0 then height as real * 0.85 else raw.footLength)
      && m.forefootWidth == (if raw.forefootWidth == 0.0 then footWidth * 0.75 else raw.forefootWidth)
      && m.midfootWidth == (if raw.midfootWidth == 0.0 then footWidth * 0.55 else raw.midfootWidth)
      && m.heelWidth == (if raw.heelWidth == 0.0 then footWidth * 0.50 else raw.heelWidth)
      && m.bigToeLength == (if raw.bigToeLength == 0.0 then raw.footLength * 0.22 else raw.bigToeLength)
      && m.littleToeLength == (if raw.littleToeLength == 0.0 then raw.footLength * 0.15 else raw.littleToeLength)
  {
  }

  lemma MulNonneg(a: real, b: real)
    requires a >= 0.0 && b >= 0.0
    ensures a * b >= 0.0
  {
  }

  lemma DivNonneg(a: real, b: real)
    requires a >= 0.0 && b > 0.0
    ensures a / b >= 0.0
  {
  }

  lemma DivAtLeast(a: real, b: real, c: real)
    requires b > 0.0 && a >= c * b
    ensures a / b >= c
  {
  }

  lemma MulDivCancel(b: real, x: real)
    requires b != 0.0
    ensures (b * x) / b == x
  {
  }

  /** The fallbacks turn any raw record with a nonnegative foot length and
      widths within [0, footWidth] into a plausible one. */
  lemma RawFromPlausible(fl: real, fw: real, ff: real, mf: real, hf: real, height: nat)
    requires height >= 1 && fl >= 0.0 && fw >= 0.0
    requires 0.0 <= ff <= fw && 0.0 <= mf <= fw && 0.0 <= hf <= fw
    requires fw == 0.0 ==> ff == 0.0 && mf == 0.0 && hf == 0.0
    ensures Plausible(WithFallbacks(RawFrom(fl, ff, mf, hf), height, fw))
  {
    var raw := RawFrom(fl, ff, mf, hf);
    if fl != 0.0 {
      var t := ff / fl;
      DivNonneg(ff, fl);
      MulNonneg(raw.bigToeLength, t * 0.3);
      assert raw.littleToeLength == 0.5 * raw.bigToeLength + raw.bigToeLength * (t * 0.3);
    }
  }

  /** For any ordered box the returned measurements are plausible and the
      three widths do not exceed the box width. */
  lemma MeasureBoxPlausible(gray: seq<real>, width: nat, height: nat, box: Box)
    requires height >= 1 && box.minX <= box.maxX && box.minY <= box.maxY
    ensures Plausible(MeasureBox(gray, width, height, box))
    ensures var m := MeasureBox(gray, width, height, box);
      && m.forefootWidth <= box.maxX - box.minX
      && m.midfootWidth <= box.maxX - box.minX
      && m.heelWidth <= box.maxX - box.minX
  {
    var raw := RawMeasurements(gray, width, box);
    RawWidthsWithinBox(gray, width, box);
    assert raw == RawFrom(raw.footLength, raw.forefootWidth, raw.midfootWidth, raw.heelWidth);
    RawFromPlausible(raw.footLength, box.maxX - box.minX,
                     raw.forefootWidth, raw.midfootWidth, raw.heelWidth, height);
  }

  /** The three raw widths lie in [0, maxX - minX]. */
  lemma RawWidthsWithinBox(gray: seq<real>, width: nat, box: Box)
    requires box.minX <= box.maxX
    ensures var raw := RawMeasurements(gray, width, box);
      && 0.0 <= raw.forefootWidth <= box.maxX - box.minX
      && 0.0 <= raw.midfootWidth <= box.maxX - box.minX
      && 0.0 <= raw.heelWidth <= box.maxX - box.minX
  {
    var ff := WidthAtY(gray, width, LineY(box, 0.3), box.minX, box.maxX);
    var mf := WidthAtY(gray, width, LineY(box, 0.5), box.minX, box.maxX);
    var hf := WidthAtY(gray, width, LineY(box, 0.8), box.minX, box.maxX);
    assert RawMeasurements(gray, width, box) == RawFrom(box.maxY - box.minY, ff, mf, hf);
  }

  /** `extractFootMeasurements`: grayscale conversion, the bounding-box scan,
      then the measurements read off the box. */
  method ExtractFootMeasurements(pixels: seq<Byte>, width: nat, height: nat)
    returns (m: Measurements, ghost box: Box)
    requires width >= 1 && height >= 1 && |pixels| == 4 * (width * height)
    ensures BoxFits(GrayOf(pixels), width, height, box)
    ensures m == MeasureBox(GrayOf(pixels), width, height, box)
    ensures Plausible(m)
  {
    var grayscale := Grayscale(pixels);
    var footBox, footPixels := FindFootBox(grayscale, width, height);
    m := MeasureFoot(grayscale, width, height, footBox);
    MeasureBoxPlausible(grayscale, width, height, footBox);
    box := footBox;
  }

  /** The second half of `extractFootMeasurements`: three scan-line widths,
      the toe estimates and the fallbacks. */
  method MeasureFoot(grayscale: seq<real>, width: nat, height: nat, box: Box) returns (m: Measurements)
    ensures m == MeasureBox(grayscale, width, height, box)
  {
    var minX, maxX, minY, maxY := box.minX, box.maxX, box.minY, box.maxY;

    var footLength := maxY - minY;
    var footWidth := maxX - minX;

    var forefootY := minY + (maxY - minY) * 0.3;
    assert forefootY == LineY(box, 0.3);
    var forefootWidth := GetWidthAtY(forefootY, grayscale, width, height, minX, maxX);
    var midfootY := minY + (maxY - minY) * 0.5;
    assert midfootY == LineY(box, 0.5);
    var midfootWidth := GetWidthAtY(midfootY, grayscale, width, height, minX, maxX);
    var heelY := minY + (maxY - minY) * 0.8;
    assert heelY == LineY(box, 0.8);
    var heelWidth := GetWidthAtY(heelY, grayscale, width, height, minX, maxX);

    ghost var raw := RawFrom(footLength, forefootWidth, midfootWidth, heelWidth);
    var bigToeLength := footLength * 0.22;
    var littleToeLength := LittleToe(footLength, forefootWidth);

    m := Measurements(
      Or(footLength, height as real * 0.85),
      Or(forefootWidth, footWidth * 0.75),
      Or(midfootWidth, footWidth * 0.55),
      Or(heelWidth, footWidth * 0.50),
      Or(bigToeLength, footLength * 0.22),
      Or(littleToeLength, footLength * 0.15));
    assert m == WithFallbacks(raw, height, footWidth);
  }

  /** The ratio block of the photo analysis. */
  function RatiosOf(m: Measurements): FootRatios
  {
    FootRatios(
      Div(m.forefootWidth, m.footLength),
      Div(m.littleToeLength, m.bigToeLength),
      Div(m.midfootWidth, m.forefootWidth),
      Div(m.heelWidth, m.forefootWidth))
  }

  /** On a returned record, every division is by a nonzero number or is 0/0,
      so NaN is the only non-number the browser can produce; the forefoot
      ratio is always a number; and every ratio is nonnegative, the toe
      taper index at least 1/2. */
  lemma DivisionsAreZeroOverZero(m: Measurements)
    requires Plausible(m)
    ensures var r := RatiosOf(m);
      && r.forefootWidthRatio.Num? && r.forefootWidthRatio.value >= 0.0
      && (r.toeTaperIndex.NaN? ==> m.bigToeLength == 0.0 && m.littleToeLength == 0.0)
      && (r.toeTaperIndex.Num? ==> r.toeTaperIndex.value >= 0.5)
      && (r.midfootWidthRatio.NaN? ==> m.forefootWidth == 0.0 && m.midfootWidth == 0.0)
      && (r.midfootWidthRatio.Num? ==> r.midfootWidthRatio.value >= 0.0)
      && (r.heelWidthRatio.NaN? ==> m.forefootWidth == 0.0 && m.heelWidth == 0.0)
      && (r.heelWidthRatio.Num? ==> r.heelWidthRatio.value >= 0.0)
  {
    DivNonneg(m.forefootWidth, m.footLength);
    if m.bigToeLength > 0.0 {
      DivAtLeast(m.littleToeLength, m.bigToeLength, 0.5);
    }
    if m.forefootWidth > 0.0 {
      DivNonneg(m.midfootWidth, m.forefootWidth);
      DivNonneg(m.heelWidth, m.forefootWidth);
    }
  }

  /** The toe taper index is not measured from the toes: on a box of nonzero
      height it is 1/2 + 0.3 times the raw forefoot width over the foot length. */
  lemma TaperIndexFromForefoot(gray: seq<real>, width: nat, height: nat, box: Box)
    requires box.minY < box.maxY && box.minX <= box.maxX
    ensures RatiosOf(MeasureBox(gray, width, height, box)).toeTaperIndex
         == Num(0.5 + RawMeasurements(gray, width, box).forefootWidth / (box.maxY - box.minY) * 0.3)
  {
    var raw := RawMeasurements(gray, width, box);
    RawWidthsWithinBox(gray, width, box);
    assert raw == RawFrom(raw.footLength, raw.forefootWidth, raw.midfootWidth, raw.heelWidth);
    TaperOfRaw(raw.footLength, raw.forefootWidth, raw.midfootWidth, raw.heelWidth,
               height, box.maxX - box.minX);
  }

  lemma TaperOfRaw(fl: real, ff: real, mf: real, hf: real, height: nat, fw: real)
    requires fl > 0.0 && ff >= 0.0
    ensures RatiosOf(WithFallbacks(RawFrom(fl, ff, mf, hf), height, fw)).toeTaperIndex
         == Num(0.5 + ff / fl * 0.3)
  {
    var raw := RawFrom(fl, ff, mf, hf);
    var t := ff / fl;
    DivNonneg(ff, fl);
    MulNonneg(raw.bigToeLength, t * 0.3);
    assert raw.littleToeLength == 0.5 * raw.bigToeLength + raw.bigToeLength * (t * 0.3);
    MulDivCancel(raw.bigToeLength, 0.5 + t * 0.3);
  }

  /** A box of zero height (the foot mask spans one row) gets the fallback
      foot length, but the toe fallbacks are proportions of the zero raw
      length: both toe lengths are 0, so the toe taper index is 0/0, NaN. */
  lemma FlatBoxHasNoTaperIndex(gray: seq<real>, width: nat, height: nat, box: Box)
    requires box.minY == box.maxY
    ensures MeasureBox(gray, width, height, box).footLength == height as real * 0.85
    ensures MeasureBox(gray, width, height, box).bigToeLength == 0.0
    ensures MeasureBox(gray, width, height, box).littleToeLength == 0.0
    ensures RatiosOf(MeasureBox(gray, width, height, box)).toeTaperIndex == NaN
  {
    var raw := RawMeasurements(gray, width, box);
    assert raw.footLength == 0.0 && raw.bigToeLength == 0.0 && raw.littleToeLength == 0.0;
  }
}
