/** The recommendation engine: a declared UK size, the foot-shape ratios and
    the four-zone comfort map become a size, a width and an explanation. */
module Recommendation {
  import opened Shape

  /** The value a comfort button carries. The toes, sides and midfoot zones
      offer tight/loose/ok; the heel zone's set includes `slips`. */
  datatype Feel = Tight | Loose | Ok | Slips

  /** A comfort map with all four zones filled in. */
  datatype ComfortMap = ComfortMap(toes: Feel, sides: Feel, midfoot: Feel, heel: Feel)

  datatype Width = Normal | Wide

  datatype Recommendation = Recommendation(size: real, width: Width, explanation: string)

  const MinSize: real := 3.0
  const MaxSize: real := 15.0

  // Each message is written as its opening word followed by the rest of the
  // sentence; ExplanationIsDefaultIffSilent tells the messages from the
  // default sentence by those opening words.
  const WideForefootNote := "Your" + " forefoot looks naturally broad, so we recommend the Wide fit."
  const SideTightNote := "You" + " mentioned side tightness, so we recommend the Wide fit."
  const ToeLengthNote := "You" + " mentioned toe tightness; we added half a size for extra room."
  const ToeWidthNote := "Your" + " toe tightness suggests you need more width."
  const ToeWideSizeNote := "Even" + " with Wide fit, we added half a size for your toe comfort."
  const HeelLockNote := "Your" + " heel shape is slightly narrow, so consider heel-lock lacing for best grip."
  const HeelLooseNote := "Heel" + " slippage combined with loose fit elsewhere suggests going down half a size."
  const MidfootNote := "For" + " midfoot tightness, consider lacing techniques or flexible materials."
  const DefaultExplanation := "Based" + " on your foot shape and feedback, we recommend this size and width."

  // ---------------------------------------------------------------------
  // Arithmetic helpers (JavaScript's Math.min/max/abs/round on exact reals)

  function Min(a: real, b: real): real { if a <= b then a else b }
  function Max(a: real, b: real): real { if a >= b then a else b }
  function Abs(a: real): real { if a >= 0.0 then a else -a }

  /** `Math.round(x * 2) / 2`; Math.round sends halves towards +infinity. */
  function RoundHalf(x: real): (r: real)
    ensures IsHalfStep(r)
    ensures x - 0.25 < r <= x + 0.25
  {
    (2.0 * x + 0.5).Floor as real / 2.0
  }

  /** x is a whole number of half sizes. */
  predicate IsHalfStep(x: real)
  {
    (2.0 * x).Floor as real == 2.0 * x
  }

  /** `Math.max(3, Math.min(15, x))`. */
  function ClampSize(x: real): real
  {
    Max(MinSize, Min(MaxSize, x))
  }

  // ---------------------------------------------------------------------
  // Shape flags

  predicate IsWideForefoot(f: FootRatios) { Greater(f.forefootWidthRatio, 0.38) }
  predicate IsTapered(f: FootRatios) { Less(f.toeTaperIndex, 0.65) }
  predicate IsSquare(f: FootRatios) { Greater(f.toeTaperIndex, 0.75) }
  predicate IsNarrowHeel(f: FootRatios) { Less(f.heelWidthRatio, 0.70) }

  // ---------------------------------------------------------------------
  // Reference definition: what each rule contributes, decided from the
  // inputs alone rather than from the accumulator the engine threads.

  /** The width is already Wide when the toe rule runs. */
  predicate WideBeforeToes(f: FootRatios, c: ComfortMap)
  {
    IsWideForefoot(f) || c.sides == Tight
  }

  /** Toe tightness on a square or broad foot that is still Normal asks for width. */
  predicate ToesAskWidth(f: FootRatios, c: ComfortMap)
  {
    c.toes == Tight && !IsTapered(f) && (IsSquare(f) || IsWideForefoot(f)) && !WideBeforeToes(f, c)
  }

  /** Toe tightness on a square or broad foot that is already Wide adds half a size. */
  predicate ToesAddWithWide(f: FootRatios, c: ComfortMap)
  {
    c.toes == Tight && !IsTapered(f) && (IsSquare(f) || IsWideForefoot(f)) && WideBeforeToes(f, c)
  }

  /** Some rule adds half a size. */
  predicate AddsHalf(f: FootRatios, c: ComfortMap)
  {
    (c.toes == Tight && IsTapered(f)) || ToesAddWithWide(f, c)
  }

  /** The heel rule takes half a size away. */
  predicate RemovesHalf(f: FootRatios, c: ComfortMap)
  {
    c.heel == Slips && !IsNarrowHeel(f) && (c.toes == Loose || c.sides == Loose)
  }

  /** The engine's "strong indicators", which would exempt a size from the cap. */
  predicate StrongIndicator(f: FootRatios, c: ComfortMap)
  {
    (c.toes == Tight && IsTapered(f)) || (c.heel == Slips && (c.toes == Loose || c.sides == Loose))
  }

  /** The width, in closed form. */
  function ExpectedWidth(f: FootRatios, c: ComfortMap): Width
  {
    if IsWideForefoot(f) || c.sides == Tight || (c.toes == Tight && !IsTapered(f) && IsSquare(f))
    then Wide else Normal
  }

  /** The size after the toe and heel rules, before the cap. */
  function AdjustedSize(u: real, f: FootRatios, c: ComfortMap): real
  {
    var afterToes := if AddsHalf(f, c) then Min(u + 0.5, MaxSize) else u;
    if RemovesHalf(f, c) then Max(afterToes - 0.5, MinSize) else afterToes
  }

  /** The cap: a move of more than half a size without a strong indicator
      is cut back to half a size in the direction of the move. */
  function Capped(u: real, s: real, strong: bool): real
  {
    if Abs(s - u) > 0.5 && !strong then (if s > u then u + 0.5 else u - 0.5) else s
  }

  function ExpectedSize(u: real, f: FootRatios, c: ComfortMap): real
  {
    ClampSize(RoundHalf(Capped(u, AdjustedSize(u, f, c), StrongIndicator(f, c))))
  }

  function Note(fires: bool, note: string): seq<string>
  {
    if fires then [note] else []
  }

  /** The messages the rules record, in rule order. */
  function ExpectedNotes(f: FootRatios, c: ComfortMap): seq<string>
  {
    Note(IsWideForefoot(f), WideForefootNote)
    + Note(!IsWideForefoot(f) && c.sides == Tight, SideTightNote)
    + Note(c.toes == Tight && IsTapered(f), ToeLengthNote)
    + Note(ToesAskWidth(f, c), ToeWidthNote)
    + Note(ToesAddWithWide(f, c), ToeWideSizeNote)
    + Note(c.heel == Slips && IsNarrowHeel(f), HeelLockNote)
    + Note(RemovesHalf(f, c), HeelLooseNote)
    + Note(c.midfoot == Tight, MidfootNote)
  }

  /** `explanations.join(' ')`. */
  function Join(notes: seq<string>): string
  {
    if |notes| == 0 then ""
    else if |notes| == 1 then notes[0]
    else notes[0] + " " + Join(notes[1..])
  }

  function Explain(notes: seq<string>): string
  {
    if |notes| > 0 then Join(notes) else DefaultExplanation
  }

  // ---------------------------------------------------------------------
  // The engine itself: guarded updates of an accumulator, in source order.

  method CalculateRecommendation(usualSize: real, footRatios: FootRatios, comfortMap: ComfortMap)
    returns (r: Recommendation)
    ensures r.size == ExpectedSize(usualSize, footRatios, comfortMap)
    ensures r.width == ExpectedWidth(footRatios, comfortMap)
    ensures r.explanation == Explain(ExpectedNotes(footRatios, comfortMap))
    ensures MinSize <= r.size <= MaxSize && IsHalfStep(r.size)
  {
    var recommendedSize := usualSize;
    var recommendedWidth, explanations := WidthRules(footRatios, comfortMap);
    recommendedSize, recommendedWidth, explanations :=
      ToeRules(footRatios, comfortMap, recommendedSize, recommendedWidth, explanations);
    recommendedSize, explanations := HeelRules(footRatios, comfortMap, recommendedSize, explanations);

    // Midfoot tightness only adds a note.
    if comfortMap.midfoot == Tight {
      explanations := explanations + [MidfootNote];
    }

    var strongIndicators := (comfortMap.toes == Tight && IsTapered(footRatios))
      || (comfortMap.heel == Slips && (comfortMap.toes == Loose || comfortMap.sides == Loose));
    recommendedSize := FinishSize(usualSize, recommendedSize, strongIndicators);

    assert explanations == ExpectedNotes(footRatios, comfortMap);
    var explanation := if |explanations| > 0 then Join(explanations) else DefaultExplanation;
    r := Recommendation(recommendedSize, recommendedWidth, explanation);
    SizeInRange(usualSize, footRatios, comfortMap);
  }

  /** The width rules: a broad forefoot, else tight sides, turn Normal into Wide. */
  method WidthRules(footRatios: FootRatios, comfortMap: ComfortMap)
    returns (recommendedWidth: Width, explanations: seq<string>)
    ensures recommendedWidth == if WideBeforeToes(footRatios, comfortMap) then Wide else Normal
    ensures explanations == Note(IsWideForefoot(footRatios), WideForefootNote)
      + Note(!IsWideForefoot(footRatios) && comfortMap.sides == Tight, SideTightNote)
  {
    recommendedWidth := Normal;
    explanations := [];
    if IsWideForefoot(footRatios) {
      recommendedWidth := Wide;
      explanations := explanations + [WideForefootNote];
    }
    if comfortMap.sides == Tight {
      if recommendedWidth == Normal {
        recommendedWidth := Wide;
        explanations := explanations + [SideTightNote];
      }
    }
  }

  /** The toe rule, run on the width the width rules chose. */
  method ToeRules(footRatios: FootRatios, comfortMap: ComfortMap,
                  size: real, width: Width, notes: seq<string>)
    returns (recommendedSize: real, recommendedWidth: Width, explanations: seq<string>)
    requires width == if WideBeforeToes(footRatios, comfortMap) then Wide else Normal
    ensures recommendedSize == if AddsHalf(footRatios, comfortMap) then Min(size + 0.5, MaxSize) else size
    ensures recommendedWidth == ExpectedWidth(footRatios, comfortMap)
    ensures explanations == notes
      + Note(comfortMap.toes == Tight && IsTapered(footRatios), ToeLengthNote)
      + Note(ToesAskWidth(footRatios, comfortMap), ToeWidthNote)
      + Note(ToesAddWithWide(footRatios, comfortMap), ToeWideSizeNote)
  {
    recommendedSize, recommendedWidth, explanations := size, width, notes;
    if comfortMap.toes == Tight {
      if IsTapered(footRatios) {
        // A tapered foot with tight toes has a length problem.
        recommendedSize := Min(recommendedSize + 0.5, 15.0);
        explanations := explanations + [ToeLengthNote];
      } else if IsSquare(footRatios) || IsWideForefoot(footRatios) {
        // A square or broad foot tries Wide first, then half a size up.
        if recommendedWidth == Normal {
          recommendedWidth := Wide;
          explanations := explanations + [ToeWidthNote];
        } else {
          recommendedSize := Min(recommendedSize + 0.5, 15.0);
          explanations := explanations + [ToeWideSizeNote];
        }
      }
    }
  }

  /** The heel rule: lacing advice for a narrow heel, else half a size down
      when the foot is loose elsewhere. */
  method HeelRules(footRatios: FootRatios, comfortMap: ComfortMap, size: real, notes: seq<string>)
    returns (recommendedSize: real, explanations: seq<string>)
    ensures recommendedSize == if RemovesHalf(footRatios, comfortMap) then Max(size - 0.5, MinSize) else size
    ensures explanations == notes
      + Note(comfortMap.heel == Slips && IsNarrowHeel(footRatios), HeelLockNote)
      + Note(RemovesHalf(footRatios, comfortMap), HeelLooseNote)
  {
    recommendedSize, explanations := size, notes;
    if comfortMap.heel == Slips {
      if IsNarrowHeel(footRatios) {
        explanations := explanations + [HeelLockNote];
      } else if comfortMap.toes == Loose || comfortMap.sides == Loose {
        recommendedSize := Max(recommendedSize - 0.5, 3.0);
        explanations := explanations + [HeelLooseNote];
      }
    }
  }

  /** The cap, the rounding to half sizes and the clamp to [3, 15]. */
  method FinishSize(usualSize: real, size: real, strongIndicators: bool) returns (r: real)
    ensures r == ClampSize(RoundHalf(Capped(usualSize, size, strongIndicators)))
  {
    r := size;
    var sizeDiff := Abs(r - usualSize);
    if sizeDiff > 0.5 {
      if !strongIndicators {
        if r > usualSize {
          r := usualSize + 0.5;
        } else {
          r := usualSize - 0.5;
        }
      }
    }
    r := RoundHalf(r);
    r := Max(3.0, Min(15.0, r));
  }

  // ---------------------------------------------------------------------
  // Properties of the recommendation

  /** Every recommended size lies in [3, 15] and is a whole number of half sizes. */
  lemma SizeInRange(u: real, f: FootRatios, c: ComfortMap)
    ensures MinSize <= ExpectedSize(u, f, c) <= MaxSize
    ensures IsHalfStep(ExpectedSize(u, f, c))
  {
    var r := RoundHalf(Capped(u, AdjustedSize(u, f, c), StrongIndicator(f, c)));
    HalfStepConst(3);
    HalfStepConst(15);
    assert ExpectedSize(u, f, c) in {r, MinSize, MaxSize};
  }

  lemma HalfStepConst(n: int)
    ensures IsHalfStep(n as real)
  {
    assert 2.0 * (n as real) == (2 * n) as real;
  }

  /** A whole number of half sizes is left alone by the rounding step. */
  lemma {:induction false} RoundHalfKeepsHalfSteps(x: real)
    requires IsHalfStep(x)
    ensures RoundHalf(x) == x
  {
    var k := (2.0 * x).Floor;
    assert 2.0 * x + 0.5 == k as real + 0.5;
    assert (2.0 * x + 0.5).Floor == k;
  }

  /** For a declared size in [3, 15] the toe and heel rules move the size by
      at most half a size, so the cap never changes it. */
  lemma CapIsDeadCode(u: real, f: FootRatios, c: ComfortMap)
    requires MinSize <= u <= MaxSize
    ensures Abs(AdjustedSize(u, f, c) - u) <= 0.5
    ensures Capped(u, AdjustedSize(u, f, c), StrongIndicator(f, c)) == AdjustedSize(u, f, c)
  {
  }

  /** For a declared size in [3, 15] that is a whole number of half sizes the
      result is one of usual - 1/2, usual, usual + 1/2: it goes up only when
      the toes are tight and a toe rule adds half a size, and down only when
      the heel slips on a foot that is loose elsewhere. */
  lemma ThreeOutcomes(u: real, f: FootRatios, c: ComfortMap)
    requires MinSize <= u <= MaxSize && IsHalfStep(u)
    ensures ExpectedSize(u, f, c) == AdjustedSize(u, f, c)
    ensures ExpectedSize(u, f, c) in {u - 0.5, u, u + 0.5}
    ensures ExpectedSize(u, f, c) > u ==> c.toes == Tight && AddsHalf(f, c)
    ensures ExpectedSize(u, f, c) < u ==> c.heel == Slips && RemovesHalf(f, c)
  {
    CapIsDeadCode(u, f, c);
    var s := AdjustedSize(u, f, c);
    var k := (2.0 * u).Floor;
    assert 2.0 * u == k as real;
    assert s in {u - 0.5, u, u + 0.5} by {
      HalfStepConst(3);
      HalfStepConst(15);
    }
    assert IsHalfStep(s) by {
      if s == u - 0.5 {
        assert 2.0 * s == (k - 1) as real;
      } else if s == u + 0.5 {
        assert 2.0 * s == (k + 1) as real;
      }
    }
    RoundHalfKeepsHalfSteps(s);
  }

  /** Width is Wide exactly when the forefoot is broad, the sides are tight,
      or the toes are tight on a square foot that is not tapered. */
  lemma WidthIsWideWhen(f: FootRatios, c: ComfortMap)
    ensures IsWideForefoot(f) || c.sides == Tight ==> ExpectedWidth(f, c) == Wide
    ensures !IsWideForefoot(f) && c.sides != Tight ==>
      (ExpectedWidth(f, c) == Wide <==> c.toes == Tight && !IsTapered(f) && IsSquare(f))
  {
  }

  /** A slipping heel on a narrow heel only adds the heel-lock advice: the
      size and width are those of the same feedback without the slip. */
  lemma NarrowHeelSlipKeepsSize(u: real, f: FootRatios, c: ComfortMap)
    requires c.heel == Slips && IsNarrowHeel(f)
    ensures ExpectedSize(u, f, c) == ExpectedSize(u, f, c.(heel := Ok))
    ensures ExpectedWidth(f, c) == ExpectedWidth(f, c.(heel := Ok))
    ensures HeelLockNote in ExpectedNotes(f, c)
  {
  }

  /** Midfoot tightness changes neither size nor width; it appends its note last. */
  lemma MidfootTightOnlyNotes(u: real, f: FootRatios, c: ComfortMap)
    requires c.midfoot == Tight
    ensures ExpectedSize(u, f, c) == ExpectedSize(u, f, c.(midfoot := Ok))
    ensures ExpectedWidth(f, c) == ExpectedWidth(f, c.(midfoot := Ok))
    ensures ExpectedNotes(f, c) == ExpectedNotes(f, c.(midfoot := Ok)) + [MidfootNote]
  {
  }

  /** Tight toes on a foot that is neither tapered, square nor broad (a taper
      index in [0.65, 0.75], or NaN) have no effect at all. */
  lemma TaperGapIsNoOp(u: real, f: FootRatios, c: ComfortMap)
    requires c.toes == Tight && !IsTapered(f) && !IsSquare(f) && !IsWideForefoot(f)
    ensures ExpectedSize(u, f, c) == ExpectedSize(u, f, c.(toes := Ok))
    ensures ExpectedWidth(f, c) == ExpectedWidth(f, c.(toes := Ok))
    ensures ExpectedNotes(f, c) == ExpectedNotes(f, c.(toes := Ok))
  {
  }

  /** A joined explanation starts with the first joined message. */
  lemma {:induction false} JoinStartsWithFirst(notes: seq<string>)
    requires |notes| > 0 && |notes[0]| > 0
    ensures |Join(notes)| > 0 && Join(notes)[0] == notes[0][0]
  {
  }

  /** The explanation is the default sentence exactly when no rule recorded a
      message; otherwise it is the recorded messages joined by single spaces. */
  lemma ExplanationIsDefaultIffSilent(f: FootRatios, c: ComfortMap)
    ensures Explain(ExpectedNotes(f, c)) == DefaultExplanation <==> ExpectedNotes(f, c) == []
    ensures ExpectedNotes(f, c) != [] ==> Explain(ExpectedNotes(f, c)) == Join(ExpectedNotes(f, c))
  {
    var notes := ExpectedNotes(f, c);
    if notes != [] {
      assert notes[0] in {WideForefootNote, SideTightNote, ToeLengthNote, ToeWidthNote,
                          ToeWideSizeNote, HeelLockNote, HeelLooseNote, MidfootNote};
      assert notes[0][0] != 'B';
      JoinStartsWithFirst(notes);
      assert DefaultExplanation[0] == 'B';
    }
  }

  /** Five example inputs and the recommendation each produces. */
  lemma Scenarios()
    ensures var r := FootRatios(Num(0.30), Num(0.70), Num(0.5), Num(0.75));
            var c := ComfortMap(Ok, Ok, Ok, Ok);
            ExpectedWidth(r, c) == Normal && ExpectedSize(9.0, r, c) == 9.0
            && Explain(ExpectedNotes(r, c)) == DefaultExplanation
    ensures var r := FootRatios(Num(0.40), Num(0.60), Num(0.5), Num(0.75));
            var c := ComfortMap(Tight, Ok, Ok, Ok);
            ExpectedWidth(r, c) == Wide && ExpectedSize(9.0, r, c) == 9.5
    ensures var r := FootRatios(Num(0.30), Num(0.80), Num(0.5), Num(0.75));
            var c := ComfortMap(Tight, Ok, Ok, Ok);
            ExpectedWidth(r, c) == Wide && ExpectedSize(9.0, r, c) == 9.0
    ensures var r := FootRatios(Num(0.30), Num(0.70), Num(0.5), Num(0.60));
            var c := ComfortMap(Ok, Ok, Ok, Slips);
            ExpectedSize(9.0, r, c) == 9.0 && ExpectedNotes(r, c) == [HeelLockNote]
    ensures var r := FootRatios(Num(0.30), Num(0.70), Num(0.5), Num(0.80));
            var c := ComfortMap(Loose, Ok, Ok, Slips);
            ExpectedSize(9.0, r, c) == 8.5
  {
    HalfStepConst(18);
    RoundHalfKeepsHalfSteps(9.0);
    assert 2.0 * 9.5 == 19 as real;
    RoundHalfKeepsHalfSteps(9.5);
    assert 2.0 * 8.5 == 17 as real;
    RoundHalfKeepsHalfSteps(8.5);
  }
}
