/** The wizard's application state: the declared size, the photo, the
    shape ratios read off it and the comfort map filled in one zone at a
    time; and the step handlers that update it. */
module Wizard {
  import opened Shape
  import opened Recommendation
  import Grid
  import FootBox
  import M = Measurements

  datatype Option<T> = None | Some(value: T)

  datatype Zone = Toes | Sides | Midfoot | Heel

  /** A decoded photo: its RGBA bytes, four per pixel, row by row. */
  datatype Photo = Photo(pixels: seq<Grid.Byte>, width: nat, height: nat)

  /** The canvas of a decoded image has at least one pixel and four bytes per pixel. */
  predicate Decoded(p: Photo)
  {
    p.width >= 1 && p.height >= 1 && |p.pixels| == 4 * (p.width * p.height)
  }

  /** The size check of the size step: `size && size >= 3 && size <= 15`,
      where `None` stands for the NaN that `parseFloat` returns on text that
      is not a number, and for the infinities it can also return; the check
      rejects all of them. */
  predicate SizeAccepted(parsed: Option<real>)
  {
    parsed.Some? && parsed.value != 0.0 && parsed.value >= 3.0 && parsed.value <= 15.0
  }

  /** The comfort map as a map from zone to answer; a zone still `null` is
      absent. */
  predicate AllFilled(comfort: map<Zone, Feel>)
  {
    forall z: Zone :: z in comfort
  }

  /** The comfort map after a series of completed zone answers. */
  function Fill(comfort: map<Zone, Feel>, answers: seq<(Zone, Feel)>): (r: map<Zone, Feel>)
    ensures r.Keys == comfort.Keys + set i | 0 <= i < |answers| :: answers[i].0
    decreases |answers|
  {
    if |answers| == 0 then comfort
    else
      var r := Fill(comfort[answers[0].0 := answers[0].1], answers[1..]);
      assert forall i :: 1 <= i < |answers| ==> answers[i].0 == answers[1..][i - 1].0;
      r
  }

  /** `zones.every(zone => comfortMap[zone] !== null)` over the four zones. */
  lemma AllFilledIffFourZones(comfort: map<Zone, Feel>)
    ensures AllFilled(comfort) <==>
      Toes in comfort && Sides in comfort && Midfoot in comfort && Heel in comfort
  {
    if Toes in comfort && Sides in comfort && Midfoot in comfort && Heel in comfort {
      forall z: Zone ensures z in comfort {
        match z
        case Toes =>
        case Sides =>
        case Midfoot =>
        case Heel =>
      }
    }
  }

  /** `analyzeFootImage`: the measurements of the photo, read off the box
      the scan settles on, and the ratio record built from them. The forefoot
      ratio is always a number; the taper index is at least 1/2 when it is one. */
  method AnalyzeFootImage(img: Photo) returns (ratios: FootRatios, ghost box: FootBox.Box)
    requires Decoded(img)
    ensures FootBox.BoxFits(Grid.GrayOf(img.pixels), img.width, img.height, box)
    ensures ratios == M.RatiosOf(M.MeasureBox(Grid.GrayOf(img.pixels), img.width, img.height, box))
    ensures ratios.forefootWidthRatio.Num? && ratios.forefootWidthRatio.value >= 0.0
    ensures ratios.toeTaperIndex.Num? ==> ratios.toeTaperIndex.value >= 0.5
  {
    var measurements;
    measurements, box := M.ExtractFootMeasurements(img.pixels, img.width, img.height);
    ratios := M.RatiosOf(measurements);
    M.DivisionsAreZeroOverZero(measurements);
  }

  class AppState {
    var usualSize: Option<real>
    var footImage: Option<Photo>
    var footRatios: Option<FootRatios>
    var comfortMap: map<Zone, Feel>
    /** The zone whose controls are open (a variable beside the state object). */
    var currentZone: Option<Zone>
    /** The comfort button marked selected. */
    var selectedFeel: Option<Feel>
    /** The box the last analysis settled on. */
    ghost var footBox: FootBox.Box

    /** A stored size passed the size check, and a stored photo is decoded. */
    predicate Valid()
      reads this
    {
      && (usualSize.Some? ==> MinSize <= usualSize.value <= MaxSize)
      && (footImage.Some? ==> Decoded(footImage.value))
    }

    /** The stored ratios are those of the measurements read off the stored
        photo, on the box the scan settled on. */
    ghost predicate RatiosMatchPhoto()
      reads this
    {
      && footImage.Some? && Decoded(footImage.value) && footRatios.Some?
      && var img := footImage.value;
         && FootBox.BoxFits(Grid.GrayOf(img.pixels), img.width, img.height, footBox)
         && footRatios.value == M.RatiosOf(M.MeasureBox(Grid.GrayOf(img.pixels), img.width, img.height, footBox))
    }

    /** Everything the results step reads is present. */
    predicate Ready()
      reads this
    {
      usualSize.Some? && footRatios.Some? && AllFilled(comfortMap)
    }

    /** The state the page starts in: every entry null, no zone open. */
    constructor()
      ensures Valid()
      ensures usualSize == None && footImage == None && footRatios == None
      ensures comfortMap == map[] && currentZone == None && selectedFeel == None
    {
      usualSize := None;
      footImage := None;
      footRatios := None;
      comfortMap := map[];
      currentZone := None;
      selectedFeel := None;
    }

    /** The size step's continue button: a number in [3, 15] is stored,
        anything else leaves the state alone. */
    method SubmitSize(parsed: Option<real>) returns (accepted: bool)
      requires Valid()
      modifies this
      ensures Valid()
      ensures footBox == old(footBox)
      ensures old(RatiosMatchPhoto()) ==> RatiosMatchPhoto()
      ensures accepted <==> parsed.Some? && MinSize <= parsed.value <= MaxSize
      ensures accepted ==> usualSize == parsed
      ensures !accepted ==> usualSize == old(usualSize)
      ensures footImage == old(footImage) && footRatios == old(footRatios)
      ensures comfortMap == old(comfortMap)
      ensures currentZone == old(currentZone) && selectedFeel == old(selectedFeel)
    {
      accepted := SizeAccepted(parsed);
      if accepted {
        usualSize := parsed;
      }
    }

    /** The image's load handler: the decoded photo is kept. */
    method LoadPhoto(img: Photo)
      requires Valid() && Decoded(img)
      modifies this
      ensures Valid()
      ensures footBox == old(footBox)
      ensures footImage == Some(img)
      ensures usualSize == old(usualSize) && footRatios == old(footRatios)
      ensures comfortMap == old(comfortMap)
      ensures currentZone == old(currentZone) && selectedFeel == old(selectedFeel)
    {
      footImage := Some(img);
    }

    /** The retake button drops the photo. */
    method RetakePhoto()
      requires Valid()
      modifies this
      ensures Valid()
      ensures footBox == old(footBox)
      ensures footImage == None
      ensures usualSize == old(usualSize) && footRatios == old(footRatios)
      ensures comfortMap == old(comfortMap)
      ensures currentZone == old(currentZone) && selectedFeel == old(selectedFeel)
    {
      footImage := None;
    }

    /** The photo step's continue button: with a photo present,
        `analyzeFootImage` stores the four ratios of the measurements read
        off it; without one nothing happens. */
    method PhotoContinue() returns (analyzed: bool)
      requires Valid()
      modifies this
      ensures Valid()
      ensures analyzed <==> footImage.Some?
      ensures analyzed ==> RatiosMatchPhoto()
      ensures !analyzed ==> footRatios == old(footRatios)
      ensures usualSize == old(usualSize) && footImage == old(footImage)
      ensures comfortMap == old(comfortMap)
      ensures currentZone == old(currentZone) && selectedFeel == old(selectedFeel)
    {
      analyzed := footImage.Some?;
      if analyzed {
        var ratios;
        ratios, footBox := AnalyzeFootImage(footImage.value);
        footRatios := Some(ratios);
      }
    }

    /** A tap on a zone opens its controls and clears the selected button. */
    method SelectZone(zone: Zone)
      requires Valid()
      modifies this
      ensures Valid()
      ensures footBox == old(footBox)
      ensures old(RatiosMatchPhoto()) ==> RatiosMatchPhoto()
      ensures currentZone == Some(zone) && selectedFeel == None
      ensures usualSize == old(usualSize) && footImage == old(footImage)
      ensures footRatios == old(footRatios) && comfortMap == old(comfortMap)
    {
      currentZone := Some(zone);
      selectedFeel := None;
    }

    /** A tap on a comfort button marks it as the only selected one. */
    method PickFeel(feel: Feel)
      requires Valid()
      modifies this
      ensures Valid()
      ensures footBox == old(footBox)
      ensures old(RatiosMatchPhoto()) ==> RatiosMatchPhoto()
      ensures selectedFeel == Some(feel)
      ensures usualSize == old(usualSize) && footImage == old(footImage)
      ensures footRatios == old(footRatios) && comfortMap == old(comfortMap)
      ensures currentZone == old(currentZone)
    {
      selectedFeel := Some(feel);
    }

    /** The done button: with a button selected and a zone open, the answer is
        recorded for that zone, the zone is closed, and the continue button is
        revealed exactly when every zone has an answer. Otherwise nothing
        happens. The selected button stays selected. */
    method ZoneDone() returns (handled: bool, revealContinue: bool)
      requires Valid()
      modifies this
      ensures Valid()
      ensures footBox == old(footBox)
      ensures old(RatiosMatchPhoto()) ==> RatiosMatchPhoto()
      ensures handled <==> old(selectedFeel).Some? && old(currentZone).Some?
      ensures handled ==>
        comfortMap == old(comfortMap)[old(currentZone).value := old(selectedFeel).value] && currentZone == None
      ensures !handled ==> comfortMap == old(comfortMap) && currentZone == old(currentZone)
      ensures revealContinue <==> handled && AllFilled(comfortMap)
      ensures usualSize == old(usualSize) && footImage == old(footImage)
      ensures footRatios == old(footRatios) && selectedFeel == old(selectedFeel)
    {
      handled := selectedFeel.Some? && currentZone.Some?;
      revealContinue := false;
      if handled {
        comfortMap := comfortMap[currentZone.value := selectedFeel.value];
        currentZone := None;
        revealContinue := Toes in comfortMap && Sides in comfortMap
                       && Midfoot in comfortMap && Heel in comfortMap;
        AllFilledIffFourZones(comfortMap);
      }
    }

    /** The comfort step's continue button: the recommendation for the
        stored size, ratios and answers. */
    method Recommend() returns (r: Recommendation)
      requires Valid() && Ready()
      ensures var c := ComfortMap(comfortMap[Toes], comfortMap[Sides], comfortMap[Midfoot], comfortMap[Heel]);
        && r.size == ExpectedSize(usualSize.value, footRatios.value, c)
        && r.width == ExpectedWidth(footRatios.value, c)
        && r.explanation == Explain(ExpectedNotes(footRatios.value, c))
      ensures MinSize <= r.size <= MaxSize && IsHalfStep(r.size)
      ensures Abs(r.size - usualSize.value) <= 0.75
    {
      var c := ComfortMap(comfortMap[Toes], comfortMap[Sides], comfortMap[Midfoot], comfortMap[Heel]);
      r := CalculateRecommendation(usualSize.value, footRatios.value, c);
      StaysNearUsual(usualSize.value, footRatios.value, c);
    }

    /** The start-over button: every entry of the state object back to null.
        The open zone and the selected button are not part of that object and
        stay as they are. */
    method StartOver()
      requires Valid()
      modifies this
      ensures Valid()
      ensures footBox == old(footBox)
      ensures usualSize == None && footImage == None && footRatios == None
      ensures comfortMap == map[]
      ensures currentZone == old(currentZone) && selectedFeel == old(selectedFeel)
    {
      usualSize := None;
      footImage := None;
      footRatios := None;
      comfortMap := map[];
    }
  }

  /** A size passes the check exactly when it is a number in [3, 15]. */
  lemma SizeAcceptedIffInRange(parsed: Option<real>)
    ensures SizeAccepted(parsed) <==> parsed.Some? && MinSize <= parsed.value <= MaxSize
  {
  }

  /** Some answer in the series is for zone z. */
  predicate Answered(answers: seq<(Zone, Feel)>, z: Zone)
  {
    exists i :: 0 <= i < |answers| && answers[i].0 == z
  }

  /** The continue button appears exactly when, since the last start-over,
      each of the four zones has been answered at least once. */
  lemma {:induction false} FilledIffEveryZoneAnswered(answers: seq<(Zone, Feel)>)
    ensures AllFilled(Fill(map[], answers)) <==> forall z: Zone :: Answered(answers, z)
  {
    var keys := Fill(map[], answers).Keys;
    assert keys == set i | 0 <= i < |answers| :: answers[i].0;
    if AllFilled(Fill(map[], answers)) {
      forall z: Zone ensures Answered(answers, z) {
        assert z in keys;
      }
    }
    if forall z: Zone :: Answered(answers, z) {
      forall z: Zone ensures z in keys {
        assert Answered(answers, z);
        var i :| 0 <= i < |answers| && answers[i].0 == z;
      }
    }
  }

  /** A later answer for a zone replaces the earlier one. */
  lemma {:induction false} LastAnswerWins(comfort: map<Zone, Feel>, answers: seq<(Zone, Feel)>, z: Zone, f: Feel)
    ensures var r := Fill(comfort, answers + [(z, f)]); z in r && r[z] == f
    decreases |answers|
  {
    if |answers| == 0 {
      assert answers + [(z, f)] == [(z, f)];
      assert Fill(comfort, [(z, f)]) == Fill(comfort[z := f], []);
    } else {
      assert (answers + [(z, f)])[1..] == answers[1..] + [(z, f)];
      LastAnswerWins(comfort[answers[0].0 := answers[0].1], answers[1..], z, f);
    }
  }

  /** For a declared size in [3, 15] the recommended size is within three
      quarters of a size of it: the rules move it by at most a half, the
      rounding by at most a quarter. */
  lemma StaysNearUsual(u: real, f: FootRatios, c: ComfortMap)
    requires MinSize <= u <= MaxSize
    ensures Abs(ExpectedSize(u, f, c) - u) <= 0.75
  {
    CapIsDeadCode(u, f, c);
    var s := AdjustedSize(u, f, c);
    var r := RoundHalf(s);
    assert ExpectedSize(u, f, c) == ClampSize(r);
  }

  /** The bound of StaysNearUsual is reached without any strong indicator: a
      broad forefoot makes the width Wide, so tight toes add half a size; the
      cap sees a move of only half a size, and the rounding, which runs after
      it, adds another quarter. So the "at most one half size" reading of
      ThreeOutcomes holds only for declared half sizes. */
  lemma QuarterSizeMovesThreeQuarters()
    ensures var f := FootRatios(Num(0.40), Num(0.70), Num(0.5), Num(0.75));
            var c := ComfortMap(Tight, Ok, Ok, Ok);
            && !StrongIndicator(f, c)
            && ExpectedSize(9.25, f, c) == 10.0 && Abs(ExpectedSize(9.25, f, c) - 9.25) == 0.75
  {
    assert (2.0 * 9.75 + 0.5).Floor == 20;
  }
}
