/** The second half of the audio pipeline: `enhance_timeline` (Gaussian
    smoothing and labelling of the speech seconds), the aggregates, and
    `process_audio` from the waveform to the labelled timeline. */
module AudioEnhance {
  import opened Numerics
  import opened AudioLabels
  import opened AudioProcessor

  /** An entry of the enhanced timeline: the raw speech entry, its three
      smoothed and rounded metrics, and its four labels, each kept as its row
      in the label table (the entry's energy label and tip are
      `EnergyAdvice[energyLevel]`, and so on). */
  datatype EnhancedUnit = EnhancedUnit(
    base: SecondUnit,
    energySmoothed: real,
    pitchSmoothed: real,
    volumeSmoothed: real,
    energyLevel: nat,
    pitchLevel: nat,
    volumeLevel: nat,
    stabilityLevel: nat)

  /** The speech entries of a timeline (those not marked as pauses), in order. */
  function SpeechUnits(t: seq<SecondUnit>): (s: seq<SecondUnit>)
    ensures |s| <= |t|
    ensures forall j :: 0 <= j < |s| ==> !s[j].pause && s[j] in t
  {
    if t == [] then []
    else SpeechUnits(t[..|t| - 1]) + (if t[|t| - 1].pause then [] else [t[|t| - 1]])
  }

  /** Filtering a prefix gives a prefix of the filtered timeline. */
  lemma {:induction false} SpeechPrefix(t: seq<SecondUnit>, i: nat)
    requires i <= |t|
    ensures |SpeechUnits(t[..i])| <= |SpeechUnits(t)|
    ensures SpeechUnits(t[..i]) == SpeechUnits(t)[..|SpeechUnits(t[..i])|]
    decreases |t|
  {
    if i == |t| {
      assert t[..i] == t;
    } else {
      var u := t[..|t| - 1];
      assert u[..i] == t[..i];
      SpeechPrefix(u, i);
    }
  }

  /** Every speech entry of the timeline survives the filter, and nothing else. */
  lemma {:induction false} SpeechUnitsComplete(t: seq<SecondUnit>, u: SecondUnit)
    ensures u in SpeechUnits(t) <==> u in t && !u.pause
  {
    if t != [] {
      var p := t[..|t| - 1];
      SpeechUnitsComplete(p, u);
      assert t == p + [t[|t| - 1]];
    }
  }

  /** `speech_indices`: the positions of the speech entries, in increasing
      order, and every speech position among them. */
  function SpeechIndices(t: seq<SecondUnit>): (idx: seq<nat>)
    ensures forall j :: 0 <= j < |idx| ==> idx[j] < |t| && !t[idx[j]].pause
    ensures forall i, j :: 0 <= i < j < |idx| ==> idx[i] < idx[j]
    ensures forall i :: 0 <= i < |t| && !t[i].pause ==> i in idx
  {
    if t == [] then []
    else
      var p := t[..|t| - 1];
      assert forall k :: 0 <= k < |p| ==> p[k] == t[k];
      SpeechIndices(p) + (if t[|t| - 1].pause then [] else [|t| - 1])
  }

  /** The speech entries are the timeline read at the speech positions: the
      filter keeps them in order and drops nothing else. */
  lemma {:induction false} SpeechUnitsInOrder(t: seq<SecondUnit>)
    ensures |SpeechUnits(t)| == |SpeechIndices(t)|
    ensures forall j :: 0 <= j < |SpeechUnits(t)| ==> SpeechUnits(t)[j] == t[SpeechIndices(t)[j]]
  {
    if t != [] {
      var p := t[..|t| - 1];
      SpeechUnitsInOrder(p);
      assert forall k :: 0 <= k < |p| ==> p[k] == t[k];
    }
  }

  /** Each speech entry is kept as many times as it occurs, each pause entry
      not at all. */
  lemma {:induction false} SpeechUnitsCount(t: seq<SecondUnit>, u: SecondUnit)
    ensures multiset(SpeechUnits(t))[u] == if u.pause then 0 else multiset(t)[u]
  {
    if t != [] {
      var p := t[..|t| - 1];
      SpeechUnitsCount(p, u);
      assert t == p + [t[|t| - 1]];
    }
  }

  /** `max(1.0, len(speech_indices) / 20.0)`. */
  function Sigma(n: nat): (sigma: real)
    ensures sigma >= 1.0
    ensures n >= 20 ==> sigma == n as real / 20.0
  {
    Max(1.0, n as real / 20.0)
  }

  function Energies(s: seq<SecondUnit>): (r: seq<real>)
    ensures |r| == |s| && forall j :: 0 <= j < |s| ==> r[j] == s[j].vocalEnergy
  {
    seq(|s|, j requires 0 <= j < |s| => s[j].vocalEnergy)
  }

  function PitchVariations(s: seq<SecondUnit>): (r: seq<real>)
    ensures |r| == |s| && forall j :: 0 <= j < |s| ==> r[j] == s[j].pitchVariationIndex
  {
    seq(|s|, j requires 0 <= j < |s| => s[j].pitchVariationIndex)
  }

  function Volumes(s: seq<SecondUnit>): (r: seq<real>)
    ensures |r| == |s| && forall j :: 0 <= j < |s| ==> r[j] == s[j].volumeDb
  {
    seq(|s|, j requires 0 <= j < |s| => s[j].volumeDb)
  }

  /** One enhanced entry from a speech entry and its three smoothed values. */
  function Labelled(u: SecondUnit, e: real, p: real, v: real): EnhancedUnit
  {
    var eS := Round(e, 1);
    var pS := Round(p, 3);
    var vS := Round(v, 1);
    EnhancedUnit(u, eS, pS, vS, EnergyLevel(eS), PitchLevel(pS), VolumeLevel(vS), StabilityLevel(u.pitchStability))
  }

  /** `enhance_timeline`: the speech entries, in order, each with the values of
      the Gaussian-smoothed speech-only series of its metrics; pause entries
      are dropped. */
  function Enhance(t: seq<SecondUnit>, lib: Lib): (e: seq<EnhancedUnit>)
    requires Lawful(lib)
    ensures |e| == |SpeechUnits(t)|
    ensures forall j :: 0 <= j < |e| ==> e[j].base == SpeechUnits(t)[j]
  {
    var s := SpeechUnits(t);
    if s == [] then []
    else
      var sigma := Sigma(|s|);
      var es := lib.gaussian(Energies(s), sigma);
      var ps := lib.gaussian(PitchVariations(s), sigma);
      var vs := lib.gaussian(Volumes(s), sigma);
      seq(|s|, j requires 0 <= j < |s| => Labelled(s[j], es[j], ps[j], vs[j]))
  }

  /** The enhanced timeline is empty exactly when there is no speech second,
      holds no pause entry, and keeps the seconds in timeline order. */
  lemma EnhanceShape(t: seq<SecondUnit>, lib: Lib)
    requires Lawful(lib)
    ensures var e := Enhance(t, lib);
      && (e == [] <==> forall i :: 0 <= i < |t| ==> t[i].pause)
      && (forall j :: 0 <= j < |e| ==> !e[j].base.pause && e[j].base in t)
      && |e| == |SpeechIndices(t)|
      && (forall j :: 0 <= j < |e| ==> e[j].base == t[SpeechIndices(t)[j]])
  {
    SpeechUnitsInOrder(t);
    var e := Enhance(t, lib);
    if e == [] {
      forall i | 0 <= i < |t| ensures t[i].pause {
        SpeechUnitsComplete(t, t[i]);
      }
    } else {
      assert SpeechUnits(t)[0] in SpeechUnits(t);
    }
  }

  /** An entry's four labels are the bands of its stability and of its
      smoothed values. */
  ghost predicate Banded(x: EnhancedUnit)
  {
    && x.stabilityLevel == Ladders.BandAbove(x.base.pitchStability, StabilityBounds)
    && x.energyLevel == Ladders.BandBelow(x.energySmoothed, EnergyBounds)
    && x.pitchLevel == Ladders.BandBelow(x.pitchSmoothed, PitchBounds)
    && x.volumeLevel == Ladders.BandBelow(x.volumeSmoothed, VolumeBounds)
  }

  lemma LabelledBanded(u: SecondUnit, e: real, p: real, v: real)
    ensures Banded(Labelled(u, e, p, v))
  {
    var x := Labelled(u, e, p, v);
    LabelsArePartitions(u.pitchStability);
    LabelsArePartitions(x.energySmoothed);
    LabelsArePartitions(x.pitchSmoothed);
    LabelsArePartitions(x.volumeSmoothed);
  }

  /** Each enhanced entry copies its stability and is labelled by the bands
      of its stability and of its smoothed values. */
  lemma EnhanceLabels(t: seq<SecondUnit>, lib: Lib)
    requires Lawful(lib)
    ensures forall j :: 0 <= j < |Enhance(t, lib)| ==> Banded(Enhance(t, lib)[j])
  {
    var s := SpeechUnits(t);
    if s != [] {
      var sigma := Sigma(|s|);
      var es := lib.gaussian(Energies(s), sigma);
      var ps := lib.gaussian(PitchVariations(s), sigma);
      var vs := lib.gaussian(Volumes(s), sigma);
      forall j | 0 <= j < |s| ensures Banded(Enhance(t, lib)[j]) {
        LabelledBanded(s[j], es[j], ps[j], vs[j]);
      }
    }
  }

  /** `enhance_timeline`, as the source writes it: the speech series are
      smoothed once, then the timeline is walked with a separate index into
      the smoothed series that advances on speech entries only. */
  method EnhanceTimeline(timeline: seq<SecondUnit>, lib: Lib) returns (enhanced: seq<EnhancedUnit>)
    requires Lawful(lib)
    ensures enhanced == Enhance(timeline, lib)
  {
    if timeline == [] {
      return [];
    }
    var s := SpeechUnits(timeline);
    enhanced := [];
    if s == [] {
      return;
    }
    var sigma := Sigma(|s|);
    var es := lib.gaussian(Energies(s), sigma);
    var ps := lib.gaussian(PitchVariations(s), sigma);
    var vs := lib.gaussian(Volumes(s), sigma);
    ghost var all := Enhance(timeline, lib);
    assert all == seq(|s|, j requires 0 <= j < |s| => Labelled(s[j], es[j], ps[j], vs[j]));
    var speechIdx := 0;
    var i := 0;
    while i < |timeline|
      invariant 0 <= i <= |timeline|
      invariant speechIdx == |SpeechUnits(timeline[..i])| <= |s|
      invariant SpeechUnits(timeline[..i]) == s[..speechIdx]
      invariant enhanced == all[..speechIdx]
    {
      assert timeline[..i + 1][..i] == timeline[..i];
      SpeechPrefix(timeline, i + 1);
      if !timeline[i].pause {
        assert s[speechIdx] == timeline[i];
        PrefixSnoc(all, speechIdx);
        enhanced := enhanced + [Labelled(timeline[i], es[speechIdx], ps[speechIdx], vs[speechIdx])];
        speechIdx := speechIdx + 1;
      }
      i := i + 1;
    }
    assert timeline[..i] == timeline;
    assert all[..speechIdx] == all;
  }

  /** Smoothing keeps every enhanced metric inside the range the raw entries
      lie in: energy in [0, 100], pitch variation in [0, 2], volume at least
      -60 dB. */
  lemma EnhanceBounds(t: seq<SecondUnit>, lib: Lib)
    requires Lawful(lib)
    requires forall i :: 0 <= i < |t| ==> WellFormedUnit(t[i])
    ensures forall j :: 0 <= j < |Enhance(t, lib)| ==>
      var u := Enhance(t, lib)[j];
      && 0.0 <= u.energySmoothed <= 100.0
      && 0.0 <= u.pitchSmoothed <= 2.0
      && u.volumeSmoothed >= -60.0
      && 0.0 <= u.base.pitchStability <= 1.0
  {
    var s := SpeechUnits(t);
    if s != [] {
      var sigma := Sigma(|s|);
      forall j | 0 <= j < |s| ensures WellFormedUnit(s[j]) {
        assert s[j] in t;
      }
      GaussianWithin(lib, Energies(s), sigma, 0.0, 100.0);
      GaussianWithin(lib, PitchVariations(s), sigma, 0.0, 2.0);
      assert AtLeast(Volumes(s), -60.0);
      RoundInt(-60, 1);
      var g := lib.gaussian(Volumes(s), sigma);
      assert AtLeast(g, -60.0);
      forall j | 0 <= j < |s|
        ensures var u := Enhance(t, lib)[j];
          0.0 <= u.energySmoothed <= 100.0 && 0.0 <= u.pitchSmoothed <= 2.0 && u.volumeSmoothed >= -60.0
      {
        RoundBetween(lib.gaussian(Energies(s), sigma)[j], 0, 100, 1);
        RoundBetween(lib.gaussian(PitchVariations(s), sigma)[j], 0, 2, 3);
        RoundMonotone(-60.0, lib.gaussian(Volumes(s), sigma)[j], 1);
      }
    }
  }

  /** When every speech entry has pitch variation 0 the smoothed pitch is 0
      and every entry gets the first row of the pitch table, "Extremely
      Monotone". */
  lemma FlatPitchIsMonotone(t: seq<SecondUnit>, lib: Lib)
    requires Lawful(lib)
    requires forall i :: 0 <= i < |t| && !t[i].pause ==> t[i].pitchVariationIndex == 0.0
    ensures forall j :: 0 <= j < |Enhance(t, lib)| ==>
      Enhance(t, lib)[j].pitchSmoothed == 0.0 && Enhance(t, lib)[j].pitchLevel == 0
  {
    var s := SpeechUnits(t);
    if s != [] {
      forall j | 0 <= j < |s| ensures s[j].pitchVariationIndex == 0.0 {
        assert s[j] in t;
      }
      GaussianWithin(lib, PitchVariations(s), Sigma(|s|), 0.0, 0.0);
      RoundInt(0, 3);
    }
  }

  // ---------- aggregates ----------

  /** The aggregates of `process_audio`: none when the detector found no
      speech; when it found some but no second survived as speech, numpy's
      mean of an empty list makes every average NaN; otherwise the rounded
      averages of the enhanced timeline. */
  datatype Aggregates =
    | NoAggregates
    | UndefinedAverages
    | Averages(avgVocalEnergy: real, avgPitchVariation: real, avgVolumeDb: real, avgPitchStability: real, overallAdvice: string)

  const OverallAdvice: string := "Focus on consistency if averages vary widely."

  function AggregatesOf(segments: seq<Segment>, e: seq<EnhancedUnit>): (a: Aggregates)
    ensures a.NoAggregates? <==> segments == []
    ensures a.UndefinedAverages? <==> segments != [] && e == []
  {
    if segments == [] then NoAggregates
    else if e == [] then UndefinedAverages
    else
      Averages(
        Round(Mean(seq(|e|, j requires 0 <= j < |e| => e[j].energySmoothed)), 1),
        Round(Mean(seq(|e|, j requires 0 <= j < |e| => e[j].pitchSmoothed)), 3),
        Round(Mean(seq(|e|, j requires 0 <= j < |e| => e[j].volumeSmoothed)), 1),
        Round(Mean(seq(|e|, j requires 0 <= j < |e| => e[j].base.pitchStability)), 2),
        OverallAdvice)
  }

  /** The averages of a well-formed enhanced timeline stay in the metrics'
      ranges. */
  lemma AveragesBounds(segments: seq<Segment>, e: seq<EnhancedUnit>)
    requires forall j :: 0 <= j < |e| ==>
      && 0.0 <= e[j].energySmoothed <= 100.0 && 0.0 <= e[j].pitchSmoothed <= 2.0
      && e[j].volumeSmoothed >= -60.0 && 0.0 <= e[j].base.pitchStability <= 1.0
    ensures var a := AggregatesOf(segments, e);
      a.Averages? ==>
        && 0.0 <= a.avgVocalEnergy <= 100.0 && 0.0 <= a.avgPitchVariation <= 2.0
        && a.avgVolumeDb >= -60.0 && 0.0 <= a.avgPitchStability <= 1.0
  {
    if segments != [] && e != [] {
      var es := seq(|e|, j requires 0 <= j < |e| => e[j].energySmoothed);
      var ps := seq(|e|, j requires 0 <= j < |e| => e[j].pitchSmoothed);
      var vs := seq(|e|, j requires 0 <= j < |e| => e[j].volumeSmoothed);
      var ss := seq(|e|, j requires 0 <= j < |e| => e[j].base.pitchStability);
      MeanBetween(es, 0.0, 100.0);
      RoundBetween(Mean(es), 0, 100, 1);
      MeanBetween(ps, 0.0, 2.0);
      RoundBetween(Mean(ps), 0, 2, 3);
      MeanBetween(ss, 0.0, 1.0);
      RoundBetween(Mean(ss), 0, 1, 2);
      VolumeMeanAtLeast(vs);
      RoundMonotone(-60.0, Mean(vs), 1);
      RoundInt(-60, 1);
    }
  }

  lemma VolumeMeanAtLeast(vs: seq<real>)
    requires |vs| > 0 && AtLeast(vs, -60.0)
    ensures Mean(vs) >= -60.0
  {
    var hi := MaxOf(vs);
    MeanBetween(vs, -60.0, hi);
  }

  function MaxOf(s: seq<real>): (m: real)
    requires |s| > 0
    ensures forall k :: 0 <= k < |s| ==> s[k] <= m
  {
    if |s| == 1 then s[0] else Max(s[0], MaxOf(s[1..]))
  }

  // ---------- process_audio ----------

  datatype AudioAnalysis = AudioAnalysis(timeline: seq<EnhancedUnit>, aggregates: Aggregates)

  /** The waveform the analysis works on: padded to one second, then
      median-filtered. */
  function Prepared(y: seq<real>, lib: Lib): (yp: seq<real>)
    requires Lawful(lib)
    ensures |yp| >= SampleRate && |yp| == |PadToOneSecond(y)|
  {
    lib.medfilt(PadToOneSecond(y))
  }

  /** The raw timeline `process_audio` builds for the prepared waveform. */
  function RawTimeline(yp: seq<real>, segments: seq<Segment>, lib: Lib): (t: seq<SecondUnit>)
    requires Lawful(lib)
    ensures |t| == TotalSeconds(|yp|)
  {
    Timeline(yp, SpeechMask(segments, TotalSeconds(|yp|)), PitchDetection(yp, lib), lib)
  }

  /** What `process_audio` returns for a mono 16 kHz waveform `y` whose
      denoised form the voice-activity detector split into `segments`. */
  function AnalyzeAudio(y: seq<real>, segments: seq<Segment>, lib: Lib): AudioAnalysis
    requires Lawful(lib)
  {
    var enhanced := Enhance(RawTimeline(Prepared(y, lib), segments, lib), lib);
    AudioAnalysis(enhanced, AggregatesOf(segments, enhanced))
  }

  /** `process_audio` after loading: pad, denoise, mark the speech seconds,
      estimate the pitch, build, enhance and aggregate the timeline. */
  method ProcessAudio(y: seq<real>, segments: seq<Segment>, lib: Lib) returns (r: AudioAnalysis)
    requires Lawful(lib)
    ensures r == AnalyzeAudio(y, segments, lib)
  {
    var yp := lib.medfilt(PadToOneSecond(y));
    var total := TotalSeconds(|yp|);
    var mask := BuildSpeechMask(segments, total);
    var track := PitchDetection(yp, lib);
    var timeline := BuildTimeline(yp, mask, track, lib);
    var enhanced := EnhanceTimeline(timeline, lib);
    r := AudioAnalysis(enhanced, AggregatesOf(segments, enhanced));
  }

  /** Every entry of the raw timeline is well formed, with pitch variation 0
      and stability 0 or 1. */
  lemma RawTimelineFacts(yp: seq<real>, segments: seq<Segment>, lib: Lib)
    requires Lawful(lib)
    ensures var t := RawTimeline(yp, segments, lib);
      forall i :: 0 <= i < |t| ==>
        && WellFormedUnit(t[i]) && t[i].pitchVariationIndex == 0.0
        && (t[i].pitchStability == 0.0 || t[i].pitchStability == 1.0)
  {
    var mask := SpeechMask(segments, TotalSeconds(|yp|));
    var t := RawTimeline(yp, segments, lib);
    forall i | 0 <= i < |t|
      ensures WellFormedUnit(t[i]) && t[i].pitchVariationIndex == 0.0
      ensures t[i].pitchStability == 0.0 || t[i].pitchStability == 1.0
    {
      TimelineEntry(yp, mask, PitchDetection(yp, lib), i, lib);
      SpeechPitchIsFlat(yp, mask, i, lib);
    }
  }

  /** Every entry of the analysis is a speech second with its smoothed metrics
      in range, a smoothed pitch variation of 0 given the pitch row "Extremely
      Monotone", and a stability of 0 or 1. */
  lemma AnalysisEntries(y: seq<real>, segments: seq<Segment>, lib: Lib)
    requires Lawful(lib)
    ensures var e := AnalyzeAudio(y, segments, lib).timeline;
      forall j :: 0 <= j < |e| ==>
        && !e[j].base.pause
        && 0.0 <= e[j].energySmoothed <= 100.0 && e[j].volumeSmoothed >= -60.0
        && e[j].pitchSmoothed == 0.0 && e[j].pitchLevel == 0
        && (e[j].base.pitchStability == 0.0 || e[j].base.pitchStability == 1.0)
  {
    var t := RawTimeline(Prepared(y, lib), segments, lib);
    RawTimelineFacts(Prepared(y, lib), segments, lib);
    var e := Enhance(t, lib);
    EnhanceBounds(t, lib);
    FlatPitchIsMonotone(t, lib);
    forall j | 0 <= j < |e| ensures e[j].base.pitchStability == 0.0 || e[j].base.pitchStability == 1.0 {
      assert e[j].base in t;
    }
  }

  /** On a timeline whose entries are numbered by position, the enhanced
      entries come in strictly increasing order of their second, and every
      speech entry is among them. */
  lemma EnhanceKeepsOrder(t: seq<SecondUnit>, lib: Lib)
    requires Lawful(lib)
    requires forall k :: 0 <= k < |t| ==> t[k].second == k
    ensures var e := Enhance(t, lib);
      && (forall i, j :: 0 <= i < j < |e| ==> e[i].base.second < e[j].base.second)
      && (forall k :: 0 <= k < |t| && !t[k].pause ==> exists j :: 0 <= j < |e| && e[j].base == t[k])
  {
    var e := Enhance(t, lib);
    EnhanceShape(t, lib);
    var idx := SpeechIndices(t);
    forall k | 0 <= k < |t| && !t[k].pause ensures exists j :: 0 <= j < |e| && e[j].base == t[k] {
      var j :| 0 <= j < |idx| && idx[j] == k;
      assert e[j].base == t[k];
    }
  }

  /** The analysis lists the speech seconds of the clip in strictly
      increasing order of their second, every speech second of the raw
      timeline among them. */
  lemma EnhancedSecondsIncrease(y: seq<real>, segments: seq<Segment>, lib: Lib)
    requires Lawful(lib)
    ensures var t := RawTimeline(Prepared(y, lib), segments, lib);
      var e := AnalyzeAudio(y, segments, lib).timeline;
      && (forall i, j :: 0 <= i < j < |e| ==> e[i].base.second < e[j].base.second)
      && (forall k :: 0 <= k < |t| && !t[k].pause ==> exists j :: 0 <= j < |e| && e[j].base == t[k])
  {
    var yp := Prepared(y, lib);
    var mask := SpeechMask(segments, TotalSeconds(|yp|));
    var t := RawTimeline(yp, segments, lib);
    forall k | 0 <= k < |t| ensures t[k].second == k {
      TimelineEntry(yp, mask, PitchDetection(yp, lib), k, lib);
    }
    assert AnalyzeAudio(y, segments, lib).timeline == Enhance(t, lib);
    EnhanceKeepsOrder(t, lib);
  }

  /** The averages stay in the metrics' ranges, and the average pitch
      variation is 0. */
  lemma AnalysisAverages(y: seq<real>, segments: seq<Segment>, lib: Lib)
    requires Lawful(lib)
    ensures var a := AnalyzeAudio(y, segments, lib).aggregates;
      a.Averages? ==>
        && 0.0 <= a.avgVocalEnergy <= 100.0
        && a.avgPitchVariation == 0.0
        && a.avgVolumeDb >= -60.0
        && 0.0 <= a.avgPitchStability <= 1.0
  {
    var r := AnalyzeAudio(y, segments, lib);
    AnalysisEntries(y, segments, lib);
    assert r.aggregates == AggregatesOf(segments, r.timeline);
    FlatAverages(segments, r.timeline);
  }

  /** The averages of a speech timeline whose smoothed pitch variation is 0
      everywhere. */
  lemma FlatAverages(segments: seq<Segment>, e: seq<EnhancedUnit>)
    requires forall j :: 0 <= j < |e| ==>
      && 0.0 <= e[j].energySmoothed <= 100.0 && e[j].pitchSmoothed == 0.0
      && e[j].volumeSmoothed >= -60.0 && 0.0 <= e[j].base.pitchStability <= 1.0
    ensures var a := AggregatesOf(segments, e);
      a.Averages? ==>
        && 0.0 <= a.avgVocalEnergy <= 100.0
        && a.avgPitchVariation == 0.0
        && a.avgVolumeDb >= -60.0
        && 0.0 <= a.avgPitchStability <= 1.0
  {
    AveragesBounds(segments, e);
    if segments != [] && e != [] {
      var ps := seq(|e|, j requires 0 <= j < |e| => e[j].pitchSmoothed);
      MeanOfConstant(ps, 0.0);
      RoundInt(0, 3);
    }
  }

  /** The aggregates are not guarded against a speech segment that leaves no
      speech second: 16100 samples with one segment over the last 100 samples
      mark second 1 as speech, but its chunk holds fewer than 8000 samples, so
      both seconds are pauses, the enhanced timeline is empty and the averages
      are NaN. */
  lemma UnguardedAverages(y: seq<real>, lib: Lib)
    requires Lawful(lib) && |y| == 16100
    ensures AnalyzeAudio(y, [Segment(16000, 16100)], lib) == AudioAnalysis([], UndefinedAverages)
  {
    var segments := [Segment(16000, 16100)];
    var yp := Prepared(y, lib);
    assert |yp| == 16100;
    var total := TotalSeconds(|yp|);
    assert total == 2;
    var mask := SpeechMask(segments, total);
    assert StartSecond(segments[0]) == 1;
    assert !MarkedBy(segments, 1, 0, total);
    var t := RawTimeline(yp, segments, lib);
    TimelineEntry(yp, mask, PitchDetection(yp, lib), 0, lib);
    TimelineEntry(yp, mask, PitchDetection(yp, lib), 1, lib);
    assert t[0].pause && t[1].pause;
    EnhanceShape(t, lib);
  }
}
