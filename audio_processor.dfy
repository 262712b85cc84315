/** The audio pipeline (`AudioProcessor.process_audio`): a mono 16 kHz
    waveform and the speech intervals of the voice-activity detector become a
    per-second timeline of pause/speech units with prosody scores, which is
    then smoothed and labelled over its speech seconds and averaged. */
module AudioProcessor {
  import opened Outcome
  import opened Numerics
  import opened AudioLabels

  const SampleRate: nat := 16000
  /** Pitch search range in Hz, and the autocorrelation lag window it gives. */
  const FMin: nat := 60
  const FMax: nat := 300
  const MinPeriod: nat := 53   // int(16000 / 300)
  const MaxPeriod: nat := 266  // int(16000 / 60)

  lemma PeriodWindow()
    ensures MinPeriod == Trunc(SampleRate as real / FMax as real)
    ensures MaxPeriod == Trunc(SampleRate as real / FMin as real)
  {
  }

  /** A speech interval of the voice-activity detector, in sample indices. */
  datatype Segment = Segment(start: nat, end: nat)

  /** One entry of the raw timeline. */
  datatype SecondUnit = SecondUnit(
    second: nat,
    pause: bool,
    vocalEnergy: real,
    pitchVariationIndex: real,
    volumeDb: real,
    pitchStability: real)

  /** The fixed record of a pause second. */
  function PauseUnit(i: nat): SecondUnit
  {
    SecondUnit(i, true, 0.0, 0.0, -60.0, 0.0)
  }

  // ---------- padding and the number of seconds ----------

  function Zeros(n: nat): (z: seq<real>)
    ensures |z| == n && forall k :: 0 <= k < n ==> z[k] == 0.0
  {
    seq(n, _ => 0.0)
  }

  /** Audio shorter than one second is zero-padded at the end to one second. */
  function PadToOneSecond(y: seq<real>): (r: seq<real>)
    ensures |r| == if |y| < SampleRate then SampleRate else |y|
    ensures r[..|y|] == y
    ensures forall k :: |y| <= k < |r| ==> r[k] == 0.0
  {
    if |y| < SampleRate then y + Zeros(SampleRate - |y|) else y
  }

  /** `int(np.ceil(len(y) / sr))`. */
  function TotalSeconds(n: nat): (t: nat)
    ensures (t - 1) * SampleRate < n <= t * SampleRate || (n == 0 && t == 0)
  {
    (n + SampleRate - 1) / SampleRate
  }

  // ---------- speech mask ----------

  /** `seg['start'] // sr`: the first second a segment touches. */
  function StartSecond(seg: Segment): nat
  {
    seg.start / SampleRate
  }

  /** `(seg['end'] + sr - 1) // sr`: the end of a segment rounded up to a second. */
  function EndSecond(seg: Segment): nat
  {
    (seg.end + SampleRate - 1) / SampleRate
  }

  /** Second `s` is one that segment `seg` marks in a mask of `total` seconds. */
  predicate Covers(seg: Segment, s: nat, total: nat)
  {
    StartSecond(seg) <= s && s < EndSecond(seg) && s < total
  }

  /** Second `s` is marked by one of the first `k` segments. */
  predicate MarkedBy(segments: seq<Segment>, k: nat, s: nat, total: nat)
    requires k <= |segments|
  {
    k > 0 && (MarkedBy(segments, k - 1, s, total) || Covers(segments[k - 1], s, total))
  }

  /** Marked by the first `k` segments means covered by one of them. */
  lemma {:induction false} MarkedByIsSomeSegment(segments: seq<Segment>, k: nat, s: nat, total: nat)
    requires k <= |segments|
    ensures MarkedBy(segments, k, s, total) <==> exists j :: 0 <= j < k && Covers(segments[j], s, total)
  {
    if k > 0 {
      MarkedByIsSomeSegment(segments, k - 1, s, total);
    }
  }

  /** `speech_mask`: second `s` is marked when some segment covers it. */
  function SpeechMask(segments: seq<Segment>, total: nat): (mask: seq<bool>)
    ensures |mask| == total
  {
    seq(total, s requires 0 <= s < total => MarkedBy(segments, |segments|, s, total))
  }

  /** A second is speech exactly when it lies in [start // sr, ceil(end / sr))
      of some segment. */
  lemma SpeechMaskMeaning(segments: seq<Segment>, total: nat, s: nat)
    requires s < total
    ensures SpeechMask(segments, total)[s] <==>
      exists j :: 0 <= j < |segments| && segments[j].start / SampleRate <= s < (segments[j].end + SampleRate - 1) / SampleRate
  {
    MarkedByIsSomeSegment(segments, |segments|, s, total);
  }

  /** Fills the per-second speech mask in place, segment by segment. */
  method BuildSpeechMask(segments: seq<Segment>, total: nat) returns (mask: seq<bool>)
    ensures mask == SpeechMask(segments, total)
  {
    var m := new bool[total](_ => false);
    var k := 0;
    while k < |segments|
      invariant 0 <= k <= |segments|
      invariant forall s :: 0 <= s < total ==> (m[s] <==> MarkedBy(segments, k, s, total))
    {
      var seg := segments[k];
      var startSec := seg.start / SampleRate;
      var endSec := (seg.end + SampleRate - 1) / SampleRate;
      var stop := if endSec < total then endSec else total;
      var s := startSec;
      while s < stop
        invariant startSec <= s || stop <= startSec
        invariant forall t :: 0 <= t < total ==>
          (m[t] <==> MarkedBy(segments, k, t, total) || (startSec <= t < s && t < stop))
      {
        m[s] := true;
        s := s + 1;
      }
      k := k + 1;
    }
    mask := m[..];
  }

  // ---------- pitch estimation ----------

  /** Sum over j >= i of s[j] * s[j + k]. */
  function LagProduct(s: seq<real>, k: nat, i: nat): real
    decreases |s| - i
  {
    if i + k >= |s| then 0.0 else s[i] * s[i + k] + LagProduct(s, k, i + 1)
  }

  /** The non-negative-lag half of `np.correlate(s, s, mode='full')`: entry k
      is the autocorrelation at lag k. */
  function Autocorr(s: seq<real>): (a: seq<real>)
    ensures |a| == |s|
  {
    seq(|s|, k requires 0 <= k < |s| => LagProduct(s, k, 0))
  }

  /** The fundamental period `simple_pitch_detection` settles on: the first
      peak of the autocorrelation inside the lag window [53, 266), if any. */
  function FundamentalPeriod(signal: seq<real>, lib: Lib): (p: Option<nat>)
    requires Lawful(lib)
    ensures p.Some? ==> MinPeriod <= p.value < MaxPeriod
    ensures p.None? <==> |signal| < MaxPeriod || lib.findPeaks(Autocorr(signal)[MinPeriod..MaxPeriod]) == []
  {
    var autocorr := Autocorr(signal);
    if |autocorr| < MaxPeriod then None
    else
      var peaks := lib.findPeaks(autocorr[MinPeriod..MaxPeriod]);
      if |peaks| == 0 then None
      else Some(peaks[0] + MinPeriod)
  }

  /** The two contours `simple_pitch_detection` returns. */
  datatype PitchTrack = PitchTrack(f0: seq<real>, voicedProbs: seq<real>)

  /** `simple_pitch_detection`: one pitch estimate broadcast over the signal. */
  function PitchDetection(signal: seq<real>, lib: Lib): (t: PitchTrack)
    requires Lawful(lib)
    ensures |t.f0| == |signal| && |t.voicedProbs| == |signal|
  {
    match FundamentalPeriod(signal, lib)
    case None => PitchTrack(Zeros(|signal|), Zeros(|signal|))
    case Some(period) =>
      PitchTrack(seq(|signal|, _ => SampleRate as real / period as real), seq(|signal|, _ => 0.8))
  }

  /** The estimator either finds nothing, and both contours are all zero, or
      finds a period in [53, 266) and broadcasts the pitch 16000 / period with
      a voicing probability of 0.8 over the whole signal; a signal shorter
      than the lag window is always unvoiced. */
  lemma PitchTrackShape(signal: seq<real>, lib: Lib)
    requires Lawful(lib)
    ensures var t := PitchDetection(signal, lib);
      FundamentalPeriod(signal, lib).None? ==> Within(t.f0, 0.0, 0.0) && Within(t.voicedProbs, 0.0, 0.0)
    ensures var t := PitchDetection(signal, lib);
      FundamentalPeriod(signal, lib).Some? ==>
        var f := SampleRate as real / FundamentalPeriod(signal, lib).value as real;
        53.0 < f <= 16000.0 / 53.0 && Within(t.f0, f, f) && Within(t.voicedProbs, 0.8, 0.8)
    ensures |signal| < MaxPeriod ==> Within(PitchDetection(signal, lib).f0, 0.0, 0.0)
  {
    match FundamentalPeriod(signal, lib)
    case None =>
    case Some(period) => PitchOfPeriod(period);
  }

  /** A lag in [53, 266) gives a pitch above `fmin` = 60 Hz and at most
      16000 / 53 Hz (a little above `fmax` = 300 Hz, since the lag window is
      truncated from the two frequency bounds). */
  lemma PitchOfPeriod(period: nat)
    requires MinPeriod <= period < MaxPeriod
    ensures var f := SampleRate as real / period as real;
      FMin as real < f <= 16000.0 / 53.0
  {
    var p := period as real;
    var f := 16000.0 / p;
    assert f * p == 16000.0;
    if f <= 60.0 {
      MulMonotone(f, 60.0, p);
    }
    MulMonotone(53.0, p, f);
    DivMonotone(53.0 * f, 16000.0, 53.0);
  }

  // ---------- prosody of one second ----------

  /** `probs_chunk > 0.5`. */
  function VoicedMask(probs: seq<real>): (v: seq<bool>)
    ensures |v| == |probs| && forall k :: 0 <= k < |probs| ==> (v[k] <==> probs[k] > 0.5)
  {
    seq(|probs|, k requires 0 <= k < |probs| => probs[k] > 0.5)
  }

  /** `np.sum(voiced)`. */
  function CountTrue(v: seq<bool>): (n: nat)
    ensures n <= |v|
  {
    if v == [] then 0 else CountTrue(v[..|v| - 1]) + (if v[|v| - 1] then 1 else 0)
  }

  /** `values[mask]`: the values where the mask holds, in order. */
  function Select(values: seq<real>, mask: seq<bool>): (r: seq<real>)
    requires |values| == |mask|
    ensures |r| == CountTrue(mask)
  {
    if values == [] then []
    else Select(values[..|values| - 1], mask[..|mask| - 1]) +
         (if mask[|mask| - 1] then [values[|values| - 1]] else [])
  }

  /** `20 * log10(max(sqrt(mean(chunk ** 2 + 1e-9)), 1e-8))`, floored at -60 dB. */
  function VolumeDb(chunk: seq<real>, lib: Lib): (db: real)
    requires |chunk| > 0
    ensures db >= -60.0
  {
    var rms := lib.sqrt(Mean(seq(|chunk|, k requires 0 <= k < |chunk| => chunk[k] * chunk[k] + 0.000000001)));
    Max(20.0 * lib.log10(Max(rms, 0.00000001)), -60.0)
  }

  /** Pitch variation (the coefficient of variation of the voiced pitch,
      capped at 2) and pitch stability (1 - min(cv, 1)); with fewer than three
      voiced samples both are 0, and a voiced mean of at most 1e-6 leaves
      variation 0 and stability 1. */
  function PitchStats(f0: seq<real>, voiced: seq<bool>, lib: Lib): (r: (real, real))
    requires Lawful(lib) && |f0| == |voiced|
    ensures 0.0 <= r.0 <= 2.0 && 0.0 <= r.1 <= 1.0
    ensures CountTrue(voiced) < 3 ==> r == (0.0, 0.0)
    ensures r.1 == 0.0 || r.1 == 1.0 - Min(r.0, 1.0)
  {
    if CountTrue(voiced) >= 3 then
      var f0Voiced := Select(f0, voiced);
      var pitchStd := lib.std(f0Voiced);
      var pitchMean := Mean(f0Voiced);
      if pitchMean > 0.000001 then
        var cv := pitchStd / pitchMean;
        (Min(cv, 2.0), Max(0.0, 1.0 - Min(cv, 1.0)))
      else (0.0, 1.0)
    else (0.0, 0.0)
  }

  /** `np.mean(voiced) if np.sum(voiced) > 0 else 0.0`. */
  function VoicedRatio(voiced: seq<bool>): (r: real)
    ensures 0.0 <= r <= 1.0
    ensures r == 0.0 <==> CountTrue(voiced) == 0
    ensures r == 1.0 <==> |voiced| > 0 && CountTrue(voiced) == |voiced|
  {
    var n := CountTrue(voiced);
    if n > 0 then
      DivMonotone(n as real, |voiced| as real, |voiced| as real);
      n as real / |voiced| as real
    else 0.0
  }

  /** The weighted vocal-energy score, clipped to [0, 100]. */
  function VocalEnergy(volumeDb: real, pitchVar: real, voicedRatio: real): (e: real)
    ensures 0.0 <= e <= 100.0
  {
    var normVolume := Clip((volumeDb + 70.0) / 70.0, 0.0, 1.0);
    Clip((0.5 * normVolume + 0.3 * Min(pitchVar, 1.0) + 0.2 * voicedRatio) * 100.0, 0.0, 100.0)
  }

  /** The unrounded measurements of one speech second. */
  datatype Prosody = Prosody(volumeDb: real, pitchVariation: real, stability: real, voicedRatio: real, energy: real)

  /** Volume, pitch variation, pitch stability, voiced ratio and vocal energy
      of one chunk, from the chunk's samples and its slice of the contours. */
  function MeasureChunk(chunk: seq<real>, f0: seq<real>, probs: seq<real>, lib: Lib): (m: Prosody)
    requires Lawful(lib)
    requires |chunk| > 0 && |f0| == |chunk| && |probs| == |chunk|
    ensures m.volumeDb >= -60.0
    ensures 0.0 <= m.pitchVariation <= 2.0
    ensures 0.0 <= m.stability <= 1.0
    ensures 0.0 <= m.voicedRatio <= 1.0
    ensures 0.0 <= m.energy <= 100.0
    ensures CountTrue(VoicedMask(probs)) < 3 ==> m.stability == 0.0 && m.pitchVariation == 0.0
    ensures m.voicedRatio == 0.0 <==> CountTrue(VoicedMask(probs)) == 0
    ensures m.energy == VocalEnergy(m.volumeDb, m.pitchVariation, m.voicedRatio)
  {
    var volumeDb := VolumeDb(chunk, lib);
    var voiced := VoicedMask(probs);
    var stats := PitchStats(f0, voiced, lib);
    var voicedRatio := VoicedRatio(voiced);
    Prosody(volumeDb, stats.0, stats.1, voicedRatio, VocalEnergy(volumeDb, stats.0, voicedRatio))
  }

  /** When the voiced pitch samples are all one positive value, as
      `simple_pitch_detection` makes them, and there are at least three, the
      pitch varies by 0 and is fully stable. */
  lemma ConstantPitchIsStable(f0: seq<real>, voiced: seq<bool>, c: real, lib: Lib)
    requires Lawful(lib) && |f0| == |voiced| && Within(f0, c, c) && c > 0.000001
    requires CountTrue(voiced) >= 3
    ensures PitchStats(f0, voiced, lib) == (0.0, 1.0)
  {
    var sel := Select(f0, voiced);
    SelectWithin(f0, voiced, c, c);
    MeanOfConstant(sel, c);
    assert IsConstant(sel);
    assert lib.std(sel) == 0.0;
  }

  lemma {:induction false} SelectWithin(values: seq<real>, mask: seq<bool>, lo: real, hi: real)
    requires |values| == |mask| && Within(values, lo, hi)
    ensures Within(Select(values, mask), lo, hi)
  {
    if values != [] {
      var n := |values| - 1;
      assert Within(values[..n], lo, hi);
      SelectWithin(values[..n], mask[..n], lo, hi);
    }
  }

  lemma {:induction false} CountAll(v: seq<bool>, b: bool)
    requires forall k :: 0 <= k < |v| ==> v[k] == b
    ensures CountTrue(v) == if b then |v| else 0
  {
    if v != [] {
      CountAll(v[..|v| - 1], b);
    }
  }

  // ---------- the raw timeline ----------

  /** The record of a speech second, its measurements rounded as stored. */
  function SpeechUnit(i: nat, m: Prosody): SecondUnit
  {
    SecondUnit(i, false, Round(m.energy, 1), Round(m.pitchVariation, 3), Round(m.volumeDb, 1), Round(m.stability, 2))
  }

  /** The first sample of second `i`. */
  function ChunkStart(i: nat): nat
  {
    i * SampleRate
  }

  /** `min((i + 1) * sr, len(y))`: one past the last sample of second `i`. */
  function ChunkEnd(i: nat, n: nat): nat
  {
    if (i + 1) * SampleRate < n then (i + 1) * SampleRate else n
  }

  lemma ChunkInside(i: nat, n: nat)
    requires i < TotalSeconds(n)
    ensures ChunkStart(i) < ChunkEnd(i, n) <= n
    ensures ChunkEnd(i, n) - ChunkStart(i) <= SampleRate
    ensures i + 1 < TotalSeconds(n) ==> ChunkEnd(i, n) - ChunkStart(i) == SampleRate
  {
  }

  /** Entry `i` of the timeline: a pause record when the second is outside
      every speech segment or its chunk holds less than half a second of
      samples, otherwise the rounded measurements of its chunk. */
  function SecondEntry(y: seq<real>, mask: seq<bool>, track: PitchTrack, i: nat, lib: Lib): SecondUnit
    requires Lawful(lib) && |track.f0| == |y| && |track.voicedProbs| == |y|
    requires |mask| == TotalSeconds(|y|) && i < |mask|
  {
    ChunkInside(i, |y|);
    var start := ChunkStart(i);
    var end := ChunkEnd(i, |y|);
    var chunk := y[start..end];
    if !mask[i] || |chunk| < SampleRate / 2 then PauseUnit(i)
    else SpeechUnit(i, MeasureChunk(chunk, track.f0[start..end], track.voicedProbs[start..end], lib))
  }

  /** The raw timeline: one entry per second of the (padded) audio. */
  function Timeline(y: seq<real>, mask: seq<bool>, track: PitchTrack, lib: Lib): (t: seq<SecondUnit>)
    requires Lawful(lib) && |track.f0| == |y| && |track.voicedProbs| == |y|
    requires |mask| == TotalSeconds(|y|)
    ensures |t| == |mask|
  {
    seq(|mask|, i requires 0 <= i < |mask| => SecondEntry(y, mask, track, i, lib))
  }

  /** The range a stored entry's fields can take: a pause entry is exactly the
      pause record, a speech entry has energy in [0, 100], pitch variation in
      [0, 2], volume at least -60 dB and stability in [0, 1]. */
  ghost predicate WellFormedUnit(u: SecondUnit)
  {
    if u.pause then u == PauseUnit(u.second)
    else
      && 0.0 <= u.vocalEnergy <= 100.0 && 0.0 <= u.pitchVariationIndex <= 2.0
      && u.volumeDb >= -60.0 && 0.0 <= u.pitchStability <= 1.0
  }

  lemma SpeechUnitWellFormed(i: nat, m: Prosody)
    requires m.volumeDb >= -60.0 && 0.0 <= m.pitchVariation <= 2.0
    requires 0.0 <= m.stability <= 1.0 && 0.0 <= m.energy <= 100.0
    ensures WellFormedUnit(SpeechUnit(i, m))
  {
    RoundBetween(m.energy, 0, 100, 1);
    RoundBetween(m.pitchVariation, 0, 2, 3);
    RoundBetween(m.stability, 0, 1, 2);
    RoundMonotone(-60.0, m.volumeDb, 1);
    RoundInt(-60, 1);
  }

  /** Entry `i` describes second `i`; it is a pause exactly when the second is
      unmarked or its chunk is shorter than half a second, which only the
      last second's chunk can be; and every entry is well formed. */
  lemma TimelineEntry(y: seq<real>, mask: seq<bool>, track: PitchTrack, i: nat, lib: Lib)
    requires Lawful(lib) && |track.f0| == |y| && |track.voicedProbs| == |y|
    requires |mask| == TotalSeconds(|y|) && i < |mask|
    ensures var u := Timeline(y, mask, track, lib)[i];
      && u.second == i
      && (u.pause <==> !mask[i] || ChunkEnd(i, |y|) - ChunkStart(i) < SampleRate / 2)
      && (i + 1 < |mask| ==> (u.pause <==> !mask[i]))
      && WellFormedUnit(u)
  {
    ChunkInside(i, |y|);
    var start := ChunkStart(i);
    var end := ChunkEnd(i, |y|);
    if mask[i] && end - start >= SampleRate / 2 {
      var m := MeasureChunk(y[start..end], track.f0[start..end], track.voicedProbs[start..end], lib);
      SpeechUnitWellFormed(i, m);
    }
  }

  /** The per-second loop of `process_audio`. */
  method BuildTimeline(y: seq<real>, mask: seq<bool>, track: PitchTrack, lib: Lib) returns (timeline: seq<SecondUnit>)
    requires Lawful(lib) && |track.f0| == |y| && |track.voicedProbs| == |y|
    requires |mask| == TotalSeconds(|y|)
    ensures timeline == Timeline(y, mask, track, lib)
  {
    ghost var all := Timeline(y, mask, track, lib);
    timeline := [];
    var i := 0;
    while i < |mask|
      invariant 0 <= i <= |mask|
      invariant timeline == all[..i]
    {
      var u := ReadSecond(y, mask, track, i, lib);
      PrefixSnoc(all, i);
      timeline := timeline + [u];
      i := i + 1;
    }
    assert all[..i] == all;
  }

  /** One iteration of the per-second loop: slice the second's chunk and
      record it as a pause or measure it. */
  method ReadSecond(y: seq<real>, mask: seq<bool>, track: PitchTrack, i: nat, lib: Lib) returns (u: SecondUnit)
    requires Lawful(lib) && |track.f0| == |y| && |track.voicedProbs| == |y|
    requires |mask| == TotalSeconds(|y|) && i < |mask|
    ensures u == SecondEntry(y, mask, track, i, lib)
  {
    ChunkInside(i, |y|);
    var start := i * SampleRate;
    var end := if (i + 1) * SampleRate < |y| then (i + 1) * SampleRate else |y|;
    var chunk := y[start..end];
    if !mask[i] || |chunk| < SampleRate / 2 {
      u := PauseUnit(i);
    } else {
      var m := MeasureChunk(chunk, track.f0[start..end], track.voicedProbs[start..end], lib);
      u := SpeechUnit(i, m);
    }
  }

  /** With the pitch track of `simple_pitch_detection` the voiced contour of a
      speech second is all one value, so its pitch variation is 0 and its
      stability is 0 (no voicing found) or 1 (one constant pitch): the pitch
      variation the timeline reports is always 0. */
  lemma SpeechPitchIsFlat(y: seq<real>, mask: seq<bool>, i: nat, lib: Lib)
    requires Lawful(lib) && |mask| == TotalSeconds(|y|) && i < |mask|
    ensures var u := Timeline(y, mask, PitchDetection(y, lib), lib)[i];
      u.pitchVariationIndex == 0.0 && (u.pitchStability == 0.0 || u.pitchStability == 1.0)
  {
    var track := PitchDetection(y, lib);
    PitchTrackShape(y, lib);
    ChunkInside(i, |y|);
    var start := ChunkStart(i);
    var end := ChunkEnd(i, |y|);
    RoundInt(0, 3);
    RoundInt(0, 2);
    RoundInt(1, 2);
    if mask[i] && end - start >= SampleRate / 2 {
      var f0 := track.f0[start..end];
      var probs := track.voicedProbs[start..end];
      match FundamentalPeriod(y, lib)
      case None =>
        WithinSlice(track.voicedProbs, 0.0, 0.0, start, end);
        UnvoicedChunkIsFlat(y[start..end], f0, probs, lib);
      case Some(period) =>
        var f := SampleRate as real / period as real;
        PitchOfPeriod(period);
        WithinSlice(track.f0, f, f, start, end);
        WithinSlice(track.voicedProbs, 0.8, 0.8, start, end);
        VoicedChunkIsFlat(y[start..end], f0, probs, f, lib);
    }
  }

  lemma WithinSlice(s: seq<real>, lo: real, hi: real, a: nat, b: nat)
    requires a <= b <= |s| && Within(s, lo, hi)
    ensures Within(s[a..b], lo, hi)
  {
    forall k | 0 <= k < b - a ensures lo <= s[a..b][k] <= hi {
      assert s[a..b][k] == s[a + k];
    }
  }

  /** A second with no voiced sample has pitch variation and stability 0. */
  lemma UnvoicedChunkIsFlat(chunk: seq<real>, f0: seq<real>, probs: seq<real>, lib: Lib)
    requires Lawful(lib) && |chunk| > 0 && |f0| == |chunk| && |probs| == |chunk|
    requires Within(probs, 0.0, 0.0)
    ensures MeasureChunk(chunk, f0, probs, lib).pitchVariation == 0.0
    ensures MeasureChunk(chunk, f0, probs, lib).stability == 0.0
  {
    var voiced := VoicedMask(probs);
    assert forall k :: 0 <= k < |voiced| ==> !voiced[k];
    CountAll(voiced, false);
  }

  /** A second whose samples are all voiced at one positive pitch has pitch
      variation 0 and stability 1. */
  lemma VoicedChunkIsFlat(chunk: seq<real>, f0: seq<real>, probs: seq<real>, f: real, lib: Lib)
    requires Lawful(lib) && |chunk| >= 3 && |f0| == |chunk| && |probs| == |chunk|
    requires Within(f0, f, f) && f > 0.000001 && Within(probs, 0.8, 0.8)
    ensures MeasureChunk(chunk, f0, probs, lib).pitchVariation == 0.0
    ensures MeasureChunk(chunk, f0, probs, lib).stability == 1.0
  {
    var voiced := VoicedMask(probs);
    assert forall k :: 0 <= k < |voiced| ==> voiced[k];
    CountAll(voiced, true);
    ConstantPitchIsStable(f0, voiced, f, lib);
  }
}
