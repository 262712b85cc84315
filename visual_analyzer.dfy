/** `VisualAnalyzer` itself: the object that keeps the six history windows
    across frames, `analyze_frame` updating them in place, and
    `process_video` choosing the target frames, walking the frame stream and
    averaging the per-frame records. The video file is replaced by its frame
    count, its frame rate and the detector's answer for each frame. */
module VisualVideo {
  import opened Outcome
  import opened Numerics
  import opened VisualMetrics
  import opened VisualTips
  import opened VisualFrames

  // ---------- target frames ----------

  ghost predicate SortedInts(s: seq<int>)
  {
    forall i, j :: 0 <= i < j < |s| ==> s[i] <= s[j]
  }

  /** Inserts `x` in front of the first larger-or-equal element. */
  function Insert(x: int, s: seq<int>): (r: seq<int>)
    requires SortedInts(s)
    ensures |r| == |s| + 1
    ensures r[0] == if s == [] || x <= s[0] then x else s[0]
    ensures SortedInts(r) && multiset(r) == multiset(s) + multiset{x}
  {
    if s == [] then [x]
    else if x <= s[0] then [x] + s
    else
      assert s == [s[0]] + s[1..];
      [s[0]] + Insert(x, s[1..])
  }

  /** `sorted(frames)`. */
  function Sort(s: seq<int>): (r: seq<int>)
    ensures SortedInts(r) && multiset(r) == multiset(s)
  {
    if s == [] then []
    else
      assert s == s[..|s| - 1] + [s[|s| - 1]];
      Insert(s[|s| - 1], Sort(s[..|s| - 1]))
  }

  /** `s[:n]`. */
  function Take<T>(s: seq<T>, n: nat): (r: seq<T>)
    ensures |r| == if |s| <= n then |s| else n
    ensures r == s[..|r|]
  {
    if |s| <= n then s else s[..n]
  }

  lemma MulLeft(a: int, b: int, k: int)
    requires a <= b && k >= 0
    ensures k * a <= k * b
  {
    assert k * b - k * a == k * (b - a);
  }

  /** `range(0, total, step)` has `ceil(total / step)` elements: exactly the
      multiples `i * step` below `total`. */
  lemma RangeCount(total: nat, step: nat, i: nat)
    requires step > 0
    ensures i < (total + step - 1) / step <==> i * step < total
  {
    var n := total + step - 1;
    var c := n / step;
    assert n == step * c + n % step;
    if i < c {
      MulLeft(i + 1, c, step);
    } else {
      MulLeft(c + 1, i + 1, step);
    }
  }

  /** `list(range(0, total, step))` for a positive step. */
  function RangeStep(total: nat, step: nat): (r: seq<int>)
    requires step > 0
    ensures forall i :: 0 <= i < |r| ==> r[i] == i * step && 0 <= r[i] < total
    ensures forall k: int :: 0 <= k < total && k % step == 0 ==> k in r
  {
    var count := (total + step - 1) / step;
    var r := seq(count, i requires 0 <= i < count => i * step);
    assert forall i :: 0 <= i < |r| ==> r[i] < total by {
      forall i | 0 <= i < |r| ensures r[i] < total {
        RangeCount(total, step, i);
      }
    }
    assert forall k: int :: 0 <= k < total && k % step == 0 ==> k in r by {
      forall k: int | 0 <= k < total && k % step == 0 ensures k in r {
        var i := k / step;
        assert k == step * i;
        RangeCount(total, step, i);
        assert r[i] == k;
      }
    }
    r
  }

  /** The frame ids `process_video` looks for: the sorted requested frames,
      every `int(fps)`-th frame, or the frames of the requested timestamps,
      each cut to `max_frames`; `range` refuses a step of 0. */
  function TargetFrames(mode: string, specific: seq<int>, timestamps: seq<real>, totalFrames: nat, fps: real, maxF: nat): (r: Result<seq<int>, string>)
    ensures r.Ok? ==> |r.value| <= maxF
    ensures r.Err? <==> !(mode == "specific_frames" && specific != []) && mode == "sequential" && Trunc(fps) == 0
  {
    if mode == "specific_frames" && specific != [] then Ok(Take(Sort(specific), maxF))
    else if mode == "sequential" then
      var step := Trunc(fps);
      if step == 0 then Err("range() arg 3 must not be zero")
      else if step < 0 then Ok([])
      else Ok(Take(RangeStep(totalFrames, step), maxF))
    else Ok(Take(seq(|timestamps|, i requires 0 <= i < |timestamps| => Trunc(timestamps[i] * fps)), maxF))
  }

  /** The requested frames are taken in ascending order, and are exactly the
      smallest requested ones when they do not all fit. */
  lemma SpecificTargetsSorted(specific: seq<int>, timestamps: seq<real>, totalFrames: nat, fps: real, maxF: nat)
    requires specific != []
    ensures var r := TargetFrames("specific_frames", specific, timestamps, totalFrames, fps, maxF);
      && r.Ok? && SortedInts(r.value)
      && r.value == Sort(specific)[..|r.value|]
      && (|specific| <= maxF ==> multiset(r.value) == multiset(specific))
  {
  }

  /** `max_frames` when it was not given: the whole seconds of the video, at
      least 1. */
  function ResolveMaxFrames(maxFrames: Option<nat>, totalFrames: nat, fps: real): (m: nat)
    ensures maxFrames.Some? ==> m == maxFrames.value
    ensures maxFrames.None? ==> m >= 1
  {
    if maxFrames.Some? then maxFrames.value
    else
      var duration := if fps > 0.0 then totalFrames as real / fps else 0.0;
      var seconds := Trunc(duration);
      if seconds > 1 then seconds else 1
  }

  /** `target_frames.remove(frame_id)`: drops the first occurrence. */
  function RemoveFirst(s: seq<int>, x: int): (r: seq<int>)
    ensures multiset(r) == multiset(s) - multiset{x}
  {
    if s == [] then []
    else
      assert s == [s[0]] + s[1..];
      if s[0] == x then s[1..] else [s[0]] + RemoveFirst(s[1..], x)
  }

  // ---------- the frame loop ----------

  datatype Timed<T> = Timed(time: real, analysis: T)

  /** The four result lists of `process_video`. */
  datatype VideoResults = VideoResults(
    eye: seq<Timed<EyeContactRecord>>,
    posture: seq<Timed<PostureRecord>>,
    facial: seq<Timed<ExpressionRecord>>,
    technical: seq<Timed<TechnicalRecord>>)

  const NoResults: VideoResults := VideoResults([], [], [], [])

  /** One processed frame appends one item to each list. */
  function Append(r: VideoResults, time: real, a: FrameAnalysis): VideoResults
  {
    VideoResults(r.eye + [Timed(time, a.eye)], r.posture + [Timed(time, a.posture)],
      r.facial + [Timed(time, a.expression)], r.technical + [Timed(time, a.technical)])
  }

  function Concat(r: VideoResults, s: VideoResults): VideoResults
  {
    VideoResults(r.eye + s.eye, r.posture + s.posture, r.facial + s.facial, r.technical + s.technical)
  }

  lemma ConcatNoResults(r: VideoResults)
    ensures Concat(r, NoResults) == r
  {
    assert r.eye + [] == r.eye && r.posture + [] == r.posture;
    assert r.facial + [] == r.facial && r.technical + [] == r.technical;
  }

  lemma ConcatAppend(r: VideoResults, time: real, a: FrameAnalysis, s: VideoResults)
    ensures Concat(Append(r, time, a), s) == Concat(r, Concat(Append(NoResults, time, a), s))
  {
    assert r.eye + [Timed(time, a.eye)] + s.eye == r.eye + ([] + [Timed(time, a.eye)] + s.eye);
    assert r.posture + [Timed(time, a.posture)] + s.posture == r.posture + ([] + [Timed(time, a.posture)] + s.posture);
    assert r.facial + [Timed(time, a.expression)] + s.facial == r.facial + ([] + [Timed(time, a.expression)] + s.facial);
    assert r.technical + [Timed(time, a.technical)] + s.technical
        == r.technical + ([] + [Timed(time, a.technical)] + s.technical);
  }

  /** What the rest of the frame loop produces: the final windows, the
      results it appends and the ids of the frames it analyses. */
  datatype LoopOut = LoopOut(histories: Histories, results: VideoResults, ids: seq<int>)

  /** The `while` loop of `process_video` from frame `frameId` on, with
      `processed` frames already analysed. */
  function VideoLoop(h: Histories, targets: seq<int>, frames: seq<Detection>, frameId: nat, processed: nat,
                     maxF: nat, fps: real, threshold: real, lib: Lib): LoopOut
    requires Lawful(lib) && frameId <= |frames| && fps != 0.0
    decreases |frames| - frameId
  {
    if processed >= maxF || frameId == |frames| then LoopOut(h, NoResults, [])
    else if frameId as int in targets then
      var (h', a) := FrameStep(h, frames[frameId], threshold, lib);
      var rest := VideoLoop(h', RemoveFirst(targets, frameId), frames, frameId + 1, processed + 1, maxF, fps, threshold, lib);
      LoopOut(rest.histories, Concat(Append(NoResults, frameId as real / fps, a), rest.results), [frameId as int] + rest.ids)
    else VideoLoop(h, targets, frames, frameId + 1, processed, maxF, fps, threshold, lib)
  }

  /** The per-frame scores of every result item are in range. */
  ghost predicate ResultsBounded(r: VideoResults)
  {
    && (forall j :: 0 <= j < |r.eye| ==> 0.0 <= r.eye[j].analysis.confidence <= 1.0 && 0.0 <= r.eye[j].analysis.stability <= 1.0)
    && (forall j :: 0 <= j < |r.posture| ==>
          0.0 <= r.posture[j].analysis.orientationScore <= 1.0 && 0.0 <= r.posture[j].analysis.stability <= 1.0)
    && (forall j :: 0 <= j < |r.facial| ==> 0.0 <= r.facial[j].analysis.nervousness <= 1.0)
    && (forall j :: 0 <= j < |r.technical| ==>
          0.0 <= r.technical[j].analysis.brightness <= 1.0 && 0.0 <= r.technical[j].analysis.sharpness <= 1.0)
  }

  lemma BoundedCons(time: real, a: FrameAnalysis, r: VideoResults)
    requires AnalysisBounded(a) && ResultsBounded(r)
    ensures ResultsBounded(Concat(Append(NoResults, time, a), r))
  {
  }

  /** The frame loop keeps the windows valid, and every score it records is
      in range. */
  lemma {:induction false} VideoLoopBounded(h: Histories, targets: seq<int>, frames: seq<Detection>, frameId: nat,
                                            processed: nat, maxF: nat, fps: real, threshold: real, lib: Lib)
    requires Lawful(lib) && frameId <= |frames| && fps != 0.0 && WindowsValid(h)
    ensures var out := VideoLoop(h, targets, frames, frameId, processed, maxF, fps, threshold, lib);
      WindowsValid(out.histories) && ResultsBounded(out.results)
    decreases |frames| - frameId
  {
    if processed >= maxF || frameId == |frames| {
    } else if frameId as int in targets {
      var step := FrameStep(h, frames[frameId], threshold, lib);
      FrameStepBounded(h, frames[frameId], threshold, lib);
      VideoLoopTarget(h, targets, frames, frameId, processed, maxF, fps, threshold, lib);
      VideoLoopBounded(step.0, RemoveFirst(targets, frameId), frames, frameId + 1, processed + 1, maxF, fps, threshold, lib);
      var rest := VideoLoop(step.0, RemoveFirst(targets, frameId), frames, frameId + 1, processed + 1, maxF, fps, threshold, lib);
      BoundedCons(frameId as real / fps, step.1, rest.results);
    } else {
      VideoLoopBounded(h, targets, frames, frameId + 1, processed, maxF, fps, threshold, lib);
    }
  }

  /** The emotion, occlusion and technical scores of every result item are in
      range. */
  ghost predicate ScoresInRange(r: VideoResults)
  {
    && (forall j :: 0 <= j < |r.facial| ==> 0.0 <= r.facial[j].analysis.score <= 1.0)
    && (forall j :: 0 <= j < |r.technical| ==>
          0.0 <= r.technical[j].analysis.occlusion <= 1.0 && 0.0 <= r.technical[j].analysis.averageScore <= 1.0)
  }

  lemma ScoresCons(time: real, a: FrameAnalysis, r: VideoResults)
    requires ScoresBounded(a) && ScoresInRange(r)
    ensures ScoresInRange(Concat(Append(NoResults, time, a), r))
  {
  }

  /** On frames whose detector confidences are percentages, every emotion,
      occlusion and technical score the loop records is in range. */
  lemma {:induction false} VideoLoopScores(h: Histories, targets: seq<int>, frames: seq<Detection>, frameId: nat,
                                           processed: nat, maxF: nat, fps: real, threshold: real, lib: Lib)
    requires Lawful(lib) && frameId <= |frames| && fps != 0.0
    requires forall i :: 0 <= i < |frames| ==> DetectionInRange(frames[i])
    ensures ScoresInRange(VideoLoop(h, targets, frames, frameId, processed, maxF, fps, threshold, lib).results)
    decreases |frames| - frameId
  {
    if processed >= maxF || frameId == |frames| {
    } else if frameId as int in targets {
      var step := FrameStep(h, frames[frameId], threshold, lib);
      FrameStepScores(h, frames[frameId], threshold, lib);
      VideoLoopScores(step.0, RemoveFirst(targets, frameId), frames, frameId + 1, processed + 1, maxF, fps, threshold, lib);
      var rest := VideoLoop(step.0, RemoveFirst(targets, frameId), frames, frameId + 1, processed + 1, maxF, fps, threshold, lib);
      ScoresCons(frameId as real / fps, step.1, rest.results);
    } else {
      VideoLoopScores(h, targets, frames, frameId + 1, processed, maxF, fps, threshold, lib);
    }
  }

  /** A target frame the loop reaches is analysed, its results come first,
      and the loop goes on with the frame removed from the targets. */
  lemma VideoLoopTarget(h: Histories, targets: seq<int>, frames: seq<Detection>, frameId: nat,
                        processed: nat, maxF: nat, fps: real, threshold: real, lib: Lib)
    requires Lawful(lib) && frameId < |frames| && fps != 0.0 && processed < maxF && frameId as int in targets
    ensures var out := VideoLoop(h, targets, frames, frameId, processed, maxF, fps, threshold, lib);
      var step := FrameStep(h, frames[frameId], threshold, lib);
      var rest := VideoLoop(step.0, RemoveFirst(targets, frameId), frames, frameId + 1, processed + 1, maxF, fps, threshold, lib);
      && out.ids == [frameId as int] + rest.ids
      && out.histories == rest.histories
      && out.results == Concat(Append(NoResults, frameId as real / fps, step.1), rest.results)
  {
  }

  /** The analysed ids lie in `[lo, hi)`, are targets, and increase. */
  ghost predicate IdsFrom(ids: seq<int>, lo: int, hi: int, targets: seq<int>)
  {
    && (forall j :: 0 <= j < |ids| ==> lo <= ids[j] < hi && ids[j] in targets)
    && (forall i, j :: 0 <= i < j < |ids| ==> ids[i] < ids[j])
  }

  /** Removing an element keeps only elements of the list. */
  lemma RemoveFirstWithin(s: seq<int>, x: int, y: int)
    requires y in RemoveFirst(s, x)
    ensures y in s
  {
    assert y in multiset(RemoveFirst(s, x));
  }

  lemma IdsCons(id: int, ids: seq<int>, hi: int, targets: seq<int>)
    requires id < hi && id in targets && IdsFrom(ids, id + 1, hi, RemoveFirst(targets, id))
    ensures IdsFrom([id] + ids, id, hi, targets)
  {
    IdsConsMembers(id, ids, hi, targets, RemoveFirst(targets, id));
    IdsConsOrdered(id, ids);
  }

  lemma IdsConsMembers(id: int, ids: seq<int>, hi: int, targets: seq<int>, rest: seq<int>)
    requires id < hi && id in targets && rest == RemoveFirst(targets, id)
    requires forall j :: 0 <= j < |ids| ==> id + 1 <= ids[j] < hi && ids[j] in rest
    ensures forall j :: 0 <= j < |[id] + ids| ==> id <= ([id] + ids)[j] < hi && ([id] + ids)[j] in targets
  {
    var s := [id] + ids;
    forall j | 0 <= j < |s| ensures id <= s[j] < hi && s[j] in targets {
      if j > 0 {
        assert s[j] == ids[j - 1];
        RemoveFirstWithin(targets, id, ids[j - 1]);
      }
    }
  }

  lemma IdsConsOrdered(id: int, ids: seq<int>)
    requires forall j :: 0 <= j < |ids| ==> id < ids[j]
    requires forall i, j :: 0 <= i < j < |ids| ==> ids[i] < ids[j]
    ensures forall i, j :: 0 <= i < j < |[id] + ids| ==> ([id] + ids)[i] < ([id] + ids)[j]
  {
    var s := [id] + ids;
    forall i, j | 0 <= i < j < |s| ensures s[i] < s[j] {
      assert s[j] == ids[j - 1];
    }
  }

  /** Each list holds one item per analysed id, stamped `id / fps`. */
  ghost predicate StampedBy(r: VideoResults, ids: seq<int>, fps: real)
    requires fps != 0.0
  {
    && |r.eye| == |ids| && |r.posture| == |ids| && |r.facial| == |ids| && |r.technical| == |ids|
    && (forall j :: 0 <= j < |ids| ==>
          && r.eye[j].time == ids[j] as real / fps
          && r.posture[j].time == ids[j] as real / fps
          && r.facial[j].time == ids[j] as real / fps
          && r.technical[j].time == ids[j] as real / fps)
  }

  lemma StampedCons(id: int, a: FrameAnalysis, r: VideoResults, ids: seq<int>, fps: real)
    requires fps != 0.0 && StampedBy(r, ids, fps)
    ensures StampedBy(Concat(Append(NoResults, id as real / fps, a), r), [id] + ids, fps)
  {
  }

  /** The frame loop analyses at most `max_frames - processed` frames, each a
      target frame the stream reaches, in increasing frame order. */
  lemma {:induction false} VideoLoopIds(h: Histories, targets: seq<int>, frames: seq<Detection>, frameId: nat,
                                        processed: nat, maxF: nat, fps: real, threshold: real, lib: Lib)
    requires Lawful(lib) && frameId <= |frames| && fps != 0.0 && processed <= maxF
    ensures var out := VideoLoop(h, targets, frames, frameId, processed, maxF, fps, threshold, lib);
      |out.ids| <= maxF - processed && IdsFrom(out.ids, frameId, |frames|, targets)
    decreases |frames| - frameId
  {
    if processed >= maxF || frameId == |frames| {
    } else if frameId as int in targets {
      var rest' := RemoveFirst(targets, frameId);
      var h' := FrameStep(h, frames[frameId], threshold, lib).0;
      VideoLoopTarget(h, targets, frames, frameId, processed, maxF, fps, threshold, lib);
      VideoLoopIds(h', rest', frames, frameId + 1, processed + 1, maxF, fps, threshold, lib);
      var ids := VideoLoop(h', rest', frames, frameId + 1, processed + 1, maxF, fps, threshold, lib).ids;
      IdsCons(frameId, ids, |frames|, targets);
    } else {
      VideoLoopIds(h, targets, frames, frameId + 1, processed, maxF, fps, threshold, lib);
    }
  }

  /** Each analysed frame appends one item, stamped `frame_id / fps`, to each
      of the four lists. */
  lemma {:induction false} VideoLoopTimes(h: Histories, targets: seq<int>, frames: seq<Detection>, frameId: nat,
                                          processed: nat, maxF: nat, fps: real, threshold: real, lib: Lib)
    requires Lawful(lib) && frameId <= |frames| && fps != 0.0
    ensures var out := VideoLoop(h, targets, frames, frameId, processed, maxF, fps, threshold, lib);
      StampedBy(out.results, out.ids, fps)
    decreases |frames| - frameId
  {
    if processed >= maxF || frameId == |frames| {
    } else if frameId as int in targets {
      var rest' := RemoveFirst(targets, frameId);
      var step := FrameStep(h, frames[frameId], threshold, lib);
      VideoLoopTarget(h, targets, frames, frameId, processed, maxF, fps, threshold, lib);
      VideoLoopTimes(step.0, rest', frames, frameId + 1, processed + 1, maxF, fps, threshold, lib);
      var rest := VideoLoop(step.0, rest', frames, frameId + 1, processed + 1, maxF, fps, threshold, lib);
      StampedCons(frameId, step.1, rest.results, rest.ids, fps);
    } else {
      VideoLoopTimes(h, targets, frames, frameId + 1, processed, maxF, fps, threshold, lib);
    }
  }

  lemma CompleteCons(id: int, ids: seq<int>, hi: int, targets: seq<int>)
    requires forall k: int :: id < k < hi && k in RemoveFirst(targets, id) ==> k in ids
    ensures forall k: int :: id <= k < hi && k in targets ==> k in [id] + ids
  {
    forall k: int | id < k < hi && k in targets
      ensures k in RemoveFirst(targets, id)
    {
      assert multiset(RemoveFirst(targets, id))[k] == multiset(targets)[k];
    }
  }

  /** Unless it stops at `max_frames`, the frame loop misses no target frame
      the stream reaches. */
  lemma {:induction false} VideoLoopComplete(h: Histories, targets: seq<int>, frames: seq<Detection>, frameId: nat,
                                             processed: nat, maxF: nat, fps: real, threshold: real, lib: Lib)
    requires Lawful(lib) && frameId <= |frames| && fps != 0.0 && processed <= maxF
    ensures var out := VideoLoop(h, targets, frames, frameId, processed, maxF, fps, threshold, lib);
      |out.ids| < maxF - processed ==>
        forall k: int :: frameId <= k < |frames| && k in targets ==> k in out.ids
    decreases |frames| - frameId
  {
    if processed >= maxF || frameId == |frames| {
    } else if frameId as int in targets {
      var rest' := RemoveFirst(targets, frameId);
      var h' := FrameStep(h, frames[frameId], threshold, lib).0;
      VideoLoopTarget(h, targets, frames, frameId, processed, maxF, fps, threshold, lib);
      VideoLoopComplete(h', rest', frames, frameId + 1, processed + 1, maxF, fps, threshold, lib);
      var rest := VideoLoop(h', rest', frames, frameId + 1, processed + 1, maxF, fps, threshold, lib);
      if |rest.ids| < maxF - (processed + 1) {
        CompleteCons(frameId, rest.ids, |frames|, targets);
      }
    } else {
      VideoLoopComplete(h, targets, frames, frameId + 1, processed, maxF, fps, threshold, lib);
    }
  }

  // ---------- overall averages ----------

  /** `np.mean(values)` guarded by `if values`, defaulting to 0.0. */
  function MeanOr0(values: seq<real>): real
  {
    if values == [] then 0.0 else Mean(values)
  }

  /** The count of the type at position `i`. */
  function CountOf(s: seq<string>, x: string): nat
  {
    multiset(s)[x]
  }

  /** `Counter(types).most_common(1)[0][0]` on the first `n` types: the scan
      keeps the first type of highest count, so ties go to the type seen
      first. */
  function ModeIndex(s: seq<string>, n: nat): (b: nat)
    requires 0 < n <= |s|
    ensures b < n
    ensures forall j :: 0 <= j < n ==> CountOf(s, s[j]) <= CountOf(s, s[b])
    ensures forall j :: 0 <= j < b ==> CountOf(s, s[j]) < CountOf(s, s[b])
  {
    if n == 1 then 0
    else
      var b := ModeIndex(s, n - 1);
      if CountOf(s, s[n - 1]) > CountOf(s, s[b]) then n - 1 else b
  }

  /** The most common type: no type is more frequent, and every equally
      frequent type first appears later. */
  lemma ModeIsFirstMostCommon(s: seq<string>)
    requires |s| > 0
    ensures var m := s[ModeIndex(s, |s|)];
      && (forall x :: x in s ==> CountOf(s, x) <= CountOf(s, m))
      && (forall j :: 0 <= j < ModeIndex(s, |s|) ==> s[j] != m && CountOf(s, s[j]) < CountOf(s, m))
  {
  }

  /** The rounded overall averages of `compute_overall_averages`. */
  datatype OverallAverages = OverallAverages(
    eyeContactConfidence: real, eyeStability: real, postureStability: real, headOrientationScore: real,
    emotionalScore: real, dominantEmotion: string, nervousnessScore: real,
    technicalQuality: real, brightness: real, sharpness: real, occlusion: real)

  function Types(r: VideoResults): (t: seq<string>)
    ensures |t| == |r.facial|
  {
    seq(|r.facial|, j requires 0 <= j < |r.facial| => r.facial[j].analysis.kind)
  }

  /** `compute_overall_averages`: the mean of each score over its list (0.0
      for an empty list), rounded to 2 places, and the most common expression
      type (NEUTRAL for none). */
  function Averages(r: VideoResults): OverallAverages
  {
    var e := r.eye;
    var p := r.posture;
    var f := r.facial;
    var t := r.technical;
    OverallAverages(
      Round(MeanOr0(seq(|e|, j requires 0 <= j < |e| => e[j].analysis.confidence)), 2),
      Round(MeanOr0(seq(|e|, j requires 0 <= j < |e| => e[j].analysis.stability)), 2),
      Round(MeanOr0(seq(|p|, j requires 0 <= j < |p| => p[j].analysis.stability)), 2),
      Round(MeanOr0(seq(|p|, j requires 0 <= j < |p| => p[j].analysis.orientationScore)), 2),
      Round(MeanOr0(seq(|f|, j requires 0 <= j < |f| => f[j].analysis.score)), 2),
      if f == [] then "NEUTRAL" else Types(r)[ModeIndex(Types(r), |f|)],
      Round(MeanOr0(seq(|f|, j requires 0 <= j < |f| => f[j].analysis.nervousness)), 2),
      Round(MeanOr0(seq(|t|, j requires 0 <= j < |t| => t[j].analysis.averageScore)), 2),
      Round(MeanOr0(seq(|t|, j requires 0 <= j < |t| => t[j].analysis.brightness)), 2),
      Round(MeanOr0(seq(|t|, j requires 0 <= j < |t| => t[j].analysis.sharpness)), 2),
      Round(MeanOr0(seq(|t|, j requires 0 <= j < |t| => t[j].analysis.occlusion)), 2))
  }

  /** A rounded guarded mean of values in [0, 1] is in [0, 1]. */
  lemma UnitMean(values: seq<real>)
    requires Within(values, 0.0, 1.0)
    ensures 0.0 <= Round(MeanOr0(values), 2) <= 1.0
  {
    if values != [] {
      MeanBetween(values, 0.0, 1.0);
    }
    RoundBetween(MeanOr0(values), 0, 1, 2);
  }

  /** Without results every average is 0 and the dominant emotion NEUTRAL;
      with per-frame scores in range, the averages of those scores are in
      range too. */
  lemma AveragesFacts(r: VideoResults)
    ensures r == NoResults ==>
      Averages(r) == OverallAverages(0.0, 0.0, 0.0, 0.0, 0.0, "NEUTRAL", 0.0, 0.0, 0.0, 0.0, 0.0)
    ensures ResultsBounded(r) ==>
      var a := Averages(r);
      && 0.0 <= a.eyeContactConfidence <= 1.0 && 0.0 <= a.eyeStability <= 1.0
      && 0.0 <= a.postureStability <= 1.0 && 0.0 <= a.headOrientationScore <= 1.0
      && 0.0 <= a.nervousnessScore <= 1.0 && 0.0 <= a.brightness <= 1.0 && 0.0 <= a.sharpness <= 1.0
    ensures ScoresInRange(r) ==>
      var a := Averages(r);
      0.0 <= a.emotionalScore <= 1.0 && 0.0 <= a.technicalQuality <= 1.0 && 0.0 <= a.occlusion <= 1.0
  {
    RoundInt(0, 2);
    if ResultsBounded(r) {
      var e := r.eye;
      var p := r.posture;
      var f := r.facial;
      var t := r.technical;
      UnitMean(seq(|e|, j requires 0 <= j < |e| => e[j].analysis.confidence));
      UnitMean(seq(|e|, j requires 0 <= j < |e| => e[j].analysis.stability));
      UnitMean(seq(|p|, j requires 0 <= j < |p| => p[j].analysis.stability));
      UnitMean(seq(|p|, j requires 0 <= j < |p| => p[j].analysis.orientationScore));
      UnitMean(seq(|f|, j requires 0 <= j < |f| => f[j].analysis.nervousness));
      UnitMean(seq(|t|, j requires 0 <= j < |t| => t[j].analysis.brightness));
      UnitMean(seq(|t|, j requires 0 <= j < |t| => t[j].analysis.sharpness));
    }
    if ScoresInRange(r) {
      var f := r.facial;
      var t := r.technical;
      UnitMean(seq(|f|, j requires 0 <= j < |f| => f[j].analysis.score));
      UnitMean(seq(|t|, j requires 0 <= j < |t| => t[j].analysis.averageScore));
      UnitMean(seq(|t|, j requires 0 <= j < |t| => t[j].analysis.occlusion));
    }
  }

  /** `tip_fields`: the averages that receive a tip, in order. */
  const TipFields: seq<OverallMetric> := [
    AvgEyeContactConfidence, AvgEyeStability, AvgPostureStability, AvgHeadOrientationScore,
    AvgEmotionalScore, AvgNervousnessScore, AvgTechnicalQuality, AvgBrightness, AvgSharpness, AvgOcclusion]

  /** `oa[field]`. */
  function AverageOf(a: OverallAverages, m: OverallMetric): real
  {
    match m
    case AvgEyeContactConfidence => a.eyeContactConfidence
    case AvgEyeStability => a.eyeStability
    case AvgPostureStability => a.postureStability
    case AvgHeadOrientationScore => a.headOrientationScore
    case AvgEmotionalScore => a.emotionalScore
    case AvgNervousnessScore => a.nervousnessScore
    case AvgTechnicalQuality => a.technicalQuality
    case AvgBrightness => a.brightness
    case AvgSharpness => a.sharpness
    case AvgOcclusion => a.occlusion
  }

  /** The `<field>_tip` entries, in the order of `tip_fields`. */
  function AverageTips(a: OverallAverages): (tips: seq<string>)
    ensures |tips| == |TipFields|
    ensures forall i :: 0 <= i < |TipFields| ==> tips[i] == OverallTip(TipFields[i], AverageOf(a, TipFields[i]))
  {
    seq(|TipFields|, i requires 0 <= i < |TipFields| => OverallTip(TipFields[i], AverageOf(a, TipFields[i])))
  }

  /** What `process_video` returns. */
  datatype VideoAnalysis = VideoAnalysis(results: VideoResults, averages: OverallAverages, tips: seq<string>)

  function Summarize(r: VideoResults): VideoAnalysis
  {
    VideoAnalysis(r, Averages(r), AverageTips(Averages(r)))
  }

  // ---------- the analyzer object ----------

  class VisualAnalyzer {
    var eyeYawHist: seq<real>
    var eyePitchHist: seq<real>
    var headYawHist: seq<real>
    var headPitchHist: seq<real>
    var headRollHist: seq<real>
    var connHist: seq<real>
    var maxFrames: Option<nat>
    const confidenceThreshold: real
    const frameSelectionMode: string
    const specificFrames: seq<int>
    const timestamps: seq<real>

    /** The windows as one value. */
    function Windows(): Histories
      reads this
    {
      Histories(eyeYawHist, eyePitchHist, headYawHist, headPitchHist, headRollHist, connHist)
    }

    ghost predicate Valid()
      reads this
    {
      WindowsValid(Windows())
    }

    /** `__init__`: a `max_frames` that is not a positive integer means "derive
        it from the video"; the windows start empty. */
    constructor (maxFramesArg: Option<int>, confidenceThreshold: real, frameSelectionMode: string,
                 specificFrames: seq<int>, timestamps: seq<real>)
      ensures Valid() && Windows() == Histories([], [], [], [], [], [])
      ensures maxFrames == if maxFramesArg.Some? && maxFramesArg.value > 0 then Some(maxFramesArg.value as nat) else None
      ensures this.confidenceThreshold == confidenceThreshold && this.frameSelectionMode == frameSelectionMode
      ensures this.specificFrames == specificFrames && this.timestamps == timestamps
    {
      eyeYawHist, eyePitchHist, headYawHist := [], [], [];
      headPitchHist, headRollHist, connHist := [], [], [];
      maxFrames := if maxFramesArg.Some? && maxFramesArg.value > 0 then Some(maxFramesArg.value as nat) else None;
      this.confidenceThreshold := confidenceThreshold;
      this.frameSelectionMode := frameSelectionMode;
      this.specificFrames := specificFrames;
      this.timestamps := timestamps;
    }

    /** `analyze_frame`: the error default for an unreadable frame; otherwise
        scans the faces for the first one confident enough and analyses it, or
        gives the no-face default when there is none. */
    method AnalyzeFrame(d: Detection, lib: Lib) returns (a: FrameAnalysis)
      requires Lawful(lib) && Valid()
      modifies this
      ensures Valid()
      ensures (Windows(), a) == FrameStep(old(Windows()), d, confidenceThreshold, lib)
      ensures maxFrames == old(maxFrames)
    {
      if d.Unreadable? {
        return DefaultAnalysis(Error);
      }
      var k := FindFace(d.faces);
      if k.None? {
        return DefaultAnalysis(NoFace);
      }
      a := AnalyzeQualifyingFace(d.faces[k.value], d.brightness, d.sharpness, lib);
    }

    /** The scan of `for face in faces`: the index of the first face whose
        confidence reaches the threshold, if any. */
    method FindFace(faces: seq<Face>) returns (k: Option<nat>)
      ensures k == FirstQualifying(faces, confidenceThreshold)
    {
      var i := 0;
      while i < |faces| && OrZero(faces[i].confidence) < confidenceThreshold
        invariant 0 <= i <= |faces|
        invariant forall j :: 0 <= j < i ==> OrZero(faces[j].confidence) < confidenceThreshold
      {
        i := i + 1;
      }
      if i == |faces| {
        return None;
      }
      return Some(i);
    }

    /** The body of the face loop for the first qualifying face: the emotion
        summary and technical quality, the rounded angles and the pose
        metrics, the window update, and the four records. */
    method AnalyzeQualifyingFace(face: Face, brightness: real, sharpness: real, lib: Lib) returns (a: FrameAnalysis)
      requires Lawful(lib) && Valid()
      modifies this
      ensures Valid()
      ensures (Windows(), a) == AnalyzeFace(old(Windows()), face, brightness, sharpness, lib)
      ensures maxFrames == old(maxFrames)
    {
      var info := AnalyzeEmotions(face.emotions);
      var occlusion := FaceOcclusion(face.landmarkCount, face.confidence);
      var technical := Technical(brightness, sharpness, occlusion);
      var expression := ExpressionRecord(
        info.kind, Round(info.score, 2), Round(info.nervousness, 2),
        ExpressionTip(info.kind), NervousnessTip(info.nervousness),
        |eyeYawHist|, WindowSize, face.emotions);

      var eyeYaw := Round(OrZero(face.eyeYaw), 2);
      var eyePitch := Round(OrZero(face.eyePitch), 2);
      var headYaw := Round(OrZero(face.headYaw), 2);
      var headPitch := Round(OrZero(face.headPitch), 2);
      var headRoll := Round(OrZero(face.headRoll), 2);

      var eyeContact := EyeContactConfidence(eyeYaw, eyePitch);
      var orientation := Orientation(headYaw, headPitch, headRoll);
      var orientationScore := OrientationScore(orientation, headYaw, headPitch, headRoll);
      var connection := ConnectionStrength(headYaw, headPitch, headRoll);
      Observe(eyeYaw, eyePitch, headYaw, headPitch, headRoll, connection);

      var eyeStability := EyeStability(eyeYawHist, eyePitchHist, lib);
      var postureStability := PostureStability(connHist);
      var eye := EyeContactRecord(
        Round(eyeContact, 2), EyeContactTip(eyeContact), Round(eyeStability, 2), EyeStabilityTip(eyeStability),
        |eyeYawHist|, WindowSize, eyeYaw, eyePitch);
      var posture := PostureRecord(
        orientation, orientationScore, OrientationTip(orientation),
        Round(postureStability, 2), PostureStabilityTip(postureStability),
        |eyeYawHist|, WindowSize, headYaw, headPitch, headRoll);
      a := FrameAnalysis(eye, posture, expression, technical);
      assert Windows() == ObserveFace(old(Windows()), face);
      assert expression == ExpressionOf(old(Windows()), face);
      assert eye == EyeRecordOf(Windows(), face, lib);
      assert posture == PostureRecordOf(Windows(), face);
    }

    /** Appends one observation to each of the six windows, then trims each
        back to the window size. */
    method Observe(eyeYaw: real, eyePitch: real, headYaw: real, headPitch: real, headRoll: real, connection: real)
      requires Valid()
      modifies this
      ensures Valid()
      ensures Windows() == Histories(
        Slide(old(eyeYawHist), eyeYaw), Slide(old(eyePitchHist), eyePitch),
        Slide(old(headYawHist), headYaw), Slide(old(headPitchHist), headPitch), Slide(old(headRollHist), headRoll),
        Slide(old(connHist), connection))
      ensures maxFrames == old(maxFrames)
    {
      eyeYawHist := eyeYawHist + [eyeYaw];
      eyePitchHist := eyePitchHist + [eyePitch];
      headYawHist := headYawHist + [headYaw];
      headPitchHist := headPitchHist + [headPitch];
      headRollHist := headRollHist + [headRoll];
      connHist := connHist + [connection];

      eyeYawHist, eyePitchHist := Trim(eyeYawHist), Trim(eyePitchHist);
      headYawHist, headPitchHist, headRollHist := Trim(headYawHist), Trim(headPitchHist), Trim(headRollHist);
      connHist := Trim(connHist);
    }

    /** `process_video`: refuses a frame rate of 0, fixes `max_frames` if it
        was not given, chooses the target frames, analyses each target frame
        the stream reaches until `max_frames` are done, and summarises. */
    method ProcessVideo(frames: seq<Detection>, fps: real, totalFrames: nat, lib: Lib) returns (r: Result<VideoAnalysis, string>)
      requires Lawful(lib) && Valid()
      modifies this
      ensures Valid()
      ensures fps == 0.0 ==> r == Err("FPS could not be determined") && Windows() == old(Windows()) && maxFrames == old(maxFrames)
      ensures fps != 0.0 ==> maxFrames == Some(ResolveMaxFrames(old(maxFrames), totalFrames, fps))
      ensures fps != 0.0 ==>
        var maxF := ResolveMaxFrames(old(maxFrames), totalFrames, fps);
        match TargetFrames(frameSelectionMode, specificFrames, timestamps, totalFrames, fps, maxF)
        case Err(e) => r == Err(e) && Windows() == old(Windows())
        case Ok(targets) =>
          var out := VideoLoop(old(Windows()), targets, frames, 0, 0, maxF, fps, confidenceThreshold, lib);
          r == Ok(Summarize(out.results)) && Windows() == out.histories
    {
      if fps == 0.0 {
        return Err("FPS could not be determined");
      }
      var maxF := ResolveMaxFrames(maxFrames, totalFrames, fps);
      maxFrames := Some(maxF);
      var selection := TargetFrames(frameSelectionMode, specificFrames, timestamps, totalFrames, fps, maxF);
      if selection.Err? {
        return Err(selection.error);
      }
      var results := AnalyzeTargets(selection.value, frames, maxF, fps, lib);
      r := Ok(Summarize(results));
    }

    /** The frame loop of `process_video`: walks the stream frame by frame,
        analysing each frame that is still a target, until `max_frames` frames
        are analysed or the stream ends. */
    method AnalyzeTargets(targets: seq<int>, frames: seq<Detection>, maxF: nat, fps: real, lib: Lib)
      returns (results: VideoResults)
      requires Lawful(lib) && Valid() && fps != 0.0
      modifies this
      ensures Valid() && maxFrames == old(maxFrames)
      ensures var out := VideoLoop(old(Windows()), targets, frames, 0, 0, maxF, fps, confidenceThreshold, lib);
        results == out.results && Windows() == out.histories
    {
      ghost var full := VideoLoop(Windows(), targets, frames, 0, 0, maxF, fps, confidenceThreshold, lib);
      var remaining := targets;
      results := NoResults;
      var frameId := 0;
      var processed := 0;
      while processed < maxF && frameId < |frames|
        invariant Valid() && frameId <= |frames| && maxFrames == old(maxFrames)
        invariant var rest := VideoLoop(Windows(), remaining, frames, frameId, processed, maxF, fps, confidenceThreshold, lib);
          Concat(results, rest.results) == full.results && rest.histories == full.histories
        decreases |frames| - frameId
      {
        if frameId as int in remaining {
          VideoLoopTarget(Windows(), remaining, frames, frameId, processed, maxF, fps, confidenceThreshold, lib);
          var a := AnalyzeFrame(frames[frameId], lib);
          ghost var after := VideoLoop(Windows(), RemoveFirst(remaining, frameId), frames, frameId + 1, processed + 1,
                                       maxF, fps, confidenceThreshold, lib);
          ConcatAppend(results, frameId as real / fps, a, after.results);
          results := Append(results, frameId as real / fps, a);
          processed := processed + 1;
          remaining := RemoveFirst(remaining, frameId);
        }
        frameId := frameId + 1;
      }
      ConcatNoResults(results);
    }
  }
}
