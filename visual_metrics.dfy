/** The closed-form per-face heuristics of `VisualAnalyzer`: eye contact and
    eye stability, head orientation and its score, connection strength,
    posture stability, face occlusion, and the emotion summary with its
    nervousness score. Angles are in degrees, confidences in Rekognition's
    0-100 scale. */
module VisualMetrics {
  import opened Outcome
  import opened Numerics

  // ---------- eyes ----------

  /** `_compute_eye_contact_confidence_from_eye_direction`: 1 minus the larger
      of the yaw deviation (in units of 25 degrees) and the pitch deviation
      (in units of 20 degrees), floored at 0. */
  function EyeContactConfidence(eyeYaw: real, eyePitch: real): (c: real)
    ensures 0.0 <= c <= 1.0
    ensures c == 1.0 <==> eyeYaw == 0.0 && eyePitch == 0.0
    ensures c == 0.0 <==> Abs(eyeYaw) >= 25.0 || Abs(eyePitch) >= 20.0
  {
    var yawDeviation := Abs(eyeYaw) / 25.0;
    var pitchDeviation := Abs(eyePitch) / 20.0;
    Max(0.0, 1.0 - Max(yawDeviation, pitchDeviation))
  }

  /** `_compute_eye_stability_from_eye_history`: 1.0 with fewer than two
      samples, otherwise 1 minus the mean of the two standard deviations in
      units of 15 degrees, floored at 0. */
  function EyeStability(yawHist: seq<real>, pitchHist: seq<real>, lib: Lib): (s: real)
    requires Lawful(lib)
    ensures 0.0 <= s <= 1.0
    ensures |yawHist| < 2 ==> s == 1.0
    ensures IsConstant(yawHist) && IsConstant(pitchHist) ==> s == 1.0
  {
    if |yawHist| < 2 then 1.0
    else
      var avgStd := (lib.std(yawHist) + lib.std(pitchHist)) / 2.0;
      Max(0.0, 1.0 - avgStd / 15.0)
  }

  // ---------- head pose ----------

  datatype HeadOrientation = Forward | Left | Right | Up | Down | TiltLeft | TiltRight | Unknown

  /** `_compute_head_orientation_from_pose`: yaw beyond 30 degrees wins over
      pitch beyond 25, which wins over roll beyond 20. */
  function Orientation(yaw: real, pitch: real, roll: real): HeadOrientation
  {
    if Abs(yaw) > 30.0 then (if yaw < 0.0 then Left else Right)
    else if Abs(pitch) > 25.0 then (if pitch > 0.0 then Up else Down)
    else if Abs(roll) > 20.0 then (if roll < 0.0 then TiltLeft else TiltRight)
    else Forward
  }

  /** Each class is exactly the region of poses the priority order gives it,
      and no pose is classed `unknown`. */
  lemma OrientationRegions(yaw: real, pitch: real, roll: real)
    ensures var o := Orientation(yaw, pitch, roll);
      && (o == Left <==> yaw < -30.0)
      && (o == Right <==> yaw > 30.0)
      && (o == Up <==> -30.0 <= yaw <= 30.0 && pitch > 25.0)
      && (o == Down <==> -30.0 <= yaw <= 30.0 && pitch < -25.0)
      && (o == TiltLeft <==> -30.0 <= yaw <= 30.0 && -25.0 <= pitch <= 25.0 && roll < -20.0)
      && (o == TiltRight <==> -30.0 <= yaw <= 30.0 && -25.0 <= pitch <= 25.0 && roll > 20.0)
      && (o == Forward <==> Abs(yaw) <= 30.0 && Abs(pitch) <= 25.0 && Abs(roll) <= 20.0)
      && o != Unknown
  {
  }

  /** The number of axes deviating by more than 15 degrees. */
  function ActiveAxes(yaw: real, pitch: real, roll: real): (k: nat)
    ensures k <= 3
    ensures k == 0 <==> Abs(yaw) <= 15.0 && Abs(pitch) <= 15.0 && Abs(roll) <= 15.0
  {
    (if Abs(yaw) > 15.0 then 1 else 0) + (if Abs(pitch) > 15.0 then 1 else 0) + (if Abs(roll) > 15.0 then 1 else 0)
  }

  /** The per-class base of `_map_orientation_to_score`: 1 when forward, the
      falloff of the deciding axis over 90 degrees otherwise, 0 when unknown. */
  function OrientationBase(o: HeadOrientation, yaw: real, pitch: real, roll: real): (b: real)
    ensures 0.0 <= b <= 1.0
  {
    match o
    case Forward => 1.0
    case Left | Right => Max(0.0, 1.0 - Abs(yaw) / 90.0)
    case Up | Down => Max(0.0, 1.0 - Abs(pitch) / 90.0)
    case TiltLeft | TiltRight => Max(0.0, 1.0 - Abs(roll) / 90.0)
    case Unknown => 0.0
  }

  /** `0.1 * (active_axes - 1)` when at least two axes deviate, else 0. */
  function MultiAxisPenalty(yaw: real, pitch: real, roll: real): (p: real)
    ensures 0.0 <= p <= 0.2
    ensures p > 0.0 <==> ActiveAxes(yaw, pitch, roll) >= 2
  {
    var k := ActiveAxes(yaw, pitch, roll);
    if k > 1 then 0.1 * (k - 1) as real else 0.0
  }

  /** `_map_orientation_to_score`. */
  function OrientationScore(o: HeadOrientation, yaw: real, pitch: real, roll: real): (s: real)
    ensures 0.0 <= s <= 1.0
  {
    var finalScore := Max(0.0, OrientationBase(o, yaw, pitch, roll) - MultiAxisPenalty(yaw, pitch, roll));
    RoundBetween(finalScore, 0, 1, 2);
    Round(finalScore, 2)
  }

  /** A head facing the camera scores 1; a deviation on one axis only costs no
      penalty; an unknown orientation scores 0; and the score never exceeds
      the rounded base of its class. */
  lemma OrientationScoreFacts(o: HeadOrientation, yaw: real, pitch: real, roll: real)
    ensures Orientation(0.0, 0.0, 0.0) == Forward && OrientationScore(Forward, 0.0, 0.0, 0.0) == 1.0
    ensures ActiveAxes(yaw, pitch, roll) <= 1 ==>
      OrientationScore(o, yaw, pitch, roll) == Round(OrientationBase(o, yaw, pitch, roll), 2)
    ensures OrientationScore(Unknown, yaw, pitch, roll) == 0.0
    ensures OrientationScore(o, yaw, pitch, roll) <= Round(OrientationBase(o, yaw, pitch, roll), 2)
  {
    RoundInt(1, 2);
    RoundInt(0, 2);
    var b := OrientationBase(o, yaw, pitch, roll);
    RoundMonotone(Max(0.0, b - MultiAxisPenalty(yaw, pitch, roll)), b, 2);
  }

  /** `_compute_connection_strength_from_pose`: 1 inside |yaw| <= 25 and
      |pitch| <= 20, else the mean of the yaw falloff over 45 degrees and the
      pitch falloff over 30 degrees (the roll is not used). */
  function ConnectionStrength(yaw: real, pitch: real, roll: real): (c: real)
    ensures 0.0 <= c <= 1.0
    ensures c == 1.0 <==> Abs(yaw) <= 25.0 && Abs(pitch) <= 20.0
  {
    if Abs(yaw) <= 25.0 && Abs(pitch) <= 20.0 then 1.0
    else
      var yawRatio := Max(0.0, 1.0 - Abs(yaw) / 45.0);
      var pitchRatio := Max(0.0, 1.0 - Abs(pitch) / 30.0);
      (yawRatio + pitchRatio) / 2.0
  }

  /** The number of entries above `t`. */
  function CountAbove(s: seq<real>, t: real): (n: nat)
    ensures n <= |s|
  {
    if s == [] then 0 else CountAbove(s[..|s| - 1], t) + (if s[|s| - 1] > t then 1 else 0)
  }

  /** No entry above `t` counts 0, all of them count `|s|`, and nothing in
      between hits either extreme. */
  lemma {:induction false} CountAboveExtremes(s: seq<real>, t: real)
    ensures CountAbove(s, t) == |s| <==> forall k :: 0 <= k < |s| ==> s[k] > t
    ensures CountAbove(s, t) == 0 <==> forall k :: 0 <= k < |s| ==> s[k] <= t
  {
    if s != [] {
      CountAboveExtremes(s[..|s| - 1], t);
    }
  }

  /** `_compute_posture_stability`: the share of the connection history above
      0.7, or 1.0 for an empty history. */
  function PostureStability(connHist: seq<real>): (s: real)
    ensures 0.0 <= s <= 1.0
  {
    if |connHist| == 0 then 1.0
    else
      var n := CountAbove(connHist, 0.7);
      DivMonotone(n as real, |connHist| as real, |connHist| as real);
      n as real / |connHist| as real
  }

  /** Posture stability is 1 exactly when every remembered connection is above
      0.7, and 0 exactly when a non-empty history has none above it. */
  lemma PostureStabilityExtremes(connHist: seq<real>)
    ensures PostureStability(connHist) == 1.0 <==> forall k :: 0 <= k < |connHist| ==> connHist[k] > 0.7
    ensures PostureStability(connHist) == 0.0 <==> |connHist| > 0 && forall k :: 0 <= k < |connHist| ==> connHist[k] <= 0.7
  {
    CountAboveExtremes(connHist, 0.7);
  }

  // ---------- occlusion ----------

  /** `_compute_face_occlusion`: the share of the 12 expected landmarks that
      are missing, raised to 1 - Confidence/100 when the detection is less
      sure (Confidence defaults to 100 here), rounded to 2 places. */
  function FaceOcclusion(landmarkCount: nat, confidence: Option<real>): (r: real)
    ensures r >= 0.0
    ensures (confidence.None? || 0.0 <= confidence.value <= 100.0) ==> r <= 1.0
    ensures landmarkCount >= 12 && (confidence.None? || confidence.value == 100.0) ==> r == 0.0
    ensures landmarkCount == 0 && (confidence.None? || confidence.value >= 0.0) ==> r == 1.0
  {
    var fromLandmarks := Max(0.0, 1.0 - landmarkCount as real / 12.0);
    var c := (if confidence.Some? then confidence.value else 100.0) / 100.0;
    var ratio := Max(fromLandmarks, 1.0 - c);
    RoundAbove(ratio, 0, 2);
    RoundBelow(ratio, 1, 2);
    RoundInt(0, 2);
    RoundInt(1, 2);
    Round(ratio, 2)
  }

  // ---------- emotions ----------

  /** One entry of Rekognition's `Emotions` list. */
  datatype Emotion = Emotion(kind: string, confidence: real)

  /** `str.upper` on ASCII letters. */
  function Upper(s: string): (u: string)
    ensures |u| == |s|
    ensures forall i :: 0 <= i < |s| ==> ('a' <= s[i] <= 'z' ==> u[i] as int == s[i] as int - 32)
    ensures forall i :: 0 <= i < |s| ==> (!('a' <= s[i] <= 'z') ==> u[i] == s[i])
  {
    seq(|s|, i requires 0 <= i < |s| => if 'a' <= s[i] <= 'z' then (s[i] as int - 32) as char else s[i])
  }

  /** Upper-casing is idempotent. */
  lemma UpperIdempotent(s: string)
    ensures Upper(Upper(s)) == Upper(s)
  {
  }

  /** Where `{e["Type"].upper(): e["Confidence"] for e in emotions}` takes the
      value of `name` from: the last entry of that type, if any. */
  function LastOfKind(emotions: seq<Emotion>, name: string): (k: Option<nat>)
    ensures k.Some? ==> k.value < |emotions| && Upper(emotions[k.value].kind) == name
    ensures k.Some? ==> forall j :: k.value < j < |emotions| ==> Upper(emotions[j].kind) != name
    ensures k.None? <==> forall j :: 0 <= j < |emotions| ==> Upper(emotions[j].kind) != name
  {
    if emotions == [] then None
    else if Upper(emotions[|emotions| - 1].kind) == name then Some(|emotions| - 1)
    else LastOfKind(emotions[..|emotions| - 1], name)
  }

  /** `emotion_map.get(name, 0.0)`. */
  function ConfidenceOf(emotions: seq<Emotion>, name: string): real
  {
    match LastOfKind(emotions, name)
    case None => 0.0
    case Some(k) => emotions[k].confidence
  }

  /** `max(emotions, key=Confidence)`: the first entry of highest confidence. */
  function DominantIndex(emotions: seq<Emotion>): (k: nat)
    requires |emotions| > 0
    ensures k < |emotions|
    ensures forall j :: 0 <= j < |emotions| ==> emotions[j].confidence <= emotions[k].confidence
    ensures forall j :: 0 <= j < k ==> emotions[j].confidence < emotions[k].confidence
  {
    if |emotions| == 1 then 0
    else
      var k := DominantIndex(emotions[..|emotions| - 1]);
      if emotions[|emotions| - 1].confidence > emotions[k].confidence then |emotions| - 1 else k
  }

  /** The nervousness weights in the order the source sums them: primary
      indicators, secondary indicators, calming emotions. */
  const NervousWeights: seq<(string, real)> := [
    ("FEAR", 1.0), ("CONFUSED", 0.9),
    ("SURPRISED", 0.6), ("SAD", 0.5), ("ANGRY", 0.4), ("DISGUSTED", 0.3),
    ("CALM", -1.0), ("HAPPY", -0.8)
  ]

  /** The running nervousness after the first `n` weights. */
  function WeightedSum(emotions: seq<Emotion>, n: nat): real
    requires n <= |NervousWeights|
  {
    if n == 0 then 0.0
    else WeightedSum(emotions, n - 1) + ConfidenceOf(emotions, NervousWeights[n - 1].0) / 100.0 * NervousWeights[n - 1].1
  }

  /** The full sum is the weighted combination of the eight emotion
      confidences the source lists. */
  lemma NervousnessFormula(emotions: seq<Emotion>)
    ensures WeightedSum(emotions, 8) ==
      (ConfidenceOf(emotions, "FEAR") * 1.0 + ConfidenceOf(emotions, "CONFUSED") * 0.9
       + ConfidenceOf(emotions, "SURPRISED") * 0.6 + ConfidenceOf(emotions, "SAD") * 0.5
       + ConfidenceOf(emotions, "ANGRY") * 0.4 + ConfidenceOf(emotions, "DISGUSTED") * 0.3
       - ConfidenceOf(emotions, "CALM") * 1.0 - ConfidenceOf(emotions, "HAPPY") * 0.8) / 100.0
  {
    assert NervousWeights[0] == ("FEAR", 1.0);
    assert WeightedSum(emotions, 1) == WeightedSum(emotions, 0) + ConfidenceOf(emotions, "FEAR") / 100.0 * 1.0;
    assert NervousWeights[1] == ("CONFUSED", 0.9);
    assert WeightedSum(emotions, 2) == WeightedSum(emotions, 1) + ConfidenceOf(emotions, "CONFUSED") / 100.0 * 0.9;
    assert NervousWeights[2] == ("SURPRISED", 0.6);
    assert WeightedSum(emotions, 3) == WeightedSum(emotions, 2) + ConfidenceOf(emotions, "SURPRISED") / 100.0 * 0.6;
    assert NervousWeights[3] == ("SAD", 0.5);
    assert WeightedSum(emotions, 4) == WeightedSum(emotions, 3) + ConfidenceOf(emotions, "SAD") / 100.0 * 0.5;
    assert NervousWeights[4] == ("ANGRY", 0.4);
    assert WeightedSum(emotions, 5) == WeightedSum(emotions, 4) + ConfidenceOf(emotions, "ANGRY") / 100.0 * 0.4;
    assert NervousWeights[5] == ("DISGUSTED", 0.3);
    assert WeightedSum(emotions, 6) == WeightedSum(emotions, 5) + ConfidenceOf(emotions, "DISGUSTED") / 100.0 * 0.3;
    assert NervousWeights[6] == ("CALM", -1.0);
    assert WeightedSum(emotions, 7) == WeightedSum(emotions, 6) + ConfidenceOf(emotions, "CALM") / 100.0 * -1.0;
    assert NervousWeights[7] == ("HAPPY", -0.8);
    assert WeightedSum(emotions, 8) == WeightedSum(emotions, 7) + ConfidenceOf(emotions, "HAPPY") / 100.0 * -0.8;
  }

  /** What `_analyze_emotions` returns. */
  datatype ExpressionInfo = ExpressionInfo(kind: string, score: real, nervousness: real, rawEmotions: seq<Emotion>)

  /** The clamped, rounded nervousness of a face. */
  function Nervousness(emotions: seq<Emotion>): (n: real)
    ensures 0.0 <= n <= 1.0
  {
    var clamped := Min(1.0, Max(0.0, WeightedSum(emotions, |NervousWeights|)));
    RoundBetween(clamped, 0, 1, 2);
    Round(clamped, 2)
  }

  /** `_analyze_emotions`: NEUTRAL with score 1 and no nervousness when there
      are no emotions, otherwise the upper-cased type and the confidence / 100
      of the dominant emotion together with the nervousness score. */
  function Expression(emotions: seq<Emotion>): ExpressionInfo
  {
    if emotions == [] then ExpressionInfo("NEUTRAL", 1.0, 0.0, [])
    else
      var d := emotions[DominantIndex(emotions)];
      ExpressionInfo(Upper(d.kind), d.confidence / 100.0, Nervousness(emotions), emotions)
  }

  /** `_analyze_emotions` as the source writes it: the weights are summed in a
      loop over the three weight tables. */
  method AnalyzeEmotions(emotions: seq<Emotion>) returns (info: ExpressionInfo)
    ensures info == Expression(emotions)
  {
    if emotions == [] {
      return ExpressionInfo("NEUTRAL", 1.0, 0.0, []);
    }
    var dominant := emotions[DominantIndex(emotions)];
    var nervousness := 0.0;
    var i := 0;
    while i < |NervousWeights|
      invariant 0 <= i <= |NervousWeights|
      invariant nervousness == WeightedSum(emotions, i)
    {
      var (emotion, weight) := NervousWeights[i];
      var conf := ConfidenceOf(emotions, emotion);
      nervousness := nervousness + conf / 100.0 * weight;
      i := i + 1;
    }
    nervousness := Min(1.0, Max(0.0, nervousness));
    info := ExpressionInfo(Upper(dominant.kind), dominant.confidence / 100.0, Round(nervousness, 2), emotions);
  }

  /** The summary of a face: NEUTRAL for no emotions; otherwise its type is
      that of an emotion of maximal confidence, the first such one, and its
      score that confidence / 100; nervousness is always in [0, 1]. */
  lemma ExpressionFacts(emotions: seq<Emotion>)
    ensures var info := Expression(emotions);
      && 0.0 <= info.nervousness <= 1.0
      && (emotions == [] ==> info == ExpressionInfo("NEUTRAL", 1.0, 0.0, []))
      && (emotions != [] ==>
            exists k :: 0 <= k < |emotions| &&
              info.kind == Upper(emotions[k].kind) && info.score == emotions[k].confidence / 100.0 &&
              (forall j :: 0 <= j < |emotions| ==> emotions[j].confidence <= emotions[k].confidence) &&
              (forall j :: 0 <= j < k ==> emotions[j].confidence < emotions[k].confidence))
  {
    if emotions != [] {
      var k := DominantIndex(emotions);
      assert Upper(emotions[k].kind) == Expression(emotions).kind;
    }
  }

  /** A face showing none of the six nervous emotions is scored 0, and a face
      of pure fear (confidence 100, no calm or happiness, the rest
      non-negative) is scored 1. */
  lemma NervousnessExtremes(emotions: seq<Emotion>)
    ensures ConfidenceOf(emotions, "FEAR") <= 0.0 && ConfidenceOf(emotions, "CONFUSED") <= 0.0
      && ConfidenceOf(emotions, "SURPRISED") <= 0.0 && ConfidenceOf(emotions, "SAD") <= 0.0
      && ConfidenceOf(emotions, "ANGRY") <= 0.0 && ConfidenceOf(emotions, "DISGUSTED") <= 0.0
      && ConfidenceOf(emotions, "CALM") >= 0.0 && ConfidenceOf(emotions, "HAPPY") >= 0.0
      ==> Nervousness(emotions) == 0.0
    ensures ConfidenceOf(emotions, "FEAR") == 100.0 && ConfidenceOf(emotions, "CONFUSED") >= 0.0
      && ConfidenceOf(emotions, "SURPRISED") >= 0.0 && ConfidenceOf(emotions, "SAD") >= 0.0
      && ConfidenceOf(emotions, "ANGRY") >= 0.0 && ConfidenceOf(emotions, "DISGUSTED") >= 0.0
      && ConfidenceOf(emotions, "CALM") == 0.0 && ConfidenceOf(emotions, "HAPPY") == 0.0
      ==> Nervousness(emotions) == 1.0
  {
    NervousnessFormula(emotions);
    RoundInt(0, 2);
    RoundInt(1, 2);
  }

  // ---------- technical quality ----------

  /** `max(0, min(1, (brightness - 50) / 150))`. */
  function BrightnessNorm(brightness: real): (b: real)
    ensures 0.0 <= b <= 1.0
  {
    Max(0.0, Min(1.0, (brightness - 50.0) / 150.0))
  }

  /** `max(0, min(1, sharpness / 200))`. */
  function SharpnessNorm(sharpness: real): (s: real)
    ensures 0.0 <= s <= 1.0
  {
    Max(0.0, Min(1.0, sharpness / 200.0))
  }
}
