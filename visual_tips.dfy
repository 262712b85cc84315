/** The advisory text of the visual pipeline: the per-frame tip ladders, the
    expression and orientation tip tables, and the tips attached to the
    overall averages. Every ladder is a first-match scan over thresholds. */
module VisualTips {
  import opened Ladders
  import opened VisualMetrics

  const EyeContactBounds: seq<real> := [0.8, 0.5]
  /** Row `k` of the tips of `_get_eye_contact_confidence_tip`, best band first. */
  function EyeContactTips(k: nat): string
    requires k < 3
  {
    if k == 0 then "🌟 Excellent eye contact — you're fully engaging your audience!"
    else if k == 1 then "✅ Good — maintain this level, try to reduce glances away."
    else "⚠️ Low eye contact — practice looking at the camera to build connection."
  }

  /** `_get_eye_contact_confidence_tip`. */
  function EyeContactTip(score: real): string
  {
    EyeContactTips(EyeContactLevel(score))
  }

  /** The ladder of `_get_eye_contact_confidence_tip`. */
  function EyeContactLevel(score: real): (k: nat)
    ensures k < 3
  {
    if score > 0.8 then 0
    else if score > 0.5 then 1
    else 2
  }

  const EyeStabilityBounds: seq<real> := [0.7, 0.4]
  /** Row `k` of the tips of `_get_eye_stability_tip`, best band first. */
  function EyeStabilityTips(k: nat): string
    requires k < 3
  {
    if k == 0 then "🧘‍♂️ Steady gaze — projects calm and focus."
    else if k == 1 then "👀 Occasional darting — try to pause and anchor your gaze."
    else "⚠️ Restless eyes — may signal nervousness or distraction."
  }

  /** `_get_eye_stability_tip`. */
  function EyeStabilityTip(score: real): string
  {
    EyeStabilityTips(EyeStabilityLevel(score))
  }

  function EyeStabilityLevel(score: real): (k: nat)
    ensures k < 3
  {
    if score > 0.7 then 0
    else if score > 0.4 then 1
    else 2
  }

  const PostureStabilityBounds: seq<real> := [0.8, 0.5]
  /** Row `k` of the tips of `_get_posture_stability_tip`, best band first. */
  function PostureStabilityTips(k: nat): string
    requires k < 3
  {
    if k == 0 then "🏆 Rock-solid presence — you own the space!"
    else if k == 1 then "📈 Generally aligned — minor shifts are natural."
    else "⚠️ Frequent posture shifts — may reduce perceived confidence."
  }

  /** `_get_posture_stability_tip`. */
  function PostureStabilityTip(score: real): string
  {
    PostureStabilityTips(PostureStabilityLevel(score))
  }

  function PostureStabilityLevel(score: real): (k: nat)
    ensures k < 3
  {
    if score > 0.8 then 0
    else if score > 0.5 then 1
    else 2
  }

  const NervousnessBounds: seq<real> := [0.8, 0.6, 0.4, 0.2]
  /** Row `k` of the tips of `_get_nervousness_tip`, best band first. */
  function NervousnessTips(k: nat): string
    requires k < 5
  {
    if k == 0 then "🚨 High nervousness detected — Take deep breaths, pause, and ground yourself. Remember, your audience wants you to succeed!"
    else if k == 1 then "⚠️ Moderate nervousness — Channel this energy into passion! Smile, slow down your pace, and trust your preparation."
    else if k == 2 then "💛 Slight nervous energy — This is normal! Use it to stay alert and engaged. Focus on your message, not the anxiety."
    else if k == 3 then "✅ Minimal nervousness — Great balance! You're alert but composed. Keep this steady energy."
    else "🌟 Very calm and composed — Excellent! You're projecting confidence and control."
  }

  /** `_get_nervousness_tip`: the one per-frame ladder compared with `>=`. */
  function NervousnessTip(score: real): string
  {
    NervousnessTips(NervousnessLevel(score))
  }

  function NervousnessLevel(score: real): (k: nat)
    ensures k < 5
  {
    if score >= 0.8 then 0
    else if score >= 0.6 then 1
    else if score >= 0.4 then 2
    else if score >= 0.2 then 3
    else 4
  }

  /** `_get_head_orientation_tip`. */
  function OrientationTip(o: HeadOrientation): string
  {
    match o
    case Forward => "🎯 Perfect — you're addressing your audience directly."
    case Left => "⬅️ Looking left — check if you're reading notes or avoiding camera."
    case Right => "➡️ Looking right — same as above, try to re-center."
    case Up => "⬆️ Looking up — may seem distracted or searching for words."
    case Down => "⬇️ Looking down — can signal hesitation or low confidence."
    case TiltLeft => "🫣 Head tilt — adds curiosity, but overuse may seem uncertain."
    case TiltRight => "🫣 Head tilt — same as above."
    case Unknown => "❓ Orientation unclear — ensure proper camera positioning."
  }

  /** The table of `_get_expression_tip`. */
  const ExpressionTips: map<string, string> := map[
    "HAPPY" := "Great! Smiling builds warmth and trust with your audience.",
    "CALM" := "Excellent — calmness conveys confidence and control.",
    "CONFUSED" := "Try to pause and collect your thoughts — clarity builds credibility.",
    "FEAR" := "It's okay to feel nervous — focus on your message, not the fear.",
    "SAD" := "Check your energy — smiling or standing tall can shift your mood.",
    "ANGRY" := "Channel that energy into passion, not frustration.",
    "SURPRISED" := "Use surprise intentionally — avoid looking startled.",
    "DISGUSTED" := "Re-evaluate your delivery — ensure tone matches message.",
    "NEUTRAL" := "Add subtle expressions to connect — even a small smile helps.",
    "UNKNOWN" := "Expression unclear — ensure good lighting and frontal view."
  ]

  const DefaultTip: string := "Keep practicing — awareness leads to improvement."

  /** `_get_expression_tip`: the table entry, or the generic tip for a type
      outside it. */
  function ExpressionTip(expression: string): (tip: string)
    ensures expression in ExpressionTips ==> tip == ExpressionTips[expression]
    ensures expression !in ExpressionTips ==> tip == DefaultTip
  {
    if expression in ExpressionTips then ExpressionTips[expression] else DefaultTip
  }

  /** The ten averages that receive an overall tip, in the order the tips are
      attached. */
  datatype OverallMetric =
    | AvgEyeContactConfidence
    | AvgEyeStability
    | AvgPostureStability
    | AvgHeadOrientationScore
    | AvgEmotionalScore
    | AvgNervousnessScore
    | AvgTechnicalQuality
    | AvgBrightness
    | AvgSharpness
    | AvgOcclusion

  const AvgEyeContactConfidenceBounds: seq<real> := [0.8, 0.5]
  /** Row `k` of the `_get_overall_tip` branch for `avg_eye_contact_confidence`. */
  function AvgEyeContactConfidenceTips(k: nat): string
    requires k < 3
  {
    if k == 0 then "🌟 Excellent eye contact — you're fully engaging your audience!"
    else if k == 1 then "✅ Good eye contact — maintain this level and reduce glances away."
    else "⚠️ Very low eye contact — practice looking directly into the camera to build connection."
  }

  const AvgEyeStabilityBounds: seq<real> := [0.7, 0.4]
  /** Row `k` of the `_get_overall_tip` branch for `avg_eye_stability`. */
  function AvgEyeStabilityTips(k: nat): string
    requires k < 3
  {
    if k == 0 then "🧘‍♂️ Good eye stability — your gaze was steady and confident."
    else if k == 1 then "👀 Moderate eye movement — try to anchor your gaze more consistently."
    else "⚠️ Restless eyes — frequent darting may signal distraction or anxiety."
  }

  const AvgPostureStabilityBounds: seq<real> := [0.8, 0.6]
  /** Row `k` of the `_get_overall_tip` branch for `avg_posture_stability`. */
  function AvgPostureStabilityTips(k: nat): string
    requires k < 3
  {
    if k == 0 then "🏆 Excellent posture stability — you held your presence strongly."
    else if k == 1 then "📈 Good posture — minor shifts are natural and acceptable."
    else "⚠️ Frequent posture shifts — work on grounding your stance for more confidence."
  }

  const AvgHeadOrientationScoreBounds: seq<real> := [0.85, 0.6]
  /** Row `k` of the `_get_overall_tip` branch for `avg_head_orientation_score`. */
  function AvgHeadOrientationScoreTips(k: nat): string
    requires k < 3
  {
    if k == 0 then "🎯 Near-perfect head alignment — you faced the camera directly."
    else if k == 1 then "↩️ Occasional off-angle looks — try to stay centered on the lens."
    else "⬅️➡️ Frequent head turning — this reduces perceived engagement."
  }

  const AvgEmotionalScoreBounds: seq<real> := [0.8, 0.5]
  /** Row `k` of the `_get_overall_tip` branch for `avg_emotional_score`. */
  function AvgEmotionalScoreTips(k: nat): string
    requires k < 3
  {
    if k == 0 then "😊 Strong emotional expressiveness — your face clearly conveyed your message."
    else if k == 1 then "🙂 Moderate expressiveness — add a bit more facial animation to connect."
    else "😐 Low expressiveness — your face appeared flat; practice matching tone with expression."
  }

  const AvgNervousnessScoreBounds: seq<real> := [0.8, 0.6, 0.3, 0.1]
  /** Row `k` of the `_get_overall_tip` branch for `avg_nervousness_score`. */
  function AvgNervousnessScoreTips(k: nat): string
    requires k < 5
  {
    if k == 0 then "🚨 High nervousness — take deep breaths and pause to reset."
    else if k == 1 then "⚠️ Noticeable nervous energy — channel it into passion and pace."
    else if k == 2 then "💛 Mild nerves — totally normal! Use it to stay alert."
    else if k == 3 then "✅ Very calm — great balance of energy and composure."
    else "🌟 Exceptionally calm — you projected total confidence."
  }

  const AvgTechnicalQualityBounds: seq<real> := [0.8, 0.6, 0.4]
  /** Row `k` of the `_get_overall_tip` branch for `avg_technical_quality`. */
  function AvgTechnicalQualityTips(k: nat): string
    requires k < 4
  {
    if k == 0 then "✨ Excellent video quality — crisp, clear, and professional."
    else if k == 1 then "🔧 Good technical quality — minor improvements would help."
    else if k == 2 then "⚠️ Fair quality — consider better lighting, focus, or camera."
    else "❌ Poor video quality — technical issues may distract from your message."
  }

  const AvgBrightnessBounds: seq<real> := [0.8, 0.5]
  /** Row `k` of the `_get_overall_tip` branch for `avg_brightness`. */
  function AvgBrightnessTips(k: nat): string
    requires k < 3
  {
    if k == 0 then "💡 Excellent brightness — well-lit and easy to see."
    else if k == 1 then "🔆 Adequate lighting — could be slightly brighter or softer."
    else "🌑 Too dark or overexposed — adjust lighting for clarity."
  }

  const AvgSharpnessBounds: seq<real> := [0.7, 0.3]
  /** Row `k` of the `_get_overall_tip` branch for `avg_sharpness`. */
  function AvgSharpnessTips(k: nat): string
    requires k < 3
  {
    if k == 0 then "🔍 Crisp and sharp video — great focus!"
    else if k == 1 then "👀 Acceptable sharpness — minor blur is okay."
    else "⚠️ Very blurry — ensure your camera is focused and stable."
  }

  const AvgOcclusionBounds: seq<real> := [0.85, 0.6]
  /** Row `k` of the `_get_overall_tip` branch for `avg_occlusion`. */
  function AvgOcclusionTips(k: nat): string
    requires k < 3
  {
    if k == 0 then "✅ Face fully visible — no obstructions, perfect framing."
    else if k == 1 then "👁️ Mostly visible — minor occlusion (e.g., hand, hair) occurred."
    else "❌ Frequent face occlusion — keep your face clear and centered."
  }

  /** Row `k` of each metric's overall tip table, best band first: one row
      more than the metric's ladder has thresholds. */
  function OverallTips(m: OverallMetric, k: nat): string
    requires k <= |OverallBounds(m)|
  {
    match m
    case AvgEyeContactConfidence => AvgEyeContactConfidenceTips(k)
    case AvgEyeStability => AvgEyeStabilityTips(k)
    case AvgPostureStability => AvgPostureStabilityTips(k)
    case AvgHeadOrientationScore => AvgHeadOrientationScoreTips(k)
    case AvgEmotionalScore => AvgEmotionalScoreTips(k)
    case AvgNervousnessScore => AvgNervousnessScoreTips(k)
    case AvgTechnicalQuality => AvgTechnicalQualityTips(k)
    case AvgBrightness => AvgBrightnessTips(k)
    case AvgSharpness => AvgSharpnessTips(k)
    case AvgOcclusion => AvgOcclusionTips(k)
  }

  /** The thresholds of each metric's ladder, scanned from the top. */
  function OverallBounds(m: OverallMetric): seq<real>
  {
    match m
    case AvgEyeContactConfidence => AvgEyeContactConfidenceBounds
    case AvgEyeStability => AvgEyeStabilityBounds
    case AvgPostureStability => AvgPostureStabilityBounds
    case AvgHeadOrientationScore => AvgHeadOrientationScoreBounds
    case AvgEmotionalScore => AvgEmotionalScoreBounds
    case AvgNervousnessScore => AvgNervousnessScoreBounds
    case AvgTechnicalQuality => AvgTechnicalQualityBounds
    case AvgBrightness => AvgBrightnessBounds
    case AvgSharpness => AvgSharpnessBounds
    case AvgOcclusion => AvgOcclusionBounds
  }

  /** `_get_overall_tip`: the row of the metric's table its ladder picks. */
  function OverallTip(m: OverallMetric, value: real): string
  {
    OverallTips(m, OverallLevel(m, value))
  }

  /** The ladder of `_get_overall_tip`: `>` for every metric except
      nervousness, which is scanned with `>=`. */
  function OverallLevel(m: OverallMetric, value: real): (k: nat)
    ensures k <= |OverallBounds(m)|
  {
    match m
    case AvgEyeContactConfidence =>
      if value > 0.8 then 0 else if value > 0.5 then 1 else 2
    case AvgEyeStability =>
      if value > 0.7 then 0 else if value > 0.4 then 1 else 2
    case AvgPostureStability =>
      if value > 0.8 then 0 else if value > 0.6 then 1 else 2
    case AvgHeadOrientationScore =>
      if value > 0.85 then 0 else if value > 0.6 then 1 else 2
    case AvgEmotionalScore =>
      if value > 0.8 then 0 else if value > 0.5 then 1 else 2
    case AvgNervousnessScore =>
      if value >= 0.8 then 0
      else if value >= 0.6 then 1
      else if value >= 0.3 then 2
      else if value >= 0.1 then 3
      else 4
    case AvgTechnicalQuality =>
      if value > 0.8 then 0 else if value > 0.6 then 1 else if value > 0.4 then 2 else 3
    case AvgBrightness =>
      if value > 0.8 then 0 else if value > 0.5 then 1 else 2
    case AvgSharpness =>
      if value > 0.7 then 0 else if value > 0.3 then 1 else 2
    case AvgOcclusion =>
      if value > 0.85 then 0 else if value > 0.6 then 1 else 2
  }

  /** Each per-frame tip ladder picks the band its score falls in: the
      thresholds descend, so a higher score never earns a worse tip. */
  lemma FrameTipsArePartitions(v: real)
    ensures Descending(EyeContactBounds) && Descending(EyeStabilityBounds)
    ensures Descending(PostureStabilityBounds) && Descending(NervousnessBounds)
    ensures EyeContactLevel(v) == BandAbove(v, EyeContactBounds)
    ensures EyeStabilityLevel(v) == BandAbove(v, EyeStabilityBounds)
    ensures PostureStabilityLevel(v) == BandAbove(v, PostureStabilityBounds)
    ensures NervousnessLevel(v) == BandAtLeast(v, NervousnessBounds)
  {
    var e := BandAbove(v, EyeContactBounds);
    assert e == 0 || v <= EyeContactBounds[e - 1];
    var s := BandAbove(v, EyeStabilityBounds);
    assert s == 0 || v <= EyeStabilityBounds[s - 1];
    var p := BandAbove(v, PostureStabilityBounds);
    assert p == 0 || v <= PostureStabilityBounds[p - 1];
    var n := BandAtLeast(v, NervousnessBounds);
    assert n == 0 || v < NervousnessBounds[n - 1];
  }

  /** Every overall tip ladder has descending thresholds and picks the band
      the average falls in. */
  lemma OverallTipIsBand(m: OverallMetric, v: real)
    ensures Descending(OverallBounds(m))
    ensures m == AvgNervousnessScore ==> OverallLevel(m, v) == BandAtLeast(v, OverallBounds(m))
    ensures m != AvgNervousnessScore ==> OverallLevel(m, v) == BandAbove(v, OverallBounds(m))
  {
    var b := OverallBounds(m);
    if m == AvgNervousnessScore {
      var k := BandAtLeast(v, b);
      assert k == 0 || v < b[k - 1];
    } else {
      var k := BandAbove(v, b);
      assert k == 0 || v <= b[k - 1];
    }
  }
}
