/** One analysed frame of `VisualAnalyzer.analyze_frame`: the records it
    returns and the history windows it keeps, as values. The detector's
    answer for a frame is an input: either nothing usable (an empty frame, a
    failed encoding or a failed call) or the list of detected faces together
    with the frame's raw brightness and sharpness. */
module VisualFrames {
  import opened Outcome
  import opened Numerics
  import opened VisualMetrics
  import opened VisualTips

  const WindowSize: nat := 5

  /** The fields of one `FaceDetails` entry the analysis reads; an absent
      angle or confidence is `None`. */
  datatype Face = Face(
    confidence: Option<real>,
    emotions: seq<Emotion>,
    landmarkCount: nat,
    eyeYaw: Option<real>,
    eyePitch: Option<real>,
    headYaw: Option<real>,
    headPitch: Option<real>,
    headRoll: Option<real>)

  /** What the detector makes of one frame. */
  datatype Detection =
    | Unreadable
    | Detected(faces: seq<Face>, brightness: real, sharpness: real)

  datatype EyeContactRecord = EyeContactRecord(
    confidence: real, confidenceTip: string, stability: real, stabilityTip: string,
    timestampSec: nat, windowSizeSec: nat, rawEyeYaw: real, rawEyePitch: real)

  datatype PostureRecord = PostureRecord(
    orientation: HeadOrientation, orientationScore: real, orientationTip: string,
    stability: real, stabilityTip: string, timestampSec: nat, windowSizeSec: nat,
    rawHeadYaw: real, rawHeadPitch: real, rawHeadRoll: real)

  datatype ExpressionRecord = ExpressionRecord(
    kind: string, score: real, nervousness: real, expressionTip: string, nervousnessTip: string,
    timestampSec: nat, windowSizeSec: nat, rawEmotions: seq<Emotion>)

  datatype TechnicalRecord = TechnicalRecord(
    brightness: real, sharpness: real, occlusion: real, averageScore: real,
    rawBrightness: real, rawSharpness: real, rawOcclusionRatio: real)

  /** The four records `analyze_frame` returns. */
  datatype FrameAnalysis = FrameAnalysis(
    eye: EyeContactRecord, posture: PostureRecord, expression: ExpressionRecord, technical: TechnicalRecord)

  /** The two expressions `_get_default_response` is called with. */
  datatype DefaultKind = NoFace | Error

  /** `_get_default_response(expression)`: every score 0, no timestamp, the
      expression type upper-cased and its tip title-cased. */
  function DefaultAnalysis(kind: DefaultKind): FrameAnalysis
  {
    FrameAnalysis(
      EyeContactRecord(0.0, "No face detected", 0.0, "No data", 0, 0, 0.0, 0.0),
      PostureRecord(Unknown, 0.0, "No face detected", 0.0, "No data", 0, 0, 0.0, 0.0, 0.0),
      ExpressionRecord(
        if kind == NoFace then "NO_FACE" else "ERROR", 0.0, 0.0,
        if kind == NoFace then "No Face" else "Error",
        "No nervousness data available", 0, 0, []),
      TechnicalRecord(0.0, 0.0, 0.0, 0.0, 0.0, 0.0, 0.0))
  }

  /** The six history windows, in the order the source trims them. */
  datatype Histories = Histories(
    eyeYaw: seq<real>, eyePitch: seq<real>,
    headYaw: seq<real>, headPitch: seq<real>, headRoll: seq<real>,
    conn: seq<real>)

  /** All six windows have the same length, at most `WINDOW_SIZE`. */
  ghost predicate WindowsValid(h: Histories)
  {
    && |h.eyeYaw| <= WindowSize
    && |h.eyePitch| == |h.eyeYaw| && |h.headYaw| == |h.eyeYaw| && |h.headPitch| == |h.eyeYaw|
    && |h.headRoll| == |h.eyeYaw| && |h.conn| == |h.eyeYaw|
  }

  /** `if len(hist) > WINDOW_SIZE: hist.pop(0)`. */
  function Trim(hist: seq<real>): seq<real>
  {
    if |hist| > WindowSize then hist[1..] else hist
  }

  /** `hist.append(x)` followed by the trim. */
  function Slide(hist: seq<real>, x: real): (r: seq<real>)
    ensures |r| == if |hist| < WindowSize then |hist| + 1 else |hist|
    ensures r[|r| - 1] == x
  {
    Trim(hist + [x])
  }

  /** The window after a run of observations. */
  function SlideAll(hist: seq<real>, xs: seq<real>): seq<real>
    decreases |xs|
  {
    if xs == [] then hist else SlideAll(Slide(hist, xs[0]), xs[1..])
  }

  /** A window is FIFO: after any run of observations it holds the last
      `min(n, 5)` values seen, oldest first. */
  lemma {:induction false} SlideAllKeepsNewest(hist: seq<real>, xs: seq<real>)
    requires |hist| <= WindowSize
    ensures var all := hist + xs;
      SlideAll(hist, xs) == all[(if |all| > WindowSize then |all| - WindowSize else 0)..]
    decreases |xs|
  {
    if xs != [] {
      var next := Slide(hist, xs[0]);
      SlideAllKeepsNewest(next, xs[1..]);
      var all := hist + xs;
      var rest := next + xs[1..];
      if |hist| + 1 > WindowSize {
        assert next == (hist + [xs[0]])[1..];
        assert rest == all[1..];
      } else {
        assert rest == all;
      }
    }
  }

  function OrZero(x: Option<real>): real
  {
    if x.Some? then x.value else 0.0
  }

  /** The first face whose `Confidence` (0 when absent) reaches the threshold. */
  function FirstQualifying(faces: seq<Face>, threshold: real): (k: Option<nat>)
    ensures k.Some? ==> k.value < |faces| && OrZero(faces[k.value].confidence) >= threshold
    ensures k.Some? ==> forall j :: 0 <= j < k.value ==> OrZero(faces[j].confidence) < threshold
    ensures k.None? <==> forall j :: 0 <= j < |faces| ==> OrZero(faces[j].confidence) < threshold
  {
    if faces == [] then None
    else if OrZero(faces[0].confidence) >= threshold then Some(0)
    else
      match FirstQualifying(faces[1..], threshold)
      case None => None
      case Some(k) => Some(k + 1)
  }

  /** The technical-quality record of a frame with an analysed face. */
  function Technical(brightnessRaw: real, sharpnessRaw: real, occlusionRatio: real): (t: TechnicalRecord)
    ensures 0.0 <= t.brightness <= 1.0 && 0.0 <= t.sharpness <= 1.0
    ensures 0.0 <= occlusionRatio <= 1.0 ==> 0.0 <= t.occlusion <= 1.0 && 0.0 <= t.averageScore <= 1.0
    ensures occlusionRatio == 0.0 && brightnessRaw >= 200.0 && sharpnessRaw >= 200.0 ==>
      t.occlusion == 1.0 && t.averageScore == 1.0
  {
    var brightnessNorm := BrightnessNorm(brightnessRaw);
    var sharpnessNorm := SharpnessNorm(sharpnessRaw);
    var occlusionNorm := 1.0 - occlusionRatio;
    var average := (brightnessNorm + sharpnessNorm + occlusionNorm) / 3.0;
    RoundBetween(brightnessNorm, 0, 1, 2);
    RoundBetween(sharpnessNorm, 0, 1, 2);
    RoundAbove(occlusionNorm, 0, 2);
    RoundBelow(occlusionNorm, 1, 2);
    RoundAbove(average, 0, 2);
    RoundBelow(average, 1, 2);
    RoundInt(1, 2);
    TechnicalRecord(Round(brightnessNorm, 2), Round(sharpnessNorm, 2), Round(occlusionNorm, 2), Round(average, 2),
      brightnessRaw, sharpnessRaw, occlusionRatio)
  }

  /** The expression record of a face, stamped with the window length before
      the update. */
  function ExpressionOf(h: Histories, face: Face): ExpressionRecord
  {
    var info := Expression(face.emotions);
    ExpressionRecord(
      info.kind, Round(info.score, 2), Round(info.nervousness, 2),
      ExpressionTip(info.kind), NervousnessTip(info.nervousness),
      |h.eyeYaw|, WindowSize, face.emotions)
  }

  /** The five angles rounded to two places (0 when absent) and the connection
      strength of the head pose, slid into the windows. */
  function ObserveFace(h: Histories, face: Face): Histories
  {
    var headYaw := Round(OrZero(face.headYaw), 2);
    var headPitch := Round(OrZero(face.headPitch), 2);
    var headRoll := Round(OrZero(face.headRoll), 2);
    Histories(
      Slide(h.eyeYaw, Round(OrZero(face.eyeYaw), 2)), Slide(h.eyePitch, Round(OrZero(face.eyePitch), 2)),
      Slide(h.headYaw, headYaw), Slide(h.headPitch, headPitch), Slide(h.headRoll, headRoll),
      Slide(h.conn, ConnectionStrength(headYaw, headPitch, headRoll)))
  }

  /** The eye-contact record, its stability taken over the updated windows. */
  function EyeRecordOf(h': Histories, face: Face, lib: Lib): EyeContactRecord
    requires Lawful(lib)
  {
    var eyeYaw := Round(OrZero(face.eyeYaw), 2);
    var eyePitch := Round(OrZero(face.eyePitch), 2);
    var eyeContact := EyeContactConfidence(eyeYaw, eyePitch);
    var eyeStability := EyeStability(h'.eyeYaw, h'.eyePitch, lib);
    EyeContactRecord(
      Round(eyeContact, 2), EyeContactTip(eyeContact), Round(eyeStability, 2), EyeStabilityTip(eyeStability),
      |h'.eyeYaw|, WindowSize, eyeYaw, eyePitch)
  }

  /** The posture record, its stability taken over the updated connection window. */
  function PostureRecordOf(h': Histories, face: Face): PostureRecord
  {
    var headYaw := Round(OrZero(face.headYaw), 2);
    var headPitch := Round(OrZero(face.headPitch), 2);
    var headRoll := Round(OrZero(face.headRoll), 2);
    var orientation := Orientation(headYaw, headPitch, headRoll);
    var postureStability := PostureStability(h'.conn);
    PostureRecord(
      orientation, OrientationScore(orientation, headYaw, headPitch, headRoll), OrientationTip(orientation),
      Round(postureStability, 2), PostureStabilityTip(postureStability),
      |h'.eyeYaw|, WindowSize, headYaw, headPitch, headRoll)
  }

  /** The analysis of a qualifying face: the new windows and the four records. */
  function AnalyzeFace(h: Histories, face: Face, brightness: real, sharpness: real, lib: Lib): (Histories, FrameAnalysis)
    requires Lawful(lib)
  {
    var h' := ObserveFace(h, face);
    var technical := Technical(brightness, sharpness, FaceOcclusion(face.landmarkCount, face.confidence));
    (h', FrameAnalysis(EyeRecordOf(h', face, lib), PostureRecordOf(h', face), ExpressionOf(h, face), technical))
  }

  /** `analyze_frame`: the error default for an unreadable frame, the
      no-face default when no face reaches the confidence threshold, and
      otherwise the analysis of the first face that does. */
  function FrameStep(h: Histories, d: Detection, threshold: real, lib: Lib): (Histories, FrameAnalysis)
    requires Lawful(lib)
  {
    match d
    case Unreadable => (h, DefaultAnalysis(Error))
    case Detected(faces, brightness, sharpness) =>
      match FirstQualifying(faces, threshold)
      case None => (h, DefaultAnalysis(NoFace))
      case Some(k) => AnalyzeFace(h, faces[k], brightness, sharpness, lib)
  }

  /** The ranges of the per-frame scores the averages are taken over. */
  ghost predicate AnalysisBounded(a: FrameAnalysis)
  {
    && 0.0 <= a.eye.confidence <= 1.0 && 0.0 <= a.eye.stability <= 1.0
    && 0.0 <= a.posture.orientationScore <= 1.0 && 0.0 <= a.posture.stability <= 1.0
    && 0.0 <= a.expression.nervousness <= 1.0
    && 0.0 <= a.technical.brightness <= 1.0 && 0.0 <= a.technical.sharpness <= 1.0
  }

  /** The detector reports its confidences as percentages. */
  ghost predicate FaceInRange(face: Face)
  {
    && (face.confidence.None? || 0.0 <= face.confidence.value <= 100.0)
    && forall e :: e in face.emotions ==> 0.0 <= e.confidence <= 100.0
  }

  ghost predicate DetectionInRange(d: Detection)
  {
    d.Detected? ==> forall k :: 0 <= k < |d.faces| ==> FaceInRange(d.faces[k])
  }

  /** The ranges of the emotion score, the occlusion score and the technical
      average, which hold when the detector's percentages do. */
  ghost predicate ScoresBounded(a: FrameAnalysis)
  {
    && 0.0 <= a.expression.score <= 1.0
    && 0.0 <= a.technical.occlusion <= 1.0 && 0.0 <= a.technical.averageScore <= 1.0
  }

  /** A face whose confidences are percentages gets an emotion score, an
      occlusion score and a technical average in [0, 1]. */
  lemma AnalyzeFaceScores(h: Histories, face: Face, brightness: real, sharpness: real, lib: Lib)
    requires Lawful(lib) && FaceInRange(face)
    ensures ScoresBounded(AnalyzeFace(h, face, brightness, sharpness, lib).1)
  {
    var info := Expression(face.emotions);
    ExpressionFacts(face.emotions);
    if face.emotions != [] {
      var k :| 0 <= k < |face.emotions| && info.score == face.emotions[k].confidence / 100.0;
      assert face.emotions[k] in face.emotions;
    }
    RoundBetween(info.score, 0, 1, 2);
    assert 0.0 <= ExpressionOf(h, face).score <= 1.0;
  }

  /** On a detection whose confidences are percentages, a frame step's
      emotion score, occlusion score and technical average are in [0, 1]. */
  lemma FrameStepScores(h: Histories, d: Detection, threshold: real, lib: Lib)
    requires Lawful(lib) && DetectionInRange(d)
    ensures ScoresBounded(FrameStep(h, d, threshold, lib).1)
  {
    if d.Detected? && FirstQualifying(d.faces, threshold).Some? {
      AnalyzeFaceScores(h, d.faces[FirstQualifying(d.faces, threshold).value], d.brightness, d.sharpness, lib);
    }
  }

  /** A frame step keeps the windows valid and its scores in range. */
  lemma FrameStepBounded(h: Histories, d: Detection, threshold: real, lib: Lib)
    requires Lawful(lib) && WindowsValid(h)
    ensures WindowsValid(FrameStep(h, d, threshold, lib).0) && AnalysisBounded(FrameStep(h, d, threshold, lib).1)
  {
    FrameStepFacts(h, d, threshold, lib);
  }

  /** A frame step keeps the windows valid and leaves them alone unless a face
      is analysed, in which case each window slides by the value observed;
      the face record's timestamp is the window length before the step and the
      eye and posture records' the length after it; every score is in range. */
  lemma FrameStepFacts(h: Histories, d: Detection, threshold: real, lib: Lib)
    requires Lawful(lib) && WindowsValid(h)
    ensures var (h', a) := FrameStep(h, d, threshold, lib);
      && WindowsValid(h')
      && AnalysisBounded(a)
      && (d.Unreadable? ==> h' == h && a == DefaultAnalysis(Error))
      && (d.Detected? && FirstQualifying(d.faces, threshold).None? ==> h' == h && a == DefaultAnalysis(NoFace))
      && (d.Detected? && FirstQualifying(d.faces, threshold).Some? ==>
            && a.expression.timestampSec == |h.eyeYaw|
            && a.eye.timestampSec == |h'.eyeYaw| == (if |h.eyeYaw| < WindowSize then |h.eyeYaw| + 1 else WindowSize)
            && a.posture.timestampSec == |h'.eyeYaw|
            && h'.eyeYaw == Slide(h.eyeYaw, a.eye.rawEyeYaw)
            && h'.eyePitch == Slide(h.eyePitch, a.eye.rawEyePitch)
            && h'.headYaw == Slide(h.headYaw, a.posture.rawHeadYaw)
            && h'.headPitch == Slide(h.headPitch, a.posture.rawHeadPitch)
            && h'.headRoll == Slide(h.headRoll, a.posture.rawHeadRoll)
            && h'.conn == Slide(h.conn, ConnectionStrength(a.posture.rawHeadYaw, a.posture.rawHeadPitch, a.posture.rawHeadRoll)))
  {
    if d.Detected? && FirstQualifying(d.faces, threshold).Some? {
      var face := d.faces[FirstQualifying(d.faces, threshold).value];
      AnalyzeFaceWindows(h, face, d.brightness, d.sharpness, lib);
      AnalyzeFaceBounded(h, face, d.brightness, d.sharpness, lib);
    } else {
      RoundInt(0, 2);
    }
  }

  /** Analysing a face slides each window by the value observed. */
  lemma AnalyzeFaceWindows(h: Histories, face: Face, brightness: real, sharpness: real, lib: Lib)
    requires Lawful(lib) && WindowsValid(h)
    ensures var (h', a) := AnalyzeFace(h, face, brightness, sharpness, lib);
      && WindowsValid(h')
      && a.expression.timestampSec == |h.eyeYaw|
      && a.eye.timestampSec == |h'.eyeYaw| == (if |h.eyeYaw| < WindowSize then |h.eyeYaw| + 1 else WindowSize)
      && a.posture.timestampSec == |h'.eyeYaw|
      && h'.eyeYaw == Slide(h.eyeYaw, a.eye.rawEyeYaw)
      && h'.eyePitch == Slide(h.eyePitch, a.eye.rawEyePitch)
      && h'.headYaw == Slide(h.headYaw, a.posture.rawHeadYaw)
      && h'.headPitch == Slide(h.headPitch, a.posture.rawHeadPitch)
      && h'.headRoll == Slide(h.headRoll, a.posture.rawHeadRoll)
      && h'.conn == Slide(h.conn, ConnectionStrength(a.posture.rawHeadYaw, a.posture.rawHeadPitch, a.posture.rawHeadRoll))
  {
    var h' := ObserveFace(h, face);
    ObserveFaceSlides(h, face);
    EyeRecordFields(h', face, lib);
    PostureRecordFields(h', face);
  }

  /** Observing a face slides each window by the angle observed. */
  lemma ObserveFaceSlides(h: Histories, face: Face)
    requires WindowsValid(h)
    ensures var h' := ObserveFace(h, face);
      && WindowsValid(h')
      && |h'.eyeYaw| == (if |h.eyeYaw| < WindowSize then |h.eyeYaw| + 1 else WindowSize)
      && h'.eyeYaw == Slide(h.eyeYaw, Round(OrZero(face.eyeYaw), 2))
      && h'.eyePitch == Slide(h.eyePitch, Round(OrZero(face.eyePitch), 2))
      && h'.headYaw == Slide(h.headYaw, Round(OrZero(face.headYaw), 2))
      && h'.headPitch == Slide(h.headPitch, Round(OrZero(face.headPitch), 2))
      && h'.headRoll == Slide(h.headRoll, Round(OrZero(face.headRoll), 2))
      && h'.conn == Slide(h.conn, ConnectionStrength(Round(OrZero(face.headYaw), 2),
                                                     Round(OrZero(face.headPitch), 2), Round(OrZero(face.headRoll), 2)))
  {
  }

  /** The eye-contact record carries the rounded eye angles and the updated
      window length. */
  lemma EyeRecordFields(h': Histories, face: Face, lib: Lib)
    requires Lawful(lib)
    ensures var eye := EyeRecordOf(h', face, lib);
      && eye.timestampSec == |h'.eyeYaw|
      && eye.rawEyeYaw == Round(OrZero(face.eyeYaw), 2)
      && eye.rawEyePitch == Round(OrZero(face.eyePitch), 2)
  {
  }

  /** The posture record carries the rounded head angles and the updated
      window length. */
  lemma PostureRecordFields(h': Histories, face: Face)
    ensures var posture := PostureRecordOf(h', face);
      && posture.timestampSec == |h'.eyeYaw|
      && posture.rawHeadYaw == Round(OrZero(face.headYaw), 2)
      && posture.rawHeadPitch == Round(OrZero(face.headPitch), 2)
      && posture.rawHeadRoll == Round(OrZero(face.headRoll), 2)
  {
  }

  /** Every score of an analysed face is in range. */
  lemma AnalyzeFaceBounded(h: Histories, face: Face, brightness: real, sharpness: real, lib: Lib)
    requires Lawful(lib) && WindowsValid(h)
    ensures AnalysisBounded(AnalyzeFace(h, face, brightness, sharpness, lib).1)
  {
    var info := Expression(face.emotions);
    RoundBetween(info.nervousness, 0, 1, 2);
    assert 0.0 <= ExpressionOf(h, face).nervousness <= 1.0;
    RoundBetween(BrightnessNorm(brightness), 0, 1, 2);
    RoundBetween(SharpnessNorm(sharpness), 0, 1, 2);
    var eyeYaw := Round(OrZero(face.eyeYaw), 2);
    var eyePitch := Round(OrZero(face.eyePitch), 2);
    RoundBetween(EyeContactConfidence(eyeYaw, eyePitch), 0, 1, 2);
    var h' := ObserveFace(h, face);
    RoundBetween(EyeStability(h'.eyeYaw, h'.eyePitch, lib), 0, 1, 2);
    var eye := EyeRecordOf(h', face, lib);
    assert 0.0 <= eye.confidence <= 1.0 && 0.0 <= eye.stability <= 1.0;
    RoundBetween(PostureStability(h'.conn), 0, 1, 2);
    var posture := PostureRecordOf(h', face);
    assert 0.0 <= posture.stability <= 1.0 && 0.0 <= posture.orientationScore <= 1.0;
  }
}
