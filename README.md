# Speech and presentation analysis core, in Dafny

This project models the analysis core of a public-speaking coach. Three
processors turn a recording into feedback.

- The audio processor (`processors/audio_processor.py`) pads and marks the
  recording second by second from voice-activity segments. It detects a
  pitch track by autocorrelation and measures volume, pitch variation, pitch
  stability and vocal energy for every speech second. It then smooths the
  speech seconds, labels them with the five-band advice ladders and averages
  them.
- The visual processor (`processors/visual_processor.py`) is an object. It
  keeps six sliding windows of eye and head angles across frames. For each
  frame it picks the first face the detector is confident enough about and
  builds four records: eye contact, posture, facial expression and technical
  quality, each with its tip. Over a video it chooses the target frames,
  walks the frame stream, and averages the records into overall scores with
  overall tips.
- The text processor (`processors/text_processor.py`) reads a word-level
  transcript. It finds pauses in the gaps between words and classifies them.
  It counts filler words and real words, computes speaking rates and the
  five-second pace chunks, and assembles the analysis around the
  language-model insights.

Modules, one per file:

| file | module | contents |
|---|---|---|
| `outcome.dfy` | `Outcome` | `Option` and `Result` |
| `numerics.dfy` | `Numerics` | `round` (half-up on exact reals), clip, mean, and `Lib`: the numerical library routines as parameters, with the few laws the proofs rely on |
| `ladders.dfy` | `Ladders` | first-match threshold ladders and their partition and monotonicity lemmas |
| `audio_labels.dfy` | `AudioLabels` | the four label ladders |
| `audio_processor.dfy` | `AudioProcessor` | padding, speech mask, pitch detection, per-second metrics, raw timeline |
| `audio_enhance.dfy` | `AudioEnhance` | `enhance_timeline`, aggregates, `process_audio` |
| `visual_metrics.dfy` | `VisualMetrics` | emotion, gaze, pose and occlusion metrics |
| `visual_tips.dfy` | `VisualTips` | every tip ladder of the visual processor |
| `visual_frames.dfy` | `VisualFrames` | one frame's analysis as a value: the windows before and after, and the four records |
| `visual_analyzer.dfy` | `VisualVideo` | class `VisualAnalyzer` (windows updated in place), target frames, the video loop, overall averages and tips |
| `text_processor.dfy` | `TextProcessor` | `analyze_transcript` and `_get_empty_analysis` |

The loops in the source are methods proved equal to a specification
function: the speech mask, the timeline, `enhance_timeline`, the face scan,
the video loop, pause detection, pause classification and the pace chunks.
The properties are then proved about those functions.

An analysis that raises an exception in the source is an `Err` carrying the
exception's message. Examples are a missing `end` on the last word, a zero
duration, or a zero frame rate.

## Model

| member | source | states |
|---|---|---|
| Ladders.BandBelowExact | processors/audio_processor.py:57-92 | on ascending thresholds, a value gets band k exactly when it is at least threshold k-1 and below threshold k |
| Ladders.BandAboveExact | processors/audio_processor.py:93-103 | on descending thresholds, a value gets band k exactly when it is at most threshold k-1 and above threshold k |
| Ladders.BandAtLeastExact | processors/visual_processor.py:148-161 | on descending thresholds tested with `>=`, a value gets band k exactly when it is below threshold k-1 and at least threshold k |
| Ladders.BandBelowMonotone | processors/audio_processor.py:57-92 | a larger value never gets a lower band of an ascending ladder |
| Ladders.BandAboveMonotone | processors/audio_processor.py:93-103 | a larger value never gets a higher band of a descending ladder |
| Ladders.BandAtLeastMonotone | processors/visual_processor.py:148-161 | a larger value never gets a higher band of a descending `>=` ladder |
| AudioLabels.BoundsOrdered | processors/audio_processor.py:57-103 | the energy, pitch and volume thresholds ascend and the stability thresholds descend, so each ladder's bands are disjoint and cover every value |
| AudioLabels.LabelsArePartitions | processors/audio_processor.py:57-103 | each of the four label functions picks exactly the band of its ladder that the value falls in |
| AudioLabels.LabelsDistinct | processors/audio_processor.py:57-103 | the five labels of each ladder are pairwise different |
| AudioLabels.LabelsMonotone | processors/audio_processor.py:57-103 | more energy, pitch variation or volume never earns a lower label, and more stability never earns a higher (less stable) one |
| AudioLabels.EnergyLevel | processors/audio_processor.py:57-67 | the row of the energy ladder, one of five: below 15, 35, 65 and 90 in turn, else the top row; LabelsArePartitions proves it is exactly the band the value falls in |
| AudioLabels.EnergyLabel | processors/audio_processor.py:57-67 | `get_energy_label`: the label and tip of the row its ladder picks |
| AudioLabels.PitchLevel | processors/audio_processor.py:69-79 | the row of the pitch ladder, one of five, with thresholds 0.15, 0.35, 0.7 and 1.2; exact by LabelsArePartitions |
| AudioLabels.PitchLabel | processors/audio_processor.py:69-79 | `get_pitch_label`: the label and tip of the row its ladder picks |
| AudioLabels.VolumeLevel | processors/audio_processor.py:81-91 | the row of the volume ladder, one of five, with thresholds -50, -35, -20 and -10 dB; exact by LabelsArePartitions |
| AudioLabels.VolumeLabel | processors/audio_processor.py:81-91 | `get_volume_label`: the label and tip of the row its ladder picks |
| AudioLabels.StabilityLevel | processors/audio_processor.py:93-103 | the row of the stability ladder, one of five, tested with `>` against 0.8, 0.6, 0.4 and 0.2; exact by LabelsArePartitions |
| AudioLabels.StabilityLabel | processors/audio_processor.py:93-103 | `get_pitch_stability_label`: the label and tip of the row its ladder picks |
| Numerics.Clip | processors/audio_processor.py:262-263 | the result lies within the bounds, equals the input inside them and the nearer bound outside |
| Numerics.RoundMonotone | processors/audio_processor.py:275-278 | rounding to n places never reverses the order of two values |
| Numerics.RoundBetween | processors/audio_processor.py:275-278 | rounding keeps a value between integer bounds it lay between |
| Numerics.RoundIdempotent | processors/visual_processor.py:419 | rounding an already rounded value, such as the nervousness score, changes nothing |
| Numerics.MeanBetween | processors/audio_processor.py:286-289 | the mean of a non-empty list lies between any bounds of its elements |
| Numerics.MeanOfConstant | processors/audio_processor.py:253 | the mean of a constant list is that constant |
| Numerics.GaussianWithin | processors/audio_processor.py:125-127 | smoothing keeps every element within bounds that held before |
| Numerics.GaussianOfConstant | processors/audio_processor.py:125-127 | smoothing a constant signal leaves it unchanged |
| AudioProcessor.PadToOneSecond | processors/audio_processor.py:170-171 | audio shorter than one second is padded with zeros to exactly 16000 samples, keeping the original samples as its prefix; longer audio is unchanged |
| AudioProcessor.TotalSeconds | processors/audio_processor.py:179-180 | the number of seconds is the ceiling of samples / 16000 |
| AudioProcessor.MarkedByIsSomeSegment | processors/audio_processor.py:183-187 | after the first k segments a second is marked exactly when one of those k segments covers it |
| AudioProcessor.SpeechMaskMeaning | processors/audio_processor.py:181-187 | second s is speech exactly when some segment has start // 16000 <= s < ceil(end / 16000) |
| AudioProcessor.BuildSpeechMask | processors/audio_processor.py:181-187 | the marking loop produces the speech mask |
| AudioProcessor.SpeechMask | processors/audio_processor.py:181-187 | one flag per second; SpeechMaskMeaning proves a flag is set exactly when a segment covers that second |
| AudioProcessor.PeriodWindow | processors/audio_processor.py:196-197 | the period window is int(sr / fmax) to int(sr / fmin) |
| AudioProcessor.FundamentalPeriod | processors/audio_processor.py:192-207 | no period when the autocorrelation is shorter than the longest period or has no peak in the window; otherwise a period inside the window |
| AudioProcessor.PitchTrackShape | processors/audio_processor.py:190-214 | without a period the contour and the voicing probabilities are all zero; with one the contour is the constant sr / period, which lies in (53, 16000/53], and every probability is 0.8 |
| AudioProcessor.PitchDetection | processors/audio_processor.py:190-217 | both contours are as long as the signal; PitchTrackShape states their content |
| AudioProcessor.PitchOfPeriod | processors/audio_processor.py:207-208 | a period inside the window gives a frequency above fmin and at most 16000/53 |
| AudioProcessor.VoicedMask | processors/audio_processor.py:246 | a sample is voiced exactly when its probability exceeds 0.5 |
| AudioProcessor.VolumeDb | processors/audio_processor.py:238-240 | the volume is never below -60 dB |
| AudioProcessor.PitchStats | processors/audio_processor.py:247-259 | the variation lies in [0, 2] and the stability in [0, 1]; fewer than three voiced samples give (0, 0); a nonzero stability is 1 - min(variation, 1) |
| AudioProcessor.ConstantPitchIsStable | processors/audio_processor.py:250-257 | a constant positive pitch over at least three voiced samples gives variation 0 and stability 1 |
| AudioProcessor.VoicedRatio | processors/audio_processor.py:264 | the ratio lies in [0, 1], is 0 exactly when nothing is voiced and 1 exactly when everything is |
| AudioProcessor.VocalEnergy | processors/audio_processor.py:262-270 | the vocal energy lies in [0, 100] |
| AudioProcessor.MeasureChunk | processors/audio_processor.py:238-270 | every metric of a speech second is within its range, the energy is the vocal-energy formula applied to the other metrics, and an unvoiced second has ratio 0 |
| AudioProcessor.ChunkInside | processors/audio_processor.py:222-224 | every second's chunk is a non-empty slice of the audio of at most one second, and exactly one second except possibly the last |
| AudioProcessor.TimelineEntry | processors/audio_processor.py:221-279 | entry i is second i; it is a pause exactly when the mask is off or its chunk is shorter than half a second, which only the last second can be; its metrics are within range |
| AudioProcessor.SecondEntry | processors/audio_processor.py:221-279 | entry i is the pause record when the mask is off or the chunk is under half a second, otherwise the rounded measurements of its chunk; TimelineEntry states its properties |
| AudioProcessor.Timeline | processors/audio_processor.py:219-279 | one entry per second of the mask, entry i built from second i |
| AudioProcessor.BuildTimeline | processors/audio_processor.py:219-279 | the per-second loop produces the timeline |
| AudioProcessor.ReadSecond | processors/audio_processor.py:222-279 | one iteration produces that second's timeline entry |
| AudioProcessor.UnvoicedChunkIsFlat | processors/audio_processor.py:246-259 | a second with no voiced sample has pitch variation 0 and stability 0 |
| AudioProcessor.VoicedChunkIsFlat | processors/audio_processor.py:246-259 | a second whose pitch is constant and voiced has pitch variation 0 and stability 1 |
| AudioProcessor.SpeechPitchIsFlat | processors/audio_processor.py:190-279 | with the built-in detector, every second's pitch variation is 0 and its stability is 0 or 1 |
| AudioEnhance.SpeechUnitsComplete | processors/audio_processor.py:111 | an entry is among the speech seconds exactly when it is in the timeline and is not a pause |
| AudioEnhance.SpeechUnits | processors/audio_processor.py:111 | the speech entries of the timeline: none is a pause, each is an entry of the timeline, and there are no more of them than entries |
| AudioEnhance.SpeechIndices | processors/audio_processor.py:111 | `speech_indices`: strictly increasing positions, each of a speech entry, and every speech position among them |
| AudioEnhance.SpeechUnitsInOrder | processors/audio_processor.py:111-121 | the speech entries are the timeline read at `speech_indices`: one per index, in the same order |
| AudioEnhance.SpeechUnitsCount | processors/audio_processor.py:111 | each speech entry is kept as many times as it occurs in the timeline, and no pause entry is kept |
| AudioEnhance.SpeechPrefix | processors/audio_processor.py:130-153 | the speech seconds of a timeline prefix are a prefix of its speech seconds, which is what the running speech index relies on |
| AudioEnhance.Sigma | processors/audio_processor.py:124 | sigma is at least 1 and is n / 20 once there are 20 or more speech seconds |
| AudioEnhance.Enhance | processors/audio_processor.py:106-155 | one enhanced entry per speech second, in order, each built on that second |
| AudioEnhance.Labelled | processors/audio_processor.py:135-152 | an enhanced entry: the smoothed values rounded to 1, 3 and 1 places, with the label rows of those values and of the stability; LabelledBanded states the bands |
| AudioEnhance.EnhanceShape | processors/audio_processor.py:107-153 | the result is empty exactly when every second is a pause; it holds one entry per speech position, the j-th built on the timeline entry at the j-th of the strictly increasing `speech_indices` |
| AudioEnhance.LabelledBanded | processors/audio_processor.py:137-150 | each label of an entry is the band of its smoothed value, or of the stability |
| AudioEnhance.EnhanceLabels | processors/audio_processor.py:147-150 | every enhanced entry carries the labels of its own smoothed values |
| AudioEnhance.EnhanceTimeline | processors/audio_processor.py:106-155 | the reconstruction loop produces the enhanced timeline |
| AudioEnhance.EnhanceBounds | processors/audio_processor.py:119-146 | the smoothed energy lies in [0, 100], the smoothed pitch in [0, 2], the smoothed volume is at least -60 and the stability in [0, 1] |
| AudioEnhance.FlatPitchIsMonotone | processors/audio_processor.py:126-148 | when every speech second has pitch variation 0, every smoothed pitch is 0 and labelled "Extremely Monotone" |
| AudioEnhance.AggregatesOf | processors/audio_processor.py:284-294 | there are no aggregates exactly when there are no segments, and the averages are undefined exactly when there are segments but no enhanced entry |
| AudioEnhance.AveragesBounds | processors/audio_processor.py:284-292 | the averages stay within the per-entry ranges |
| AudioEnhance.FlatAverages | processors/audio_processor.py:284-292 | with flat pitch the averaged pitch variation is 0 and the other averages stay in range |
| AudioEnhance.Prepared | processors/audio_processor.py:170-174 | the prepared audio is at least one second long and as long as the padded audio |
| AudioEnhance.RawTimeline | processors/audio_processor.py:179-279 | the timeline has one entry per second |
| AudioEnhance.RawTimelineFacts | processors/audio_processor.py:219-279 | every entry of the raw timeline is well formed, with pitch variation 0 and stability 0 or 1 |
| AudioEnhance.ProcessAudio | processors/audio_processor.py:158-296 | the pipeline produces the specified analysis |
| AudioEnhance.AnalyzeAudio | processors/audio_processor.py:158-296 | `process_audio` from the waveform: the enhanced raw timeline and its aggregates; AnalysisEntries, AnalysisAverages and EnhancedSecondsIncrease state its properties |
| AudioEnhance.EnhanceKeepsOrder | processors/audio_processor.py:110-153 | on a timeline whose entries are numbered by position, the enhanced entries come in strictly increasing order of second, and every speech entry is among them |
| AudioEnhance.EnhancedSecondsIncrease | processors/audio_processor.py:158-296 | the returned timeline lists speech seconds in strictly increasing order, and every speech second of the raw timeline appears in it |
| AudioEnhance.AnalysisEntries | processors/audio_processor.py:158-296 | every returned entry is a speech second with energy in [0, 100], volume at least -60, smoothed pitch 0 labelled "Extremely Monotone", and stability 0 or 1 |
| AudioEnhance.AnalysisAverages | processors/audio_processor.py:284-292 | whenever averages exist, the energy is in [0, 100], the pitch variation is 0, the volume is at least -60 and the stability is in [0, 1] |
| AudioEnhance.UnguardedAverages | processors/audio_processor.py:284-289 | a segment that covers only a 100-sample final second yields segments but no speech second, so the averages are taken over an empty list |
| VisualMetrics.EyeContactConfidence | processors/visual_processor.py:198-203 | the confidence lies in [0, 1]; it is 1 exactly when both angles are 0 and 0 exactly when the yaw reaches 25 or the pitch reaches 20 degrees |
| VisualMetrics.EyeStability | processors/visual_processor.py:205-211 | the stability lies in [0, 1]; it is 1 with fewer than two samples and when both windows are constant |
| VisualMetrics.OrientationRegions | processors/visual_processor.py:213-225 | yaw beyond 30 degrees decides left or right, otherwise pitch beyond 25 decides up or down, otherwise roll beyond 20 decides the tilt, otherwise forward; never unknown |
| VisualMetrics.Orientation | processors/visual_processor.py:213-225 | yaw beyond 30 degrees decides first, then pitch beyond 25, then roll beyond 20, else forward; OrientationRegions gives each class its exact region |
| VisualMetrics.OrientationBase | processors/visual_processor.py:233-244 | the base score of each class lies in [0, 1]: 1 forward, the 90-degree falloff of the deciding axis otherwise, 0 unknown |
| VisualMetrics.ActiveAxes | processors/visual_processor.py:248-252 | at most three axes are active, and none exactly when every angle is within 15 degrees |
| VisualMetrics.MultiAxisPenalty | processors/visual_processor.py:246-255 | the penalty lies in [0, 0.2] and is positive exactly when two or more axes are active |
| VisualMetrics.OrientationScore | processors/visual_processor.py:227-258 | the score lies in [0, 1] |
| VisualMetrics.OrientationScoreFacts | processors/visual_processor.py:227-258 | facing straight ahead scores 1; with at most one active axis the score is the rounded base score; unknown scores 0; the penalty never raises the score |
| VisualMetrics.ConnectionStrength | processors/visual_processor.py:260-269 | the strength lies in [0, 1] and is 1 exactly when the yaw is within 25 and the pitch within 20 degrees |
| VisualMetrics.CountAboveExtremes | processors/visual_processor.py:277 | every entry is counted exactly when all exceed the threshold, and none exactly when none do |
| VisualMetrics.CountAbove | processors/visual_processor.py:277 | the number of connections above the threshold, never more than the window holds |
| VisualMetrics.PostureStability | processors/visual_processor.py:271-277 | the stability lies in [0, 1] |
| VisualMetrics.PostureStabilityExtremes | processors/visual_processor.py:271-277 | the stability is 1 exactly when every connection exceeds 0.7 (or there is none), and 0 exactly when there are some and none exceeds 0.7 |
| VisualMetrics.FaceOcclusion | processors/visual_processor.py:188-195 | the ratio is non-negative and at most 1 for a confidence in [0, 100]; twelve landmarks at full confidence give 0; no landmark gives 1 |
| VisualMetrics.Upper | processors/visual_processor.py:95-99 | upper-casing keeps the length, shifts lower-case ASCII letters and keeps every other character |
| VisualMetrics.UpperIdempotent | processors/visual_processor.py:95-99 | upper-casing twice is upper-casing once |
| VisualMetrics.LastOfKind | processors/visual_processor.py:95 | the emotion map keeps the last entry of each upper-cased type; the lookup finds none exactly when the type is absent |
| VisualMetrics.ConfidenceOf | processors/visual_processor.py:95-127 | `emotion_map.get(name, 0.0)`: the confidence of the last emotion of that type, 0 when there is none; LastOfKind states the lookup |
| VisualMetrics.DominantIndex | processors/visual_processor.py:98 | the dominant emotion has the highest confidence and is the first entry that does |
| VisualMetrics.NervousnessFormula | processors/visual_processor.py:102-136 | the weighted sum is the eight named confidences times their weights, over 100 |
| VisualMetrics.WeightedSum | processors/visual_processor.py:123-136 | the running nervousness over the first n weights; NervousnessFormula states the full sum |
| VisualMetrics.Nervousness | processors/visual_processor.py:138-139 | the nervousness lies in [0, 1] |
| VisualMetrics.AnalyzeEmotions | processors/visual_processor.py:84-146 | the method produces the specified expression summary |
| VisualMetrics.Expression | processors/visual_processor.py:84-146 | `_analyze_emotions` as a value; AnalyzeEmotions computes it and ExpressionFacts states its properties |
| VisualMetrics.ExpressionFacts | processors/visual_processor.py:84-146 | no emotions give NEUTRAL with score 1 and nervousness 0; otherwise the type and score are those of the first most confident emotion; the nervousness lies in [0, 1] |
| VisualMetrics.NervousnessExtremes | processors/visual_processor.py:102-144 | no nervous emotion gives nervousness 0; full fear without calm or happiness gives 1 |
| VisualMetrics.BrightnessNorm | processors/visual_processor.py:399 | the normalised brightness lies in [0, 1] |
| VisualMetrics.SharpnessNorm | processors/visual_processor.py:400 | the normalised sharpness lies in [0, 1] |
| VisualTips.FrameTipsArePartitions | processors/visual_processor.py:148-305 | the eye-contact, eye-stability, posture-stability and nervousness tip thresholds descend, and each tip function picks exactly the band its score falls in |
| VisualTips.EyeContactLevel | processors/visual_processor.py:279-282 | the row of the eye-contact tip ladder, one of three: above 0.8, above 0.5, else the last; exact by FrameTipsArePartitions |
| VisualTips.EyeContactTip | processors/visual_processor.py:279-282 | `_get_eye_contact_confidence_tip`: the tip of the row its ladder picks |
| VisualTips.EyeStabilityLevel | processors/visual_processor.py:284-287 | the row of the eye-stability tip ladder, one of three: above 0.7, above 0.4, else the last |
| VisualTips.EyeStabilityTip | processors/visual_processor.py:284-287 | `_get_eye_stability_tip`: the tip of the row its ladder picks |
| VisualTips.PostureStabilityLevel | processors/visual_processor.py:302-305 | the row of the posture-stability tip ladder, one of three: above 0.8, above 0.5, else the last |
| VisualTips.PostureStabilityTip | processors/visual_processor.py:302-305 | `_get_posture_stability_tip`: the tip of the row its ladder picks |
| VisualTips.NervousnessLevel | processors/visual_processor.py:148-161 | the row of the nervousness tip ladder, one of five, tested with `>=` against 0.8, 0.6, 0.4 and 0.2 |
| VisualTips.NervousnessTip | processors/visual_processor.py:148-161 | `_get_nervousness_tip`: the tip of the row its ladder picks |
| VisualTips.OrientationTip | processors/visual_processor.py:289-300 | `_get_head_orientation_tip`: the table entry of each of the eight orientations |
| VisualTips.ExpressionTip | processors/visual_processor.py:163-177 | a known expression gets its own tip and any other expression gets the default tip |
| VisualTips.OverallTipIsBand | processors/visual_processor.py:307-361 | every overall-tip ladder descends, and each overall tip is exactly the band its average falls in (`>=` bands for nervousness, `>` bands for the rest) |
| VisualTips.OverallLevel | processors/visual_processor.py:307-359 | the row of the metric's overall ladder, at most the number of its thresholds; OverallTipIsBand proves it is the band of the average |
| VisualTips.OverallTip | processors/visual_processor.py:307-359 | `_get_overall_tip`: the tip of the row the metric's ladder picks |
| VisualFrames.Slide | processors/visual_processor.py:452-459 | appending to a window and trimming it keeps the new value last and the length at most five |
| VisualFrames.SlideAllKeepsNewest | processors/visual_processor.py:439-459 | after any run of observations a window holds exactly the five newest values |
| VisualFrames.FirstQualifying | processors/visual_processor.py:382-385 | the chosen face is the first whose confidence reaches the threshold, and there is none exactly when no face reaches it |
| VisualFrames.ObserveFaceSlides | processors/visual_processor.py:428-459 | each angle window receives the face's rounded angle (0 when absent) and the connection window the connection strength of the rounded head angles, each then trimmed; the windows stay valid |
| VisualFrames.EyeRecordFields | processors/visual_processor.py:464-473 | the eye-contact record carries the new window length as its timestamp and the rounded eye angles |
| VisualFrames.PostureRecordFields | processors/visual_processor.py:475-486 | the posture record carries the new window length as its timestamp and the rounded head angles |
| VisualFrames.AnalyzeFaceWindows | processors/visual_processor.py:416-486 | the expression record is stamped with the old window length and the other two with the new one; each angle window gains the angle its record reports, and the connection window the connection strength of the recorded head angles |
| VisualFrames.AnalyzeFaceBounded | processors/visual_processor.py:394-486 | every score of the four records lies in its documented range |
| VisualFrames.FrameStepBounded | processors/visual_processor.py:365-499 | a frame's analysis keeps the windows valid and every score within range |
| VisualFrames.FrameStepFacts | processors/visual_processor.py:365-499 | an unreadable frame gives the error default and no qualifying face gives the no-face default, both leaving the windows unchanged; otherwise the records are stamped and the windows slid as above |
| VisualFrames.DefaultAnalysis | processors/visual_processor.py:39-82 | `_get_default_response`: every score 0, the type NO_FACE with tip "No Face", or ERROR with tip "Error" |
| VisualFrames.Technical | processors/visual_processor.py:393-413 | brightness and sharpness scores lie in [0, 1]; the occlusion score and the average lie in [0, 1] when the occlusion ratio does; a bright, sharp, unoccluded frame scores 1 |
| VisualFrames.ExpressionOf | processors/visual_processor.py:415-425 | the expression record, stamped with the window length before the update |
| VisualFrames.ObserveFace | processors/visual_processor.py:427-459 | the rounded angles (0 when absent) and the connection strength slid into the six windows; ObserveFaceSlides states the result |
| VisualFrames.EyeRecordOf | processors/visual_processor.py:461-473 | the eye-contact record over the updated windows; EyeRecordFields states its fields |
| VisualFrames.PostureRecordOf | processors/visual_processor.py:443-486 | the posture record over the updated connection window; PostureRecordFields states its fields |
| VisualFrames.AnalyzeFace | processors/visual_processor.py:387-493 | the analysis of the chosen face; AnalyzeFaceWindows, AnalyzeFaceBounded and AnalyzeFaceScores state its properties |
| VisualFrames.FrameStep | processors/visual_processor.py:365-499 | `analyze_frame` as a value; FrameStepFacts, FrameStepBounded and FrameStepScores state its properties |
| VisualFrames.AnalyzeFaceScores | processors/visual_processor.py:388-418 | for a face whose confidences are percentages, the emotion score, the occlusion score and the technical average lie in [0, 1] |
| VisualFrames.FrameStepScores | processors/visual_processor.py:365-499 | on a detection whose confidences are percentages, every frame step gives an emotion score, an occlusion score and a technical average in [0, 1] |
| VisualVideo.Insert | processors/visual_processor.py:520 | inserting into a sorted list keeps it sorted and adds exactly that element |
| VisualVideo.Sort | processors/visual_processor.py:520 | the result is sorted and a permutation of the input |
| VisualVideo.Take | processors/visual_processor.py:520-524 | the result is the first min(n, length) elements |
| VisualVideo.RangeCount | processors/visual_processor.py:522 | index i is inside range(0, total, step) exactly when i * step < total |
| VisualVideo.RangeStep | processors/visual_processor.py:522 | the range holds exactly the multiples of the step below the total, in order |
| VisualVideo.TargetFrames | processors/visual_processor.py:519-524 | at most max_frames targets; it fails exactly in sequential mode with a frame rate whose integer part is 0 (a zero range step) |
| VisualVideo.SpecificTargetsSorted | processors/visual_processor.py:519-520 | specific frames are the sorted list cut to max_frames, a permutation of it when it fits |
| VisualVideo.ResolveMaxFrames | processors/visual_processor.py:515-516 | a configured max_frames is kept; otherwise it is at least 1 |
| VisualVideo.RemoveFirst | processors/visual_processor.py:603 | removing a processed frame takes exactly one occurrence of it out of the targets |
| VisualVideo.ConcatAppend | processors/visual_processor.py:552-600 | appending one frame's records and then the rest equals appending the rest to that one frame |
| VisualVideo.VideoLoop | processors/visual_processor.py:533-605 | the frame loop from a given frame on; VideoLoopTarget, VideoLoopBounded, VideoLoopScores, VideoLoopIds, VideoLoopTimes and VideoLoopComplete state its properties |
| VisualVideo.VideoLoopTarget | processors/visual_processor.py:540-605 | a target frame below the limit is analysed, stamped frame_id / fps, removed from the targets, and the loop goes on from the next frame |
| VisualVideo.VideoLoopBounded | processors/visual_processor.py:533-605 | the loop keeps the windows valid and every stored score within range |
| VisualVideo.VideoLoopScores | processors/visual_processor.py:533-605 | on frames whose confidences are percentages, every stored emotion score, occlusion score and technical average lies in [0, 1] |
| VisualVideo.IdsCons | processors/visual_processor.py:540-603 | a processed frame before processed frames that were targets of the remaining list gives strictly increasing target ids |
| VisualVideo.VideoLoopIds | processors/visual_processor.py:533-605 | at most max_frames frames are processed, in increasing order, and each was a target |
| VisualVideo.VideoLoopTimes | processors/visual_processor.py:541-576 | the i-th stored record of every kind is stamped with the i-th processed frame id over fps |
| VisualVideo.VideoLoopComplete | processors/visual_processor.py:533-605 | unless the limit was reached, every target frame in the stream was processed |
| VisualVideo.ModeIndex | processors/visual_processor.py:648-652 | the chosen type is as common as any, and no earlier type is as common |
| VisualVideo.ModeIsFirstMostCommon | processors/visual_processor.py:648-652 | the dominant emotion is a most common type and the first to appear among the most common |
| VisualVideo.UnitMean | processors/visual_processor.py:626-676 | the rounded mean of scores in [0, 1] is in [0, 1] (0 for no scores) |
| VisualVideo.MeanOr0 | processors/visual_processor.py:626-674 | the mean of a list, or 0 when it is empty, as the emptiness tests leave the default |
| VisualVideo.Types | processors/visual_processor.py:648 | the expression types of the facial results, one per result |
| VisualVideo.Averages | processors/visual_processor.py:611-676 | `compute_overall_averages`; AveragesFacts states its properties |
| VisualVideo.AveragesFacts | processors/visual_processor.py:611-676 | no results give all zeros and NEUTRAL; results whose per-frame scores are in range give the seven averages of those scores in [0, 1], and results whose emotion, occlusion and technical scores are in range give those three averages in [0, 1] |
| VisualVideo.AverageTips | processors/visual_processor.py:681-698 | one overall tip per tip field, in the order of `tip_fields`, the i-th being the overall tip of that field's average |
| VisualVideo.AverageOf | processors/visual_processor.py:698 | `oa[field]`: the average a tip field names |
| VisualVideo.Summarize | processors/visual_processor.py:678-698 | the results with their averages and the tips of the averages |
| VisualVideo.VisualAnalyzer.constructor | processors/visual_processor.py:15-37 | the windows start empty, and a max_frames that is not a positive integer is unset |
| VisualVideo.VisualAnalyzer.FindFace | processors/visual_processor.py:382-385 | the scan returns the first face whose confidence reaches the threshold |
| VisualVideo.VisualAnalyzer.Observe | processors/visual_processor.py:439-459 | each of the six windows is appended to and trimmed in place; nothing else changes |
| VisualVideo.VisualAnalyzer.AnalyzeQualifyingFace | processors/visual_processor.py:388-493 | analysing the chosen face updates the windows and returns the records exactly as the frame step specifies |
| VisualVideo.VisualAnalyzer.AnalyzeFrame | processors/visual_processor.py:365-499 | analysing a frame leaves the windows and returns the records of the frame step |
| VisualVideo.VisualAnalyzer.AnalyzeTargets | processors/visual_processor.py:533-605 | the frame loop over the stream leaves the windows and results of the specified video loop |
| VisualVideo.VisualAnalyzer.ProcessVideo | processors/visual_processor.py:501-700 | a zero frame rate fails and changes nothing; otherwise max_frames is resolved and stored, a target-selection error is returned, and on success the results are the video loop's summarised with averages and tips |
| TextProcessor.PrevEndBeforeAnyEnd | processors/text_processor.py:273-282 | before any word with an end, the previous end is 0 |
| TextProcessor.StartSec | processors/text_processor.py:275 | a word's start in seconds, 0 when absent |
| TextProcessor.NextPrevEnd | processors/text_processor.py:282 | `prev_end` after a word: its end in seconds, or unchanged when it has none |
| TextProcessor.PrevEnd | processors/text_processor.py:273-282 | `prev_end` when the loop reaches word j; PrevEndBeforeAnyEnd and PrevEndIsLastEnd state its value |
| TextProcessor.Gap | processors/text_processor.py:275-276 | the silence before word j: its start minus `prev_end` |
| TextProcessor.PauseBefore | processors/text_processor.py:277-281 | the pause before word j: `prev_end`, the start and the gap, each rounded to 2 places, not yet classified |
| TextProcessor.PausesUpTo | processors/text_processor.py:272-282 | the pauses of the first i words, at most one per word; PausesAreGaps states which |
| TextProcessor.PrevEndIsLastEnd | processors/text_processor.py:282 | the previous end is the end of the last earlier word that has one |
| TextProcessor.PausesAreGaps | processors/text_processor.py:272-282 | every gap over 0.3 s gives a pause, every pause comes from such a gap, and each lasts at least 0.3 s with its start before its end |
| TextProcessor.PauseBounds | processors/text_processor.py:276-281 | a detected pause lasts at least 0.3 s and starts no later than it ends |
| TextProcessor.LeadingSilence | processors/text_processor.py:273-281 | a first word starting after 0.3 s gives a first pause from 0 to its start |
| TextProcessor.DetectPauses | processors/text_processor.py:272-282 | the gap loop produces the pauses |
| TextProcessor.AwkwardGaps | processors/text_processor.py:280-287 | a gap is classed awkward exactly when it is at least 2.005 s, because its duration is rounded first |
| TextProcessor.KindOf | processors/text_processor.py:285-287 | awkward above 2 s, legitimate otherwise |
| TextProcessor.Classified | processors/text_processor.py:285-287 | every pause keeps its times and is awkward exactly when longer than 2 s, legitimate otherwise |
| TextProcessor.ClassifyPauses | processors/text_processor.py:285-287 | the classification loop produces the classified pauses |
| TextProcessor.KindsPartition | processors/text_processor.py:329-330 | legitimate and awkward pauses together are all the pauses |
| TextProcessor.CountKind | processors/text_processor.py:329-330 | the number of pauses of one kind, never more than the pauses; KindsPartition adds the two kinds up |
| TextProcessor.Durations | processors/text_processor.py:289 | the durations of the pauses, one per pause, in order |
| TextProcessor.Lower | processors/text_processor.py:295-296 | lower-casing keeps the length and maps each character |
| TextProcessor.Fillers | processors/text_processor.py:294-297 | the selected words are all fillers |
| TextProcessor.FillersComplete | processors/text_processor.py:294-297 | a word is selected exactly when it is in the transcript and is a filler |
| TextProcessor.IsFiller | processors/text_processor.py:293-296 | a word whose lower-cased text is one of the seven fillers |
| TextProcessor.FillerIndices | processors/text_processor.py:294-297 | strictly increasing positions, each of a filler word, and every filler position among them |
| TextProcessor.FillersInOrder | processors/text_processor.py:294-297 | the fillers are the transcript read at the filler positions: one per position, in transcript order |
| TextProcessor.FillersCount | processors/text_processor.py:294-298 | each filler word is kept as many times as it occurs in the transcript, any other word never |
| TextProcessor.FillerEvents | processors/text_processor.py:294-297 | one event per filler when defined; FillerEventsDefined and FillerEventsContent state when and what |
| TextProcessor.FillerEventsDefined | processors/text_processor.py:294-297 | the filler events are defined exactly when every filler has a start and an end |
| TextProcessor.FillerEventsContent | processors/text_processor.py:294-297 | each event is its filler lower-cased with its start and end in seconds |
| TextProcessor.StripLeft | processors/text_processor.py:299 | the result is a suffix of the input that does not start with whitespace |
| TextProcessor.StripRight | processors/text_processor.py:299 | the result is a prefix of the input that does not end with whitespace |
| TextProcessor.Strip | processors/text_processor.py:299 | `str.strip()`: both ends stripped of whitespace |
| TextProcessor.IsAlpha | processors/text_processor.py:299 | `str.isalpha()`: non-empty and all letters |
| TextProcessor.IsWord | processors/text_processor.py:299 | a token whose stripped text is alphabetic |
| TextProcessor.CountWords | processors/text_processor.py:299 | `total_words`: the tokens that count as words, never more than the tokens |
| TextProcessor.OneWordFillers | processors/text_processor.py:293 | every filler except "you know" is a non-empty run of lower-case letters |
| TextProcessor.FillerIsWord | processors/text_processor.py:293-299 | a filler other than "you know" also counts as a word |
| TextProcessor.AudioDuration | processors/text_processor.py:267-269 | a reported duration is used as is; a zero one is replaced by the last word's end, and fails exactly when that end is missing |
| TextProcessor.SpeechTime | processors/text_processor.py:290 | the speech time is at least 0.1 s and is duration minus pauses whenever that is at least 0.1 |
| TextProcessor.RateBound | processors/text_processor.py:301 | a rate over the speech time is non-negative and at most 600 per counted item |
| TextProcessor.PercentBounds | processors/text_processor.py:331 | a share of a positive whole is non-negative for a non-negative part and at most 100 for a part no larger than the whole |
| TextProcessor.PausePercentage | processors/text_processor.py:331 | 0 for a non-positive duration; otherwise non-negative, and at most 100 when the pauses fit in the duration |
| TextProcessor.PaceFeedback | processors/text_processor.py:326 | "slow" exactly below 100 wpm, "fast" exactly above 160, "normal" otherwise |
| TextProcessor.ChunkCount | processors/text_processor.py:306 | no chunks for a non-positive duration; otherwise ceil(duration / 5), at least 1 |
| TextProcessor.NumChunks | processors/text_processor.py:306 | `int(np.ceil(audio_duration / 5.0))`; ChunkCount states the iterations |
| TextProcessor.ChunkStart | processors/text_processor.py:310 | chunk i starts at 5i seconds |
| TextProcessor.ChunkEnd | processors/text_processor.py:311 | chunk i ends at 5(i + 1) seconds or at the duration, whichever is first |
| TextProcessor.InChunk | processors/text_processor.py:312 | a start time in [chunk start, chunk end); ChunksDisjoint and ChunksCover state the partition |
| TextProcessor.ChunksDisjoint | processors/text_processor.py:309-312 | no time falls in two chunks |
| TextProcessor.ChunksCover | processors/text_processor.py:309-312 | every time within the duration falls in the chunk of index floor(t / 5) |
| TextProcessor.ChunkAt | processors/text_processor.py:310-321 | a chunk counts at most the transcript's words, its rate is 12 per word, and it is silent exactly when it counts none |
| TextProcessor.WordsIn | processors/text_processor.py:312-313 | the counted words starting in a time range, never more than the words of the transcript |
| TextProcessor.ChunkWpm | processors/text_processor.py:314 | the chunk rate over the full 5 s, even for a shorter last chunk |
| TextProcessor.Chunks | processors/text_processor.py:309-321 | one chunk record per iteration of the chunk loop |
| TextProcessor.ChunkWpms | processors/text_processor.py:309-322 | one unrounded rate per chunk |
| TextProcessor.PaceChunks | processors/text_processor.py:305-322 | the chunk loop produces the chunks and their rates |
| TextProcessor.MeasureChunk | processors/text_processor.py:310-322 | one iteration produces that chunk and its rate |
| TextProcessor.PaceVariation | processors/text_processor.py:324-325 | the variation is non-negative and 0 for equal rates |
| TextProcessor.ActiveWpms | processors/text_processor.py:324 | the rates of the chunks that are not silent, in order, never more than the rates |
| TextProcessor.AnalyzeTranscript | processors/text_processor.py:259-367 | the pipeline produces the specified analysis or the exception it raises |
| TextProcessor.EmptyAnalysis | processors/text_processor.py:370-386 | `_get_empty_analysis`: all counts and rates 0, no events, no chunks, feedback "none" and no insights |
| TextProcessor.Summary | processors/text_processor.py:289-367 | the result record from the loops' outputs; SummaryRates states its rates |
| TextProcessor.MissingStart | processors/text_processor.py:312 | some word lacks a `start`, which the chunk filter reads |
| TextProcessor.Analysis | processors/text_processor.py:259-367 | `analyze_transcript` as a value: the empty analysis, the first exception raised, or the summary; AnalysisOutcome, AnalysisPauses, AnalysisRates and AnalysisChunks state its properties |
| TextProcessor.AnalysisOutcome | processors/text_processor.py:259-386 | no words give the empty analysis; otherwise it succeeds exactly when the duration is known, fillers have times, the duration is nonzero, starts are present where chunks need them and the language model answers; a missing last end and a zero duration raise their errors |
| TextProcessor.AnalysisPauses | processors/text_processor.py:272-331 | the pause counts add up, each pause lasts at least 0.3 s and is awkward exactly when longer than 2 s, and a negative duration gives percentage 0 |
| TextProcessor.SummaryRates | processors/text_processor.py:289-349 | the filler count matches its events, words are at most the transcript's, both rates are non-negative and bounded, the overall wpm is the wpm, and the feedback is one of the three |
| TextProcessor.AnalysisRates | processors/text_processor.py:289-349 | the same facts for a successful analysis, with one event per filler word |
| TextProcessor.AnalysisChunks | processors/text_processor.py:305-367 | one chunk per five seconds of duration, silent exactly when empty, the duration rounded, and the language-model insights attached |

## Left out

- Floating point: all arithmetic is on exact reals, and `round` is half-up where Python rounds the binary value half-to-even. Results can therefore differ wherever a value falls exactly on a threshold or on a rounding midpoint; the two lines below name the cases in the pause analysis.
- TextProcessor.PausesAreGaps and TextProcessor.DetectPauses: a gap of exactly 0.3 s is never a pause in the model. In Python some such gaps count and others do not. A word ending at 1000 ms followed by one starting at 1300 ms gives 1.3 - 1.0 = 0.30000000000000004, which is a pause. A word ending at 2000 ms followed by one starting at 2300 ms gives 0.2999999999999998, which is not.
- TextProcessor.AwkwardGaps: the model classes a gap of exactly 2.005 s as awkward, because it rounds the duration half-up to 2.01. Python's `round(2.005, 2)` is 2.0, so the source classes that gap as legitimate. Other midpoints near 2 s can differ the same way.
- Library numerics: `np.std`, `sqrt`, `log10`, `gaussian_filter1d`, `medfilt` and `find_peaks` are fields of a `Lib` parameter. Only the laws the proofs use are assumed of them, through the `Lawful` predicate: ranges, zero spread of a constant list, and smoothing that keeps bounds.
- Voice-activity detection, face detection, transcription and the language-model call are external services. Their answers are inputs: speech segments, one `Detection` per frame, the word list, and an opaque `Result` for the insights.
- File, video and object-storage I/O, resampling, mono conversion, the async handlers and the API layer are not part of this model. The video is its frame count, frame rate and per-frame detections. A capture that cannot be opened is not modelled.
- Frame preprocessing (colour conversion, resize, contrast, blur) and computing brightness and sharpness from pixels are left out; both values are inputs. Every exception inside `analyze_frame`, and in the per-frame storage of `process_video`, is the single `Unreadable` detection. Both paths give the "error" default records.
- Character handling is ASCII only: `lower`, `upper`, `isspace` and `isalpha` do not cover other Unicode letters or spaces.
- The face confidence threshold 0.5 is compared with the detector's 0–100 confidence as the code does, so nearly every detected face qualifies.
- Audio labels are stored in an enhanced entry as the row index of their ladder. `AudioLabels` holds the label and tip text of each row.
- The fallback tip of `_get_overall_tip` for an unknown metric name is not modelled: the metric is a datatype, and only the ten tip fields reach it.
- The averages in `process_audio` are not guarded. `AudioEnhance.AggregatesOf` models a mean over an empty enhanced timeline (segments present, no speech second long enough) as `UndefinedAverages` rather than a number; `AudioEnhance.UnguardedAverages` shows an input that reaches it.
- TextProcessor.PaceChunks: requires every word to have a start when there is a chunk. The caller returns the `KeyError` for a missing start before calling it, as the source's chunk loop raises it.
- TextProcessor.Summary: the `effective_wpm` field is computed, but no lemma bounds it, because it is unbounded for a small positive duration.
