/** The four five-band label tables of the audio timeline (energy, pitch
    variation, volume, pitch stability), each a label/tip pair chosen by a
    first-match threshold ladder. */
module AudioLabels {
  import opened Ladders

  datatype Advice = Advice(text: string, tip: string)

  const EnergyBounds: seq<real> := [15.0, 35.0, 65.0, 90.0]
  const PitchBounds: seq<real> := [0.15, 0.35, 0.7, 1.2]
  const VolumeBounds: seq<real> := [-50.0, -35.0, -20.0, -10.0]
  const StabilityBounds: seq<real> := [0.8, 0.6, 0.4, 0.2]

  const EnergyAdvice: seq<Advice> := [
    Advice("Very Low — likely inaudible or disengaged", "Increase your enthusiasm and volume to engage listeners better."),
    Advice("Low — may sound tired or unenthusiastic", "Add more energy through varied tone and pacing."),
    Advice("Moderate — steady and clear delivery", "This is a good baseline; build on it for more impact."),
    Advice("High — energetic and engaging", "Great job! Maintain this for compelling speech."),
    Advice("Very High — powerful presence (watch for shouting)", "Ensure it doesn't overwhelm; balance with pauses.")
  ]

  const PitchAdvice: seq<Advice> := [
    Advice("Extremely Monotone — risks losing audience attention", "Practice varying your pitch to add expression."),
    Advice("Slightly Monotone — consider more vocal variety", "Emphasize key words with higher or lower tones."),
    Advice("Good Variation — natural and expressive", "Solid foundation; refine for emphasis."),
    Advice("High Variation — dynamic and compelling", "Excellent dynamics—keep it authentic."),
    Advice("Excessive Variation — may sound erratic or nervous", "Stabilize fluctuations for smoother delivery.")
  ]

  const VolumeAdvice: seq<Advice> := [
    Advice("Too Quiet — likely inaudible without amplification", "Speak louder or move closer to the mic."),
    Advice("Quiet — may strain listeners in noisy environments", "Project your voice for clarity."),
    Advice("Ideal Volume — clear and comfortable for most", "Perfect level—maintain consistency."),
    Advice("Loud — strong presence, but risk of distortion", "Check for clipping; slightly reduce if needed."),
    Advice("Very Loud — potential clipping or shouting", "Lower volume to avoid overwhelming listeners.")
  ]

  const StabilityAdvice: seq<Advice> := [
    Advice("Very Stable — controlled, confident delivery", "Great control; use for emphasis in key moments."),
    Advice("Stable — good vocal control", "Build confidence with breathing exercises."),
    Advice("Moderate Stability — some fluctuation", "Practice steady tone to reduce wavers."),
    Advice("Unstable — pitch wavers noticeably", "Relax and focus on smooth transitions."),
    Advice("Highly Unstable — likely due to nervousness or poor technique", "Warm up your voice and speak slowly.")
  ]

  /** `get_energy_label`: the row of the energy table its ladder picks. */
  function EnergyLabel(value: real): Advice
  {
    EnergyAdvice[EnergyLevel(value)]
  }

  /** The ladder of `get_energy_label`. */
  function EnergyLevel(value: real): (k: nat)
    ensures k < 5
  {
    if value < 15.0 then 0
    else if value < 35.0 then 1
    else if value < 65.0 then 2
    else if value < 90.0 then 3
    else 4
  }

  /** `get_pitch_label`. */
  function PitchLabel(value: real): Advice
  {
    PitchAdvice[PitchLevel(value)]
  }

  function PitchLevel(value: real): (k: nat)
    ensures k < 5
  {
    if value < 0.15 then 0
    else if value < 0.35 then 1
    else if value < 0.7 then 2
    else if value < 1.2 then 3
    else 4
  }

  /** `get_volume_label`. */
  function VolumeLabel(value: real): Advice
  {
    VolumeAdvice[VolumeLevel(value)]
  }

  function VolumeLevel(value: real): (k: nat)
    ensures k < 5
  {
    if value < -50.0 then 0
    else if value < -35.0 then 1
    else if value < -20.0 then 2
    else if value < -10.0 then 3
    else 4
  }

  /** `get_pitch_stability_label`: the one ladder scanned downwards with `>`. */
  function StabilityLabel(stability: real): Advice
  {
    StabilityAdvice[StabilityLevel(stability)]
  }

  function StabilityLevel(stability: real): (k: nat)
    ensures k < 5
  {
    if stability > 0.8 then 0
    else if stability > 0.6 then 1
    else if stability > 0.4 then 2
    else if stability > 0.2 then 3
    else 4
  }

  lemma BoundsOrdered()
    ensures Ascending(EnergyBounds) && Ascending(PitchBounds) && Ascending(VolumeBounds)
    ensures Descending(StabilityBounds)
  {
  }

  /** Each label ladder picks the band of the ascending (`<`) or descending
      (`>`) partition its value falls in; the five tables hold five distinct
      labels, so the bands are told apart. */
  lemma LabelsArePartitions(v: real)
    ensures EnergyLevel(v) == BandBelow(v, EnergyBounds)
    ensures PitchLevel(v) == BandBelow(v, PitchBounds)
    ensures VolumeLevel(v) == BandBelow(v, VolumeBounds)
    ensures StabilityLevel(v) == BandAbove(v, StabilityBounds)
  {
    var e := BandBelow(v, EnergyBounds);
    assert e == 0 || EnergyBounds[e - 1] <= v;
    var p := BandBelow(v, PitchBounds);
    assert p == 0 || PitchBounds[p - 1] <= v;
    var o := BandBelow(v, VolumeBounds);
    assert o == 0 || VolumeBounds[o - 1] <= v;
    var s := BandAbove(v, StabilityBounds);
    assert s == 0 || v <= StabilityBounds[s - 1];
  }

  /** The five labels of a table are pairwise distinct, so the label text a value
      receives identifies its band. */
  lemma LabelsDistinct()
    ensures forall i, j :: 0 <= i < j < 5 ==> EnergyAdvice[i].text != EnergyAdvice[j].text
    ensures forall i, j :: 0 <= i < j < 5 ==> PitchAdvice[i].text != PitchAdvice[j].text
    ensures forall i, j :: 0 <= i < j < 5 ==> VolumeAdvice[i].text != VolumeAdvice[j].text
    ensures forall i, j :: 0 <= i < j < 5 ==> StabilityAdvice[i].text != StabilityAdvice[j].text
  {
  }

  /** A louder, more energetic or more varied second never gets a lower band,
      and a steadier pitch never gets a less stable band. */
  lemma LabelsMonotone(x: real, y: real)
    requires x <= y
    ensures BandBelow(x, EnergyBounds) <= BandBelow(y, EnergyBounds)
    ensures BandBelow(x, PitchBounds) <= BandBelow(y, PitchBounds)
    ensures BandBelow(x, VolumeBounds) <= BandBelow(y, VolumeBounds)
    ensures BandAbove(y, StabilityBounds) <= BandAbove(x, StabilityBounds)
  {
    BoundsOrdered();
    BandBelowMonotone(x, y, EnergyBounds);
    BandBelowMonotone(x, y, PitchBounds);
    BandBelowMonotone(x, y, VolumeBounds);
    BandAboveMonotone(x, y, StabilityBounds);
  }
}
