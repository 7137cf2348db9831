/**
 * The decision layer of the audio processor (audio_processing.py, class AudioProcessor):
 * the normalisation of the raw measurements into component scores, the weighted sum,
 * the logistic squashing and clip, the 0.5 threshold, the key indicator, and the
 * fallback answer when any step of the pipeline raises.
 *
 * The raw measurements themselves come from the signal-processing library and are inputs
 * here. Scores are reals. The exponential is a parameter `exp` of which only the facts in
 * `ExpAxioms` are assumed.
 */
module Scoring {
  import opened Wrappers

  /** `self.sr`: processing sample rate, and the minimum number of samples (one second). */
  const SampleRate: nat := 16000
  /** Decision threshold of `_generate_response`. */
  const Threshold: real := 0.5
  /** Weights of `_classify`. */
  const ArtifactWeight: real := 0.35
  const TemporalWeight: real := 0.25
  const SpectralWeight: real := 0.25
  const FeatureVarianceWeight: real := 0.15
  /** Slope of the logistic curve in `_classify`. */
  const Steepness: real := 8.0

  /** The facts about `np.exp` the model relies on. */
  ghost predicate ExpAxioms(exp: real -> real)
  {
    && exp(0.0) == 1.0
    && (forall x :: exp(x) > 0.0)
    && (forall x, y :: x < y ==> exp(x) < exp(y))
  }

  /** The facts are consistent: a piecewise function, 1 + x from 0 on and 1 / (1 - x) below, has them all. */
  lemma ExpAxiomsSatisfiable()
    ensures ExpAxioms(x => if x >= 0.0 then 1.0 + x else 1.0 / (1.0 - x))
  {
    var f := x => if x >= 0.0 then 1.0 + x else 1.0 / (1.0 - x);
    forall x | x < 0.0
      ensures 0.0 < f(x) < 1.0
    {
      ReciprocalDecreasing(1.0, 1.0 - x);
    }
    forall x, y | x < y
      ensures f(x) < f(y)
    {
      if y < 0.0 {
        ReciprocalDecreasing(1.0 - y, 1.0 - x);
      } else if x < 0.0 {
        ReciprocalDecreasing(1.0, 1.0 - x);
      }
    }
  }

  /** `min(1.0, x)`: capped at one, not floored. */
  function Cap(x: real): real
  {
    if x < 1.0 then x else 1.0
  }

  /** `np.clip(x, lo, hi)`. */
  function Clip(x: real, lo: real, hi: real): real
  {
    if x < lo then lo else if x > hi then hi else x
  }

  /** The raw statistics the signal-processing library computes for one recording. */
  datatype Measurements = Measurements(
    featureVariance: real,            // std(features) / (mean(|features|) + 1e-8)
    formantRegularity: real,          // std over frames of the per-frame MFCC std
    spectralSmoothness: real,         // mean over bins of the STFT magnitude std
    snrRatio: real,                   // 90th / (10th percentile + 1e-8) of the STFT magnitude
    periodicity: real,                // autocorrelation peak at lags 1 .. 0.05 sr over its maximum
    rmsVariation: real,               // std(rms) / (mean(rms) + 1e-8)
    intervalConsistency: Option<real>, // std / mean of onset intervals, when there are two or more onsets
    centroidVariation: real,          // std(centroid) / (mean(centroid) + 1e-8)
    flatness: real,                   // mean spectral flatness
    harmonicRatio: real               // harmonic / total STFT magnitude
  )

  /** `_detect_artifacts`: the mean of its four indicators. */
  function ArtifactScore(formantRegularity: real, spectralSmoothness: real, snrRatio: real, periodicity: real): (score: real)
    ensures spectralSmoothness >= 0.0 ==> score <= 1.0
    ensures formantRegularity >= 0.0 && snrRatio >= 5.0 && periodicity >= 0.0 ==> score >= 0.0
  {
    (Cap(formantRegularity / 5.0)
     + (1.0 - Cap(spectralSmoothness / 2000.0))
     + Cap((snrRatio - 5.0) / 20.0)
     + Cap(periodicity)) / 4.0
  }

  /** `_analyze_temporal_consistency`: the mean of one or two indicators (the list is never empty). */
  function TemporalScore(rmsVariation: real, intervalConsistency: Option<real>): (score: real)
    ensures (intervalConsistency.Some? ==> intervalConsistency.value >= 0.0) ==> score <= 1.0
    ensures rmsVariation >= 0.0 ==> score >= 0.0
  {
    var rmsIndicator := Cap(rmsVariation / 0.5);
    match intervalConsistency
    case None => rmsIndicator
    case Some(ic) => (rmsIndicator + (1.0 - Cap(ic / 2.0))) / 2.0
  }

  /** `_analyze_spectral_characteristics`: the mean of its three indicators. */
  function SpectralScore(centroidVariation: real, flatness: real, harmonicRatio: real): (score: real)
    ensures centroidVariation >= 0.0 && flatness <= 1.0 ==> score <= 1.0
    ensures flatness >= 0.0 && harmonicRatio >= 0.0 ==> score >= 0.0
  {
    ((1.0 - Cap(centroidVariation / 0.3)) + flatness + Cap(harmonicRatio / 0.8)) / 3.0
  }

  /** The feature score of `_classify`. */
  function FeatureScore(featureVariance: real): (score: real)
    ensures score <= 1.0
    ensures score < 0.0 <==> featureVariance > 5.0
    ensures score == 1.0 <==> featureVariance <= 0.0
  {
    Cap(1.0 - featureVariance / 5.0)
  }

  /** The combined score of `_classify`, before squashing. */
  function WeightedSum(artifact: real, temporal: real, spectral: real, feature: real): (sum: real)
    ensures 0.0 <= artifact <= 1.0 && 0.0 <= temporal <= 1.0 && 0.0 <= spectral <= 1.0 && 0.0 <= feature <= 1.0
            ==> 0.0 <= sum <= 1.0
  {
    ArtifactWeight * artifact + TemporalWeight * temporal + SpectralWeight * spectral + FeatureVarianceWeight * feature
  }

  lemma ReciprocalDecreasing(a: real, b: real)
    requires 0.0 < a < b
    ensures 1.0 / b < 1.0 / a
  {
    assert 1.0 / b * b == 1.0 == 1.0 / a * a;
  }

  lemma ReciprocalNonIncreasing(a: real, b: real)
    requires 0.0 < a <= b
    ensures 1.0 / b <= 1.0 / a
  {
    if a < b { ReciprocalDecreasing(a, b); }
  }

  lemma LogisticBounds(exp: real -> real, z: real)
    requires ExpAxioms(exp)
    ensures var e := exp(-(z - 0.5) * Steepness);
            && e > 0.0
            && 0.0 < 1.0 / (1.0 + e) < 1.0
            && (1.0 / (1.0 + e) >= 0.5 <==> z >= 0.5)
  {
    var e := exp(-(z - 0.5) * Steepness);
    if z >= 0.5 {
      assert e <= exp(0.0) == 1.0 by {
        if z > 0.5 { assert -(z - 0.5) * Steepness < 0.0; }
      }
      ReciprocalNonIncreasing(1.0 + e, 2.0);
    } else {
      assert e > 1.0 by { assert 0.0 < -(z - 0.5) * Steepness; }
      ReciprocalDecreasing(2.0, 1.0 + e);
    }
    ReciprocalDecreasing(1.0, 1.0 + e);
  }

  /** `1 / (1 + exp(-(z - 0.5) * 8))`: strictly between 0 and 1, and at least 0.5 exactly from z = 0.5 on. */
  function Logistic(exp: real -> real, z: real): (p: real)
    requires ExpAxioms(exp)
    ensures 0.0 < p < 1.0
    ensures p >= 0.5 <==> z >= 0.5
  {
    LogisticBounds(exp, z);
    1.0 / (1.0 + exp(-(z - 0.5) * Steepness))
  }

  /** The logistic curve is strictly increasing. */
  lemma LogisticIncreasing(exp: real -> real, z1: real, z2: real)
    requires ExpAxioms(exp)
    requires z1 < z2
    ensures Logistic(exp, z1) < Logistic(exp, z2)
  {
    var e1 := exp(-(z1 - 0.5) * Steepness);
    var e2 := exp(-(z2 - 0.5) * Steepness);
    assert -(z2 - 0.5) * Steepness < -(z1 - 0.5) * Steepness;
    assert e2 < e1;
    ReciprocalDecreasing(1.0 + e2, 1.0 + e1);
  }

  /** `_classify`: the AI probability. */
  function Classify(exp: real -> real, featureVariance: real, artifact: real, temporal: real, spectral: real): (p: real)
    requires ExpAxioms(exp)
    ensures 0.0 <= p <= 1.0
    ensures p >= Threshold <==> WeightedSum(artifact, temporal, spectral, FeatureScore(featureVariance)) >= Threshold
  {
    Clip(Logistic(exp, WeightedSum(artifact, temporal, spectral, FeatureScore(featureVariance))), 0.0, 1.0)
  }

  /** The four weights add up to one. */
  lemma WeightsSumToOne()
    ensures ArtifactWeight + TemporalWeight + SpectralWeight + FeatureVarianceWeight == 1.0
    ensures ArtifactWeight > 0.0 && TemporalWeight > 0.0 && SpectralWeight > 0.0 && FeatureVarianceWeight > 0.0
  {
  }

  /**
   * The AI probability is non-decreasing in the artifact, temporal and spectral scores,
   * strictly increasing when one of them strictly increases, and non-increasing in the
   * feature variance.
   */
  lemma ClassifyMonotone(exp: real -> real,
                         featureVariance: real, artifact: real, temporal: real, spectral: real,
                         featureVariance': real, artifact': real, temporal': real, spectral': real)
    requires ExpAxioms(exp)
    requires featureVariance' <= featureVariance
    requires artifact <= artifact' && temporal <= temporal' && spectral <= spectral'
    ensures Classify(exp, featureVariance, artifact, temporal, spectral)
         <= Classify(exp, featureVariance', artifact', temporal', spectral')
    ensures (artifact < artifact' || temporal < temporal' || spectral < spectral') ==>
              (Classify(exp, featureVariance, artifact, temporal, spectral)
               < Classify(exp, featureVariance', artifact', temporal', spectral'))
  {
    var z := WeightedSum(artifact, temporal, spectral, FeatureScore(featureVariance));
    var z' := WeightedSum(artifact', temporal', spectral', FeatureScore(featureVariance'));
    assert FeatureScore(featureVariance) <= FeatureScore(featureVariance');
    assert z <= z';
    if z < z' {
      LogisticIncreasing(exp, z, z');
    }
  }

  /**
   * The scores are capped at one but not floored at zero: with an SNR ratio below 5 the
   * artifact score is negative, with a feature variance above 5 the feature score is, and
   * the weighted sum then falls below 0.
   */
  lemma WeightedSumCanBeNegative()
    ensures ArtifactScore(0.0, 2000.0, 0.0, 0.0) < 0.0
    ensures WeightedSum(ArtifactScore(0.0, 2000.0, 0.0, 0.0), TemporalScore(0.0, None),
                        SpectralScore(0.3, 0.0, 0.0), FeatureScore(10.0)) < 0.0
  {
  }

  /** The label of a detection. */
  datatype Label = AIGenerated | Human

  /** `classification` as the service writes it. */
  function LabelText(classification: Label): string
  {
    match classification
    case AIGenerated => "AI-generated"
    case Human => "human"
  }

  /**
   * The three named evidence signals, in the order `_generate_response` lists them:
   * "spectral artifacts", "pitch consistency" and "spectral patterns".
   */
  datatype Indicator = SpectralArtifacts | PitchConsistency | SpectralPatterns

  /** What the explanation text reports (the wording itself is not modelled). */
  datatype Explanation =
    | AIEvidence(keyIndicator: Indicator, aiConfidence: real)
    | HumanEvidence(humanConfidence: real)
    | ProcessingFailure

  /**
   * `max(items, key=lambda x: x[1])`: scans left to right and replaces the best only on a
   * strictly larger score, so the first of the maximal items wins.
   */
  function MaxByScore(items: seq<(Indicator, real)>): (best: (Indicator, real))
    requires |items| > 0
    ensures forall i :: 0 <= i < |items| ==> items[i].1 <= best.1
    ensures exists k :: 0 <= k < |items| && items[k] == best && forall j :: 0 <= j < k ==> items[j].1 < best.1
  {
    if |items| == 1 then items[0]
    else
      var init := items[..|items| - 1];
      var best := MaxByScore(init);
      assert forall i :: 0 <= i < |init| ==> items[i] == init[i];
      if items[|items| - 1].1 > best.1 then items[|items| - 1] else best
  }

  /** The key indicator of an AI-generated answer. */
  function KeyIndicator(artifact: real, temporal: real, spectral: real): Indicator
  {
    MaxByScore([(SpectralArtifacts, artifact), (PitchConsistency, temporal), (SpectralPatterns, spectral)]).0
  }

  /** The key indicator is the first of artifact, temporal, spectral that reaches the maximum. */
  lemma KeyIndicatorIsFirstMaximum(artifact: real, temporal: real, spectral: real)
    ensures KeyIndicator(artifact, temporal, spectral) == SpectralArtifacts
            <==> artifact >= temporal && artifact >= spectral
    ensures KeyIndicator(artifact, temporal, spectral) == PitchConsistency
            <==> temporal > artifact && temporal >= spectral
    ensures KeyIndicator(artifact, temporal, spectral) == SpectralPatterns
            <==> spectral > artifact && spectral > temporal
  {
    var items := [(SpectralArtifacts, artifact), (PitchConsistency, temporal), (SpectralPatterns, spectral)];
    var best := MaxByScore(items);
    var k :| 0 <= k < |items| && items[k] == best && forall j :: 0 <= j < k ==> items[j].1 < best.1;
    assert items[0].1 <= best.1 && items[1].1 <= best.1 && items[2].1 <= best.1;
  }

  /** `_generate_response`: the label and what the explanation reports. */
  function GenerateResponse(aiProbability: real, artifact: real, temporal: real, spectral: real): (r: (Label, Explanation))
    ensures r.0 == AIGenerated <==> aiProbability >= Threshold
    ensures r.0 == AIGenerated ==> r.1.AIEvidence? && r.1.aiConfidence == aiProbability
    ensures r.0 == Human ==> r.1.HumanEvidence? && r.1.humanConfidence == 1.0 - aiProbability
  {
    if aiProbability >= Threshold then
      (AIGenerated, AIEvidence(KeyIndicator(artifact, temporal, spectral), aiProbability))
    else
      (Human, HumanEvidence(1.0 - aiProbability))
  }

  /** The answer of `detect_voice`: label, confidence, explanation. */
  datatype Detection = Detection(classification: Label, confidence: real, explanation: Explanation)

  /** The answer when any step raises. */
  const Fallback: Detection := Detection(Human, 0.3, ProcessingFailure)

  datatype LoadError = DecodeFailed | TooShort

  /**
   * `_load_audio`, after decoding: `sampleCount` is the number of decoded samples at the
   * processing rate, or None when the decoder raised.
   */
  function LoadAudio(sampleCount: Option<nat>): (r: Result<nat, LoadError>)
    ensures r.Success? <==> sampleCount.Some? && sampleCount.value >= SampleRate
    ensures r.Success? ==> r.value == sampleCount.value
  {
    match sampleCount
    case None => Failure(DecodeFailed)
    case Some(n) => if n < SampleRate then Failure(TooShort) else Success(n)
  }

  /**
   * `detect_voice`: `measured` is None when one of the analyses raised. Any failure gives
   * the fallback; otherwise the confidence is the AI probability whichever the label.
   */
  function DetectVoice(exp: real -> real, sampleCount: Option<nat>, measured: Option<Measurements>): (d: Detection)
    requires ExpAxioms(exp)
    ensures 0.0 <= d.confidence <= 1.0
    ensures LoadAudio(sampleCount).Failure? || measured.None? ==> d == Fallback
  {
    match LoadAudio(sampleCount)
    case Failure(_) => Fallback
    case Success(_) =>
      match measured
      case None => Fallback
      case Some(m) =>
        var artifact := ArtifactScore(m.formantRegularity, m.spectralSmoothness, m.snrRatio, m.periodicity);
        var temporal := TemporalScore(m.rmsVariation, m.intervalConsistency);
        var spectral := SpectralScore(m.centroidVariation, m.flatness, m.harmonicRatio);
        var p := Classify(exp, m.featureVariance, artifact, temporal, spectral);
        var (classification, explanation) := GenerateResponse(p, artifact, temporal, spectral);
        Detection(classification, p, explanation)
  }

  /** The AI probability of a recording whose analyses all succeeded. */
  function AIProbability(exp: real -> real, m: Measurements): real
    requires ExpAxioms(exp)
  {
    Classify(exp, m.featureVariance,
             ArtifactScore(m.formantRegularity, m.spectralSmoothness, m.snrRatio, m.periodicity),
             TemporalScore(m.rmsVariation, m.intervalConsistency),
             SpectralScore(m.centroidVariation, m.flatness, m.harmonicRatio))
  }

  /**
   * On success the label is "AI-generated" exactly when the weighted sum reaches 0.5, and the
   * returned confidence is the AI probability for both labels; only the human explanation
   * reports one minus it.
   */
  lemma DetectionOnSuccess(exp: real -> real, n: nat, m: Measurements)
    requires ExpAxioms(exp)
    requires n >= SampleRate
    ensures var d := DetectVoice(exp, Some(n), Some(m));
            var p := AIProbability(exp, m);
            && d.confidence == p
            && (d.classification == AIGenerated <==> p >= Threshold)
            && (LabelText(d.classification) == "AI-generated" <==> p >= Threshold)
            && (LabelText(d.classification) == "human" <==> p < Threshold)
            && (d.classification == AIGenerated <==>
                  WeightedSum(ArtifactScore(m.formantRegularity, m.spectralSmoothness, m.snrRatio, m.periodicity),
                              TemporalScore(m.rmsVariation, m.intervalConsistency),
                              SpectralScore(m.centroidVariation, m.flatness, m.harmonicRatio),
                              FeatureScore(m.featureVariance)) >= Threshold)
            && (d.classification == Human ==> d.explanation == HumanEvidence(1.0 - d.confidence))
            && (d.classification == AIGenerated ==>
                  d.explanation == AIEvidence(KeyIndicator(ArtifactScore(m.formantRegularity, m.spectralSmoothness, m.snrRatio, m.periodicity),
                                                           TemporalScore(m.rmsVariation, m.intervalConsistency),
                                                           SpectralScore(m.centroidVariation, m.flatness, m.harmonicRatio)), d.confidence))
  {
  }

  /** Audio shorter than one second at 16 kHz is refused and answered with the fallback. */
  lemma ShortAudioFallsBack(exp: real -> real, n: nat, measured: Option<Measurements>)
    requires ExpAxioms(exp)
    requires n < SampleRate
    ensures DetectVoice(exp, Some(n), measured) == Detection(Human, 0.3, ProcessingFailure)
    ensures LabelText(DetectVoice(exp, Some(n), measured).classification) == "human"
  {
  }
}
