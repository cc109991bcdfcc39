/** Shared vocabulary of the rule-based risk evaluator: the feature dictionary
    the extractor hands over, the three-level risk scale, a finding with its
    confidence, templated text, and the uniform draws that stand in for the
    source's calls to `random.uniform`. */
module Findings {

  /** The numeric entries of the extractor's feature dictionary. */
  type FeatureMap = map<string, real>

  const JitterKey: string := "jitter_percent"
  const ShimmerKey: string := "shimmer_percent"
  const HnrKey: string := "hnr_db"
  const F0StdKey: string := "f0_std"

  /** Dictionary lookup with the evaluators' default of 0.0 for a missing key. */
  function Get(features: FeatureMap, key: string): real
  {
    if key in features then features[key] else 0.0
  }

  /** The four biomarkers the rules read: jitter %, shimmer %, HNR in dB and
      the standard deviation of F0 in Hz. */
  datatype Biomarkers = Biomarkers(jitter: real, shimmer: real, hnr: real, f0Std: real)

  /** Reads the biomarkers out of the dictionary; a missing entry reads as 0.0. */
  function ReadBiomarkers(features: FeatureMap): (b: Biomarkers)
    ensures JitterKey in features ==> b.jitter == features[JitterKey]
    ensures ShimmerKey in features ==> b.shimmer == features[ShimmerKey]
    ensures HnrKey in features ==> b.hnr == features[HnrKey]
    ensures F0StdKey in features ==> b.f0Std == features[F0StdKey]
    ensures JitterKey !in features ==> b.jitter == 0.0
    ensures ShimmerKey !in features ==> b.shimmer == 0.0
    ensures HnrKey !in features ==> b.hnr == 0.0
    ensures F0StdKey !in features ==> b.f0Std == 0.0
  {
    Biomarkers(Get(features, JitterKey), Get(features, ShimmerKey),
               Get(features, HnrKey), Get(features, F0StdKey))
  }

  /** The categorical risk levels, in increasing severity. */
  datatype Risk = Low | Medium | High {
    function Rank(): nat
    {
      match this
      case Low => 0
      case Medium => 1
      case High => 2
    }
  }

  /** `a` is no more severe than `b`. */
  predicate AtMost(a: Risk, b: Risk)
  {
    a.Rank() <= b.Rank()
  }

  /** A risk level with the confidence percentage reported beside it. */
  datatype Finding = Finding(risk: Risk, confidence: real)

  /** A piece of templated text: literal characters, or a number the source
      formats with a fixed count of decimals (`:.2f`, `:.1f`). */
  datatype Piece = Lit(text: string) | Num(value: real, decimals: nat)

  type Text = seq<Piece>

  /** A draw of the underlying unit generator, in [0, 1). */
  predicate IsUnitDraw(u: real)
  {
    0.0 <= u < 1.0
  }

  /** `random.uniform(lo, hi)` computed from the unit draw `u` as
      `lo + (hi - lo) * u`. */
  function Uniform(lo: real, hi: real, u: real): (x: real)
    requires lo < hi && IsUnitDraw(u)
    ensures lo <= x < hi
  {
    lo + Scale(hi - lo, u)
  }

  /** A positive width scaled by a unit draw stays within [0, width). */
  function Scale(width: real, u: real): (s: real)
    requires width > 0.0 && IsUnitDraw(u)
    ensures 0.0 <= s < width
  {
    assert width - width * u == width * (1.0 - u);
    width * u
  }
}
