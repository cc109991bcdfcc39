/** The five-disease risk evaluator of `calculate_risk`: one independent
    threshold rule per disease, a penalty-based base score, and the noisy
    stability score clamped to [0, 100]. The random confidences and the score
    noise are unit draws supplied by the caller. */
module RiskScoring {
  import opened Findings

  /** The five diseases, each keyed in the result by its display name. */
  datatype Disease =
    | ParkinsonsDisease | AlzheimersDecline | ClinicalDepression | HuntingtonsDisease | ChronicAnxiety
  {
    function Name(): string
    {
      match this
      case ParkinsonsDisease => "Parkinson's Disease"
      case AlzheimersDecline => "Alzheimer's / Cognitive Decline"
      case ClinicalDepression => "Clinical Depression"
      case HuntingtonsDisease => "Huntington's Disease"
      case ChronicAnxiety => "Chronic Anxiety"
    }
  }

  const AllDiseases: set<Disease> :=
    {ParkinsonsDisease, AlzheimersDecline, ClinicalDepression, HuntingtonsDisease, ChronicAnxiety}

  /** Rule thresholds. */
  const TremorJitter: real := 1.04
  const MildTremorJitter: real := 0.8
  const LowHnr: real := 15.0
  const FlatProsodyF0Std: real := 10.0
  const DysarthriaShimmer: real := 3.81
  const StrainedF0Std: real := 40.0

  /** Score penalties. */
  const TremorPenalty: nat := 15
  const NoisePenalty: nat := 15
  const ProsodyPenalty: nat := 15
  const DysarthriaPenalty: nat := 10

  // ---------------------------------------------------------------------
  // The five rules
  // ---------------------------------------------------------------------

  /** Parkinson's Disease: micro-tremor on jitter. */
  function ParkinsonRisk(jitter: real): (r: Risk)
    ensures r == High <==> jitter > 1.04
    ensures r == Medium <==> 0.8 < jitter <= 1.04
    ensures r == Low <==> jitter <= 0.8
  {
    if jitter > TremorJitter then High
    else if jitter > MildTremorJitter then Medium
    else Low
  }

  /** Alzheimer's / Cognitive Decline: phonatory flow on HNR; never Medium. */
  function AlzheimerRisk(hnr: real): (r: Risk)
    ensures r != Medium
    ensures r == High <==> hnr < 15.0
  {
    if hnr < LowHnr then High else Low
  }

  /** Clinical Depression: flat prosody, guarded by `f0_std > 0` so that a
      recording with no voiced frames is not flagged; never Medium. */
  function DepressionRisk(f0Std: real): (r: Risk)
    ensures r != Medium
    ensures r == High <==> 0.0 < f0Std < 10.0
  {
    if f0Std > 0.0 && f0Std < FlatProsodyF0Std then High else Low
  }

  /** Huntington's Disease: dysarthria on shimmer; never High. */
  function HuntingtonRisk(shimmer: real): (r: Risk)
    ensures r != High
    ensures r == Medium <==> shimmer > 3.81
  {
    if shimmer > DysarthriaShimmer then Medium else Low
  }

  /** Chronic Anxiety: wide pitch variability together with jitter; never High. */
  function AnxietyRisk(f0Std: real, jitter: real): (r: Risk)
    ensures r != High
    ensures r == Medium <==> f0Std > 40.0 && jitter > 0.8
  {
    if f0Std > StrainedF0Std && jitter > MildTremorJitter then Medium else Low
  }

  // ---------------------------------------------------------------------
  // Confidence bands and explanations
  // ---------------------------------------------------------------------

  /** The rule a disease is judged by. */
  function RuleRisk(d: Disease, b: Biomarkers): Risk
  {
    match d
    case ParkinsonsDisease => ParkinsonRisk(b.jitter)
    case AlzheimersDecline => AlzheimerRisk(b.hnr)
    case ClinicalDepression => DepressionRisk(b.f0Std)
    case HuntingtonsDisease => HuntingtonRisk(b.shimmer)
    case ChronicAnxiety => AnxietyRisk(b.f0Std, b.jitter)
  }

  /** The half-open range [lo, hi) a confidence percentage is drawn from. */
  datatype Band = Band(lo: real, hi: real)

  /** The confidence band of the branch a disease's rule took, keyed by the
      level that branch reports; a two-branch rule uses its second band for
      every level other than its first branch's. */
  function ConfidenceBand(d: Disease, level: Risk): (band: Band)
    ensures 0.0 <= band.lo < band.hi <= 100.0
  {
    match d
    case ParkinsonsDisease =>
      if level == High then Band(85.0, 95.0)
      else if level == Medium then Band(60.0, 80.0)
      else Band(80.0, 99.0)
    case AlzheimersDecline =>
      if level == High then Band(80.0, 92.0) else Band(85.0, 95.0)
    case ClinicalDepression =>
      if level == High then Band(75.0, 90.0) else Band(90.0, 98.0)
    case HuntingtonsDisease =>
      if level == Medium then Band(70.0, 85.0) else Band(85.0, 95.0)
    case ChronicAnxiety =>
      if level == Medium then Band(65.0, 80.0) else Band(85.0, 95.0)
  }

  /** Explanation templates; a number is formatted between an opening and a closing. */
  const TremorHighOpening: string := "Your Micro-Tremor Index (Jitter) is "
  const TremorHighClosing: string := "%, which is above the baseline. This can indicate subtle vocal fold instability."
  const TremorMildOpening: string := "Micro-Tremor Index (Jitter) is "
  const TremorMildClosing: string := "%, showing slight variations."
  const TremorNominalOpening: string := "Micro-Tremor Index (Jitter) is nominal at "
  const TremorNominalClosing: string := "%."
  const FlowLowOpening: string := "Phonatory Flow (HNR) is low at "
  const FlowLowClosing: string := " dB, indicating increased noise in the speech signal often associated with cognitive speech patterns."
  const FlowOptimalOpening: string := "Phonatory Flow (HNR) is optimal at "
  const FlowOptimalClosing: string := " dB."
  const ProsodyFlatOpening: string := "Prosodic Range is restricted (Pitch variability: "
  const ProsodyFlatClosing: string := " Hz). 'Flat' prosody is a known biomarker for mood disorders."
  const ProsodyDynamicOpening: string := "Prosodic Range is dynamic and healthy ("
  const ProsodyDynamicClosing: string := " Hz)."
  const DysarthriaOpening: string := "Vocal intensity variation (Shimmer) is "
  const DysarthriaClosing: string := "%, suggesting potential dysarthria."
  const RhythmStableText: string := "Vocal rhythm and intensity are stable."
  const StrainText: string := "Elevated pitch variability combined with micro-instability suggests potential respiratory strain or chronic anxiety."
  const RelaxedText: string := "Vocal cord tension appears relaxed and normal."

  /** The explanation text of the branch a disease's rule took. Numbers are
      kept with the decimals the source formats them to. */
  function Explanation(d: Disease, b: Biomarkers): (t: Text)
    ensures |t| > 0 && t[0].Lit?
    ensures d == ParkinsonsDisease ==> Num(b.jitter, 2) in t
    ensures d == AlzheimersDecline ==> Num(b.hnr, 1) in t
    ensures d == ClinicalDepression ==> Num(b.f0Std, 1) in t
    ensures d == HuntingtonsDisease ==> (Num(b.shimmer, 2) in t <==> HuntingtonRisk(b.shimmer) == Medium)
    ensures d == ChronicAnxiety ==> forall p :: p in t ==> p.Lit?
  {
    match d
    case ParkinsonsDisease =>
      var level := ParkinsonRisk(b.jitter);
      if level == High then
        [Lit(TremorHighOpening), Num(b.jitter, 2),
         Lit(TremorHighClosing)]
      else if level == Medium then
        [Lit(TremorMildOpening), Num(b.jitter, 2), Lit(TremorMildClosing)]
      else
        [Lit(TremorNominalOpening), Num(b.jitter, 2), Lit(TremorNominalClosing)]
    case AlzheimersDecline =>
      if AlzheimerRisk(b.hnr) == High then
        [Lit(FlowLowOpening), Num(b.hnr, 1),
         Lit(FlowLowClosing)]
      else
        [Lit(FlowOptimalOpening), Num(b.hnr, 1), Lit(FlowOptimalClosing)]
    case ClinicalDepression =>
      if DepressionRisk(b.f0Std) == High then
        [Lit(ProsodyFlatOpening), Num(b.f0Std, 1),
         Lit(ProsodyFlatClosing)]
      else
        [Lit(ProsodyDynamicOpening), Num(b.f0Std, 1), Lit(ProsodyDynamicClosing)]
    case HuntingtonsDisease =>
      if HuntingtonRisk(b.shimmer) == Medium then
        [Lit(DysarthriaOpening), Num(b.shimmer, 2),
         Lit(DysarthriaClosing)]
      else
        [Lit(RhythmStableText)]
    case ChronicAnxiety =>
      if AnxietyRisk(b.f0Std, b.jitter) == Medium then
        [Lit(StrainText)]
      else
        [Lit(RelaxedText)]
  }

  // ---------------------------------------------------------------------
  // Stability score
  // ---------------------------------------------------------------------

  /** One row of the penalty table: whether the penalty applies and its weight. */
  datatype Penalty = Penalty(applies: bool, weight: nat)

  /** The penalty table, in the source's order. Note that the prosody penalty
      applies whenever `f0_std < 10.0`, including `f0_std == 0`, unlike the
      depression rule. */
  function Penalties(b: Biomarkers): seq<Penalty>
  {
    [ Penalty(b.jitter > TremorJitter, TremorPenalty),
      Penalty(b.hnr < LowHnr, NoisePenalty),
      Penalty(b.f0Std < FlatProsodyF0Std, ProsodyPenalty),
      Penalty(b.shimmer > DysarthriaShimmer, DysarthriaPenalty) ]
  }

  /** The sum of all weights in a table. */
  function TotalWeight(ps: seq<Penalty>): nat
  {
    if |ps| == 0 then 0 else ps[0].weight + TotalWeight(ps[1..])
  }

  /** The sum of the weights of the penalties that apply. */
  function Deducted(ps: seq<Penalty>): (d: nat)
    ensures d <= TotalWeight(ps)
    ensures (forall i :: 0 <= i < |ps| ==> !ps[i].applies) ==> d == 0
    ensures (forall i :: 0 <= i < |ps| ==> ps[i].applies) ==> d == TotalWeight(ps)
  {
    if |ps| == 0 then 0
    else (if ps[0].applies then ps[0].weight else 0) + Deducted(ps[1..])
  }

  /** The four penalties weigh 55 in all. */
  lemma PenaltyTableWeight(b: Biomarkers)
    ensures TotalWeight(Penalties(b)) == 55
  {
    var ps := Penalties(b);
    assert TotalWeight(ps[3..]) == 10 by { assert ps[3..][1..] == []; }
    assert TotalWeight(ps[2..]) == 25 by { assert ps[2..][1..] == ps[3..]; }
    assert TotalWeight(ps[1..]) == 40 by { assert ps[1..][1..] == ps[2..]; }
  }

  /** `base_score`: 100 less the penalties that apply. */
  function BaseScore(b: Biomarkers): (s: int)
    ensures 45 <= s <= 100
  {
    PenaltyTableWeight(b);
    100 - Deducted(Penalties(b))
  }

  /** The clamp `max(0, min(100, x))`. */
  function Clamp(x: real): (c: real)
    ensures 0.0 <= c <= 100.0
    ensures 0.0 <= x <= 100.0 ==> c == x
    ensures x > 100.0 ==> c == 100.0
    ensures x < 0.0 ==> c == 0.0
  {
    if x > 100.0 then 100.0 else if x < 0.0 then 0.0 else x
  }

  /** The stability score before rounding: the base score plus noise drawn
      uniformly from [-5, 5), clamped to [0, 100]. */
  function StabilityScore(base: int, u: real): (s: real)
    requires IsUnitDraw(u)
    ensures 0.0 <= s <= 100.0
    ensures 45 <= base <= 100 ==> 40.0 <= s <= 100.0
    ensures 45 <= base <= 100 ==> base as real - 5.0 <= s < base as real + 5.0
  {
    Clamp(base as real + Uniform(-5.0, 5.0, u))
  }

  // ---------------------------------------------------------------------
  // calculate_risk
  // ---------------------------------------------------------------------

  /** The unit draws consumed by one call, in the source's order: one
      confidence per disease, then the score noise. */
  datatype Draws = Draws(parkinson: real, alzheimer: real, depression: real,
                         huntington: real, anxiety: real, noise: real)

  predicate ValidDraws(d: Draws)
  {
    && IsUnitDraw(d.parkinson) && IsUnitDraw(d.alzheimer) && IsUnitDraw(d.depression)
    && IsUnitDraw(d.huntington) && IsUnitDraw(d.anxiety) && IsUnitDraw(d.noise)
  }

  /** The result dictionary: the stability score and, per disease, the finding
      and its explanation. */
  datatype RiskReport = RiskReport(stabilityScore: real,
                                   diseaseRisks: map<Disease, Finding>,
                                   explanations: map<Disease, Text>)

  /** The unit draw that feeds a disease's confidence. */
  function DrawFor(d: Disease, draws: Draws): real
  {
    match d
    case ParkinsonsDisease => draws.parkinson
    case AlzheimersDecline => draws.alzheimer
    case ClinicalDepression => draws.depression
    case HuntingtonsDisease => draws.huntington
    case ChronicAnxiety => draws.anxiety
  }

  /** One rule's outcome: the finding and its explanation text. */
  datatype Assessment = Assessment(finding: Finding, explanation: Text)

  /** A disease's rule, with its confidence drawn from the band of the branch
      taken and the explanation of that branch. */
  function Assess(d: Disease, b: Biomarkers, draws: Draws): (a: Assessment)
    requires ValidDraws(draws)
    ensures a.finding.risk == RuleRisk(d, b)
    ensures var band := ConfidenceBand(d, a.finding.risk);
      band.lo <= a.finding.confidence < band.hi
    ensures 0.0 <= a.finding.confidence < 100.0
    ensures a.explanation == Explanation(d, b)
  {
    var level := RuleRisk(d, b);
    var band := ConfidenceBand(d, level);
    Assessment(Finding(level, Uniform(band.lo, band.hi, DrawFor(d, draws))), Explanation(d, b))
  }

  /** Every disease's assessment. */
  function AssessAll(b: Biomarkers, draws: Draws): (m: map<Disease, Assessment>)
    requires ValidDraws(draws)
    ensures m.Keys == AllDiseases
    ensures forall d :: d in m ==> m[d] == Assess(d, b, draws)
  {
    map d | d in AllDiseases :: Assess(d, b, draws)
  }

  function CalculateRisk(features: FeatureMap, draws: Draws): (r: RiskReport)
    requires ValidDraws(draws)
    ensures r.diseaseRisks.Keys == AllDiseases
    ensures r.explanations.Keys == r.diseaseRisks.Keys
    ensures forall d :: d in r.diseaseRisks ==>
      && r.diseaseRisks[d].risk == RuleRisk(d, ReadBiomarkers(features))
      && 0.0 <= r.diseaseRisks[d].confidence < 100.0
    ensures forall d :: d in r.diseaseRisks ==>
      var band := ConfidenceBand(d, r.diseaseRisks[d].risk);
      band.lo <= r.diseaseRisks[d].confidence < band.hi
    ensures forall d :: d in r.explanations ==>
      r.explanations[d] == Explanation(d, ReadBiomarkers(features))
    ensures 40.0 <= r.stabilityScore <= 100.0
    ensures var base := BaseScore(ReadBiomarkers(features));
      base as real - 5.0 <= r.stabilityScore < base as real + 5.0
  {
    var b := ReadBiomarkers(features);
    var assessments := AssessAll(b, draws);
    RiskReport(
      StabilityScore(BaseScore(b), draws.noise),
      map d | d in assessments :: assessments[d].finding,
      map d | d in assessments :: assessments[d].explanation)
  }

  // ---------------------------------------------------------------------
  // Properties
  // ---------------------------------------------------------------------

  /** The base score is 100 less exactly the penalties whose conditions hold,
      written as the source's chain of conditional subtractions. */
  lemma BaseScoreIsConditionalSubtraction(b: Biomarkers)
    ensures BaseScore(b) ==
      100 - (if b.jitter > 1.04 then 15 else 0)
          - (if b.hnr < 15.0 then 15 else 0)
          - (if b.f0Std < 10.0 then 15 else 0)
          - (if b.shimmer > 3.81 then 10 else 0)
  {
    var ps := Penalties(b);
    var tremor := if b.jitter > 1.04 then 15 else 0;
    var noise := if b.hnr < 15.0 then 15 else 0;
    var prosody := if b.f0Std < 10.0 then 15 else 0;
    var dysarthria := if b.shimmer > 3.81 then 10 else 0;
    assert Deducted(ps[3..]) == dysarthria by { assert ps[3..][1..] == []; }
    assert Deducted(ps[2..]) == prosody + dysarthria by { assert ps[2..][1..] == ps[3..]; }
    assert Deducted(ps[1..]) == noise + prosody + dysarthria by { assert ps[1..][1..] == ps[2..]; }
    assert Deducted(ps) == tremor + noise + prosody + dysarthria;
  }

  /** With no voiced frames (`f0_std == 0`) depression is not flagged, yet
      the low-prosody penalty is still taken. */
  lemma ProsodyPenaltyWithoutDepression(b: Biomarkers)
    requires b.f0Std == 0.0
    ensures DepressionRisk(b.f0Std) == Low
    ensures BaseScore(b) <= 85
  {
    BaseScoreIsConditionalSubtraction(b);
  }

  /** Risk levels and explanations depend on the features alone: two calls
      with different draws differ at most in confidences and score. */
  lemma LevelsIndependentOfDraws(features: FeatureMap, d1: Draws, d2: Draws)
    requires ValidDraws(d1) && ValidDraws(d2)
    ensures forall k :: k in AllDiseases ==>
      CalculateRisk(features, d1).diseaseRisks[k].risk == CalculateRisk(features, d2).diseaseRisks[k].risk
    ensures CalculateRisk(features, d1).explanations == CalculateRisk(features, d2).explanations
  {
    var r1 := CalculateRisk(features, d1);
    var r2 := CalculateRisk(features, d2);
    assert r1.explanations.Keys == r2.explanations.Keys;
    forall k | k in r1.explanations
      ensures r1.explanations[k] == r2.explanations[k]
    {
    }
  }

  /** An empty feature dictionary reads as all zeros: only Alzheimer's is
      flagged, the base score is 70, so the score lies in [65, 75). */
  lemma EmptyFeatures(draws: Draws)
    requires ValidDraws(draws)
    ensures var r := CalculateRisk(map[], draws);
      && r.diseaseRisks[AlzheimersDecline].risk == High
      && r.diseaseRisks[ParkinsonsDisease].risk == Low
      && r.diseaseRisks[ClinicalDepression].risk == Low
      && r.diseaseRisks[HuntingtonsDisease].risk == Low
      && r.diseaseRisks[ChronicAnxiety].risk == Low
      && 65.0 <= r.stabilityScore < 75.0
  {
    var b := ReadBiomarkers(map[]);
    BaseScoreIsConditionalSubtraction(b);
    assert BaseScore(b) == 70;
  }

  /** Jitter exactly at 1.04 falls on the Medium side of the Parkinson's rule
      and takes no tremor penalty. */
  lemma JitterBoundary(b: Biomarkers)
    requires b.jitter == 1.04
    ensures ParkinsonRisk(b.jitter) == Medium
    ensures BaseScore(b) >= 60
    ensures BaseScore(b) == BaseScore(b.(jitter := 0.0))
  {
    BaseScoreIsConditionalSubtraction(b);
    BaseScoreIsConditionalSubtraction(b.(jitter := 0.0));
  }

  /** No two diseases share a display name. */
  lemma DiseaseNamesDistinct(d1: Disease, d2: Disease)
    ensures d1.Name() == d2.Name() <==> d1 == d2
  {
    if d1 != d2 && |d1.Name()| == |d2.Name()| {
      assert d1.Name()[0] != d2.Name()[0];
    }
  }

  /** The result is keyed by exactly the five display names of the source. */
  lemma DiseaseKeys(features: FeatureMap, draws: Draws)
    requires ValidDraws(draws)
    ensures (set d | d in CalculateRisk(features, draws).diseaseRisks :: d.Name()) ==
      {"Parkinson's Disease", "Alzheimer's / Cognitive Decline", "Clinical Depression",
       "Huntington's Disease", "Chronic Anxiety"}
  {
    assert CalculateRisk(features, draws).diseaseRisks.Keys == AllDiseases;
    NamesOfAllDiseases();
  }

  /** The display names of the five diseases. */
  lemma NamesOfAllDiseases()
    ensures (set d | d in AllDiseases :: d.Name()) ==
      {"Parkinson's Disease", "Alzheimer's / Cognitive Decline", "Clinical Depression",
       "Huntington's Disease", "Chronic Anxiety"}
  {
  }

}
