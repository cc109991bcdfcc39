/** The women's health evaluator of `analyze_womens_health`: three thresholds
    shifted additively by life stage, then a three-level thyroid rule on HNR
    and a three-level hormonal rule on jitter or shimmer, with a templated
    scribe note. The random confidences are unit draws supplied by the caller. */
module WomensHealth {
  import opened Findings

  /** The life stages the evaluator recognises; any other name is General. */
  datatype LifeStage = General | Pregnancy | Menopause

  /** The default life stage name. */
  const DefaultLifeStage: string := "General"

  function StageOf(name: string): (stage: LifeStage)
    ensures stage == Pregnancy <==> name == "Pregnancy"
    ensures stage == Menopause <==> name == "Menopause"
  {
    if name == "Pregnancy" then Pregnancy
    else if name == "Menopause" then Menopause
    else General
  }

  /** The thresholds the two rules compare against. */
  datatype Thresholds = Thresholds(jitter: real, hnr: real, shimmer: real)

  /** Thresholds calibrated for female physiological ranges. */
  const Baseline: Thresholds := Thresholds(1.04, 16.0, 3.8)

  /** The per-stage additive shift of the thresholds. */
  function StageShift(stage: LifeStage): Thresholds
  {
    match stage
    case General => Thresholds(0.0, 0.0, 0.0)
    case Pregnancy => Thresholds(0.2, -1.0, 0.5)
    case Menopause => Thresholds(0.3, -2.0, 0.8)
  }

  /** The thresholds in force for a life stage name. */
  function StageThresholds(name: string): (t: Thresholds)
    ensures StageOf(name) == General ==> t == Thresholds(1.04, 16.0, 3.8)
    ensures StageOf(name) == Pregnancy ==> t == Thresholds(1.24, 15.0, 4.3)
    ensures StageOf(name) == Menopause ==> t == Thresholds(1.34, 14.0, 4.6)
  {
    var shift := StageShift(StageOf(name));
    Thresholds(Baseline.jitter + shift.jitter, Baseline.hnr + shift.hnr,
               Baseline.shimmer + shift.shimmer)
  }

  /** `relaxed` tolerates at least as much as `strict` on every threshold:
      higher jitter and shimmer limits, a lower HNR limit. */
  predicate Relaxes(relaxed: Thresholds, strict: Thresholds)
  {
    && relaxed.jitter >= strict.jitter
    && relaxed.hnr <= strict.hnr
    && relaxed.shimmer >= strict.shimmer
  }

  /** The margin below the HNR threshold at which breathiness is severe. */
  const SevereHnrMargin: real := 3.0

  /** The factor over the jitter or shimmer threshold at which roughness is severe. */
  const SevereRoughnessFactor: real := 1.5

  // ---------------------------------------------------------------------
  // The two rules
  // ---------------------------------------------------------------------

  /** Thyroid & Autoimmune Shield: breathiness on HNR. */
  function ThyroidRisk(hnr: real, t: Thresholds): (r: Risk)
    ensures r == High <==> hnr < t.hnr - 3.0
    ensures r == Medium <==> t.hnr - 3.0 <= hnr < t.hnr
    ensures r == Low <==> hnr >= t.hnr
  {
    if hnr < t.hnr - SevereHnrMargin then High
    else if hnr < t.hnr then Medium
    else Low
  }

  /** The severe-roughness condition of the hormonal rule. */
  predicate SevereRoughness(jitter: real, shimmer: real, t: Thresholds)
  {
    jitter > SevereRoughnessFactor * t.jitter || shimmer > SevereRoughnessFactor * t.shimmer
  }

  /** Hormonal Baseline Engine: roughness on jitter or shimmer. */
  function HormonalRisk(jitter: real, shimmer: real, t: Thresholds): (r: Risk)
    ensures r == High <==> jitter > 1.5 * t.jitter || shimmer > 1.5 * t.shimmer
    ensures r == Medium <==>
      && !(jitter > 1.5 * t.jitter || shimmer > 1.5 * t.shimmer)
      && (jitter > t.jitter || shimmer > t.shimmer)
    ensures r == Low <==>
      && !(jitter > 1.5 * t.jitter || shimmer > 1.5 * t.shimmer)
      && jitter <= t.jitter && shimmer <= t.shimmer
  {
    if SevereRoughness(jitter, shimmer, t) then High
    else if jitter > t.jitter || shimmer > t.shimmer then Medium
    else Low
  }

  // ---------------------------------------------------------------------
  // Confidence bands and texts
  // ---------------------------------------------------------------------

  const ThyroidCategory: string := "Thyroid & Autoimmune Shield"
  const ThyroidCondition: string := "Thyroid Nodule / Hashimoto's Indicator"
  const HormonalCategory: string := "Hormonal Baseline Engine"
  const HormonalCondition: string := "Estrogen-Driven Vocal Atrophy / Edema"

  /** The two categories, each with its single condition. */
  const Categories: set<string> := {ThyroidCategory, HormonalCategory}

  /** The range [lo, hi) the confidence of a thyroid finding is drawn from. */
  function ThyroidConfidence(level: Risk, u: real): (c: real)
    requires IsUnitDraw(u)
    ensures level == High ==> 85.0 <= c < 94.0
    ensures level == Medium ==> 60.0 <= c < 75.0
    ensures level == Low ==> 90.0 <= c < 98.0
  {
    match level
    case High => Uniform(85.0, 94.0, u)
    case Medium => Uniform(60.0, 75.0, u)
    case Low => Uniform(90.0, 98.0, u)
  }

  function HormonalConfidence(level: Risk, u: real): (c: real)
    requires IsUnitDraw(u)
    ensures level == High ==> 80.0 <= c < 92.0
    ensures level == Medium ==> 55.0 <= c < 70.0
    ensures level == Low ==> 88.0 <= c < 96.0
  {
    match level
    case High => Uniform(80.0, 92.0, u)
    case Medium => Uniform(55.0, 70.0, u)
    case Low => Uniform(88.0, 96.0, u)
  }

  const ThyroidHighText: string := "Severe vocal breathiness detected. Low HNR maps to potential glottal insufficiency often linked to thyroid masses or autoimmune vocal fatigue."
  const ThyroidMediumText: string := "Elevated breathiness detected. May indicate early thyroid pressure on the recurrent laryngeal nerve or autoimmune inflammation."
  const ThyroidLowText: string := "HNR is robust. No acoustic signs of thyroid-related glottal gap."
  const HormonalHighText: string := "Significant microroughness detected exceeding life-stage norms, indicating potential severe hormonal imbalance or pronounced vocal fold atrophy."
  const HormonalMediumText: string := "Mild microroughness detected. May indicate early stages of hormonal vocal changes."
  const HormonalLowText: string := "Vocal roughness is well within normal female ranges for this life stage."

  /** The explanation of each thyroid level. */
  function ThyroidExplanation(level: Risk): (e: string)
    ensures level == High <==> e == ThyroidHighText
    ensures level == Medium <==> e == ThyroidMediumText
    ensures level == Low <==> e == ThyroidLowText
  {
    match level
    case High => ThyroidHighText
    case Medium => ThyroidMediumText
    case Low => ThyroidLowText
  }

  /** The explanation of each hormonal level. */
  function HormonalExplanation(level: Risk): (e: string)
    ensures level == High <==> e == HormonalHighText
    ensures level == Medium <==> e == HormonalMediumText
    ensures level == Low <==> e == HormonalLowText
  {
    match level
    case High => HormonalHighText
    case Medium => HormonalMediumText
    case Low => HormonalLowText
  }

  /** The three thyroid texts differ, so the explanation determines the level. */
  lemma ThyroidExplanationInjective(l1: Risk, l2: Risk)
    ensures ThyroidExplanation(l1) == ThyroidExplanation(l2) <==> l1 == l2
  {
    if l1 != l2 {
      assert |ThyroidExplanation(l1)| != |ThyroidExplanation(l2)|;
    }
  }

  /** The three hormonal texts differ, so the explanation determines the level. */
  lemma HormonalExplanationInjective(l1: Risk, l2: Risk)
    ensures HormonalExplanation(l1) == HormonalExplanation(l2) <==> l1 == l2
  {
    if l1 != l2 {
      assert |HormonalExplanation(l1)| != |HormonalExplanation(l2)|;
    }
  }

  /** Scribe note templates; numbers and the life stage name go between the pieces. */
  const ScribeOpening: string := "\n\n[Women's Health Metrics - "
  const ScribeClosing: string := " Profile]\n"
  const NoteCriticalOpening: string := "HNR is critically low ("
  const NoteCriticalClosing: string := " dB). Severe glottal gap indicated, highly consistent with thyroid nodule presentation or Hashimoto's vocal fatigue. Immediate endocrine evaluation recommended. "
  const NoteSubOptimalOpening: string := "HNR is sub-optimal ("
  const NoteSubOptimalClosing: string := " dB). Mild breathiness detected, warranting monitoring for thyroid enlargement or hormonal vocal strain. "
  const NoteRobustOpening: string := "HNR ("
  const NoteRobustClosing: string := " dB) indicates excellent glottal closure with no signs of thyroid-related breathiness. "
  const NoteRoughnessOpening: string := "Vocal roughness (Jitter: "
  const NoteRoughnessMiddle: string := "%, Shimmer: "
  const NoteSevereLead: string := "%) exceeds the "
  const NoteSevereTail: string := " physiological baseline. This indicates profound vocal fold structural changes, likely tied to severe estrogen deficiency or severe edema. "
  const NoteMarginalLead: string := "%) is marginally elevated for the "
  const NoteMarginalTail: string := " profile. Suggests minor mucosal changes likely due to hormonal fluctuations. "
  const NoteStableText: string := "Patient shows highly stable vocal resonance with no signs of hormonal-related vocal strain or atrophy. "

  /** The scribe note header for a life stage name. */
  function ScribeHeader(lifeStage: string): (h: string)
    ensures |h| == |ScribeOpening| + |lifeStage| + |ScribeClosing|
    ensures ScribeOpening <= h
    ensures h[|ScribeOpening|..|ScribeOpening| + |lifeStage|] == lifeStage
    ensures h[|ScribeOpening| + |lifeStage|..] == " Profile]\n"
  {
    ScribeOpening + lifeStage + ScribeClosing
  }

  /** The scribe note of the thyroid rule, embedding HNR to one decimal. */
  function ThyroidNote(level: Risk, hnr: real): (t: Text)
    ensures Num(hnr, 1) in t
  {
    match level
    case High =>
      [Lit(NoteCriticalOpening), Num(hnr, 1),
       Lit(NoteCriticalClosing)]
    case Medium =>
      [Lit(NoteSubOptimalOpening), Num(hnr, 1),
       Lit(NoteSubOptimalClosing)]
    case Low =>
      [Lit(NoteRobustOpening), Num(hnr, 1),
       Lit(NoteRobustClosing)]
  }

  /** The scribe note of the hormonal rule; the elevated levels embed jitter
      and shimmer to two decimals and name the life stage. */
  function HormonalNote(level: Risk, jitter: real, shimmer: real, lifeStage: string): (t: Text)
    ensures level != Low <==> Num(jitter, 2) in t
    ensures level != Low <==> Num(shimmer, 2) in t
  {
    match level
    case High =>
      [Lit(NoteRoughnessOpening), Num(jitter, 2), Lit(NoteRoughnessMiddle), Num(shimmer, 2),
       Lit(NoteSevereLead + lifeStage + NoteSevereTail)]
    case Medium =>
      [Lit(NoteRoughnessOpening), Num(jitter, 2), Lit(NoteRoughnessMiddle), Num(shimmer, 2),
       Lit(NoteMarginalLead + lifeStage + NoteMarginalTail)]
    case Low =>
      [Lit(NoteStableText)]
  }

  // ---------------------------------------------------------------------
  // analyze_womens_health
  // ---------------------------------------------------------------------

  /** The unit draws consumed by one call: the thyroid confidence, then the
      hormonal confidence. */
  datatype WomensDraws = WomensDraws(thyroid: real, hormonal: real)

  predicate ValidWomensDraws(d: WomensDraws)
  {
    IsUnitDraw(d.thyroid) && IsUnitDraw(d.hormonal)
  }

  /** The result dictionary: per category, per condition, the finding and its
      explanation, plus the scribe note. */
  datatype WomensHealthReport = WomensHealthReport(
    risks: map<string, map<string, Finding>>,
    explanations: map<string, map<string, string>>,
    scribe: Text)

  function AnalyzeWomensHealth(features: FeatureMap, lifeStage: string, draws: WomensDraws)
    : (r: WomensHealthReport)
    requires ValidWomensDraws(draws)
    ensures r.risks.Keys == Categories && r.explanations.Keys == Categories
    ensures r.risks[ThyroidCategory].Keys == {ThyroidCondition}
    ensures r.explanations[ThyroidCategory].Keys == {ThyroidCondition}
    ensures r.risks[HormonalCategory].Keys == {HormonalCondition}
    ensures r.explanations[HormonalCategory].Keys == {HormonalCondition}
    ensures var b := ReadBiomarkers(features);
      var t := StageThresholds(lifeStage);
      && r.risks[ThyroidCategory][ThyroidCondition].risk == ThyroidRisk(b.hnr, t)
      && r.risks[HormonalCategory][HormonalCondition].risk == HormonalRisk(b.jitter, b.shimmer, t)
    ensures 55.0 <= r.risks[ThyroidCategory][ThyroidCondition].confidence < 98.0
    ensures 55.0 <= r.risks[HormonalCategory][HormonalCondition].confidence < 98.0
    ensures var b := ReadBiomarkers(features);
      var t := StageThresholds(lifeStage);
      && r.risks[ThyroidCategory][ThyroidCondition].confidence
           == ThyroidConfidence(ThyroidRisk(b.hnr, t), draws.thyroid)
      && r.risks[HormonalCategory][HormonalCondition].confidence
           == HormonalConfidence(HormonalRisk(b.jitter, b.shimmer, t), draws.hormonal)
    ensures r.explanations[ThyroidCategory][ThyroidCondition]
      == ThyroidExplanation(r.risks[ThyroidCategory][ThyroidCondition].risk)
    ensures r.explanations[HormonalCategory][HormonalCondition]
      == HormonalExplanation(r.risks[HormonalCategory][HormonalCondition].risk)
    ensures |r.scribe| > 0 && r.scribe[0] == Lit(ScribeHeader(lifeStage))
    ensures var b := ReadBiomarkers(features);
      var t := StageThresholds(lifeStage);
      r.scribe == [Lit(ScribeHeader(lifeStage))]
        + ThyroidNote(ThyroidRisk(b.hnr, t), b.hnr)
        + HormonalNote(HormonalRisk(b.jitter, b.shimmer, t), b.jitter, b.shimmer, lifeStage)
  {
    var b := ReadBiomarkers(features);
    var t := StageThresholds(lifeStage);
    var thyroid := ThyroidRisk(b.hnr, t);
    var hormonal := HormonalRisk(b.jitter, b.shimmer, t);
    WomensHealthReport(
      map[ThyroidCategory := map[ThyroidCondition := Finding(thyroid, ThyroidConfidence(thyroid, draws.thyroid))],
          HormonalCategory := map[HormonalCondition := Finding(hormonal, HormonalConfidence(hormonal, draws.hormonal))]],
      map[ThyroidCategory := map[ThyroidCondition := ThyroidExplanation(thyroid)],
          HormonalCategory := map[HormonalCondition := HormonalExplanation(hormonal)]],
      [Lit(ScribeHeader(lifeStage))] + ThyroidNote(thyroid, b.hnr)
        + HormonalNote(hormonal, b.jitter, b.shimmer, lifeStage))
  }

  // ---------------------------------------------------------------------
  // Properties
  // ---------------------------------------------------------------------

  /** Relaxing the HNR threshold never raises the thyroid level. */
  lemma ThyroidMonotone(hnr: real, relaxed: Thresholds, strict: Thresholds)
    requires Relaxes(relaxed, strict)
    ensures AtMost(ThyroidRisk(hnr, relaxed), ThyroidRisk(hnr, strict))
  {
  }

  /** Relaxing the jitter and shimmer thresholds never raises the hormonal level. */
  lemma HormonalMonotone(jitter: real, shimmer: real, relaxed: Thresholds, strict: Thresholds)
    requires Relaxes(relaxed, strict)
    ensures AtMost(HormonalRisk(jitter, shimmer, relaxed), HormonalRisk(jitter, shimmer, strict))
  {
  }

  /** Menopause relaxes Pregnancy, which relaxes General. */
  lemma StagesRelax()
    ensures Relaxes(StageThresholds("Pregnancy"), StageThresholds("General"))
    ensures Relaxes(StageThresholds("Menopause"), StageThresholds("Pregnancy"))
  {
  }

  /** For identical features, Pregnancy and Menopause never report a higher
      thyroid or hormonal level than General, nor Menopause than Pregnancy. */
  lemma LifeStageMonotone(features: FeatureMap, d1: WomensDraws, d2: WomensDraws, d3: WomensDraws)
    requires ValidWomensDraws(d1) && ValidWomensDraws(d2) && ValidWomensDraws(d3)
    ensures var general := AnalyzeWomensHealth(features, "General", d1);
      var pregnancy := AnalyzeWomensHealth(features, "Pregnancy", d2);
      var menopause := AnalyzeWomensHealth(features, "Menopause", d3);
      && AtMost(pregnancy.risks[ThyroidCategory][ThyroidCondition].risk,
                general.risks[ThyroidCategory][ThyroidCondition].risk)
      && AtMost(menopause.risks[ThyroidCategory][ThyroidCondition].risk,
                pregnancy.risks[ThyroidCategory][ThyroidCondition].risk)
      && AtMost(pregnancy.risks[HormonalCategory][HormonalCondition].risk,
                general.risks[HormonalCategory][HormonalCondition].risk)
      && AtMost(menopause.risks[HormonalCategory][HormonalCondition].risk,
                pregnancy.risks[HormonalCategory][HormonalCondition].risk)
  {
    var b := ReadBiomarkers(features);
    StagesRelax();
    var g, p, m := StageThresholds("General"), StageThresholds("Pregnancy"), StageThresholds("Menopause");
    ThyroidMonotone(b.hnr, p, g);
    ThyroidMonotone(b.hnr, m, p);
    HormonalMonotone(b.jitter, b.shimmer, p, g);
    HormonalMonotone(b.jitter, b.shimmer, m, p);
  }

  /** The default life stage name keeps the baseline thresholds. */
  lemma DefaultStageIsBaseline()
    ensures StageOf(DefaultLifeStage) == General
    ensures StageThresholds(DefaultLifeStage) == Baseline
  {
  }

  /** With HNR missing (read as 0.0), the thyroid level is High under every
      life stage, since every stage's severe bound is at least 11.0. */
  lemma MissingHnrIsHighRisk(features: FeatureMap, lifeStage: string, draws: WomensDraws)
    requires ValidWomensDraws(draws) && HnrKey !in features
    ensures AnalyzeWomensHealth(features, lifeStage, draws).risks[ThyroidCategory][ThyroidCondition].risk == High
  {
  }
}
