# Nuros rule-based risk evaluator, in Dafny

This project models the rule-based core of the Nuros voice-biomarker demo. The
core is three pure pieces of logic:

- `calculate_risk` (module `RiskScoring`, `risk_scoring.dfy`) reads jitter %, shimmer %, HNR (dB) and
  the F0 standard deviation (Hz) out of the feature dictionary. It applies five independent threshold
  rules, one each for Parkinson's Disease, Alzheimer's / Cognitive Decline, Clinical Depression,
  Huntington's Disease and Chronic Anxiety. Each rule yields a Low/Medium/High level, a confidence drawn
  from that branch's band, and an explanation text. It also computes a stability score: 100 less a
  subset of four penalties (15, 15, 15, 10), plus noise in [-5, 5), clamped to [0, 100].
- `analyze_womens_health` (module `WomensHealth`, `womens_health.dfy`) shifts three thresholds
  (jitter 1.04, HNR 16.0, shimmer 3.8) additively by life stage: Pregnancy adds (+0.2, -1.0, +0.5),
  Menopause adds (+0.3, -2.0, +0.8), and any other name keeps General. It then applies a three-level
  thyroid rule on HNR and a three-level hormonal rule on jitter or shimmer, and writes a scribe note.
- `generate_secure_key` (module `SecureKey`, `security_utils.dfy`) formats an access key as `NR-`,
  four decimal digits, `-` and one uppercase letter. `ParseKey` is its inverse.

Shared vocabulary lives in module `Findings` (`findings.dfy`): the feature dictionary, the risk scale
and findings, templated text, and the uniform draws.

Modelling choices:

- Randomness is a parameter. Each `random.uniform(lo, hi)` is `lo + (hi - lo) * u`, with a
  caller-supplied unit draw `u` in [0, 1). The `Draws` and `WomensDraws` records carry one draw per call,
  in the source's order. `random.choices`/`random.choice` in the key generator become indices into
  `string.digits` and `string.ascii_uppercase` (`KeyDraw`). This makes "the levels do not depend on the
  draws" a provable statement.
- Features are `real`s in a `map<string, real>`.
- Text that embeds a formatted number is a sequence of `Piece`s: literal text, or `Num(value, decimals)`
  for a `:.2f`/`:.1f` field. The literal pieces are the source's own wording.
- The five diseases of `calculate_risk` are the datatype `Disease`. `Disease.Name()` gives the
  dictionary key the source uses for each.
- The base score has exactly four penalties: jitter, HNR, F0 standard deviation and shimmer
  (risk_scoring.py:64-67).
- A missing feature reads as 0.0, as `dict.get(key, 0.0)` does (risk_scoring.py:7-10,
  womens_health.py:8-10); no error is raised.
- The key generator's docstring calls the key "8-character". The key the code builds has 9 characters,
  and the model follows the code.

## Model

| member | source | states |
|---|---|---|
| Findings.Uniform | risk_scoring.py:17 | `random.uniform(lo, hi)` from a unit draw lands in [lo, hi) for every draw in [0, 1) |
| Findings.ReadBiomarkers | risk_scoring.py:7-10 | each biomarker is the dictionary's value when the key is present and 0.0 when it is missing |
| RiskScoring.ParkinsonRisk | risk_scoring.py:16-24 | High iff jitter > 1.04, Medium iff 0.8 < jitter <= 1.04, Low iff jitter <= 0.8; jitter exactly 1.04 is Medium |
| RiskScoring.AlzheimerRisk | risk_scoring.py:28-33 | High iff HNR < 15.0, otherwise Low; never Medium |
| RiskScoring.DepressionRisk | risk_scoring.py:37-42 | High iff 0 < f0_std < 10.0, so f0_std = 0 (no voiced frames) is Low; never Medium |
| RiskScoring.HuntingtonRisk | risk_scoring.py:46-51 | Medium iff shimmer > 3.81, otherwise Low; never High |
| RiskScoring.AnxietyRisk | risk_scoring.py:55-60 | Medium iff f0_std > 40.0 and jitter > 0.8, otherwise Low; never High |
| RiskScoring.ConfidenceBand | risk_scoring.py:16-60 | every branch's confidence band is a non-empty range inside [0, 100] |
| RiskScoring.Explanation | risk_scoring.py:16-60 | each explanation opens with literal text; the Parkinson's, Alzheimer's and Depression texts embed the measured jitter (2 decimals), HNR and f0_std (1 decimal); Huntington's embeds shimmer exactly when it is Medium; the Anxiety text embeds no number |
| RiskScoring.Assess | risk_scoring.py:16-60 | a disease's finding has its rule's level, a confidence inside the band of the branch taken (hence in [0, 100)), and that branch's explanation |
| RiskScoring.Deducted | risk_scoring.py:63-67 | the applied penalties never exceed the table's total weight; none applied deducts 0, all applied deduct the total |
| RiskScoring.PenaltyTableWeight | risk_scoring.py:63-67 | the four penalties weigh 55 in all |
| RiskScoring.BaseScore | risk_scoring.py:63-67 | the base score lies in [45, 100] |
| RiskScoring.BaseScoreIsConditionalSubtraction | risk_scoring.py:63-67 | the penalty-table score equals 100 less 15 if jitter > 1.04, 15 if HNR < 15.0, 15 if f0_std < 10.0 and 10 if shimmer > 3.81 |
| RiskScoring.Clamp | risk_scoring.py:68 | the clamp lands in [0, 100], leaves values already in [0, 100] unchanged, sends every value above 100 to 100 and every value below 0 to 0 |
| RiskScoring.StabilityScore | risk_scoring.py:68 | for any noise draw the score lies in [0, 100]; for a base score in [45, 100] it lies in [40, 100] and within 5 of the base score |
| RiskScoring.CalculateRisk | risk_scoring.py:7-74 | the result has exactly the five disease keys, and the explanations have the same keys; each level is its disease's rule on the features; every confidence lies in the band of its disease's branch (`ConfidenceBand`), hence in [0, 100); every explanation is its disease's branch text on the measured biomarkers (`Explanation`); the stability score is in [40, 100] and within 5 of the base score of the features read from the dictionary |
| RiskScoring.DiseaseNamesDistinct | risk_scoring.py:16-60 | two diseases have the same display name exactly when they are the same disease |
| RiskScoring.DiseaseKeys | risk_scoring.py:16-60 | the result's keys name exactly the five strings "Parkinson's Disease", "Alzheimer's / Cognitive Decline", "Clinical Depression", "Huntington's Disease" and "Chronic Anxiety" |
| RiskScoring.ProsodyPenaltyWithoutDepression | risk_scoring.py:37-67 | with f0_std = 0 depression is Low, yet the low-prosody penalty is still taken (base score at most 85) |
| RiskScoring.LevelsIndependentOfDraws | risk_scoring.py:16-60 | two calls on the same features with different draws give identical levels and identical explanations |
| RiskScoring.EmptyFeatures | risk_scoring.py:7-68 | an empty feature dictionary gives Alzheimer's High, the other four Low, and a score in [65, 75) around the base score 70 |
| RiskScoring.JitterBoundary | risk_scoring.py:16-64 | jitter exactly 1.04 gives Parkinson's Medium and takes no tremor penalty: the base score is the same as with jitter 0 |
| WomensHealth.StageOf | womens_health.py:18-27 | only the exact names "Pregnancy" and "Menopause" select those stages; every other name is General |
| WomensHealth.StageThresholds | womens_health.py:13-27 | the thresholds (jitter, HNR, shimmer) are (1.04, 16.0, 3.8) for General and unknown names, (1.24, 15.0, 4.3) for Pregnancy and (1.34, 14.0, 4.6) for Menopause |
| WomensHealth.ThyroidRisk | womens_health.py:38-55 | High iff HNR < threshold - 3.0, Medium iff threshold - 3.0 <= HNR < threshold, Low iff HNR >= threshold |
| WomensHealth.HormonalRisk | womens_health.py:62-79 | High iff jitter or shimmer exceeds 1.5 times its threshold; Medium iff not High and either exceeds its threshold; Low otherwise |
| WomensHealth.ThyroidConfidence | womens_health.py:38-55 | the thyroid confidence is in [85, 94) for High, [60, 75) for Medium and [90, 98) for Low |
| WomensHealth.HormonalConfidence | womens_health.py:62-79 | the hormonal confidence is in [80, 92) for High, [55, 70) for Medium and [88, 96) for Low |
| WomensHealth.DefaultStageIsBaseline | womens_health.py:3-27 | the default life stage "General" selects the General stage and keeps the baseline thresholds unshifted |
| WomensHealth.ScribeHeader | womens_health.py:31 | the header starts with the literal opening "\n\n[Women's Health Metrics - ", followed by the life stage name verbatim and the closing " Profile]\n" |
| WomensHealth.ThyroidExplanation | womens_health.py:42-54 | each thyroid level has its own explanation: High gives the "Severe vocal breathiness" text, Medium the "Elevated breathiness" text, Low the "HNR is robust" text, and each text belongs to one level only |
| WomensHealth.ThyroidExplanationInjective | womens_health.py:42-54 | two thyroid explanations are equal exactly when their levels are |
| WomensHealth.HormonalExplanation | womens_health.py:66-78 | each hormonal level has its own explanation: High gives the "Significant microroughness" text, Medium the "Mild microroughness" text, Low the "Vocal roughness is well within" text, and each text belongs to one level only |
| WomensHealth.HormonalExplanationInjective | womens_health.py:66-78 | two hormonal explanations are equal exactly when their levels are |
| WomensHealth.ThyroidNote | womens_health.py:38-55 | every thyroid note embeds HNR to one decimal |
| WomensHealth.HormonalNote | womens_health.py:62-79 | the note embeds jitter and shimmer to two decimals exactly when the level is not Low |
| WomensHealth.AnalyzeWomensHealth | womens_health.py:3-85 | the result has exactly the two categories, each with exactly its one condition, and the explanations mirror those keys; the levels are the two rules under the life stage's thresholds; each confidence is drawn from its level's band (`ThyroidConfidence`, `HormonalConfidence`), hence in [55, 98); each explanation is its level's text (`ThyroidExplanation`, `HormonalExplanation`); the scribe note is the header followed by the thyroid note on HNR and the hormonal note on jitter, shimmer and the life stage |
| WomensHealth.ThyroidMonotone | womens_health.py:38-55 | relaxing the HNR threshold never raises the thyroid level |
| WomensHealth.HormonalMonotone | womens_health.py:62-79 | raising the jitter and shimmer thresholds never raises the hormonal level |
| WomensHealth.StagesRelax | womens_health.py:18-27 | Pregnancy's thresholds relax General's, and Menopause's relax Pregnancy's |
| WomensHealth.LifeStageMonotone | womens_health.py:18-79 | for identical features, Pregnancy and Menopause never report a higher thyroid or hormonal level than General, and Menopause never one higher than Pregnancy |
| WomensHealth.MissingHnrIsHighRisk | womens_health.py:10-38 | with HNR missing (read as 0.0) the thyroid level is High under every life stage |
| SecureKey.JoinDigits | security_utils.py:6 | joining the chosen digits gives one decimal digit per choice, namely the chosen one |
| SecureKey.GenerateSecureKey | security_utils.py:5-8 | the key has length 9, starts with "NR-", has the four chosen decimal digits at indices 3-6, '-' at index 7 and the chosen uppercase letter at index 8 |
| SecureKey.DigitValues | security_utils.py:6 | reading back a run of decimal digits gives their values, each below 10 |
| SecureKey.ParseKey | security_utils.py:8 | a string parses exactly when it has the key's shape, and what it yields is a valid set of choices |
| SecureKey.ParseGenerated | security_utils.py:6-8 | parsing a generated key recovers the choices it was made from |
| SecureKey.GenerateParsed | security_utils.py:6-8 | regenerating from a parsed key gives back the same string |
| SecureKey.GenerateInjective | security_utils.py:6-8 | different choices give different keys |
| SecureKey.DigitAt | security_utils.py:6 | the k-th character of `string.digits` is k places after '0' |
| SecureKey.LetterAt | security_utils.py:7 | the k-th character of `string.ascii_uppercase` is k places after 'A' |

## Left out

- `round(score, 1)` in `calculate_risk` is not modelled. The model's stability score is the unrounded
  clamped value. Rounding to one decimal keeps it inside [0, 100], but the half-open upper bounds
  (`< base + 5` in RiskScoring.StabilityScore and RiskScoring.CalculateRisk, `< 75` in
  RiskScoring.EmptyFeatures) hold only before rounding: 74.96 rounds to 75.0.
- Floating point is modelled as exact real arithmetic. The model does not capture binary rounding.
  This changes a level at the hormonal rule's 1.5-times bounds, where the double products fall just
  below the exact ones: `3.8 * 1.5` is 5.699999999999999, `1.24 * 1.5` is 1.8599999999999999,
  `4.3 * 1.5` is 6.449999999999999 and `4.6 * 1.5` is 6.8999999999999995. So the source reports High,
  and WomensHealth.HormonalRisk Medium, for shimmer exactly 5.7 under General, jitter 1.86 or shimmer
  6.45 under Pregnancy, and shimmer 6.9 under Menopause. NaN features are not modelled; the
  extractor replaces NaN jitter, shimmer and HNR before the evaluator sees them.
- Number-to-text formatting (`:.2f`, `:.1f`) is kept abstract as `Num(value, decimals)`. No rendered
  digits are modelled.
- The random generator itself is not modelled. Unit draws and choice indices are inputs.
- Non-numeric feature entries (`mfcc_mean`) are outside the model, because the evaluators never read
  them.
- WomensHealth.AnalyzeWomensHealth: takes the life stage as a string. Python would also accept any
  other value, compare it with "Pregnancy" and "Menopause" (womens_health.py:18, 23) and write it into
  the scribe note's header and its hormonal sentences (womens_health.py:31, 67, 73). Neither app.py
  nor report_agent.py calls `analyze_womens_health`, so no visible caller passes a non-string.
- RiskScoring.CalculateRisk: keys the result by the `Disease` enumeration rather than by the display
  strings; `Disease.Name()` holds the strings, which are distinct (RiskScoring.DiseaseNamesDistinct).
- RiskScoring.CalculateRisk: returns a map, so the insertion order of the Python dictionary is lost.
  The display loops (app.py:196, report_agent.py:69) list the diseases in that order, from Parkinson's
  Disease to Chronic Anxiety; `AllDiseases` is a set and does not carry it.
- SecureKey.GenerateSecureKey: the docstring calls the key "unique" (security_utils.py:5). The model
  states uniqueness only as SecureKey.GenerateInjective: different choices give different keys. The
  same choices give the same key, and there are only 10^4 * 26 = 260,000 keys, so two independent
  draws can collide.
- Audio feature extraction (`audio_analysis.py`) calls librosa and Praat, so it is a foreign library
  call and is not part of this model.
- The Streamlit UI and its score-band messages (`app.py`), email transport (`mailer.py`), the mock login
  and 2FA flow (`auth.py`), PDF layout and encryption (`report_agent.py`) and the embedded widget
  (`nuros_embed.js`) are presentation or I/O, and are not part of this model.
