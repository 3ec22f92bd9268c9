/**
 * The risk combiner `_combine_risk_assessments` (utils/crisis_detection.py,
 * lines 73-97): the higher of the keyword tier and the normalised classifier
 * tier, an escalation to critical on an explicit critical or severe signal,
 * and the two intervention flags derived from the final tier.
 */
module RiskCombiner {
  import opened Wrappers
  import opened RiskLevels
  import opened KeywordScorer

  /**
   * The classifier's result dictionary: `risk_level` (absent when `None`),
   * `keywords_detected` and `analysis`.
   */
  datatype AiAnalysis = AiAnalysis(riskLevel: Option<string>, keywordsDetected: seq<string>, analysis: string)

  /** The combined verdict dictionary. */
  datatype Verdict = Verdict(
    finalRiskLevel: string,
    keywordAnalysis: KeywordAssessment,
    aiAnalysis: AiAnalysis,
    requiresIntervention: bool,
    immediateCrisis: bool)

  /** The tier of the keyword assessment's tag (`k_idx`). */
  function KeywordTier(k: KeywordAssessment): Tier {
    LevelTier(k.riskLevel)
  }

  /**
   * The escalation condition: the keyword tag is exactly `critical`, or the
   * raw classifier label lower-cases to `critical` or `severe`. It holds
   * exactly when one of the two normalised tiers is critical.
   */
  predicate Escalates(k: KeywordAssessment, ai: AiAnalysis)
    ensures Escalates(k, ai) <==> KeywordTier(k) == Critical || NormalizeAiLevel(ai.riskLevel) == Critical
  {
    k.riskLevel == "critical" || Lower(RawLabel(ai.riskLevel)) in {"critical", "severe"}
  }

  /**
   * `_combine_risk_assessments`. The final tier is at least each source's
   * tier and, unless the escalation fires, exactly the higher of the two; an
   * escalation forces critical. Intervention is required exactly at high and
   * critical; an immediate crisis is exactly critical. Both source
   * assessments are kept unchanged.
   */
  function CombineRiskAssessments(k: KeywordAssessment, ai: AiAnalysis): (v: Verdict)
    ensures v.finalRiskLevel in Order
    ensures LevelTier(v.finalRiskLevel).Rank() >= KeywordTier(k).Rank()
    ensures LevelTier(v.finalRiskLevel).Rank() >= NormalizeAiLevel(ai.riskLevel).Rank()
    ensures !Escalates(k, ai) ==> LevelTier(v.finalRiskLevel) == MaxTier(KeywordTier(k), NormalizeAiLevel(ai.riskLevel))
    ensures Escalates(k, ai) ==> v.finalRiskLevel == "critical"
    ensures v.requiresIntervention <==> LevelTier(v.finalRiskLevel) in {High, Critical}
    ensures v.immediateCrisis <==> LevelTier(v.finalRiskLevel) == Critical
    ensures v.keywordAnalysis == k && v.aiAnalysis == ai
  {
    var aIdx := AiIndex(ai.riskLevel);
    var kIdx := OrderIndex(k.riskLevel);
    var combined := Order[if aIdx >= kIdx then aIdx else kIdx];
    var level := if Escalates(k, ai) then "critical" else combined;
    Verdict(level, k, ai, level in ["high", "critical"], level == "critical")
  }

  /**
   * The escalation never changes the outcome: whenever it fires, the higher
   * of the two normalised tiers is already critical. The final tier is
   * always exactly that maximum, so the override is defensive redundancy.
   */
  lemma EscalationIsRedundant(k: KeywordAssessment, ai: AiAnalysis)
    ensures LevelTier(CombineRiskAssessments(k, ai).finalRiskLevel)
         == MaxTier(KeywordTier(k), NormalizeAiLevel(ai.riskLevel))
  {
    if Escalates(k, ai) {
      if k.riskLevel != "critical" {
        assert NormalizeAiLevel(ai.riskLevel) == Critical;
      }
    }
  }

  /** An immediate crisis always requires intervention. */
  lemma ImmediateImpliesRequires(k: KeywordAssessment, ai: AiAnalysis)
    ensures CombineRiskAssessments(k, ai).immediateCrisis ==> CombineRiskAssessments(k, ai).requiresIntervention
  {
  }

  /** A classifier label `Severe` escalates a low keyword assessment to critical. */
  lemma SevereEscalatesLowKeywords(k: KeywordAssessment, keywords: seq<string>, analysis: string)
    requires k.riskLevel == "low"
    ensures CombineRiskAssessments(k, AiAnalysis(Some("Severe"), keywords, analysis)).finalRiskLevel == "critical"
    ensures CombineRiskAssessments(k, AiAnalysis(Some("Severe"), keywords, analysis)).immediateCrisis
  {
    assert Lower("Severe") == "severe";
  }

  /**
   * The verdict depends on the two sources only through their tiers, and the
   * higher one wins whichever side it comes from: two pairs of sources whose
   * tiers are swapped give the same final tier.
   */
  lemma CombineIsSymmetric(k1: KeywordAssessment, ai1: AiAnalysis, k2: KeywordAssessment, ai2: AiAnalysis)
    requires KeywordTier(k1) == NormalizeAiLevel(ai2.riskLevel)
    requires NormalizeAiLevel(ai1.riskLevel) == KeywordTier(k2)
    ensures CombineRiskAssessments(k1, ai1).finalRiskLevel == CombineRiskAssessments(k2, ai2).finalRiskLevel
  {
    EscalationIsRedundant(k1, ai1);
    EscalationIsRedundant(k2, ai2);
  }
}
