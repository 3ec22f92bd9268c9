/**
 * The detector `CrisisDetector` (utils/crisis_detection.py): construction,
 * the analysis pipeline with its classifier fallbacks, the intervention
 * choice and the follow-up text.
 */
module CrisisDetection {
  import opened Wrappers
  import opened RiskLevels
  import opened WordMatch
  import opened KeywordScorer
  import opened RiskCombiner

  /**
   * The detector's fields, set once at construction and never changed:
   * whether a classifier client is present, the lexicon and the weights.
   */
  datatype CrisisDetector = CrisisDetector(hasClient: bool, crisisKeywords: Lexicon, severityWeights: map<string, int>)

  /**
   * `__init__`: a client stored in the session is used when there is one;
   * otherwise a new client is built, and a failure to build it (the client
   * raises when no API key is configured) leaves the detector without one.
   */
  function NewCrisisDetector(sessionHasClient: bool, clientConstructs: bool, crisisKeywords: Lexicon, severityWeights: map<string, int>)
    : (d: CrisisDetector)
    ensures d.hasClient <==> sessionHasClient || clientConstructs
    ensures d.crisisKeywords == crisisKeywords && d.severityWeights == severityWeights
  {
    CrisisDetector(sessionHasClient || clientConstructs, crisisKeywords, severityWeights)
  }

  /** What the classifier call does when a client is present. */
  datatype ClassifierCall = Raised | Returned(analysis: AiAnalysis)

  /** The assessment substituted when the detector has no client. */
  const ClientUnavailableAnalysis: AiAnalysis := AiAnalysis(Some("LOW"), [], "AI client unavailable.")

  /** The assessment substituted when the classifier call raises. */
  const AiErrorAnalysis: AiAnalysis := AiAnalysis(Some("MODERATE"), [], "AI error")

  /**
   * What the client's own `analyze_text_for_crisis` returns when the reply is
   * missing or is not valid JSON (utils/gemini_client.py, lines 150-160).
   */
  const ParseFailureAnalysis: AiAnalysis := AiAnalysis(Some("MODERATE"), [], "Could not parse AI JSON.")

  /**
   * `analyze_text_for_crisis`: the keyword assessment, the classifier's
   * assessment or its fallback, and their combination. A raising classifier
   * is caught: the method always returns a verdict.
   */
  method AnalyzeTextForCrisis(d: CrisisDetector, text: string, call: ClassifierCall) returns (v: Verdict)
    ensures v.keywordAnalysis == KeywordAssessmentOf(d.crisisKeywords, d.severityWeights, text)
    ensures !d.hasClient ==> v.aiAnalysis == ClientUnavailableAnalysis
    ensures d.hasClient && call.Raised? ==> v.aiAnalysis == AiErrorAnalysis
    ensures d.hasClient && call.Returned? ==> v.aiAnalysis == call.analysis
    ensures v == CombineRiskAssessments(v.keywordAnalysis, v.aiAnalysis)
  {
    var keywordRisk := KeywordBasedDetection(d.crisisKeywords, d.severityWeights, text);
    var aiAnalysis: AiAnalysis;
    if d.hasClient {
      match call
      case Raised => aiAnalysis := AiErrorAnalysis;
      case Returned(a) => aiAnalysis := a;
    } else {
      aiAnalysis := ClientUnavailableAnalysis;
    }
    v := CombineRiskAssessments(keywordRisk, aiAnalysis);
  }

  /** The fallback tiers: low without a client, moderate on any classifier failure. */
  lemma FallbackTiers()
    ensures NormalizeAiLevel(ClientUnavailableAnalysis.riskLevel) == Low
    ensures NormalizeAiLevel(AiErrorAnalysis.riskLevel) == Moderate
    ensures NormalizeAiLevel(ParseFailureAnalysis.riskLevel) == Moderate
  {
    assert Lower("LOW") == "low";
    assert Lower("MODERATE") == "moderate";
  }

  /**
   * Without a client the verdict is the keyword assessment's alone: the low
   * fallback never changes the final tier.
   */
  lemma UnavailableClassifierIsKeywordOnly(k: KeywordAssessment)
    ensures LevelTier(CombineRiskAssessments(k, ClientUnavailableAnalysis).finalRiskLevel) == KeywordTier(k)
  {
    FallbackTiers();
  }

  /**
   * A failing classifier (a raised call, an empty reply or an unparseable
   * one) never lets the final tier fall below moderate.
   */
  lemma ClassifierFailureIsAtLeastModerate(k: KeywordAssessment, ai: AiAnalysis)
    requires ai == AiErrorAnalysis || ai == ParseFailureAnalysis
    ensures LevelTier(CombineRiskAssessments(k, ai).finalRiskLevel).Rank() >= Moderate.Rank()
  {
    FallbackTiers();
  }

  /**
   * With no client, a keyword score of 6 or more alone gives a high or
   * critical verdict that requires intervention.
   */
  lemma KeywordsAloneRequireIntervention(d: CrisisDetector, text: string)
    requires KeywordAssessmentOf(d.crisisKeywords, d.severityWeights, text).score >= 6
    ensures var v := CombineRiskAssessments(KeywordAssessmentOf(d.crisisKeywords, d.severityWeights, text), ClientUnavailableAnalysis);
      v.finalRiskLevel in {"high", "critical"} && v.requiresIntervention
  {
    UnavailableClassifierIsKeywordOnly(KeywordAssessmentOf(d.crisisKeywords, d.severityWeights, text));
  }

  // ---------------------------------------------------------------------------
  // Intervention policy
  // ---------------------------------------------------------------------------

  /** The resources banner shown (`st.error`, `st.warning` or nothing). */
  datatype Action = NoAction | SupportResources | ImmediateCrisisResources

  /** Whether a data manager is in the session, and how its event log behaves. */
  datatype EventLog = NoDataManager | LogAccepts | LogRaises

  /** The outcome of `trigger_crisis_intervention`: banner, logged event tags and the returned flag. */
  datatype Intervention = Intervention(action: Action, loggedEvents: seq<string>, requiresIntervention: bool)

  /** The tag `log_crisis_event` receives for an action; none for no action. */
  function ActionTag(action: Action): Option<string> {
    match action
    case NoAction => None
    case SupportResources => Some("support")
    case ImmediateCrisisResources => Some("immediate")
  }

  /**
   * The events a resources banner records: its tag when a data manager is
   * present and its log accepts; nothing when it is absent or raises (the
   * exception is swallowed).
   */
  function LoggedEvents(action: Action, log: EventLog): (events: seq<string>)
    ensures |events| <= 1
    ensures |events| == 1 <==> log == LogAccepts && action != NoAction
    ensures |events| == 1 ==> Some(events[0]) == ActionTag(action)
  {
    match ActionTag(action)
    case Some(tag) => if log == LogAccepts then [tag] else []
    case None => []
  }

  /**
   * `trigger_crisis_intervention`: immediate-crisis resources exactly when
   * the verdict is an immediate crisis, otherwise support resources exactly
   * when it requires intervention, otherwise nothing; it returns the
   * verdict's `requires_intervention`, whatever the event log does.
   */
  function TriggerCrisisIntervention(v: Verdict, log: EventLog): (r: Intervention)
    ensures r.action == ImmediateCrisisResources <==> v.immediateCrisis
    ensures r.action == SupportResources <==> !v.immediateCrisis && v.requiresIntervention
    ensures r.action == NoAction <==> !v.immediateCrisis && !v.requiresIntervention
    ensures r.requiresIntervention == v.requiresIntervention
    ensures r.loggedEvents == LoggedEvents(r.action, log)
  {
    var action :=
      if v.immediateCrisis then ImmediateCrisisResources
      else if v.requiresIntervention then SupportResources
      else NoAction;
    Intervention(action, LoggedEvents(action, log), v.requiresIntervention)
  }

  /** A failing or missing event log changes neither the banner nor the returned flag. */
  lemma LogFailureHasNoEffect(v: Verdict, log1: EventLog, log2: EventLog)
    ensures TriggerCrisisIntervention(v, log1).action == TriggerCrisisIntervention(v, log2).action
    ensures TriggerCrisisIntervention(v, log1).requiresIntervention == TriggerCrisisIntervention(v, log2).requiresIntervention
  {
  }

  /**
   * For a combined verdict the action follows the final tier: critical gives
   * the immediate-crisis resources, high the support resources, and moderate
   * or low nothing.
   */
  lemma ActionFollowsTier(k: KeywordAssessment, ai: AiAnalysis, log: EventLog)
    ensures var v := CombineRiskAssessments(k, ai);
      var a := TriggerCrisisIntervention(v, log).action;
      && (a == ImmediateCrisisResources <==> v.finalRiskLevel == "critical")
      && (a == SupportResources <==> v.finalRiskLevel == "high")
      && (a == NoAction <==> v.finalRiskLevel in {"low", "moderate"})
  {
  }

  // ---------------------------------------------------------------------------
  // Follow-up message
  // ---------------------------------------------------------------------------

  const CriticalFollowUp: string := "I'm really concerned about you right now. Please reach out to crisis resources. Would you like grounding exercises?"
  const HighFollowUp: string := "I hear you're struggling — would you like to try some coping strategies together?"
  const ModerateFollowUp: string := "Thanks for sharing. Would you like to work through coping techniques?"
  const DefaultFollowUp: string := "Thank you for sharing. I'm here to listen. What would be most helpful for you?"

  /**
   * `get_crisis_follow_up_message`: the tier-specific text only for the
   * exact lower-case or upper-case tag of critical, high or moderate; the
   * open supportive text for every other string.
   */
  function GetCrisisFollowUpMessage(riskLevel: string): (m: string)
    ensures m == CriticalFollowUp <==> riskLevel in {"critical", "CRITICAL"}
    ensures m == HighFollowUp <==> riskLevel in {"high", "HIGH"}
    ensures m == ModerateFollowUp <==> riskLevel in {"moderate", "MODERATE"}
    ensures m == DefaultFollowUp <==> riskLevel !in {"critical", "CRITICAL", "high", "HIGH", "moderate", "MODERATE"}
  {
    FollowUpTextsDistinct();
    if riskLevel in {"critical", "CRITICAL"} then CriticalFollowUp
    else if riskLevel in {"high", "HIGH"} then HighFollowUp
    else if riskLevel in {"moderate", "MODERATE"} then ModerateFollowUp
    else DefaultFollowUp
  }

  lemma FollowUpTextsDistinct()
    ensures CriticalFollowUp != HighFollowUp && CriticalFollowUp != ModerateFollowUp && CriticalFollowUp != DefaultFollowUp
    ensures HighFollowUp != ModerateFollowUp && HighFollowUp != DefaultFollowUp
    ensures ModerateFollowUp != DefaultFollowUp
  {
    assert |CriticalFollowUp| == 115 && |HighFollowUp| == 81;
    assert |ModerateFollowUp| == 69 && |DefaultFollowUp| == 78;
  }

  /**
   * The follow-up text for a combined verdict's final tag is the text of its
   * tier, low getting the supportive default.
   */
  lemma FollowUpForVerdict(k: KeywordAssessment, ai: AiAnalysis)
    ensures var v := CombineRiskAssessments(k, ai);
      GetCrisisFollowUpMessage(v.finalRiskLevel) ==
        match LevelTier(v.finalRiskLevel)
        case Critical => CriticalFollowUp
        case High => HighFollowUp
        case Moderate => ModerateFollowUp
        case Low => DefaultFollowUp
  {
  }

  /** A mixed-case tag such as `Critical` gets the default text. */
  lemma MixedCaseTagGetsDefault()
    ensures GetCrisisFollowUpMessage("Critical") == DefaultFollowUp
  {
  }

  // ---------------------------------------------------------------------------
  // End to end
  // ---------------------------------------------------------------------------

  const ScenarioLexicon: Lexicon := [
    LexiconEntry("hopelessness", ["hopeless"]),
    LexiconEntry("self_harm", ["hurt myself"])
  ]

  const ScenarioWeights: map<string, int> := map["hopelessness" := 2, "self_harm" := 8]

  const ScenarioText: string := "I feel hopeless and want to hurt myself"

  const ScenarioLowered: string := "i feel hopeless and want to hurt myself"

  lemma ScenarioLowerCase()
    ensures Lower(ScenarioText) == ScenarioLowered
  {
    var t := ScenarioLowered;
    assert forall n :: 0 <= n < |t| ==> Lower(ScenarioText)[n] == t[n];
  }

  lemma ScenarioHopelessMatches()
    ensures OccursAt(ScenarioLowered, "hopeless", 7)
  {
    var t := ScenarioLowered;
    assert t[7..15] == "hopeless" by {
      assert forall n :: 0 <= n < 8 ==> t[7 + n] == "hopeless"[n];
    }
    assert t[6] == ' ' && t[7] == 'h' && t[14] == 's' && t[15] == ' ';
  }

  lemma ScenarioHurtMyselfMatches()
    ensures OccursAt(ScenarioLowered, "hurt myself", 28)
  {
    var t := ScenarioLowered;
    assert t[28..39] == "hurt myself" by {
      assert forall n :: 0 <= n < 11 ==> t[28 + n] == "hurt myself"[n];
    }
    assert t[27] == ' ' && t[28] == 'h' && t[38] == 'f' && |t| == 39;
  }

  lemma ScenarioPhrasesMatch()
    ensures Lower(ScenarioText) == ScenarioLowered
    ensures WholeWordMatch(ScenarioLowered, "hopeless")
    ensures WholeWordMatch(ScenarioLowered, "hurt myself")
  {
    ScenarioLowerCase();
    ScenarioHopelessMatches();
    ScenarioHurtMyselfMatches();
  }

  lemma ScenarioHits()
    ensures KeywordAssessmentOf(ScenarioLexicon, ScenarioWeights, ScenarioText).detectedKeywords
         == [Hit("hopeless", "hopelessness"), Hit("hurt myself", "self_harm")]
  {
    ScenarioPhrasesMatch();
    var lex := ScenarioLexicon;
    var t := ScenarioLowered;
    assert lex[..1][..0] == [];
    assert lex[..1] == [LexiconEntry("hopelessness", ["hopeless"])];
    assert ["hopeless"][..0] == [];
    assert ["hurt myself"][..0] == [];
    assert Hits(lex[..1], t) == [Hit("hopeless", "hopelessness")];
  }

  /**
   * "I feel hopeless and want to hurt myself", with `hopeless` listed under
   * the category `hopelessness` (weight 2) and `hurt myself` under
   * `self_harm` (weight 8), and a classifier that answers LOW: the keywords
   * alone score 10, the verdict is critical, intervention is required and
   * immediate, and the follow-up is the urgent grounding text.
   */
  lemma EndToEndScenario(keywords: seq<string>, analysis: string)
    ensures var k := KeywordAssessmentOf(ScenarioLexicon, ScenarioWeights, ScenarioText);
      var v := CombineRiskAssessments(k, AiAnalysis(Some("LOW"), keywords, analysis));
      && k.score == 10 && k.riskLevel == "critical"
      && v.finalRiskLevel == "critical" && v.requiresIntervention && v.immediateCrisis
      && GetCrisisFollowUpMessage(v.finalRiskLevel) == CriticalFollowUp
  {
    ScenarioHits();
    var hits := [Hit("hopeless", "hopelessness"), Hit("hurt myself", "self_harm")];
    assert hits[..1][..0] == [];
    assert SumWeights(hits, ScenarioWeights) == 10;
  }
}
