# Crisis risk assessment engine — a Dafny model

This project models the crisis detector of a conversational wellness
assistant, the class `CrisisDetector` in `utils/crisis_detection.py`. Every
user message is screened in two independent ways:

- a keyword lexicon is scanned, giving a scored hit list and a tier;
- an external classifier is asked for a tier, and may be absent or fail.

The detector combines the two tiers into a final verdict. That verdict
drives the intervention banner and the follow-up text appended to the
assistant's reply.

The tiers are `low < moderate < high < critical`. The modules follow the
parts of the detector:

- `RiskLevels` (`risk_levels.dfy`): the tiers, ASCII lower-casing, the
  alias table `_CANON_LEVELS` and the normalisation of a classifier label.
  Normalisation is proved total and case-insensitive, with `severe` as an
  alias of critical and every other label (or a missing one) low.
- `WordMatch` (`word_match.dfy`): the `\b phrase \b` search of
  `re.search`. A boundary sits at position i when exactly one of the
  characters at i-1 and i is a word character (ASCII letter, digit or `_`).
  A position outside the text counts as non-word.
- `KeywordScorer` (`keyword_scorer.dfy`): `_keyword_based_detection` as a
  method with two nested loops. It is proved against the specification
  functions `Hits`, `SumWeights` and `ScoreToLevel`, and lemmas about those
  functions cover the rest:
  - which pairs are hit, and in what order;
  - the exact thresholds;
  - the zero score of a text with no match;
  - monotonicity of the score when a phrase is added.
- `RiskCombiner` (`risk_combiner.dfy`): `_combine_risk_assessments`. The
  final tier is the maximum of the two tiers, with the escalation to
  critical. The escalation is proved redundant: whenever it fires, the
  maximum is already critical.
- `CrisisDetection` (`crisis_detection.dfy`): covers
  - construction, and the analysis pipeline with its two fallbacks (no
    client gives LOW, a raising client gives MODERATE);
  - the intervention choice, and the event log, whose failures change
    nothing;
  - the follow-up text, and an end-to-end scenario.

The detector's three fields are set once in `__init__` and never changed,
so the detector is a datatype value. The lexicon (category → phrases, in
dictionary order) and the weights (category → integer, default 1) are
parameters, because the module that defines them is not part of this model.

Three behaviours of the code are worth stating outright:

- **Repeated phrases.** `re.search` tests presence only, so each
  (phrase, category) pair counts once per lexicon listing, however often it
  occurs in the text (`KeywordScorer.PhraseHitsCount`,
  `KeywordScorer.HitsPresenceOnly`).
- **Case.** The text is lower-cased but the phrases are not, so a phrase
  containing an upper-case letter never matches
  (`KeywordScorer.UpperCasePhraseNeverMatches`).
- **Escalation.** On the keyword side only the exact tag `critical`
  escalates; on the classifier side, any raw label that lower-cases to
  `critical` or `severe`.

## Model

| member | source | states |
|---|---|---|
| `RiskLevels.NormalizeAiLevel` | utils/crisis_detection.py:77-82 | a classifier label whose lower-case form is `critical` or `severe` is critical, `high` is high, `moderate` is moderate, and any other label, or a missing one (read as `LOW`), is low |
| `RiskLevels.Lower` | utils/crisis_detection.py:46 | ASCII `str.lower()`: the result has the same length, each character is lower-cased in place, and no upper-case letter is left |
| `RiskLevels.CanonLookup` | utils/crisis_detection.py:78 | the nested `_CANON_LEVELS.get`, read from `CanonLevels` (the table `_CANON_LEVELS` of lines 9-19, entry for entry), always yields one of the four canonical names `LOW`, `MODERATE`, `HIGH`, `CRITICAL` |
| `RiskLevels.CanonInnerLookupNeverDecides` | utils/crisis_detection.py:78 | the inner lookup of the raw label never decides: the result is the table entry for the lower-cased label, or `LOW` when there is none |
| `RiskLevels.OrderIndex` | utils/crisis_detection.py:79-86 | `order.index` of a tier tag, with an unknown tag giving 0 |
| `KeywordScorer.ScoreToLevel` | utils/crisis_detection.py:57-64 | the tier depends on the total only, with inclusive lower bounds: at least 10 is critical, 6 to 9 is high, 3 to 5 is moderate, below 3 is low |
| `KeywordScorer.KeywordBasedDetection` | utils/crisis_detection.py:45-71 | the nested loops build exactly the hit list `Hits` of the lower-cased text, the score is the sum of the hit categories' weights (default 1), the tier is the score's tier, and the method tag is `keyword_analysis` |
| `KeywordScorer.Weight` | utils/crisis_detection.py:54 | a category's weight is its entry in the weight map, or 1 when it has none, and is never negative when no entry is |
| `KeywordScorer.PhraseHitsMembership` | utils/crisis_detection.py:51-53 | a pair is among one category's hits iff the phrase is in that category's list and matches the text as a whole word |
| `KeywordScorer.HitsMembership` | utils/crisis_detection.py:50-53 | a (phrase, category) pair is in the hit list iff some lexicon category of that name lists the phrase and the phrase matches as a whole word |
| `KeywordScorer.PhraseHitsCount` | utils/crisis_detection.py:51-53 | a (phrase, category) pair occurs in one category's hits as many times as the phrase is listed there when it matches, and not at all otherwise: presence counts, not the number of occurrences in the text |
| `KeywordScorer.PhraseHitsPresenceOnly` | utils/crisis_detection.py:51-53 | one category's hits depend on the text only through which of that category's phrases match in it |
| `KeywordScorer.HitsPresenceOnly` | utils/crisis_detection.py:50-53 | two texts in which the same lexicon phrases match give the same hit list, however often each phrase occurs in either text |
| `KeywordScorer.HitsOrder` | utils/crisis_detection.py:50-53 | hits follow the lexicon's iteration order: the hits of earlier categories precede those of later ones |
| `KeywordScorer.SumWeightsAppend` | utils/crisis_detection.py:54 | the accumulated weight of two hit lists in a row is the sum of their weights |
| `KeywordScorer.NoMatchScoresZero` | utils/crisis_detection.py:47-64 | a text in which no lexicon phrase matches gives no hits, score 0 and tier low |
| `KeywordScorer.EmptyTextScoresZero` | utils/crisis_detection.py:45-64 | the empty text gives no hits, score 0 and tier low for every lexicon |
| `KeywordScorer.UpperCasePhraseNeverMatches` | utils/crisis_detection.py:46-52 | because only the text is lower-cased, a phrase containing an upper-case letter never matches |
| `KeywordScorer.PhraseScoreMonotone` | utils/crisis_detection.py:51-54 | with non-negative weights, one category's contribution does not drop when every phrase of that category that matched still matches |
| `KeywordScorer.ScoreMonotone` | utils/crisis_detection.py:50-54 | with non-negative weights, if every lexicon phrase matching one text also matches another, the other text scores at least as much |
| `KeywordScorer.ScoreToLevelMonotone` | utils/crisis_detection.py:57-64 | a higher score never gives a lower tier |
| `KeywordScorer.AppendingPhraseNeverLowers` | utils/crisis_detection.py:46-64 | appending a lower-case word phrase after a space makes it match and never lowers the score or the tier |
| `WordMatch.WholeWordMatch` | utils/crisis_detection.py:52 | `re.search` of `\b` + escaped phrase + `\b`: a match is a literal occurrence of the phrase with a word boundary on both sides, and it needs a non-empty text |
| `WordMatch.NoMatchInEmptyText` | utils/crisis_detection.py:52 | no phrase, not even the empty one, matches in the empty text |
| `WordMatch.NoMatchInsideLongerWord` | utils/crisis_detection.py:52 | a phrase that starts and ends with a word character does not match where it is directly preceded or followed by another word character |
| `WordMatch.HarmDoesNotMatchHarmony` | utils/crisis_detection.py:52 | `harm` has no whole-word match in `harmony` |
| `WordMatch.AppendedPhraseMatches` | utils/crisis_detection.py:52 | a word phrase placed after a space at the end of any text matches |
| `WordMatch.MatchSurvivesAppend` | utils/crisis_detection.py:52 | appending a space and more text keeps every whole-word match the text had |
| `RiskCombiner.CombineRiskAssessments` | utils/crisis_detection.py:73-97 | the final tier is at least the keyword tier and at least the normalised classifier tier, and equals their maximum unless the escalation fires; the escalation (keyword tag exactly `critical`, or raw label lower-casing to `critical`/`severe`) gives critical; intervention is required iff the tier is high or critical; an immediate crisis iff it is critical; both source assessments are returned unchanged |
| `RiskCombiner.Escalates` | utils/crisis_detection.py:89 | the escalation condition (keyword tag exactly `critical`, or raw label lower-casing to `critical`/`severe`) holds exactly when the keyword tier or the normalised classifier tier is critical |
| `RiskCombiner.EscalationIsRedundant` | utils/crisis_detection.py:87-90 | the final tier is always exactly the maximum of the two normalised tiers: the escalation fires only when that maximum is already critical |
| `RiskCombiner.ImmediateImpliesRequires` | utils/crisis_detection.py:95-96 | an immediate crisis always requires intervention |
| `RiskCombiner.SevereEscalatesLowKeywords` | utils/crisis_detection.py:88-90 | a classifier label `Severe` with a low keyword tier yields a critical, immediate verdict |
| `RiskCombiner.CombineIsSymmetric` | utils/crisis_detection.py:84-87 | swapping which source carries which tier does not change the final tier |
| `CrisisDetection.NewCrisisDetector` | utils/crisis_detection.py:22-30 | the detector has a client iff the session holds one or a new client can be built; the lexicon and weights are stored as given |
| `CrisisDetection.AnalyzeTextForCrisis` | utils/crisis_detection.py:32-43 | the verdict combines the keyword assessment of the text with the classifier's assessment. Without a client that assessment is the LOW "AI client unavailable." fallback; when the call raises, it is the MODERATE "AI error" fallback. A verdict is always returned |
| `CrisisDetection.FallbackTiers` | utils/crisis_detection.py:37-40 | the no-client fallback normalises to low; the raised-call fallback and the client's own parse-failure fallback normalise to moderate |
| `CrisisDetection.UnavailableClassifierIsKeywordOnly` | utils/crisis_detection.py:39-42 | without a client the final tier is exactly the keyword tier |
| `CrisisDetection.ClassifierFailureIsAtLeastModerate` | utils/crisis_detection.py:36-38 | a raised call or an unparseable reply never leaves the final tier below moderate |
| `CrisisDetection.KeywordsAloneRequireIntervention` | utils/crisis_detection.py:39-42 | without a client, a keyword score of 6 or more alone gives a high or critical verdict that requires intervention |
| `CrisisDetection.LoggedEvents` | utils/crisis_detection.py:106-121 | a banner logs its tag (`immediate` or `support`) only when a data manager is present and accepts; an absent or raising log records nothing |
| `CrisisDetection.TriggerCrisisIntervention` | utils/crisis_detection.py:99-104 | the immediate-crisis banner is shown iff the verdict is an immediate crisis; otherwise the support banner iff intervention is required; otherwise none. The result is the verdict's `requires_intervention` |
| `CrisisDetection.LogFailureHasNoEffect` | utils/crisis_detection.py:106-121 | the event log's behaviour changes neither the banner nor the returned flag |
| `CrisisDetection.ActionFollowsTier` | utils/crisis_detection.py:99-104 | for a combined verdict, critical gives the immediate-crisis banner, high the support banner, and moderate or low nothing |
| `CrisisDetection.GetCrisisFollowUpMessage` | utils/crisis_detection.py:123-130 | the critical, high or moderate text is returned exactly for the lower-case or upper-case tag of that tier; every other string gets the supportive default |
| `CrisisDetection.FollowUpForVerdict` | utils/crisis_detection.py:123-130 | for a combined verdict's tag the follow-up is the text of its tier, low getting the default |
| `CrisisDetection.MixedCaseTagGetsDefault` | utils/crisis_detection.py:123-130 | the mixed-case tag `Critical` gets the default text |
| `CrisisDetection.EndToEndScenario` | utils/crisis_detection.py:32-43 | "I feel hopeless and want to hurt myself", with `hopeless` under the category `hopelessness` (weight 2), `hurt myself` under `self_harm` (weight 8) and a LOW classifier, scores 10. The verdict is critical, requires intervention, is an immediate crisis, and gets the urgent grounding follow-up |

## Left out

- Streamlit output (`st.error`, `st.warning`) is reduced to the banner chosen
  (`Action`). `st.session_state` lookups become parameters: whether a
  session client or a data manager exists.
- The classifier client (`utils/gemini_client.py`) is not modelled as code.
  Its network call becomes the `ClassifierCall` input, either `Raised` or
  `Returned` with the dictionary. Its parse-failure dictionary (also
  returned when the API call yields nothing) is the constant
  `ParseFailureAnalysis`.
- A classifier reply that is valid JSON but not a dictionary would crash
  the combiner. The model assumes the reply is a dictionary: `AiAnalysis`
  is always a record.
- `RiskLevels.NormalizeAiLevel`: a non-string `risk_level` value, made a
  string by `str()`, is not modelled. Such a value behaves like an unknown
  label.
- `RiskLevels.Lower` and `WordMatch.IsWordChar` are ASCII only. Python's
  Unicode case mapping and Unicode `\w` are not modelled.
- `CrisisDetection.TriggerCrisisIntervention`: the default `False` for a
  missing `requires_intervention` key is not modelled, because every
  verdict the combiner builds carries both flags.
- The lexicon module `utils/crisis_keywords.py` is not part of this model.
  The lexicon and the weights are parameters, and the model does not
  require category names to be distinct.
- Running `analyze_text_for_crisis` twice on the same input gives the same
  verdict. This follows from Dafny's determinism and gets no lemma of its
  own.
- `components/chat_interface.py` (the UI loop, message persistence and
  reply generation) is not part of this model.
