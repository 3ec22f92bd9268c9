/**
 * The keyword scorer `_keyword_based_detection` (utils/crisis_detection.py,
 * lines 45-71): a lexicon scan that collects every matching (phrase, category)
 * pair, sums the categories' weights and maps the total to a tier.
 */
module KeywordScorer {
  import opened RiskLevels
  import opened WordMatch

  /** One category of the lexicon with its indicator phrases, in dictionary order. */
  datatype LexiconEntry = LexiconEntry(category: string, phrases: seq<string>)

  /** `crisis_keywords`: the categories in dictionary iteration order. */
  type Lexicon = seq<LexiconEntry>

  /** One element of `detected_keywords`: the tuple `(keyword, category)`. */
  datatype Hit = Hit(phrase: string, category: string)

  /** The scorer's result dictionary. */
  datatype KeywordAssessment = KeywordAssessment(
    riskLevel: string,
    score: int,
    detectedKeywords: seq<Hit>,
    methodTag: string)

  const KeywordMethodTag: string := "keyword_analysis"

  /**
   * `severity_weights.get(category, 1)`: the category's weight, or 1 for a
   * category without one; never negative when no weight is.
   */
  function Weight(weights: map<string, int>, category: string): (w: int)
    ensures category !in weights ==> w == 1
    ensures category in weights ==> w == weights[category]
    ensures NonNegativeWeights(weights) ==> w >= 0
  {
    if category in weights then weights[category] else 1
  }

  predicate NonNegativeWeights(weights: map<string, int>) {
    forall c :: c in weights ==> weights[c] >= 0
  }

  /** The hits contributed by one category's phrases, in list order. */
  function PhraseHits(category: string, phrases: seq<string>, text: string): seq<Hit>
    decreases |phrases|
  {
    if |phrases| == 0 then []
    else
      var last := phrases[|phrases| - 1];
      PhraseHits(category, phrases[..|phrases| - 1], text)
      + (if WholeWordMatch(text, last) then [Hit(last, category)] else [])
  }

  /** The whole hit list, category by category in lexicon order. */
  function Hits(lexicon: Lexicon, text: string): seq<Hit>
    decreases |lexicon|
  {
    if |lexicon| == 0 then []
    else
      var last := lexicon[|lexicon| - 1];
      Hits(lexicon[..|lexicon| - 1], text) + PhraseHits(last.category, last.phrases, text)
  }

  /** The sum of the categories' weights over a hit list. */
  function SumWeights(hits: seq<Hit>, weights: map<string, int>): int
    decreases |hits|
  {
    if |hits| == 0 then 0
    else SumWeights(hits[..|hits| - 1], weights) + Weight(weights, hits[|hits| - 1].category)
  }

  /**
   * The tier tag of a total score. The thresholds are inclusive lower bounds
   * and depend on the total only.
   */
  function ScoreToLevel(score: int): (level: string)
    ensures level in Order
    ensures level == "critical" <==> score >= 10
    ensures level == "high" <==> 6 <= score <= 9
    ensures level == "moderate" <==> 3 <= score <= 5
    ensures level == "low" <==> score < 3
  {
    if score >= 10 then "critical"
    else if score >= 6 then "high"
    else if score >= 3 then "moderate"
    else "low"
  }

  /** What the scorer returns for a text: the specification `KeywordBasedDetection` meets. */
  function KeywordAssessmentOf(lexicon: Lexicon, weights: map<string, int>, text: string): KeywordAssessment {
    var hits := Hits(lexicon, Lower(text));
    var score := SumWeights(hits, weights);
    KeywordAssessment(ScoreToLevel(score), score, hits, KeywordMethodTag)
  }

  /**
   * `_keyword_based_detection`: lower-case the text, then for every category
   * and every phrase of it test for a whole-word match, append the pair to
   * the hit list and add the category's weight to the total.
   */
  method KeywordBasedDetection(lexicon: Lexicon, weights: map<string, int>, text: string)
    returns (result: KeywordAssessment)
    ensures result.detectedKeywords == Hits(lexicon, Lower(text))
    ensures result.score == SumWeights(result.detectedKeywords, weights)
    ensures result.riskLevel == ScoreToLevel(result.score)
    ensures result.methodTag == KeywordMethodTag
  {
    var textLower := Lower(text);
    var detected: seq<Hit> := [];
    var totalScore := 0;
    var j := 0;
    while j < |lexicon|
      invariant 0 <= j <= |lexicon|
      invariant detected == Hits(lexicon[..j], textLower)
      invariant totalScore == SumWeights(detected, weights)
    {
      var entry := lexicon[j];
      var k := 0;
      while k < |entry.phrases|
        invariant 0 <= k <= |entry.phrases|
        invariant detected == Hits(lexicon[..j], textLower) + PhraseHits(entry.category, entry.phrases[..k], textLower)
        invariant totalScore == SumWeights(detected, weights)
      {
        var keyword := entry.phrases[k];
        assert entry.phrases[..k + 1][..k] == entry.phrases[..k];
        if WholeWordMatch(textLower, keyword) {
          var before := detected;
          detected := detected + [Hit(keyword, entry.category)];
          assert detected[..|detected| - 1] == before;
          totalScore := totalScore + Weight(weights, entry.category);
        }
        k := k + 1;
      }
      assert entry.phrases[..k] == entry.phrases;
      assert lexicon[..j + 1][..j] == lexicon[..j];
      j := j + 1;
    }
    assert lexicon[..j] == lexicon;
    var riskLevel := ScoreToLevel(totalScore);
    result := KeywordAssessment(riskLevel, totalScore, detected, KeywordMethodTag);
  }

  // ---------------------------------------------------------------------------
  // Properties of the scorer
  // ---------------------------------------------------------------------------

  /** A pair is in one category's hits iff its phrase is listed and matches. */
  lemma {:induction false} PhraseHitsMembership(category: string, phrases: seq<string>, text: string, h: Hit)
    ensures h in PhraseHits(category, phrases, text)
      <==> h.category == category && h.phrase in phrases && WholeWordMatch(text, h.phrase)
    decreases |phrases|
  {
    if |phrases| > 0 {
      var init := phrases[..|phrases| - 1];
      PhraseHitsMembership(category, init, text, h);
      assert phrases == init + [phrases[|phrases| - 1]];
    }
  }

  /**
   * The hit list holds exactly the (phrase, category) pairs whose phrase is
   * listed under that category and matches the text as a whole word.
   */
  lemma {:induction false} HitsMembership(lexicon: Lexicon, text: string, h: Hit)
    ensures h in Hits(lexicon, text)
      <==> exists j :: 0 <= j < |lexicon| && lexicon[j].category == h.category
             && h.phrase in lexicon[j].phrases && WholeWordMatch(text, h.phrase)
    decreases |lexicon|
  {
    if |lexicon| > 0 {
      var n := |lexicon| - 1;
      var init := lexicon[..n];
      HitsMembership(init, text, h);
      PhraseHitsMembership(lexicon[n].category, lexicon[n].phrases, text, h);
      if h in Hits(lexicon, text) {
        if h in Hits(init, text) {
          var j :| 0 <= j < |init| && init[j].category == h.category
            && h.phrase in init[j].phrases && WholeWordMatch(text, h.phrase);
          assert lexicon[j] == init[j];
        }
      } else {
        forall j | 0 <= j < |lexicon|
          ensures !(lexicon[j].category == h.category && h.phrase in lexicon[j].phrases && WholeWordMatch(text, h.phrase))
        {
          if j < n {
            assert lexicon[j] == init[j];
          }
        }
      }
    }
  }

  /**
   * `re.search` tests presence only: a pair occurs in one category's hits
   * once per listing of its phrase there when the phrase matches, and not at
   * all otherwise, however often the phrase occurs in the text.
   */
  lemma {:induction false} PhraseHitsCount(category: string, phrases: seq<string>, text: string, p: string)
    ensures multiset(PhraseHits(category, phrases, text))[Hit(p, category)]
         == if WholeWordMatch(text, p) then multiset(phrases)[p] else 0
    decreases |phrases|
  {
    if |phrases| > 0 {
      var init := phrases[..|phrases| - 1];
      var last := phrases[|phrases| - 1];
      PhraseHitsCount(category, init, text, p);
      assert phrases == init + [last];
      assert multiset(phrases) == multiset(init) + multiset{last};
    }
  }

  /**
   * One category's hits depend on the text only through which of that
   * category's phrases match in it.
   */
  lemma {:induction false} PhraseHitsPresenceOnly(category: string, phrases: seq<string>, text: string, text': string)
    requires forall p :: p in phrases ==> (WholeWordMatch(text, p) <==> WholeWordMatch(text', p))
    ensures PhraseHits(category, phrases, text) == PhraseHits(category, phrases, text')
    decreases |phrases|
  {
    if |phrases| > 0 {
      var init := phrases[..|phrases| - 1];
      var last := phrases[|phrases| - 1];
      assert forall p :: p in init ==> p in phrases;
      PhraseHitsPresenceOnly(category, init, text, text');
      assert last in phrases;
    }
  }

  /**
   * The hit list depends on the text only through which lexicon phrases
   * match in it: two texts in which the same lexicon phrases match give the
   * same hits, however often each phrase occurs in either text.
   */
  lemma {:induction false} HitsPresenceOnly(lexicon: Lexicon, text: string, text': string)
    requires forall j, p :: 0 <= j < |lexicon| && p in lexicon[j].phrases ==> (WholeWordMatch(text, p) <==> WholeWordMatch(text', p))
    ensures Hits(lexicon, text) == Hits(lexicon, text')
    decreases |lexicon|
  {
    if |lexicon| > 0 {
      var n := |lexicon| - 1;
      forall j, p | 0 <= j < n && p in lexicon[..n][j].phrases
        ensures WholeWordMatch(text, p) <==> WholeWordMatch(text', p)
      {
        assert lexicon[..n][j] == lexicon[j];
      }
      HitsPresenceOnly(lexicon[..n], text, text');
      PhraseHitsPresenceOnly(lexicon[n].category, lexicon[n].phrases, text, text');
    }
  }

  /**
   * Hits follow the lexicon's iteration order: the hits of an earlier block
   * of categories come before those of a later one.
   */
  lemma {:induction false} HitsOrder(first: Lexicon, second: Lexicon, text: string)
    ensures Hits(first + second, text) == Hits(first, text) + Hits(second, text)
    decreases |second|
  {
    if |second| == 0 {
      assert first + second == first;
    } else {
      var n := |second| - 1;
      var last := second[n];
      assert (first + second)[..|first + second| - 1] == first + second[..n];
      HitsOrder(first, second[..n], text);
    }
  }

  lemma {:induction false} SumWeightsAppend(a: seq<Hit>, b: seq<Hit>, weights: map<string, int>)
    ensures SumWeights(a + b, weights) == SumWeights(a, weights) + SumWeights(b, weights)
    decreases |b|
  {
    if |b| == 0 {
      assert a + b == a;
    } else {
      assert (a + b)[..|a + b| - 1] == a + b[..|b| - 1];
      SumWeightsAppend(a, b[..|b| - 1], weights);
    }
  }

  /** A text in which no lexicon phrase matches scores 0 with no hits: tier low. */
  lemma {:induction false} NoMatchScoresZero(lexicon: Lexicon, weights: map<string, int>, text: string)
    requires forall j, p :: 0 <= j < |lexicon| && p in lexicon[j].phrases ==> !WholeWordMatch(Lower(text), p)
    ensures KeywordAssessmentOf(lexicon, weights, text).detectedKeywords == []
    ensures KeywordAssessmentOf(lexicon, weights, text).score == 0
    ensures KeywordAssessmentOf(lexicon, weights, text).riskLevel == "low"
  {
    var hits := Hits(lexicon, Lower(text));
    if |hits| > 0 {
      HitsMembership(lexicon, Lower(text), hits[0]);
      assert false;
    }
  }

  /** The empty text scores 0 with no hits, whatever the lexicon. */
  lemma EmptyTextScoresZero(lexicon: Lexicon, weights: map<string, int>)
    ensures KeywordAssessmentOf(lexicon, weights, "").detectedKeywords == []
    ensures KeywordAssessmentOf(lexicon, weights, "").score == 0
    ensures KeywordAssessmentOf(lexicon, weights, "").riskLevel == "low"
  {
    assert Lower("") == "";
    forall j, p | 0 <= j < |lexicon| && p in lexicon[j].phrases
      ensures !WholeWordMatch(Lower(""), p)
    {
      NoMatchInEmptyText(p);
    }
    NoMatchScoresZero(lexicon, weights, "");
  }

  /**
   * The scorer lower-cases the text but not the phrases, so a phrase that
   * holds an upper-case letter never matches.
   */
  lemma UpperCasePhraseNeverMatches(text: string, phrase: string, k: nat)
    requires k < |phrase| && IsUpper(phrase[k])
    ensures !WholeWordMatch(Lower(text), phrase)
  {
    var t := Lower(text);
    forall i | 0 <= i <= |t| - |phrase|
      ensures !OccursAt(t, phrase, i)
    {
      assert !IsUpper(t[i + k]);
    }
  }

  lemma {:induction false} PhraseScoreMonotone(category: string, phrases: seq<string>, weights: map<string, int>, text: string, text': string)
    requires NonNegativeWeights(weights)
    requires forall p :: p in phrases && WholeWordMatch(text, p) ==> WholeWordMatch(text', p)
    ensures SumWeights(PhraseHits(category, phrases, text), weights) <= SumWeights(PhraseHits(category, phrases, text'), weights)
    decreases |phrases|
  {
    if |phrases| > 0 {
      var init := phrases[..|phrases| - 1];
      var last := phrases[|phrases| - 1];
      assert forall p :: p in init ==> p in phrases;
      assert last in phrases;
      var tail := if WholeWordMatch(text, last) then [Hit(last, category)] else [];
      var tail' := if WholeWordMatch(text', last) then [Hit(last, category)] else [];
      PhraseScoreMonotone(category, init, weights, text, text');
      SumWeightsAppend(PhraseHits(category, init, text), tail, weights);
      SumWeightsAppend(PhraseHits(category, init, text'), tail', weights);
      assert [Hit(last, category)][..0] == [];
    }
  }

  /**
   * The score is monotone in the set of matching lexicon phrases: if every
   * lexicon phrase that matches one text also matches another, that other
   * text scores at least as much, given non-negative weights.
   */
  lemma {:induction false} ScoreMonotone(lexicon: Lexicon, weights: map<string, int>, text: string, text': string)
    requires NonNegativeWeights(weights)
    requires forall j, p :: 0 <= j < |lexicon| && p in lexicon[j].phrases && WholeWordMatch(text, p) ==> WholeWordMatch(text', p)
    ensures SumWeights(Hits(lexicon, text), weights) <= SumWeights(Hits(lexicon, text'), weights)
    decreases |lexicon|
  {
    if |lexicon| > 0 {
      var n := |lexicon| - 1;
      forall j, p | 0 <= j < n && p in lexicon[..n][j].phrases && WholeWordMatch(text, p)
        ensures WholeWordMatch(text', p)
      {
        assert lexicon[..n][j] == lexicon[j];
      }
      ScoreMonotone(lexicon[..n], weights, text, text');
      PhraseScoreMonotone(lexicon[n].category, lexicon[n].phrases, weights, text, text');
      SumWeightsAppend(Hits(lexicon[..n], text), PhraseHits(lexicon[n].category, lexicon[n].phrases, text), weights);
      SumWeightsAppend(Hits(lexicon[..n], text'), PhraseHits(lexicon[n].category, lexicon[n].phrases, text'), weights);
    }
  }

  /** A higher score never gives a lower tier. */
  lemma ScoreToLevelMonotone(score: int, score': int)
    requires score <= score'
    ensures LevelTier(ScoreToLevel(score)).Rank() <= LevelTier(ScoreToLevel(score')).Rank()
  {
  }

  /**
   * Appending a lower-case word phrase to a message (after a space) makes that
   * phrase match and never lowers the score or the tier.
   */
  lemma AppendingPhraseNeverLowers(lexicon: Lexicon, weights: map<string, int>, text: string, phrase: string)
    requires NonNegativeWeights(weights)
    requires IsWordPhrase(phrase) && Lower(phrase) == phrase
    ensures WholeWordMatch(Lower(text + " " + phrase), phrase)
    ensures KeywordAssessmentOf(lexicon, weights, text).score <= KeywordAssessmentOf(lexicon, weights, text + " " + phrase).score
    ensures LevelTier(KeywordAssessmentOf(lexicon, weights, text).riskLevel).Rank()
         <= LevelTier(KeywordAssessmentOf(lexicon, weights, text + " " + phrase).riskLevel).Rank()
  {
    var t := Lower(text);
    LowerAppend(text + " ", phrase);
    LowerAppend(text, " ");
    assert Lower(" ") == " ";
    assert Lower(text + " " + phrase) == t + " " + phrase;
    AppendedPhraseMatches(t, phrase);
    forall p | WholeWordMatch(t, p)
      ensures WholeWordMatch(t + " " + phrase, p)
    {
      MatchSurvivesAppend(t, phrase, p);
    }
    ScoreMonotone(lexicon, weights, t, t + " " + phrase);
    ScoreToLevelMonotone(KeywordAssessmentOf(lexicon, weights, text).score, KeywordAssessmentOf(lexicon, weights, text + " " + phrase).score);
  }
}
