/**
 * The four ordered risk tiers, ASCII lower-casing, and the alias table that
 * maps a classifier's label onto a tier (utils/crisis_detection.py, lines
 * 9-19 and 75-82).
 */
module RiskLevels {
  import opened Wrappers

  /** Risk tiers in ascending severity. */
  datatype Tier = Low | Moderate | High | Critical {
    function Rank(): (n: nat)
      ensures n < 4
    {
      match this
      case Low => 0
      case Moderate => 1
      case High => 2
      case Critical => 3
    }

    /** The lower-case tag the detector uses for this tier. */
    function Label(): string {
      match this
      case Low => "low"
      case Moderate => "moderate"
      case High => "high"
      case Critical => "critical"
    }
  }

  /** The higher of two tiers. */
  function MaxTier(a: Tier, b: Tier): (m: Tier)
    ensures m == a || m == b
    ensures m.Rank() >= a.Rank() && m.Rank() >= b.Rank()
  {
    if a.Rank() >= b.Rank() then a else b
  }

  /** `Order` in the combiner: the tier tags by ascending severity. */
  const Order: seq<string> := ["low", "moderate", "high", "critical"]

  function TierAt(i: nat): (t: Tier)
    requires i < 4
    ensures t.Rank() == i && t.Label() == Order[i]
  {
    if i == 0 then Low else if i == 1 then Moderate else if i == 2 then High else Critical
  }

  /** `order.index(level)`, with the `ValueError` of an unknown tag mapped to 0. */
  function OrderIndex(level: string): (i: nat)
    ensures i < 4
    ensures level in Order ==> Order[i] == level
    ensures level !in Order ==> i == 0
  {
    if level == "low" then 0
    else if level == "moderate" then 1
    else if level == "high" then 2
    else if level == "critical" then 3
    else 0
  }

  /** The tier a tag stands for; any tag outside `Order` is low. */
  function LevelTier(level: string): (t: Tier)
    ensures level in Order ==> t.Label() == level
    ensures level !in Order ==> t == Low
  {
    TierAt(OrderIndex(level))
  }

  /** `str.lower()` restricted to ASCII: only 'A'..'Z' change. */
  function LowerChar(c: char): char {
    if 'A' <= c <= 'Z' then (c as int + 32) as char else c
  }

  predicate IsUpper(c: char) {
    'A' <= c <= 'Z'
  }

  function Lower(s: string): (r: string)
    ensures |r| == |s|
    ensures forall i :: 0 <= i < |s| ==> r[i] == LowerChar(s[i])
    ensures forall i :: 0 <= i < |r| ==> !IsUpper(r[i])
  {
    seq(|s|, i requires 0 <= i < |s| => LowerChar(s[i]))
  }

  /** `_CANON_LEVELS`: lower- and upper-case spellings of each tier, and `severe` as an alias for critical. */
  const CanonLevels: map<string, string> := map[
    "low" := "LOW",
    "moderate" := "MODERATE",
    "high" := "HIGH",
    "critical" := "CRITICAL",
    "severe" := "CRITICAL",
    "SEVERE" := "CRITICAL",
    "LOW" := "LOW",
    "MODERATE" := "MODERATE",
    "HIGH" := "HIGH"
  ]

  /** `ai_analysis.get("risk_level", "LOW")`, as the string `str(raw_ai)`. */
  function RawLabel(riskLevel: Option<string>): string {
    match riskLevel
    case Some(s) => s
    case None => "LOW"
  }

  /**
   * `_CANON_LEVELS.get(raw.lower(), _CANON_LEVELS.get(raw, "LOW"))`: the
   * canonical upper-case name for a raw label, always one of the four tiers.
   */
  function CanonLookup(raw: string): (r: string)
    ensures r in {"LOW", "MODERATE", "HIGH", "CRITICAL"}
  {
    var l := Lower(raw);
    if l in CanonLevels then CanonLevels[l]
    else if raw in CanonLevels then CanonLevels[raw]
    else "LOW"
  }

  /**
   * The inner lookup of the raw label never decides the result: every key of
   * the table lower-cases to a key, so the result is the table's entry for
   * the lower-cased label, or `LOW` when there is none.
   */
  lemma CanonInnerLookupNeverDecides(raw: string)
    ensures CanonLookup(raw) == if Lower(raw) in CanonLevels then CanonLevels[Lower(raw)] else "LOW"
  {
    CanonKeysClosedUnderLower(raw);
  }

  /** Index of a classifier label in `Order` after normalisation (`a_idx`). */
  function AiIndex(riskLevel: Option<string>): nat {
    OrderIndex(Lower(CanonLookup(RawLabel(riskLevel))))
  }

  /**
   * The normalised tier of a classifier label. Normalisation is total and
   * case-insensitive: `low`, `moderate`, `high`, `critical` in any letter
   * case map to their own tier, `severe` in any letter case maps to
   * critical, and every other label, or a missing one, maps to low.
   */
  function NormalizeAiLevel(riskLevel: Option<string>): (t: Tier)
    ensures var l := Lower(RawLabel(riskLevel));
      && (t == Critical <==> l == "critical" || l == "severe")
      && (t == High <==> l == "high")
      && (t == Moderate <==> l == "moderate")
      && (t == Low <==> l !in {"moderate", "high", "critical", "severe"})
  {
    CanonKeysClosedUnderLower(RawLabel(riskLevel));
    TierAt(AiIndex(riskLevel))
  }

  /** Every key of the alias table lower-cases to a key of the table. */
  lemma CanonKeysClosedUnderLower(raw: string)
    ensures raw in CanonLevels ==> Lower(raw) in CanonLevels
    ensures Lower("LOW") == "low" && Lower("MODERATE") == "moderate"
    ensures Lower("HIGH") == "high" && Lower("CRITICAL") == "critical"
    ensures Lower("SEVERE") == "severe"
    ensures Lower("low") == "low" && Lower("moderate") == "moderate"
    ensures Lower("high") == "high" && Lower("critical") == "critical"
    ensures Lower("severe") == "severe"
  {
    assert Lower("LOW") == "low";
    assert Lower("MODERATE") == "moderate";
    assert Lower("HIGH") == "high";
    assert Lower("CRITICAL") == "critical";
    assert Lower("SEVERE") == "severe";
    assert Lower("low") == "low";
    assert Lower("moderate") == "moderate";
    assert Lower("high") == "high";
    assert Lower("critical") == "critical";
    assert Lower("severe") == "severe";
  }

  /** Lower-casing distributes over concatenation. */
  lemma LowerAppend(a: string, b: string)
    ensures Lower(a + b) == Lower(a) + Lower(b)
  {
  }
}
