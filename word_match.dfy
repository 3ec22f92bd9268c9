/**
 * Whole-word phrase search: `re.search(r'\b' + re.escape(phrase) + r'\b', text)`
 * (utils/crisis_detection.py, line 52), over ASCII. A word boundary sits at
 * position i of a text exactly when the characters on its two sides differ in
 * being word characters, a position outside the text counting as a non-word one.
 */
module WordMatch {

  /** Python's `\w` on ASCII: letters, digits and the underscore. */
  predicate IsWordChar(c: char) {
    ('a' <= c <= 'z') || ('A' <= c <= 'Z') || ('0' <= c <= '9') || c == '_'
  }

  predicate WordAt(s: string, i: int) {
    0 <= i < |s| && IsWordChar(s[i])
  }

  /** `\b` at position i (0 <= i <= |s|). */
  predicate IsBoundary(s: string, i: int) {
    WordAt(s, i - 1) != WordAt(s, i)
  }

  /** The phrase, taken literally (`re.escape`), occurs at i. */
  predicate OccursLiterallyAt(text: string, phrase: string, i: int) {
    0 <= i && i + |phrase| <= |text| && text[i..i + |phrase|] == phrase
  }

  /** The phrase, taken literally, occurs at i with a boundary on both sides. */
  predicate OccursAt(text: string, phrase: string, i: int) {
    OccursLiterallyAt(text, phrase, i) && IsBoundary(text, i) && IsBoundary(text, i + |phrase|)
  }

  /**
   * `re.search` succeeds somewhere in the text. A match is a literal
   * occurrence of the phrase, and it needs a non-empty text, since the empty
   * text has no boundary at all.
   */
  predicate WholeWordMatch(text: string, phrase: string)
    ensures WholeWordMatch(text, phrase) ==> |text| > 0 && |phrase| <= |text|
    ensures WholeWordMatch(text, phrase) ==> exists i :: OccursLiterallyAt(text, phrase, i)
  {
    exists i :: 0 <= i <= |text| - |phrase| && OccursAt(text, phrase, i)
  }

  /** A phrase that starts and ends with a word character (the usual lexicon entry). */
  predicate IsWordPhrase(phrase: string) {
    |phrase| > 0 && IsWordChar(phrase[0]) && IsWordChar(phrase[|phrase| - 1])
  }

  /** Nothing matches in the empty text, not even the empty phrase. */
  lemma NoMatchInEmptyText(phrase: string)
    ensures !WholeWordMatch("", phrase)
  {
  }

  /**
   * An occurrence of a word phrase directly followed or preceded by another
   * word character is not a match there: the phrase cannot match inside a
   * longer word.
   */
  lemma NoMatchInsideLongerWord(text: string, phrase: string, i: int)
    requires IsWordPhrase(phrase)
    requires 0 <= i && i + |phrase| <= |text| && text[i..i + |phrase|] == phrase
    requires WordAt(text, i + |phrase|) || WordAt(text, i - 1)
    ensures !OccursAt(text, phrase, i)
  {
    assert text[i] == phrase[0];
    assert text[i + |phrase| - 1] == phrase[|phrase| - 1];
  }

  /** `harm` has no whole-word match in `harmony`. */
  lemma HarmDoesNotMatchHarmony()
    ensures !WholeWordMatch("harmony", "harm")
  {
    var t := "harmony";
    forall i | 0 <= i <= |t| - 4
      ensures !OccursAt(t, "harm", i)
    {
      if i == 0 {
        NoMatchInsideLongerWord(t, "harm", 0);
      } else {
        assert t[i..i + 4][0] == t[i] != 'h';
      }
    }
  }

  /** A word phrase placed after a space at the end of a text matches there. */
  lemma AppendedPhraseMatches(text: string, phrase: string)
    requires IsWordPhrase(phrase)
    ensures WholeWordMatch(text + " " + phrase, phrase)
  {
    var t := text + " " + phrase;
    var i := |text| + 1;
    assert t[i..i + |phrase|] == phrase;
    assert t[i - 1] == ' ';
    assert t[i] == phrase[0];
    assert OccursAt(t, phrase, i);
  }

  /** Appending a space and anything else to a text keeps every match it had. */
  lemma MatchSurvivesAppend(text: string, rest: string, phrase: string)
    requires WholeWordMatch(text, phrase)
    ensures WholeWordMatch(text + " " + rest, phrase)
  {
    var t := text + " " + rest;
    var i :| 0 <= i <= |text| - |phrase| && OccursAt(text, phrase, i);
    var j := i + |phrase|;
    assert t[i..j] == text[i..j];
    assert WordAt(t, i - 1) == WordAt(text, i - 1);
    assert WordAt(t, j - 1) == WordAt(text, j - 1);
    assert WordAt(t, i) == WordAt(text, i);
    assert WordAt(t, j) == WordAt(text, j);
    assert OccursAt(t, phrase, i);
  }
}
