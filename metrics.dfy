/** The metrics shown beside an enhanced prompt: a clarity score from its
    structure, a detail level from how much longer it is than the original,
    and its length. */
module Metrics {
  import opened JsString
  import opened Templates
  import opened Enhancer

  /** The object `calculateMetrics` returns. */
  datatype Report = Report(clarityScore: string, detailLevel: string, characterCount: nat)

  /** The prompt has structure (bold markers and a newline) and a bullet dash. */
  predicate Structured(enhanced: string) {
    Contains(enhanced, "**") && Contains(enhanced, "\n") && Contains(enhanced, "-")
  }

  /** `enhanced / original > k` for two lengths, as JavaScript evaluates it:
      a positive length over zero is `Infinity`, which exceeds every bound, and
      zero over zero is `NaN`, which exceeds none. */
  predicate RatioExceeds(enhanced: nat, original: nat, k: nat)
    ensures RatioExceeds(enhanced, original, k) ==> enhanced > 0
  {
    if original == 0 then enhanced > 0
    else enhanced as real / original as real > k as real
  }

  /** The detail level: the first of the thresholds 10, 7 and 4 the length ratio exceeds. */
  function DetailLevel(original: nat, enhanced: nat): (r: string)
    ensures r in {"Very High", "High", "Medium", "Low"}
    ensures enhanced <= 4 * original ==> r == "Low"
  {
    assert enhanced <= 4 * original ==>
      !RatioExceeds(enhanced, original, 10) && !RatioExceeds(enhanced, original, 7) && !RatioExceeds(enhanced, original, 4)
    by {
      if original > 0 {
        RatioExceedsIff(enhanced, original, 4);
        RatioExceedsIff(enhanced, original, 7);
        RatioExceedsIff(enhanced, original, 10);
      }
    }
    if RatioExceeds(enhanced, original, 10) then "Very High"
    else if RatioExceeds(enhanced, original, 7) then "High"
    else if RatioExceeds(enhanced, original, 4) then "Medium"
    else "Low"
  }

  /** The report for an original text and its enhancement. */
  function MetricsOf(original: string, enhanced: string): (r: Report)
    ensures r.clarityScore == "95%" <==> Structured(enhanced)
    ensures r.clarityScore in {"95%", "75%"}
    ensures r.detailLevel in {"Very High", "High", "Medium", "Low"}
    ensures |enhanced| <= 4 * |original| ==> r.detailLevel == "Low"
    ensures r.characterCount == |enhanced|
  {
    Report(if Structured(enhanced) then "95%" else "75%", DetailLevel(|original|, |enhanced|), |enhanced|)
  }

  /** `calculateMetrics(originalText, enhancedText)`. */
  method CalculateMetrics(originalText: string, enhancedText: string) returns (m: Report)
    ensures m == MetricsOf(originalText, enhancedText)
  {
    var originalLength := |originalText|;
    var enhancedLength := |enhancedText|;

    var hasStructure := Contains(enhancedText, "**") && Contains(enhancedText, "\n");
    var hasBulletPoints := Contains(enhancedText, "-");
    var clarityScore := if hasStructure && hasBulletPoints then "95%" else "75%";

    var detailLevel := "Low";
    if RatioExceeds(enhancedLength, originalLength, 10) {
      detailLevel := "Very High";
    } else if RatioExceeds(enhancedLength, originalLength, 7) {
      detailLevel := "High";
    } else if RatioExceeds(enhancedLength, originalLength, 4) {
      detailLevel := "Medium";
    }

    m := Report(clarityScore, detailLevel, enhancedLength);
  }

  // ------------------------------------------------------------ properties

  /** For a non-empty original the ratio test is a comparison of whole numbers. */
  lemma RatioExceedsIff(enhanced: nat, original: nat, k: nat)
    requires original > 0
    ensures RatioExceeds(enhanced, original, k) <==> enhanced > k * original
  {
    var e, o, q := enhanced as real, original as real, enhanced as real / original as real;
    assert q * o == e;
    assert (k * original) as real == k as real * o;
    if q > k as real {
      assert q * o > k as real * o;
    } else {
      assert q * o <= k as real * o;
    }
  }

  /** The detail level by whole-number comparisons, for an original of any length. */
  lemma DetailLevelBuckets(original: nat, enhanced: nat)
    ensures DetailLevel(original, enhanced) ==
      if enhanced > 10 * original then "Very High"
      else if enhanced > 7 * original then "High"
      else if enhanced > 4 * original then "Medium"
      else "Low"
  {
    if original > 0 {
      RatioExceedsIff(enhanced, original, 10);
      RatioExceedsIff(enhanced, original, 7);
      RatioExceedsIff(enhanced, original, 4);
    }
  }

  /** An empty original: any enhancement is `Infinity` times longer ("Very High"),
      and an empty one is `NaN` times longer ("Low"). */
  lemma DetailLevelEmptyOriginal(enhanced: nat)
    ensures DetailLevel(0, enhanced) == if enhanced > 0 then "Very High" else "Low"
  {
  }

  /** The levels in increasing order. */
  function LevelRank(level: string): nat {
    if level == "Very High" then 3 else if level == "High" then 2 else if level == "Medium" then 1 else 0
  }

  /** A longer enhancement of the same original never gets a lower detail level. */
  lemma DetailLevelMonotone(original: nat, shorter: nat, longer: nat)
    requires shorter <= longer
    ensures LevelRank(DetailLevel(original, shorter)) <= LevelRank(DetailLevel(original, longer))
  {
    DetailLevelBuckets(original, shorter);
    DetailLevelBuckets(original, longer);
  }

  /** Exactly ten times longer is not "Very High": the test is strict. */
  lemma DetailLevelStrictAtTen(original: nat)
    requires original > 0
    ensures DetailLevel(original, 10 * original) == "High"
  {
    DetailLevelBuckets(original, 10 * original);
  }

  /** Every prompt the enhancer produces scores "95%" for clarity. */
  lemma EnhancedIsClear(text: string, key: Option<string>)
    requires !AllSpace(text)
    ensures MetricsOf(text, Enhance(Some(text), key).value).clarityScore == "95%"
  {
    var c, t := Lookup(KeyOrDefault(key)), Trim(text);
    assert Enhance(Some(text), key) == Some(Strategy(c, t));
    StrategyIsStructured(c, t);
  }

  /** The report counts the enhanced prompt's characters and nothing else depends on the original's content. */
  lemma MetricsDependOnLengthsOnly(a: string, b: string, enhanced: string)
    requires |a| == |b|
    ensures MetricsOf(a, enhanced) == MetricsOf(b, enhanced)
    ensures MetricsOf(a, enhanced).characterCount == |enhanced|
  {
  }
}
