/** The text heuristics the strategies are built on: goal extraction, topic
    extraction, capitalisation of the first character and the test for a
    mention of a user interface. */
module Heuristics {
  import opened JsString

  /** The verbs the goal extractor strips, in the order its pattern tries them. */
  const GoalVerbs: seq<string> := ["create", "make", "build", "develop", "write", "generate", "design"]

  /** The words the topic extractor drops. */
  const StopWords: seq<string> := ["a", "an", "the", "about", "write", "create", "make"]

  /** The keywords whose presence, anywhere, marks a prompt as being about a user interface. */
  const UIKeywords: seq<string> := ["page", "interface", "ui", "website", "app", "form", "button", "design"]

  // ------------------------------------------------------------ main goal

  /** The pattern `^verb\s+` matches at the start of `s`: the verb, then at least one white-space character. */
  predicate VerbThenSpace(s: string, verb: string) {
    |verb| < |s| && s[..|verb|] == verb && IsSpace(s[|verb|])
  }

  /** Replacing the first match of `^(v1|v2|...)\s+` by nothing: the alternatives
      are tried in order, and the white-space run after the verb goes with it. */
  function StripLeadingVerb(s: string, verbs: seq<string>): (r: string)
    ensures |r| <= |s| && r == s[|s| - |r|..]
  {
    if verbs == [] then s
    else if VerbThenSpace(s, verbs[0]) then TrimStart(s[|verbs[0]|..])
    else StripLeadingVerb(s, verbs[1..])
  }

  /** When no verb matches, nothing is removed. */
  lemma {:induction false} StripLeadingVerbNoMatch(s: string, verbs: seq<string>)
    requires forall k :: 0 <= k < |verbs| ==> !VerbThenSpace(s, verbs[k])
    ensures StripLeadingVerb(s, verbs) == s
  {
    if verbs != [] {
      assert !VerbThenSpace(s, verbs[0]);
      assert forall k :: 0 <= k < |verbs| - 1 ==> verbs[1..][k] == verbs[k + 1];
      StripLeadingVerbNoMatch(s, verbs[1..]);
    }
  }

  /** The first verb that matches is removed together with the white space after it. */
  lemma {:induction false} StripLeadingVerbFirstMatch(s: string, verbs: seq<string>, k: nat)
    requires k < |verbs| && VerbThenSpace(s, verbs[k])
    requires forall j :: 0 <= j < k ==> !VerbThenSpace(s, verbs[j])
    ensures StripLeadingVerb(s, verbs) == TrimStart(s[|verbs[k]|..])
  {
    if k > 0 {
      assert !VerbThenSpace(s, verbs[0]);
      assert forall j :: 0 <= j < k - 1 ==> verbs[1..][j] == verbs[j + 1];
      StripLeadingVerbFirstMatch(s, verbs[1..], k - 1);
    }
  }

  /** No goal verb is a prefix of another, so at most one of them can match. */
  lemma GoalVerbUnique(s: string, j: nat, k: nat)
    requires j < |GoalVerbs| && k < |GoalVerbs|
    requires VerbThenSpace(s, GoalVerbs[j]) && VerbThenSpace(s, GoalVerbs[k])
    ensures j == k
  {
    var u, v := GoalVerbs[j], GoalVerbs[k];
    assert s[0] == u[0] && s[2] == u[2] by { assert s[..|u|][0] == s[0] && s[..|u|][2] == s[2]; }
    assert s[0] == v[0] && s[2] == v[2] by { assert s[..|v|][0] == s[0] && s[..|v|][2] == s[2]; }
  }

  /** `extractMainGoal`: lower-case the text, strip one leading goal verb that
      is followed by white space, then trim. */
  function ExtractMainGoal(text: string): (r: string)
    ensures NoUpperAscii(r) && IsTrimmed(r)
  {
    var stripped := StripLeadingVerb(ToLower(text), GoalVerbs);
    assert NoUpperAscii(stripped) by {
      var s := ToLower(text);
      forall i | 0 <= i < |stripped| ensures !IsUpperAscii(stripped[i]) {
        assert stripped[i] == s[|s| - |stripped| + i];
      }
    }
    TrimNoUpper(stripped);
    Trim(stripped)
  }

  /** A text that starts with a goal verb and white space loses both, and is trimmed. */
  lemma ExtractMainGoalStripsVerb(text: string, k: nat)
    requires k < |GoalVerbs| && VerbThenSpace(ToLower(text), GoalVerbs[k])
    ensures ExtractMainGoal(text) == Trim(ToLower(text)[|GoalVerbs[k]|..])
  {
    var s := ToLower(text);
    forall j | 0 <= j < k ensures !VerbThenSpace(s, GoalVerbs[j]) {
      if VerbThenSpace(s, GoalVerbs[j]) {
        GoalVerbUnique(s, j, k);
      }
    }
    StripLeadingVerbFirstMatch(s, GoalVerbs, k);
    TrimSkipsLeadingSpace(s[|GoalVerbs[k]|..]);
  }

  /** A text that does not start with a goal verb and white space is only lower-cased and trimmed. */
  lemma ExtractMainGoalKeepsText(text: string)
    requires forall k :: 0 <= k < |GoalVerbs| ==> !VerbThenSpace(ToLower(text), GoalVerbs[k])
    ensures ExtractMainGoal(text) == Trim(ToLower(text))
  {
    StripLeadingVerbNoMatch(ToLower(text), GoalVerbs);
  }

  // ---------------------------------------------------------------- topic

  /** The words that are not stop words, in their original order. */
  function MeaningfulWords(words: seq<string>): (r: seq<string>)
    ensures forall k :: 0 <= k < |r| ==> r[k] in words && r[k] !in StopWords
    ensures forall w :: w in words && w !in StopWords ==> w in r
  {
    if words == [] then []
    else
      var rest := MeaningfulWords(words[1..]);
      assert forall w :: w in words[1..] ==> w in words;
      assert forall w :: w in words ==> w == words[0] || w in words[1..];
      (if words[0] in StopWords then [] else [words[0]]) + rest
  }

  /** Filtering commutes with concatenation, so the kept words keep their order. */
  lemma {:induction false} MeaningfulWordsAppend(xs: seq<string>, ys: seq<string>)
    ensures MeaningfulWords(xs + ys) == MeaningfulWords(xs) + MeaningfulWords(ys)
  {
    if xs == [] {
      assert xs + ys == ys;
    } else {
      assert (xs + ys)[1..] == xs[1..] + ys;
      MeaningfulWordsAppend(xs[1..], ys);
    }
  }

  /** The lower-cased text's single-space-separated words that are not stop words. */
  function TopicWords(text: string): seq<string> {
    MeaningfulWords(Split(ToLower(text), ' '))
  }

  /** `slice(0, 3)`: at most the first three elements. */
  function FirstThree(words: seq<string>): (r: seq<string>)
    ensures |r| <= 3 && |r| <= |words| && r == words[..|r|]
    ensures |words| >= 3 ==> |r| == 3
    ensures |words| < 3 ==> r == words
  {
    if |words| < 3 then words else words[..3]
  }

  /** `extractTopic`: the first three topic words joined by single spaces. */
  function ExtractTopic(text: string): (r: string)
    ensures TopicWords(text) == [] ==> r == ""
    ensures TopicWords(text) != [] ==>
      var first := TopicWords(text)[0]; |first| <= |r| && r[..|first|] == first
  {
    var w := FirstThree(TopicWords(text));
    if |w| >= 2 then
      JoinFirst(w, " ");
      Join(w, " ")
    else Join(w, " ")
  }

  /** The topic is empty when no word is kept; otherwise splitting it on spaces
      gives back exactly the first (at most three) topic words. */
  lemma ExtractTopicWords(text: string)
    ensures TopicWords(text) == [] ==> ExtractTopic(text) == ""
    ensures TopicWords(text) != [] ==> Split(ExtractTopic(text), ' ') == FirstThree(TopicWords(text))
  {
    var w := FirstThree(TopicWords(text));
    if w != [] {
      forall k | 0 <= k < |w| ensures ' ' !in w[k] {
        assert w[k] in Split(ToLower(text), ' ');
      }
      SplitJoin(w, ' ');
    }
  }

  // ------------------------------------------------------- capitalisation

  /** `capitalizeFirst`: upper-case the first character, keep the rest. */
  function CapitalizeFirst(text: string): (r: string)
    ensures |r| == |text|
    ensures forall i :: 1 <= i < |text| ==> r[i] == text[i]
    ensures text != [] ==> !IsLowerAscii(r[0])
  {
    if text == [] then [] else [ToUpperChar(text[0])] + text[1..]
  }

  /** Capitalising changes the case of one letter only: the lower-cased texts agree. */
  lemma CapitalizeFirstSameLetters(text: string)
    ensures ToLower(CapitalizeFirst(text)) == ToLower(text)
  {
    var r := CapitalizeFirst(text);
    forall i | 0 <= i < |text| ensures ToLower(r)[i] == ToLower(text)[i] {
      ToLowerAt(r, i);
      ToLowerAt(text, i);
    }
  }

  /** Capitalising an already capitalised text changes nothing. */
  lemma CapitalizeFirstIdempotent(text: string)
    ensures CapitalizeFirst(CapitalizeFirst(text)) == CapitalizeFirst(text)
  {
  }

  // ---------------------------------------------------------- UI mention

  /** `keywords.some(k => s.includes(k))`. */
  function ContainsAny(s: string, keywords: seq<string>): (r: bool)
    ensures r <==> exists k :: 0 <= k < |keywords| && Contains(s, keywords[k])
  {
    if keywords == [] then false
    else
      assert forall k :: 1 <= k < |keywords| ==> keywords[k] == keywords[1..][k - 1];
      Contains(s, keywords[0]) || ContainsAny(s, keywords[1..])
  }

  /** `mentionsUI`: some keyword occurs in the lower-cased text. */
  function MentionsUI(text: string): (r: bool)
    ensures r <==> exists k :: 0 <= k < |UIKeywords| && Contains(ToLower(text), UIKeywords[k])
  {
    ContainsAny(ToLower(text), UIKeywords)
  }

  /** A UI mention is a plain substring occurrence of a keyword, not a whole word. */
  lemma MentionsUIIff(text: string)
    ensures MentionsUI(text) <==>
      exists k: nat, i: nat :: k < |UIKeywords| && OccursAt(ToLower(text), UIKeywords[k], i)
  {
    var s := ToLower(text);
    forall k | 0 <= k < |UIKeywords| {
      ContainsIff(s, UIKeywords[k]);
    }
  }

  /** Adding text on either side never loses a UI mention. */
  lemma MentionsUIExtends(a: string, b: string)
    requires MentionsUI(a)
    ensures MentionsUI(a + b) && MentionsUI(b + a)
  {
    var k :| 0 <= k < |UIKeywords| && Contains(ToLower(a), UIKeywords[k]);
    ToLowerAppend(a, b);
    ToLowerAppend(b, a);
    ContainsInfix([], ToLower(a), ToLower(b));
    assert [] + ToLower(a) + ToLower(b) == ToLower(a + b);
    ContainsTransitive(ToLower(a + b), ToLower(a), UIKeywords[k]);
    ContainsInfix(ToLower(b), ToLower(a), []);
    assert ToLower(b) + ToLower(a) + [] == ToLower(b + a);
    ContainsTransitive(ToLower(b + a), ToLower(a), UIKeywords[k]);
  }
}
