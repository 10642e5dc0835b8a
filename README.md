# Prompt enhancer, modelled in Dafny

The prompt enhancer (`PromptEnhancer` in `script.js`) turns a short request
into a structured prompt. `enhance(text, type)`:

- returns `null` when the text is missing or blank;
- otherwise looks `type` up in a table of five strategies (code, creative,
  analysis, business, general), falling back to the general strategy;
- applies that strategy to the trimmed text.

Each strategy pushes a fixed list of lines and joins them with newlines.
Every list opens with `**Title**: value`, where the value echoes the text.
The code strategy echoes `Create a <goal>`, the goal being the lower-cased
text without a leading verb. The other strategies echo the text with its
first letter capitalised. The code strategy adds a UI/UX block when the text
mentions a user interface. The creative strategy closes with an audience
line that names the first three meaningful words of the text.

`calculateMetrics` rates an enhanced prompt:

- a clarity score from its structure;
- a detail level from its length relative to the original;
- its character count.

The model has five modules, one per file:

- `JsString` (`js_string.dfy`): the ECMAScript string operations the source
  relies on — `trim`, the `\s` class, `toLowerCase`/`toUpperCase`,
  `includes`, `split` and `join`.
- `Heuristics` (`heuristics.dfy`): `extractMainGoal`, `extractTopic`,
  `capitalizeFirst` and `mentionsUI`.
- `Templates` (`templates.dfy`): the five `enhance*Prompt` strategies.
  - Each pushed line is a `Line` value: a lead line, a heading, a field, a
    bullet or a plain line. Its title (`TitleText`) and fixed phrase
    (`Wording`) are held as the source writes them.
  - `Spell` produces the exact characters the source pushes.
  - `Lines(c, x)` is the list a strategy pushes. `x` holds what the strategy
    takes from the text: the goal, the UI test, the capitalised text and the
    topic.
  - `Strategy(c, text)` joins the spelled lines with `"\n"`.
- `Enhancer` (`enhancer.dfy`): the strategy table, as a `Category` datatype
  and a `Lookup` from keys, and `enhance`. A missing text or type is `None`.
- `Metrics` (`metrics.dfy`): `calculateMetrics`, as a method proved against
  the function `MetricsOf`.

The source has no mutable state: the table is built once and the strategies
only read their argument. So the class becomes datatypes and functions. The
one imperative step is `calculateMetrics`, which reassigns `detailLevel` in
an `if` chain; it stays a method.

Two edge cases of the detail level, as the code decides them:

- Exactly ten times the original's length is "High": the test is strict
  (`> 10`) (`Metrics.DetailLevelStrictAtTen`).
- An empty original is well defined in JavaScript, and the model follows
  JavaScript (`Metrics.DetailLevelEmptyOriginal`):
  - a non-empty enhancement of an empty original is `Infinity` times longer,
    which gives "Very High";
  - an empty enhancement of an empty original is `NaN` times longer, which
    gives "Low".

## Model

| member | source | states |
|---|---|---|
| JsString.IsSpace | script.js:14 | the ECMAScript white-space and line-terminator characters that `trim` removes and `\s` matches (a definition; its properties are those of `LeadingSpace`, `TrailingSpace` and `Trim`) |
| JsString.ToLower | script.js:179 | lower-casing keeps the length and leaves no upper-case letter |
| JsString.ToLowerIdempotent | script.js:179 | lower-casing twice is lower-casing once |
| JsString.ToLowerAppend | script.js:199 | lower-casing distributes over concatenation |
| JsString.ContainsIff | script.js:199 | `includes` holds exactly when the substring occurs at some index |
| JsString.ContainsTransitive | script.js:199 | an occurrence of an occurrence is an occurrence |
| JsString.ContainsInfix | script.js:199 | a string contains whatever sits between a prefix and a suffix of it |
| JsString.Contains | script.js:199 | `includes`: a match is never longer than the string, and a prefix is always found (the full characterisation is `ContainsIff`) |
| JsString.LeadingSpace | script.js:14 | counts the leading white-space run: all white space, and the next character is not |
| JsString.TrailingSpace | script.js:14 | counts the trailing white-space run: all white space, and the character before it is not |
| JsString.TrimStart | script.js:180 | removes the leading white-space run: what it drops is all white space, and what it keeps is a suffix of the input that does not start with white space |
| JsString.Trim | script.js:14 | `trim` returns an infix whose surroundings are all white space, with no white space at either end |
| JsString.TrimEmptyIff | script.js:14 | `trim()` is empty exactly when the text is all white space |
| JsString.TrimNoUpper | script.js:181 | trimming a text without upper-case letters keeps it free of them |
| JsString.TrimOfTrimmed | script.js:19 | a trimmed text trims to itself |
| JsString.TrimSkipsLeadingSpace | script.js:180-181 | removing leading white space first does not change `trim` |
| JsString.Split | script.js:187 | `split` gives at least one piece and no piece holds the separator |
| JsString.JoinSplit | script.js:187 | joining the pieces of a split with the separator restores the string |
| JsString.SplitJoin | script.js:190 | splitting a join of separator-free pieces restores the pieces |
| JsString.SplitNoSeparator | script.js:187 | a string without the separator splits into itself |
| JsString.SplitAtSeparator | script.js:187 | a separator ends the first piece |
| JsString.Join | script.js:52 | `join`: no pieces give the empty string; otherwise the result is as long as the pieces plus one separator between each two |
| JsString.JoinAppend | script.js:52 | joining a concatenation joins the two halves with the separator between them |
| JsString.JoinContainsPiece | script.js:52 | every joined piece appears in the result |
| JsString.JoinFirst | script.js:52 | with two pieces or more, the join starts with the first piece and the separator |
| JsString.JoinLast | script.js:82 | with two pieces or more, the join ends with the separator and the last piece |
| JsString.JoinContainsSeparator | script.js:52 | with two pieces or more, the separator appears in the join |
| Heuristics.StripLeadingVerb | script.js:180 | the leading-verb replacement leaves a suffix of its input |
| Heuristics.StripLeadingVerbNoMatch | script.js:180 | when no verb and white space lead the text, nothing is removed |
| Heuristics.StripLeadingVerbFirstMatch | script.js:180 | the first verb that matches is removed with the white-space run after it |
| Heuristics.GoalVerbUnique | script.js:180 | at most one goal verb can match, so the alternatives' order is immaterial |
| Heuristics.ExtractMainGoal | script.js:177-183 | the goal has no upper-case letter and no white space at either end |
| Heuristics.ExtractMainGoalStripsVerb | script.js:177-183 | a text that starts with a goal verb and white space loses both and is trimmed |
| Heuristics.ExtractMainGoalKeepsText | script.js:177-183 | any other text is only lower-cased and trimmed |
| Heuristics.MeaningfulWords | script.js:188-189 | the kept words are exactly the words that are not stop words |
| Heuristics.MeaningfulWordsAppend | script.js:189 | filtering commutes with concatenation, so the order is kept |
| Heuristics.FirstThree | script.js:190 | `slice(0, 3)` is the first three words, or all of them when there are fewer |
| Heuristics.ExtractTopicWords | script.js:185-191 | the topic is empty when no word is kept; otherwise splitting it on spaces gives the first (at most) three kept words |
| Heuristics.ExtractTopic | script.js:185-191 | the topic is empty when no word is kept, and otherwise starts with the first kept word |
| Heuristics.CapitalizeFirst | script.js:193-195 | same length, same tail, and the first character is not a lower-case letter |
| Heuristics.CapitalizeFirstSameLetters | script.js:193-195 | capitalising changes no letter other than by case |
| Heuristics.CapitalizeFirstIdempotent | script.js:193-195 | capitalising twice is capitalising once |
| Heuristics.ContainsAny | script.js:199 | `some(includes)` holds exactly when some keyword is contained |
| Heuristics.MentionsUI | script.js:197-200 | a UI mention holds exactly when one of the eight keywords is contained in the lower-cased text |
| Heuristics.MentionsUIIff | script.js:197-200 | a UI mention is a substring occurrence of a keyword in the lower-cased text, not a whole-word match |
| Heuristics.MentionsUIExtends | script.js:197-200 | text added on either side never removes a UI mention |
| Templates.CodeLines | script.js:22-53 | the task line is `Create a <goal>`, the UI/UX heading is pushed exactly when the UI test holds, every other line is fixed template text, and there are 15 lines plus 5 for the UI block |
| Templates.CreativeLines | script.js:55-83 | 18 lines: the brief echoes the capitalised text, the last line is the audience field naming the topic, and every line between is fixed; no UI/UX heading |
| Templates.AnalysisLines | script.js:85-116 | 22 lines: the objective echoes the capitalised text and every other line is fixed; no UI/UX heading |
| Templates.BusinessLines | script.js:118-149 | 22 lines: the objective echoes the capitalised text and every other line is fixed; no UI/UX heading |
| Templates.GeneralLines | script.js:151-174 | 14 lines: the request echoes the capitalised text and every other line is fixed; no UI/UX heading |
| Templates.Strategy | script.js:52 | a strategy's output is its spelled lines joined with newlines (a definition; what it promises is stated by the `Strategy…` lemmas below) |
| Templates.LinesShape | script.js:22-174 | every strategy's list opens with its lead line and holds a bullet |
| Templates.RenderedOpening | script.js:52 | the joined lines start with the first line and a newline |
| Templates.RenderedStructure | script.js:52 | joined lines with a lead line and a bullet contain `**`, a newline and `-` |
| Templates.StrategyOpening | script.js:22-174 | every strategy's output starts with `**Title**: value` and a newline |
| Templates.StrategyEchoesText | script.js:25 | the output contains the goal (code) or the capitalised text (the other strategies) |
| Templates.StrategyIsStructured | script.js:22-174 | every strategy's output contains `**`, a newline and `-` |
| Templates.CodeUIBlockIsTheOnlyDifference | script.js:22-53 | the UI block is inserted after the requirements, and nothing else changes |
| Templates.CodeUIRendered | script.js:33-39 | when the UI test holds, the joined code prompt contains the UI/UX heading |
| Templates.StrategyCodeUI | script.js:33-39 | the code strategy pushes the UI/UX heading exactly when the text mentions a UI, and the output then contains it |
| Templates.StrategyCodeUIOnlyDifference | script.js:22-53 | two texts with the same goal, one mentioning a UI and one not, get code lines that differ only by the UI block |
| Templates.CreativeEndsWithAudience | script.js:80-82 | the creative prompt ends with a newline and the audience line |
| Enhancer.Lookup | script.js:18 | a non-general result is selected by its own key |
| Enhancer.LookupKeyOf | script.js:4-10 | every strategy is found under its key |
| Enhancer.LookupUnknown | script.js:18 | a type that is not a key selects the general strategy |
| Enhancer.KeyOrDefault | script.js:13 | a given type is used as is, and a missing type selects the general strategy |
| Enhancer.Enhance | script.js:13-20 | `null` exactly for a missing or all-white-space text; otherwise the selected strategy applied to the trimmed text |
| Enhancer.EnhanceUnknownTypeIsGeneral | script.js:13-18 | an unknown type, `'general'` and no type give the same result |
| Enhancer.EnhanceIgnoresSurroundingSpace | script.js:14-19 | white space around the text never changes the result |
| Enhancer.EnhanceDispatches | script.js:18-19 | a non-blank text under a strategy's key gets that strategy |
| Enhancer.EnhanceOpening | script.js:19 | every enhanced prompt opens with its strategy's title and the echoed trimmed text |
| Enhancer.EnhanceEchoesText | script.js:19 | every enhanced prompt contains the goal (code) or the capitalised trimmed text |
| Enhancer.TableEntry | script.js:18 | property access finds an own strategy under its key, an inherited member under its name, or nothing |
| Enhancer.SelectedAsWritten | script.js:18 | as written, the lookup never ends empty-handed, and it returns an inherited member exactly for the `Object.prototype` names |
| Enhancer.InheritedKeyBypassesFallback | script.js:18 | as written, a type naming an `Object.prototype` member selects that member instead of the general strategy |
| Enhancer.SelectedAsWrittenElsewhere | script.js:18 | on every other type, the source's lookup agrees with `Lookup` |
| Metrics.RatioExceeds | script.js:212-216 | `enhanced / original > k` as JavaScript evaluates it, including `Infinity` and `NaN`; exceeding any threshold needs a non-empty enhancement |
| Metrics.DetailLevel | script.js:212-216 | the level is one of the four names, and an enhancement at most four times the original's length is "Low" |
| Metrics.MetricsOf | script.js:202-221 | clarity is "95%" exactly when the prompt has bold markers, a newline and a dash, else "75%"; the level is one of four and "Low" up to four times the original's length; the count is the enhanced length |
| Metrics.CalculateMetrics | script.js:202-223 | the method computes exactly `MetricsOf`: clarity from structure, the detail bucket, the character count |
| Metrics.RatioExceedsIff | script.js:212-216 | for a non-empty original, the ratio test `e / o > k` is `e > k·o` |
| Metrics.DetailLevelBuckets | script.js:212-216 | the detail level by whole-number comparisons, for every original length including zero |
| Metrics.DetailLevelEmptyOriginal | script.js:212-216 | an empty original gives "Very High" (`Infinity`) unless the enhancement is empty too ("Low", `NaN`) |
| Metrics.DetailLevelMonotone | script.js:212-216 | a longer enhancement never gets a lower detail level |
| Metrics.DetailLevelStrictAtTen | script.js:214 | exactly ten times longer is "High", not "Very High" |
| Metrics.EnhancedIsClear | script.js:207-209 | every prompt `enhance` returns scores "95%" for clarity |
| Metrics.MetricsDependOnLengthsOnly | script.js:202-221 | only the original's length matters, and the count is the enhanced length |

## Left out

- Case mapping covers ASCII letters only. `toLowerCase` and `toUpperCase` also map other scripts, and some mappings change the length (`'ß'` upper-cases to `"SS"`).
- Lengths count Unicode scalar values, as Dafny's `char` does. JavaScript counts UTF-16 code units, so a character outside the Basic Multilingual Plane counts once here and twice in the source. The same goes for `charAt(0)` in `capitalizeFirst`.
- `enhancedLength / originalLength` is exact rational division here, not floating point. String lengths are far below 2^50, and for such lengths a quotient above 10, 7 or 4 never rounds down to the threshold, so the buckets agree.
- `enhance` arguments other than strings, `null` or `undefined` (numbers, objects) are not modelled. A missing text or type is `None`.
- Enhancer.TableEntry: a type naming an inherited member (`toString`, `constructor`, `__proto__`, …) is recorded as selecting that member. What calling it then does is not modelled: it throws a `TypeError`, returns `"[object Undefined]"` or returns a `String` object, depending on the member.
- Templates.StrategyCodeUI: the converse at the level of the output text is not stated. That the UI/UX heading is pushed exactly when the text mentions a UI is proved at the level of the pushed lines, in the contract of `CodeLines`.
- Templates.CreativeEndsWithAudience: stated for the extracted values `x`. `Extract(text).topic` is `ExtractTopic(text)` by definition.
- No lemma evaluates a concrete prompt from start to finish. Every property is stated for all inputs.
- The page code after the class (lines 225 and on: DOM handlers, formatting, copying, examples) is not part of this model.

## Findings

| source | as written | input that shows it | evidently intended | confidence | as-written member | corrected member |
|---|---|---|---|---|---|---|
| script.js:18 | `this.strategies[type] \|\| this.strategies.general` also finds members every object inherits from `Object.prototype`, so the fallback is skipped | type `"toString"` (also `"constructor"`, `"__proto__"`, `"valueOf"`, …) | a type that is not one of the five keys uses the general strategy | not executed | Enhancer.InheritedKeyBypassesFallback | Enhancer.LookupUnknown |
