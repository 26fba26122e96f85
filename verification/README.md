# ai114 recommendation pipeline in Dafny

A Dafny model of the deterministic core of the ai114 "AI work coach" service. The service reads
a description of a repetitive office task and then:

1. asks the user to clarify the request when it is too vague (`clarification.ts`);
2. recommends the five best AI tools from a catalogue and estimates the hours saved
   (`recommendation.ts`);
3. picks which language-model engine, Gemini or OpenAI, should write the coaching report
   (`ai-engine-selector.ts`);
4. writes a coaching report locally when the language model is not asked. There are two
   versions: a quick generic one (`generateFallbackCoaching` in `gemini.ts`) and a
   category-specific one built from templates (`fallback-templates.ts`). The model also
   covers the clean-up a model reply goes through before it is parsed as JSON
   (`parseJSONResponse`).

Module layout, one file per module:

| file | module | models |
|---|---|---|
| `recommendation.dfy` | `Recommendation` | keyword extraction, tool scoring, category inference, ranking, automation level, time saving |
| `recommendation_tables.dfy` | `RecommendationTables` | `KEYWORD_MAPPINGS`, `categoryKeywords`, `CATEGORY_HINT_MAPPING`, `CATEGORY_PREFERRED_TOOLS` |
| `clarification.dfy` | `Clarification` | `analyzeForClarification`, `calculateAmbiguityScore`, `extractBasicKeywords`, `applyClarificationChoice` |
| `clarification_tables.dfy` | `ClarificationTables` | `AMBIGUOUS_PATTERNS`, `COMPOUND_AMBIGUITY_PATTERNS` and the regular expressions of the score |
| `engine_selector.dfy` | `EngineSelector` | `analyzeComplexity`, `analyzeCreativityNeed`, `selectAIEngine` and its two preference tables |
| `coaching.dfy` | `Coaching` | report records, `generateFallbackCoaching`, the fence stripping of `parseJSONResponse` |
| `fallback_tables.dfy` | `FallbackTables` | `CATEGORY_TEMPLATES` and the `conclusions` table |
| `fallback_templates.dfy` | `FallbackTemplates` | `generateCategoryFallbackCoaching`, `customizeWorkflowWithTools`, `generateLearningRoadmap`, `generateConclusion`, `AVAILABLE_CATEGORIES` |
| `catalog.dfy` | `Catalog` | the catalogue tool and recommendation records of `types.ts` |
| `text.dfy` | `Text` | the JavaScript string operations used: `includes`, `startsWith`, `toLowerCase`, `trim`, `split`, `join`, `indexOf`, `replace` |
| `patterns.dfy` | `Patterns` | the regular expressions, all alternations of literal words or `a.*b` chains |
| `numerals.dfy` | `Numerals` | `String(x)` for the printed hours and percentages, with a reader for them |
| `records.dfy` | `Records` | object literals used as lookup tables, including repeated keys |
| `sorting.dfy` | `Sorting` | the stable descending `sort` and `slice(0, n)` |
| `collections.dfy`, `wrappers.dfy` | `Collections`, `Wrappers` | `filter`, `Set`-style de-duplication, `Option`/`Result` |

Conventions:

- Hours are held as integer tenths. `Math.round` is `Recommendation.RoundDiv`, which rounds
  halves up.
- `String(x)` of a tenths value prints `32` as "3.2" and `40` as "4".
- A JavaScript object literal is an ordered list of entries. When a key is repeated, the
  entry keeps the position of its first occurrence and the value of its last, as
  `Object.entries` reports it. `KEYWORD_MAPPINGS` repeats the trigger "트렌드".
- Case-insensitive matching (`toLowerCase`, the `/i` flag) folds ASCII letters only.
- The Korean prose of the templates (titles, tips, action items) is kept as opaque tags. The
  model does keep the real tool names, addresses, step numbers, learning focus and every text
  the code inspects or fills in (placeholders, printed numbers, tool names).
- `JSON.parse` is a parameter, `parse: string -> Option<CoachingResult>`. `None` stands for
  a parse that throws.
- The seed catalogue stores a tool's `keywords` and `use_cases` as JSON array text. The code
  splits both fields on commas, and the model follows the code.

## Model

| member | source | states |
|---|---|---|
| Recommendation.Harvest | src/lib/recommendation.ts:202-206 | walking the trigger table adds exactly the keywords of the entries whose trigger occurs in the lower-cased text, keeps earlier keywords in front, and adds no duplicate |
| Recommendation.ExtractFrom | src/lib/recommendation.ts:198-209 | over any trigger table, the result has no duplicates and holds a word iff some entry whose trigger occurs in the lower-cased text lists it |
| Recommendation.ExtractKeywords | src/lib/recommendation.ts:198-209 | the keywords of `KEYWORD_MAPPINGS` (collapsed as `Object.entries` reports it) whose trigger occurs in the lower-cased text, each once |
| Recommendation.CapitalTriggersNeverFire | src/lib/recommendation.ts:200-203 | a trigger containing an ASCII capital never occurs in the lower-cased text, so its keywords are never added |
| Recommendation.ExtractIgnoresCase | src/lib/recommendation.ts:200 | extraction gives the same keywords for a text and for its lower-cased form |
| Recommendation.MatchLoop | src/lib/recommendation.ts:219-224 | the keyword loop records, in order, exactly the keywords some tag contains or is contained in, and adds 3 points for each |
| Recommendation.CalculateToolScore | src/lib/recommendation.ts:212-244 | score = 5·rating + 3 per matched keyword + the beginner bonus (3/1/0) + the price bonus (2/1/0) + popularity/50, and the matched keywords are the keywords overlapping a trimmed comma-separated tag |
| Recommendation.EmptyTagMatchesAll | src/lib/recommendation.ts:218-220 | a tool whose tag list holds an empty tag (empty text, stray comma) matches every keyword |
| Recommendation.LastMax | src/lib/recommendation.ts:306 | the `reduce` with `a[1] > b[1] ? a : b` picks a position of maximal score, and on ties the last one |
| Recommendation.InferCategoryIndex | src/lib/recommendation.ts:247-308 | the inferred category has the highest evidence count, and no later category has as many |
| Recommendation.InferCategoryWithoutEvidence | src/lib/recommendation.ts:248-269 | with no keyword of any category's list, all counts are 0 and the last category, "다목적", is chosen |
| Recommendation.InferCategory | src/lib/recommendation.ts:247-308 | the name of the category at `InferCategoryIndex`; it carries no ensures of its own, and its contract is carried by `InferCategoryIndex` (a highest evidence count, the last such category on ties) and `InferCategoryWithoutEvidence` |
| Recommendation.FullAndSemiWithinLength | src/lib/recommendation.ts:312-313 | the full and semi counts together never exceed the number of tools |
| Recommendation.DetermineAutomationLevel | src/lib/recommendation.ts:311-318 | full iff at least three tools are fully automatic; assist iff fewer than three are full or semi; fewer than three tools always give assist |
| Recommendation.RoundDiv | src/lib/recommendation.ts:332-333 | `Math.round(n/d)`: the integer nearest to n/d, halves rounded up |
| Recommendation.CalculateTimeSaving | src/lib/recommendation.ts:321-340 | the percentage is 80/60/30 by level; the saved tenths are the level's share of the hours rounded half up; saved + new = the estimate; the saving lies between 0 and the estimate |
| Recommendation.SavingMonotone | src/lib/recommendation.ts:331-332 | more estimated hours never save less |
| Recommendation.SavingOrderedByLevel | src/lib/recommendation.ts:325-332 | assist saves no more than semi, and semi no more than full |
| Recommendation.ReasonShape | src/lib/recommendation.ts:343-353 | without matched keywords the reason is the main use case with the "useful" tail; otherwise it opens with the quoted first keyword and closes on the main use case with the "optimised" tail |
| Recommendation.ReasonSeesTwoKeywords | src/lib/recommendation.ts:349 | only the first two matched keywords can change the reason |
| Recommendation.GenerateReason | src/lib/recommendation.ts:343-353 | no ensures of its own; its contract is carried by `ReasonShape` (both template shapes, with the use-case fallback) and `ReasonSeesTwoKeywords` (only two keywords are quoted) |
| Recommendation.TaskKeywords | src/lib/recommendation.ts:415-423 | the task keywords have no duplicates, keep the extracted keywords in front, and are exactly the extracted keywords plus the hint's extra keywords |
| Recommendation.ResolveCategory | src/lib/recommendation.ts:426 | a present, non-empty category hint is the category as given; an absent or empty hint falls back to the inferred category |
| Recommendation.MergeKeepsOrder | src/lib/recommendation.ts:421 | `[...new Set([...base, ...extras])]` for a duplicate-free base is the base followed by the new extras in first-seen order |
| Recommendation.PreferredIndex | src/lib/recommendation.ts:453-455 | `findIndex`: the first preferred name that overlaps the tool name ignoring case; none iff no preferred name does |
| Recommendation.RankBonus | src/lib/recommendation.ts:457-459 | no ensures of its own; its contract is carried by `RankBonusRange` and `RankBonusMonotone` |
| Recommendation.RankBonusRange | src/lib/recommendation.ts:457-459 | `Math.max(40 - 5 * index, 10)`: between 10 and 40, 40 − 5·index up to the seventh preferred name, 10 from there on |
| Recommendation.RankBonusMonotone | src/lib/recommendation.ts:457-459 | a name further down the preferred list never earns a larger bonus |
| Recommendation.CategoryBonus | src/lib/recommendation.ts:445-450 | no ensures of its own; its contract is carried by `CategoryBonusIff` |
| Recommendation.CategoryBonusIff | src/lib/recommendation.ts:445-450 | the bonus is 0 or 30, and 30 iff a category hint was given and the tool's category is related to the category |
| Recommendation.PreferenceBonus | src/lib/recommendation.ts:453-460 | no ensures of its own; its contract is carried by `PreferenceBonusIff` |
| Recommendation.PreferenceBonusIff | src/lib/recommendation.ts:453-460 | the bonus lies between 0 and 40; it is 0 iff no preferred name overlaps the tool's name, and 40 iff the first one does |
| Recommendation.ExtraLoop | src/lib/recommendation.ts:463-473 | every extra keyword that overlaps a lower-cased tag adds 5 points, repeats included |
| Recommendation.ExtraLoopRecords | src/lib/recommendation.ts:468-470 | the extra-keyword loop records the matching extras not already recorded, in order, after the earlier matches |
| Recommendation.ScoreTool | src/lib/recommendation.ts:439-480 | an entry's score is the base score plus the category bonus, the preference bonus and 5 per matching extra keyword; its keywords extend the base matches |
| Recommendation.ScoreToolMatched | src/lib/recommendation.ts:440-470 | an entry records a keyword iff it is a task keyword overlapping a tag, or an extra keyword overlapping a tag ignoring case |
| Recommendation.RankAll | src/lib/recommendation.ts:437-481 | one entry per active tool |
| Recommendation.Ranking | src/lib/recommendation.ts:437-481 | the ranking has as many entries as the catalogue has active tools |
| Recommendation.RankAllHas | src/lib/recommendation.ts:437-481 | every active tool's entry appears in the ranking |
| Recommendation.RankAllEntries | src/lib/recommendation.ts:437-481 | every ranking entry is the scored entry of an active tool |
| Recommendation.RankingMembers | src/lib/recommendation.ts:437-481 | an entry is ranked iff it is the scored entry of an active catalogue tool |
| Recommendation.RecommendTools | src/lib/recommendation.ts:408-498 | the hint's category wins over the inferred one; at most five tools, sorted by non-increasing score; the level and the saving are computed from the tools kept |
| Recommendation.RecommendedAreRanked | src/lib/recommendation.ts:437-483 | each recommended entry is the scored entry of an active catalogue tool, for the request's keywords and category |
| Recommendation.TopEntries | src/lib/recommendation.ts:482-483 | what survives the sort and cut is still the entry of an active catalogue tool |
| Recommendation.TopFiveDominates | src/lib/recommendation.ts:482-483 | an active tool left out of the five scores no higher than any tool kept |
| Recommendation.RankingTopDominates | src/lib/recommendation.ts:482-483 | over a ranking, a left-out entry scores no higher than every kept one |
| Recommendation.TiesKeepCatalogueOrder | src/lib/recommendation.ts:482 | the stable sort keeps equal-score entries in catalogue order: the kept entries with a given score are the first such entries of the ranking |
| Recommendation.EmptyCatalogue | src/lib/recommendation.ts:486-489 | with no tools nothing is recommended, the level is assist, and the saving is 30% |
| Clarification.CompoundHits | src/lib/clarification.ts:289-296 | a compound entry yields a hit iff all its patterns match; every hit comes from such an entry |
| Clarification.SingleScan | src/lib/clarification.ts:299-311 | the single scan only appends; every matching entry's question ends up asked; every new hit comes from a matching entry; it never asks a question twice |
| Clarification.ScanDistinct | src/lib/clarification.ts:303-304 | when no two entries share a question, the repeat check never skips a match, and the scan equals the plain list of matching entries |
| Clarification.TableIdsDistinct | src/lib/clarification.ts:28-224 | the twelve entries of `AMBIGUOUS_PATTERNS` ask twelve different questions |
| Clarification.Detect | src/lib/clarification.ts:288-311 | the single entries are scanned only when no compound entry matched, so the questions are distinct unless compound entries matched |
| Clarification.AmbiguityScore | src/lib/clarification.ts:257-276 | the score lies in 0..100; it is at least 20 per match (capped); five matches give 100; a text under 30 characters adds 20; a long text naming a tool without a vague wish scores exactly its matches |
| Clarification.ExtractBasicKeywords | src/lib/clarification.ts:329-345 | a listed word is returned iff the text contains it, case-sensitively; no word twice; the words come in list order |
| Clarification.BasicKeywordsDistinct | src/lib/clarification.ts:330-335 | the 26 listed words are pairwise distinct |
| Collections.FilterOrdered | src/lib/clarification.ts:337-341 | filtering a list without repeats keeps it without repeats and keeps the list's order |
| Clarification.AnalyzeForClarification | src/lib/clarification.ts:279-326 | the ambiguities are those of all hits, the questions the first two; clarification is needed iff a question was found and the score reaches 30 |
| Clarification.DetectCompoundFirst | src/lib/clarification.ts:289-299 | a text matching a compound entry gets only compound questions |
| Clarification.DetectSingles | src/lib/clarification.ts:299-311 | with no compound match and distinct questions, the hits are exactly the matching single entries in table order |
| Clarification.DetectJustified | src/lib/clarification.ts:288-311 | every hit comes from an entry that matched; without a compound match every matching single entry's question is asked |
| Clarification.CompoundPriority | src/lib/clarification.ts:289-299 | over the real tables, a compound match shuts out every single question |
| Clarification.NoCompoundSingles | src/lib/clarification.ts:299-311 | over the real tables, without a compound match the hits are the matching single entries |
| Clarification.NeedsIff | src/lib/clarification.ts:257-276 | one hit or more and a score of at least 30 iff one hit or more and a second hit, a text under 50 characters, no named tool, or a vague wish |
| Clarification.NeedsClarificationIff | src/lib/clarification.ts:319-320 | `needs_clarification` iff there is a hit and one of those four conditions holds |
| Clarification.ApplyClarificationChoice | src/lib/clarification.ts:348-363 | the job text is unchanged; the request is the old request followed by ` [구체화: label]`; the option's keywords and category pass through |
| Clarification.StripChoice | src/lib/clarification.ts:357-361 | recovers the request from one ending in the note, and fails iff the note is missing |
| Clarification.ChoiceRoundTrip | src/lib/clarification.ts:357-361 | stripping the note after applying a choice gives back the original request |
| EngineSelector.AnalyzeComplexity | src/lib/ai-engine-selector.ts:84-103 | the score is the length points (20 above 200 characters, 10 above 100, else 0), 10 per technical term and 10 for a counted number; complex iff ≥ 40, simple iff < 20; 0 iff the text has at most 100 characters, no technical term and no counted number |
| EngineSelector.ComplexityZero | src/lib/ai-engine-selector.ts:84-103 | no complexity points iff the text is short and names no technical term in either case and no counted number |
| EngineSelector.FourTermsComplex | src/lib/ai-engine-selector.ts:92-100 | four technical terms make any text complex |
| EngineSelector.AnalyzeCreativityNeed | src/lib/ai-engine-selector.ts:106-120 | the score is exactly 15 per creative term plus 10 per marketing term, so a multiple of 5; high iff ≥ 30, low iff < 15; 0 iff no such term |
| EngineSelector.CreativityZero | src/lib/ai-engine-selector.ts:106-120 | no creativity points iff no creative or marketing term occurs, in either case |
| EngineSelector.TwoCreativeTermsHigh | src/lib/ai-engine-selector.ts:109-117 | two creative terms always give a high need |
| EngineSelector.AddKeyword | src/lib/ai-engine-selector.ts:156-162 | recording a keyword keeps the two engines' totals equal to the weights of the recorded keywords |
| EngineSelector.ListPass | src/lib/ai-engine-selector.ts:154-164 | the first loop records the listed keywords that have a preference, repeats included, and each engine's total is the sum of their weights for it |
| EngineSelector.TextPass | src/lib/ai-engine-selector.ts:167-177 | the second loop adds each preference key the text contains that is not yet recorded, keeping the totals equal to the recorded weights |
| EngineSelector.CountKeywords | src/lib/ai-engine-selector.ts:149-177 | the two loops compute the reference tally: the listed preference keywords, then the new keys found in the text |
| EngineSelector.Tally | src/lib/ai-engine-selector.ts:149-177 | the reference definition of the keyword tally; no ensures of its own: `CountKeywords` shows that the two loops compute it, and `TallyRecordsOnce` states what it records |
| EngineSelector.TallyRecordsOnce | src/lib/ai-engine-selector.ts:154-177 | a keyword is recorded iff it has a preference and the list names it or the text contains it; a listed keyword is recorded exactly as often as the list names it; a keyword the list does not name is recorded at most once |
| EngineSelector.CapitalKeysOnlyFromList | src/lib/ai-engine-selector.ts:167-170 | 'API' and 'SNS' are never found in the lower-cased text, so they are recorded iff the keyword list names them |
| EngineSelector.CategoryFactor | src/lib/ai-engine-selector.ts:133-147 | a factor exists iff the category has a preference; its weight and engine are the table entry's (a positive weight), and its description is the category, ": " and the entry's reason |
| EngineSelector.KeywordFactor | src/lib/ai-engine-selector.ts:179-191 | a factor exists iff a keyword was recorded; its weight is the larger total; it is neutral iff the totals tie, and otherwise favours the larger side |
| EngineSelector.ComplexityFactor | src/lib/ai-engine-selector.ts:193-211 | no factor iff the complexity is medium; complex favours OpenAI and simple favours Gemini; weight 15 from score 40 up, else 5 |
| EngineSelector.CreativityFactor | src/lib/ai-engine-selector.ts:213-231 | no factor iff the need is medium; high favours Gemini and low favours OpenAI; weight 20 from score 30 up, else 10 |
| EngineSelector.Present | src/lib/ai-engine-selector.ts:129 | the factor list holds exactly the factors the stages produced |
| EngineSelector.EnginePoints | src/lib/ai-engine-selector.ts:133-231 | no ensures of its own; its contract is carried by `EnginePointsFromFactors` |
| EngineSelector.EnginePointsFromFactors | src/lib/ai-engine-selector.ts:133-231 | an engine's points are the total weight of the stage factors that favour it, plus its own keyword points when the keyword factor does not favour it |
| EngineSelector.Confidence | src/lib/ai-engine-selector.ts:234-237 | 50 when no points were given or on a tie; otherwise the winner's share in percent, rounded half up; always between 50 and 100 |
| EngineSelector.TopFactors | src/lib/ai-engine-selector.ts:240-244 | two factors, or all of them when fewer favour the winner; each favours the winner; heaviest first |
| EngineSelector.TopFactorsHeaviest | src/lib/ai-engine-selector.ts:240-244 | a factor for the winner that is left out weighs no more than any kept one |
| EngineSelector.GeneralReasonIff | src/lib/ai-engine-selector.ts:246-248 | over any factors: no factor for the winner gives the general text, and a factor for the winner means at least one factor is quoted; when every description has a character the general text lacks, the general text is given iff no factor favours the winner |
| EngineSelector.StageReasonIff | src/lib/ai-engine-selector.ts:240-248 | over the factors the four stages produce, the reason is the general text iff no factor favours the engine |
| EngineSelector.SelectAIEngine | src/lib/ai-engine-selector.ts:123-256 | Gemini iff its points are at least OpenAI's; the confidence is the winner's rounded share; the factors are the four stages' factors in order; the reason is the winner's prefix and its top factors' descriptions |
| EngineSelector.ReasonQuotesHeaviest | src/lib/ai-engine-selector.ts:240-248 | a winning-side factor the reason leaves out weighs no more than each one it quotes |
| EngineSelector.EmptyRequestPrefersOpenAI | src/lib/ai-engine-selector.ts:123-256 | example: an empty request in a category without a preference goes to OpenAI with confidence 67, for the analytical-request reason |
| EngineSelector.EmptyRequestStages | src/lib/ai-engine-selector.ts:193-231 | example: for the one-space text only the complexity (Gemini 5) and creativity (OpenAI 10) stages speak |
| EngineSelector.ShortTextScoresNothing | src/lib/ai-engine-selector.ts:84-120 | example: a one-space text scores 0 for complexity and creativity |
| EngineSelector.NoKeyInSpace | src/lib/ai-engine-selector.ts:45-81 | example: no preference key occurs in a one-space text |
| Coaching.FirstGiven | src/lib/gemini.ts:260-291 | chained `||` over optional texts: the first present, non-empty candidate, else the fallback |
| Coaching.ReadSavingPrinted | src/lib/gemini.ts:311 | the printed `efficiency_gain` text reads back as the saved hours and the percentage it was printed from |
| Coaching.ReadBetweenPrinted | src/lib/gemini.ts:309-310 | an hour count printed between two fixed texts reads back exactly |
| Coaching.QuickRoadmap | src/lib/gemini.ts:313-319 | the first three tools, in order, with priorities 1..3, their names and reasons, and the quick learning time for their difficulty |
| Coaching.QuickWorkflow | src/lib/gemini.ts:256-302 | three steps numbered 1 to 3 |
| Coaching.HoursText | src/lib/gemini.ts:309-310 | the `before` and `after` texts, of both reports, read back as the hour count they print |
| Coaching.SavingText | src/lib/gemini.ts:311 | an `efficiency_gain` text reads back as the saved hours and the percentage it prints, whatever follows them |
| Coaching.GenerateFallbackCoaching | src/lib/gemini.ts:242-322 | three numbered workflow steps; a roadmap of the first three tools; time texts that read back as the estimate, the hours left, the saving and the percentage; a summary that opens with the name, task and category and closes with the percentage saved |
| Coaching.QuickStepTools | src/lib/gemini.ts:260-291 | step 1 names the best tool or else ChatGPT; steps 2 and 3 name the second and third tools, else the best tool, else "AI 도구" |
| Coaching.QuickStepUrls | src/lib/gemini.ts:260-291 | step 1 links to the best tool's address, else ChatGPT's; steps 2 and 3 link to the second and third tools' addresses, else the best tool's, else nothing |
| Coaching.QuickConclusion | src/lib/gemini.ts:320 | the conclusion opens with the name, quotes the task, and names the tool to start with: the best tool, or "첫 번째 추천 도구" when there is none or it has no name |
| Coaching.StripFences | src/lib/gemini.ts:199-208 | the text handed to `JSON.parse` has no white space at either end and is no longer than the reply |
| Coaching.UnfencedOnlyTrimmed | src/lib/gemini.ts:199-208 | a reply with no fence at either end is only trimmed |
| Coaching.JsonFenceRoundTrip | src/lib/gemini.ts:199-208 | a body wrapped in a json code fence, with white space around it, comes out as the trimmed body |
| Coaching.BareFenceRoundTrip | src/lib/gemini.ts:202-208 | a body wrapped in a bare code fence (three backticks) comes out trimmed, unless the body starts with "json" |
| Coaching.FencedReplyParsed | src/lib/gemini.ts:197-217 | a fenced reply is parsed from its trimmed body; if the parser rejects it, the error is "Failed to parse AI response as JSON" |
| Coaching.ParseJSONResponse | src/lib/gemini.ts:197-217 | no ensures of its own; its contract is carried by `FencedReplyParsed` (a fenced reply is parsed from its trimmed body, else the parse error) and by `StripFences` |
| FallbackTables.TableWellFormed | src/lib/fallback-templates.ts:22-1012 | every template is filed under its own category, has five steps numbered 1 to 5, and a summary that opens with `${name}` and has no other `$` |
| FallbackTemplates.AvailableCategoriesListed | src/lib/fallback-templates.ts:1144 | `AVAILABLE_CATEGORIES` are the eleven template categories in source order, '문서작성' first |
| FallbackTemplates.TemplateDefault | src/lib/fallback-templates.ts:1033 | a category without a template gets the '문서작성' one; the recommender's '로컬파일분석', '웹데이터분석', '오디오편집' and '다목적' have no template |
| FallbackTemplates.TemplatesWellFormed | src/lib/fallback-templates.ts:1033 | whatever the category, the chosen template has five steps numbered 1 to 5 and a well-shaped summary |
| FallbackTemplates.TemplateFor | src/lib/fallback-templates.ts:1033 | no ensures of its own; its contract is carried by `TemplateDefault` (own template, else '문서작성') and `TemplatesWellFormed` |
| FallbackTemplates.FindMatching | src/lib/fallback-templates.ts:1078-1082 | `find`: the first tool with the same name, a category mentioning the step's tool, or a name the step's tool mentions; none iff no tool fits |
| FallbackTemplates.CustomizeStep | src/lib/fallback-templates.ts:1076-1106 | customising a step changes at most its tool name, address and tip |
| FallbackTemplates.CustomizeWorkflowWithTools | src/lib/fallback-templates.ts:1068-1107 | the workflow keeps its length and order, and each step changes only its tool name, address and tip |
| FallbackTemplates.CustomizeMatched | src/lib/fallback-templates.ts:1085-1092 | a step some tool fits is taken over by the first such tool, keeping its own address when that tool has none |
| FallbackTemplates.CustomizeUnmatched | src/lib/fallback-templates.ts:1094-1105 | a step no tool fits takes the tool at its own position, with an empty fallback address, when there is one, and is otherwise unchanged; the `toolNames.includes` test never decides |
| FallbackTemplates.CustomizeWithoutTools | src/lib/fallback-templates.ts:1068-1107 | with no recommended tools the workflow is unchanged |
| FallbackTemplates.CustomizedToolsFromList | src/lib/fallback-templates.ts:1085-1105 | every customised step names its template tool or one of the recommended tools |
| FallbackTemplates.GenerateLearningRoadmap | src/lib/fallback-templates.ts:1110-1122 | the first three tools in order, with priorities 1..3 and reasons; each resource text starts with the tool's name and ends with the focus area at its position or "관련 온라인 강의"; learning time by difficulty |
| FallbackTemplates.GenerateConclusion | src/lib/fallback-templates.ts:1125-1141 | the remark starts with the person's name and mentions the tool to start with |
| FallbackTemplates.ConclusionDefault | src/lib/fallback-templates.ts:1126-1140 | the remarks cover exactly the template categories, and an unknown category gets the '문서작성' remark |
| FallbackTemplates.ConclusionFor | src/lib/fallback-templates.ts:1140 | no ensures of its own; its contract is carried by `ConclusionDefault` (an unknown category gets the '문서작성' remark) |
| FallbackTemplates.NoDollarNoPlaceholder | src/lib/fallback-templates.ts:1046-1048 | text without `$` contains no `${...}` placeholder, so `replace` leaves it alone |
| FallbackTemplates.SummaryFilled | src/lib/fallback-templates.ts:1046-1048 | for a name without `$`, the summary is the name followed by the template text; no template mentions `${job_description}` |
| FallbackTemplates.FillSummary | src/lib/fallback-templates.ts:1046-1048 | no ensures of its own; its contract is carried by `SummaryFilled` (the name followed by the template text) |
| FallbackTemplates.GenerateCategoryFallbackCoaching | src/lib/fallback-templates.ts:1018-1065 | the report follows the category's template: same number of steps, changes only in tool, address and tip, the template's tips, a roadmap of at most three tools, time texts that read back as the numbers, a summary opening with the name, and a conclusion opening with the name |
| FallbackTemplates.CategoryReportTools | src/lib/fallback-templates.ts:1036-1063 | only the first five tools reach the workflow; the conclusion names the best tool, or "AI 도구" when there is none |
| FallbackTemplates.UnknownCategoryReport | src/lib/fallback-templates.ts:1033-1063 | an unknown category is written up as '문서작성' would be, except for the category named in the efficiency text |
| Records.Collapse | src/lib/recommendation.ts:43-195 | a literal with repeated keys has each key once, at its first position, with its last value |
| Records.Lookup | src/lib/fallback-templates.ts:1033 | `obj[k]` finds a value iff the key is present, and returns that key's entry |
| Text.SplitTrim | src/lib/recommendation.ts:218 | `split(',').map(trim)`: one trimmed piece per comma-separated piece |
| Text.SplitJoin | src/lib/recommendation.ts:218 | splitting undoes joining when no piece contains the separator |
| Text.TrimPadded | src/lib/gemini.ts:199 | white space around a text does not survive `trim` |
| Text.Lower | src/lib/recommendation.ts:200 | `toLowerCase` keeps the length, maps each character, and leaves no ASCII capital |
| Numerals.TenthsRoundTrip | src/lib/gemini.ts:309-311 | the printed hour count reads back as the tenths it was printed from |
| Patterns.TestWords | src/lib/ai-engine-selector.ts:92 | a pattern of plain words matches iff one of its words occurs |
| Patterns.CountMatchesIZero | src/lib/ai-engine-selector.ts:93-94 | `match(...)` finds nothing iff no word occurs, ignoring case |
| Sorting.SortDesc | src/lib/recommendation.ts:482 | the sort is a permutation of its input, ordered by non-increasing score |
| Sorting.SortStable | src/lib/recommendation.ts:482 | equal scores keep their input order |
| Sorting.TopDominates | src/lib/recommendation.ts:483 | an element cut by `slice(0, n)` has a key no greater than any kept one |

## Left out

- `callGeminiAPI`, `buildCoachingPrompt` and `generateAICoaching` (src/lib/gemini.ts:55-194, 220-239): these are network calls to the Gemini API and prompt text for it.
- `JSON.parse` is a parameter. Only the fence clean-up in front of it is modelled.
- The `console.log`/`console.error` calls are left out. They have no effect on results.
- `ENGINE_OPTIONS` (src/lib/ai-engine-selector.ts:259-276) is left out. It is display data that the selection does not use.
- `src/index.tsx` is not part of this model. It holds the HTTP routes, the database, the `|| 4` default for hours, and the calls into the core.
- The Korean prose of the templates and reports is replaced by tags. The engine only copies it, never inspects it.
- `Recommendation.CalculateTimeSaving`: the saving is computed exactly in tenths. The floating-point artefacts of `estimatedHours * rate * 10` are not modelled.
- `Recommendation.CalculateTimeSaving` also assumes the estimate has at most one decimal place.
- `Numerals.TenthsString` prints only plain decimals. JavaScript's exponent notation for very large or very small numbers is not modelled.
- `Text.Lower` folds ASCII letters only. JavaScript's full Unicode case mapping is not modelled, because every trigger and key the code matches is either ASCII or Hangul, and Hangul has no case.
- Strings are sequences of code points, not UTF-16 units. The only length test, `text.length` in the two analyses, is therefore off for characters outside the Basic Multilingual Plane.
- `Records.Lookup` does not model inherited prototype keys such as `"constructor"`. In JavaScript those make `obj[k]` truthy for keys that are not in the table.
- `FallbackTemplates.FillSummary` does not model the special `$&`, `` $` `` and `$'` patterns in the replacement text of `String.prototype.replace`. `SummaryFilled` assumes a name without `$` for this reason.
- The `g` flag on regular expressions is dropped. Each expression is used once with `match`, or with `test` on a fresh literal, so its `lastIndex` state never carries over.
- `Recommendation.RecommendTools`: the `estimatedHours = 4` default of the signature (src/lib/recommendation.ts:412) is not modelled. The hours are always passed explicitly, so a caller that omits them must pass 40 tenths.
- `EngineSelector.Confidence`: the share is computed exactly as `RoundDiv(100 * w, t)`. JavaScript computes `Math.round((w / t) * 100)` in doubles, which can differ at a half: for w = 23 and t = 40 it rounds 57.49999999999999 to 57, where the model gives 58.
- `Recommendation.TiesKeepCatalogueOrder`: tool scores are exact rationals (`real`), so two scores tie exactly when their rational values are equal. In JavaScript the scores are doubles, and sums such as `popularity / 50` can round so that a tie is broken, or a near-tie becomes one; the ordering under such rounding is not modelled.
