/** The deterministic recommendation engine (recommendation.ts): keywords from the task text, a
    task category, a score for every active catalogue tool, the five best tools, the automation
    level they reach and the hours that saves. */
module Recommendation {
  import opened Wrappers
  import opened Collections
  import opened Text
  import opened Records
  import opened Sorting
  import opened Catalog
  import opened RecommendationTables

  // ---------------------------------------------------------------------------
  // extractKeywords

  /** The keyword table as `Object.entries` lists it: the repeated trigger "트렌드" keeps its
      first position and the list written second. */
  function KeywordMappings(): seq<(string, seq<string>)> {
    Collapse(KeywordMappingsAsWritten)
  }

  /** `w` is listed by some entry of `table` whose trigger occurs in `lowered`. */
  ghost predicate Fires(table: seq<(string, seq<string>)>, lowered: string, w: string) {
    exists i :: 0 <= i < |table| && Contains(lowered, table[i].0) && w in table[i].1
  }

  /** Walks the table in order and adds the keywords of every entry whose trigger occurs. */
  function Harvest(acc: seq<string>, table: seq<(string, seq<string>)>, lowered: string): (r: seq<string>)
    ensures NoDup(acc) ==> NoDup(r)
    ensures acc <= r
    ensures forall w :: w in r <==> w in acc || Fires(table, lowered, w)
    decreases |table|
  {
    if |table| == 0 then acc
    else
      var next := if Contains(lowered, table[0].0) then AppendNew(acc, table[0].1) else acc;
      var r := Harvest(next, table[1..], lowered);
      assert forall w :: Fires(table, lowered, w) <==>
                         (Contains(lowered, table[0].0) && w in table[0].1) || Fires(table[1..], lowered, w) by {
        forall w | Fires(table[1..], lowered, w) ensures Fires(table, lowered, w) {
          var i :| 0 <= i < |table[1..]| && Contains(lowered, table[1..][i].0) && w in table[1..][i].1;
          assert table[1..][i] == table[i + 1];
        }
        forall w | Fires(table, lowered, w) && !(Contains(lowered, table[0].0) && w in table[0].1)
          ensures Fires(table[1..], lowered, w)
        {
          var i :| 0 <= i < |table| && Contains(lowered, table[i].0) && w in table[i].1;
          assert table[1..][i - 1] == table[i];
        }
      }
      r
  }

  /** `extractKeywords` over any trigger table: the keywords of every entry whose trigger occurs
      in the lower-cased text, each once. */
  function ExtractFrom(table: seq<(string, seq<string>)>, text: string): (r: seq<string>)
    ensures NoDup(r)
    ensures forall w :: w in r <==> Fires(table, Lower(text), w)
  {
    Harvest([], table, Lower(text))
  }

  function ExtractKeywords(text: string): (r: seq<string>)
    ensures NoDup(r)
    ensures forall w :: w in r <==> Fires(KeywordMappings(), Lower(text), w)
  {
    ExtractFrom(KeywordMappings(), text)
  }

  /** The text is lower-cased but the triggers are not, so a trigger holding an ASCII capital
      ("PPT", "SNS", "CSV", "Python", "AI성우", ...) never fires, whatever the text. */
  lemma CapitalTriggersNeverFire(table: seq<(string, seq<string>)>, text: string, i: nat)
    requires i < |table| && HasUpperAscii(table[i].0)
    ensures !Contains(Lower(text), table[i].0)
  {
    LowerHidesUpper(text, table[i].0);
  }

  /** Extraction ignores ASCII case in the text. */
  lemma ExtractIgnoresCase(text: string)
    ensures ExtractKeywords(Lower(text)) == ExtractKeywords(text)
  {
    LowerIdempotent(text);
  }

  // ---------------------------------------------------------------------------
  // calculateToolScore

  /** The tool's tags: its comma-separated `keywords`, each trimmed. */
  function Tags(tool: Tool): seq<string> {
    SplitTrim(tool.keywords, ',')
  }

  /** One text contains the other. */
  predicate Overlaps(a: string, b: string) {
    Contains(a, b) || Contains(b, a)
  }

  /** Some tag contains `k` or is contained in it. */
  predicate MatchesTag(tags: seq<string>, k: string) {
    exists j {:trigger Overlaps(tags[j], k)} :: 0 <= j < |tags| && Overlaps(tags[j], k)
  }

  function TagMatcher(tags: seq<string>): string -> bool {
    k => MatchesTag(tags, k)
  }

  datatype ToolScore = ToolScore(score: real, matched: seq<string>)

  /** The keyword loop: 3 points and a record for every keyword matching a tag. */
  function MatchLoop(tags: seq<string>, keywords: seq<string>, score: real, matched: seq<string>): (r: ToolScore)
    ensures r.matched == matched + Filter(keywords, TagMatcher(tags))
    ensures r.score == score + 3.0 * (|r.matched| - |matched|) as real
    decreases |keywords|
  {
    if |keywords| == 0 then ToolScore(score, matched)
    else if MatchesTag(tags, keywords[0]) then
      var k := keywords[0];
      assert matched + [k] + Filter(keywords[1..], TagMatcher(tags))
          == matched + ([k] + Filter(keywords[1..], TagMatcher(tags)));
      MatchLoop(tags, keywords[1..], score + 3.0, matched + [k])
    else
      MatchLoop(tags, keywords[1..], score, matched)
  }

  function DifficultyBonus(d: Difficulty): real {
    match d
    case Beginner => 3.0
    case Intermediate => 1.0
    case Advanced => 0.0
  }

  function PricingBonus(p: Pricing): real {
    match p
    case Free => 2.0
    case Freemium => 1.0
    case Paid => 0.0
  }

  /** `calculateToolScore(tool, keywords)`: five points per rating point, three per matched
      keyword, the beginner and price bonuses and a fiftieth of the popularity. */
  function CalculateToolScore(tool: Tool, keywords: seq<string>): (s: ToolScore)
    ensures s.matched == Filter(keywords, TagMatcher(Tags(tool)))
    ensures s.score == 5.0 * tool.rating + 3.0 * |s.matched| as real
                       + DifficultyBonus(tool.difficulty) + PricingBonus(tool.pricing)
                       + tool.popularity as real / 50.0
  {
    var loop := MatchLoop(Tags(tool), keywords, tool.rating * 5.0, []);
    assert [] + Filter(keywords, TagMatcher(Tags(tool))) == Filter(keywords, TagMatcher(Tags(tool)));
    ToolScore(loop.score + DifficultyBonus(tool.difficulty) + PricingBonus(tool.pricing)
              + tool.popularity as real / 50.0, loop.matched)
  }

  /** An empty tag (keywords text that is empty, or has a stray comma) is contained in every
      keyword, so such a tool matches every keyword it is scored against. */
  lemma EmptyTagMatchesAll(tool: Tool, keywords: seq<string>)
    requires "" in Tags(tool)
    ensures CalculateToolScore(tool, keywords).matched == keywords
  {
    var tags := Tags(tool);
    var j :| 0 <= j < |tags| && tags[j] == "";
    forall i | 0 <= i < |keywords| ensures TagMatcher(tags)(keywords[i]) {
      assert "" <= keywords[i];
      assert Overlaps(tags[j], keywords[i]);
    }
    FilterAll(keywords, TagMatcher(tags));
  }

  // ---------------------------------------------------------------------------
  // inferCategory

  function InList(ws: seq<string>): string -> bool {
    k => k in ws
  }

  /** `categoryScores` after the counting loop: per category, how many of the keywords it lists. */
  function CategoryScores(keywords: seq<string>): seq<int> {
    seq(|CategoryKeywords|, i requires 0 <= i < |CategoryKeywords| => CountWhere(keywords, InList(CategoryKeywords[i].1)))
  }

  /** `reduce((a, b) => a[1] > b[1] ? a : b)` over the first `n` scores. The running best is only
      kept when strictly greater, so among equal maxima the last one wins. */
  function LastMax(scores: seq<int>, n: nat): (k: nat)
    requires 1 <= n <= |scores|
    ensures k < n
    ensures forall j :: 0 <= j < n ==> scores[j] <= scores[k]
    ensures forall j :: k < j < n ==> scores[j] < scores[k]
    decreases n
  {
    if n == 1 then 0
    else
      var a := LastMax(scores, n - 1);
      if scores[a] > scores[n - 1] then a else n - 1
  }

  /** Position of the category `inferCategory` picks: a highest score, and the last of them. */
  function InferCategoryIndex(keywords: seq<string>): (k: nat)
    ensures k < |CategoryKeywords|
    ensures forall j :: 0 <= j < |CategoryKeywords| ==> CategoryScores(keywords)[j] <= CategoryScores(keywords)[k]
    ensures forall j :: k < j < |CategoryKeywords| ==> CategoryScores(keywords)[j] < CategoryScores(keywords)[k]
  {
    LastMax(CategoryScores(keywords), |CategoryKeywords|)
  }

  function InferCategory(keywords: seq<string>): string {
    CategoryKeywords[InferCategoryIndex(keywords)].0
  }

  /** With no evidence for any category every score is 0, and the last category, "다목적", wins. */
  lemma InferCategoryWithoutEvidence(keywords: seq<string>)
    requires forall i, w :: 0 <= i < |CategoryKeywords| && w in keywords ==> w !in CategoryKeywords[i].1
    ensures InferCategory(keywords) == "다목적"
  {
    var scores := CategoryScores(keywords);
    forall i | 0 <= i < |CategoryKeywords| ensures scores[i] == 0 {
      forall j | 0 <= j < |keywords| ensures !InList(CategoryKeywords[i].1)(keywords[j]) {
        assert keywords[j] in keywords;
      }
      CountWhereExtremes(keywords, InList(CategoryKeywords[i].1));
    }
    var k := InferCategoryIndex(keywords);
    assert scores[k] == 0 && scores[|CategoryKeywords| - 1] == 0;
  }

  // ---------------------------------------------------------------------------
  // determineAutomationLevel

  function LevelIs(l: Level): RecommendedTool -> bool {
    (rt: RecommendedTool) => rt.tool.automationLevel == l
  }

  function CountLevel(tools: seq<RecommendedTool>, l: Level): nat {
    CountWhere(tools, LevelIs(l))
  }

  lemma {:induction false} FullAndSemiWithinLength(tools: seq<RecommendedTool>)
    ensures CountLevel(tools, Full) + CountLevel(tools, Semi) <= |tools|
    decreases |tools|
  {
    if |tools| > 0 {
      FullAndSemiWithinLength(tools[1..]);
    }
  }

  /** Full automation when three tools automate fully; semi when three at least partly do. */
  function DetermineAutomationLevel(tools: seq<RecommendedTool>): (l: Level)
    ensures l == Full <==> CountLevel(tools, Full) >= 3
    ensures l == Assist <==> CountLevel(tools, Full) + CountLevel(tools, Semi) < 3
    ensures |tools| < 3 ==> l == Assist
  {
    FullAndSemiWithinLength(tools);
    var full := CountLevel(tools, Full);
    var semi := CountLevel(tools, Semi);
    if full >= 3 then Full else if full + semi >= 3 then Semi else Assist
  }

  // ---------------------------------------------------------------------------
  // calculateTimeSaving

  /** `Math.round(n / d)`: the nearest integer, halves rounded up. */
  function RoundDiv(n: int, d: int): (r: int)
    requires d > 0
    ensures 2 * d * r <= 2 * n + d < 2 * d * r + 2 * d
  {
    var q := (2 * n + d) / (2 * d);
    assert 2 * n + d == (2 * d) * q + (2 * n + d) % (2 * d);
    q
  }

  /** `savingsRate`, in percent. */
  function RatePercent(l: Level): int {
    match l
    case Full => 80
    case Semi => 60
    case Assist => 30
  }

  /** `calculateTimeSaving` with hours given in tenths: the saving is the level's share of the
      hours rounded to a tenth, and what is left is the rest. */
  function CalculateTimeSaving(hoursTenths: int, l: Level): (ts: TimeSaving)
    ensures ts.percentage == RatePercent(l)
    ensures 100 * ts.savedTenths - 50 <= hoursTenths * RatePercent(l) < 100 * ts.savedTenths + 50
    ensures ts.savedTenths + ts.newTenths == hoursTenths
    ensures 0 <= hoursTenths ==> 0 <= ts.savedTenths <= hoursTenths
  {
    var pct := RatePercent(l);
    var saved := RoundDiv(hoursTenths * pct, 100);
    TimeSaving(RoundDiv(pct * 100, 100), saved, RoundDiv((hoursTenths - saved) * 10, 10))
  }

  /** More hours never save less time. */
  lemma SavingMonotone(h1: int, h2: int, l: Level)
    requires h1 <= h2
    ensures CalculateTimeSaving(h1, l).savedTenths <= CalculateTimeSaving(h2, l).savedTenths
  {
    var s1 := CalculateTimeSaving(h1, l).savedTenths;
    var s2 := CalculateTimeSaving(h2, l).savedTenths;
    assert h1 * RatePercent(l) <= h2 * RatePercent(l);
    assert 100 * s1 - 50 < 100 * s2 + 50;
  }

  /** A higher automation level never saves less time. */
  lemma SavingOrderedByLevel(h: int)
    requires h >= 0
    ensures CalculateTimeSaving(h, Assist).savedTenths <= CalculateTimeSaving(h, Semi).savedTenths
    ensures CalculateTimeSaving(h, Semi).savedTenths <= CalculateTimeSaving(h, Full).savedTenths
  {
    var a := CalculateTimeSaving(h, Assist).savedTenths;
    var s := CalculateTimeSaving(h, Semi).savedTenths;
    var f := CalculateTimeSaving(h, Full).savedTenths;
    assert h * 30 <= h * 60 <= h * 80;
    assert 100 * a - 50 < 100 * s + 50;
    assert 100 * s - 50 < 100 * f + 50;
  }

  // ---------------------------------------------------------------------------
  // generateReason

  /** `useCases[0] || tool.description`: the first trimmed use case, or the description when that
      is empty. */
  function MainUseCase(tool: Tool): string {
    var first := SplitTrim(tool.useCases, ',')[0];
    if first != "" then first else tool.description
  }

  const KeywordQuote := "\""
  const RelatedTail := "\" 키워드와 관련된 "
  const OptimisedTail := "에 최적화된 도구입니다."
  const UsefulTail := "에 유용한 도구입니다."

  /** `generateReason`: names the main use case and quotes at most the first two matched keywords. */
  function GenerateReason(tool: Tool, matched: seq<string>): string {
    if |matched| > 0 then
      KeywordQuote + Join(Take(matched, 2), ", ") + (RelatedTail + MainUseCase(tool) + OptimisedTail)
    else
      MainUseCase(tool) + UsefulTail
  }

  /** With matched keywords the reason opens with the first one, quoted, and closes on the use
      case; without, it only names the use case. */
  lemma ReasonShape(tool: Tool, matched: seq<string>)
    ensures |matched| == 0 ==> GenerateReason(tool, matched) == MainUseCase(tool) + UsefulTail
    ensures |matched| > 0 ==> StartsWith(GenerateReason(tool, matched), KeywordQuote + matched[0])
    ensures |matched| > 0 ==> EndsWith(GenerateReason(tool, matched), RelatedTail + MainUseCase(tool) + OptimisedTail)
  {
    if |matched| > 0 {
      var quoted := Join(Take(matched, 2), ", ");
      assert matched[0] <= quoted;
      Affixes(KeywordQuote, matched[0], quoted, RelatedTail + MainUseCase(tool) + OptimisedTail);
    }
  }

  /** Only the first two matched keywords reach the reason. */
  lemma ReasonSeesTwoKeywords(tool: Tool, m1: seq<string>, m2: seq<string>)
    requires Take(m1, 2) == Take(m2, 2) && |m1| > 0
    ensures GenerateReason(tool, m1) == GenerateReason(tool, m2)
  {
    assert |m2| > 0;
  }

  // ---------------------------------------------------------------------------
  // recommendTools

  /** What the clarification step hands over (`ClarificationHint`); both parts may be absent. */
  datatype ClarificationHint = ClarificationHint(categoryHint: Option<string>, additionalKeywords: Option<seq<string>>)

  /** `hint?.category_hint` when it is truthy, i.e. present and not empty. */
  function GivenCategory(hint: Option<ClarificationHint>): Option<string> {
    if hint.Some? && hint.value.categoryHint.Some? && hint.value.categoryHint.value != "" then
      hint.value.categoryHint
    else None
  }

  /** `hint?.additional_keywords`, an absent list read as empty (the loops over it then do nothing). */
  function Extras(hint: Option<ClarificationHint>): seq<string> {
    if hint.Some? && hint.value.additionalKeywords.Some? then hint.value.additionalKeywords.value else []
  }

  /** Step 1: the keywords of the combined text, then the hint's extra keywords not yet present. */
  function TaskKeywords(jobDescription: string, automationRequest: string, hint: Option<ClarificationHint>): (ks: seq<string>)
    ensures NoDup(ks)
    ensures ExtractKeywords(CombinedText(jobDescription, automationRequest)) <= ks
    ensures forall w :: w in ks <==> w in ExtractKeywords(CombinedText(jobDescription, automationRequest)) || w in Extras(hint)
  {
    var base := ExtractKeywords(CombinedText(jobDescription, automationRequest));
    var extras := Extras(hint);
    if |extras| > 0 then
      MergeKeepsOrder(base, extras);
      Distinct(base + extras)
    else base
  }

  /** `[...new Set([...base, ...extras])]` for a duplicate-free `base` keeps `base` in front. */
  lemma MergeKeepsOrder(base: seq<string>, extras: seq<string>)
    requires NoDup(base)
    ensures Distinct(base + extras) == AppendNew(base, extras)
  {
    AppendNewConcat([], base, extras);
    assert [] + base == base;
    AppendNewKeepsDistinct([], base);
  }

  /** Step 2: the hint's category when given, otherwise the inferred one. */
  function ResolveCategory(keywords: seq<string>, hint: Option<ClarificationHint>): (r: string)
    ensures hint.Some? && hint.value.categoryHint.Some? && hint.value.categoryHint.value != "" ==>
      r == hint.value.categoryHint.value
    ensures hint.None? || hint.value.categoryHint.None? || hint.value.categoryHint == Some("") ==>
      r == InferCategory(keywords)
  {
    match GivenCategory(hint)
    case Some(c) => c
    case None => InferCategory(keywords)
  }

  /** `CATEGORY_PREFERRED_TOOLS[category] || []` */
  function PreferredTools(category: string): seq<string> {
    Lookup(CategoryPreferredTools, category).GetOr([])
  }

  /** `CATEGORY_HINT_MAPPING[category] || []` */
  function RelatedCategories(category: string): seq<string> {
    Lookup(CategoryHintMapping, category).GetOr([])
  }

  /** Tool name and preferred name overlap, ignoring ASCII case. */
  predicate NameMatches(name: string, preferred: string) {
    Overlaps(Lower(name), Lower(preferred))
  }

  /** `preferredTools.findIndex(...)` for the tool named `name`. */
  function PreferredIndex(preferred: seq<string>, name: string): (r: Option<nat>)
    ensures r.Some? ==> r.value < |preferred| && NameMatches(name, preferred[r.value])
    ensures r.Some? ==> forall j :: 0 <= j < r.value ==> !NameMatches(name, preferred[j])
    ensures r.None? <==> forall j :: 0 <= j < |preferred| ==> !NameMatches(name, preferred[j])
    decreases |preferred|
  {
    if |preferred| == 0 then None
    else if NameMatches(name, preferred[0]) then Some(0)
    else
      match PreferredIndex(preferred[1..], name)
      case Some(i) =>
        assert forall j :: 1 <= j < i + 1 ==> preferred[j] == preferred[1..][j - 1];
        Some(i + 1)
      case None =>
        assert forall j :: 1 <= j < |preferred| ==> preferred[j] == preferred[1..][j - 1];
        None
  }

  /** `Math.max(40 - 5 * index, 10)`: 40 for the first preferred name, 5 less per place, at least 10. */
  function RankBonus(index: nat): real {
    var b := 40 - 5 * index;
    (if b > 10 then b else 10) as real
  }

  /** The rank bonus lies between 10 and 40 and drops by 5 per place until the seventh name. */
  lemma RankBonusRange(i: nat)
    ensures 10.0 <= RankBonus(i) <= 40.0
    ensures i <= 6 ==> RankBonus(i) == (40 - 5 * i) as real
    ensures i >= 6 ==> RankBonus(i) == 10.0
  {
  }

  /** A name further down the preferred list never earns more. */
  lemma RankBonusMonotone(i: nat, j: nat)
    requires i <= j
    ensures RankBonus(j) <= RankBonus(i)
  {
  }

  /** What every tool of one request is weighed against, fixed before the tools are scored:
      whether a category was clarified, the tool categories related to the category, its
      preferred tools and the hint's extra keywords. */
  datatype Weights = Weights(hinted: bool, related: seq<string>, preferred: seq<string>, extras: seq<string>)

  function RequestWeights(category: string, hint: Option<ClarificationHint>): Weights {
    Weights(GivenCategory(hint).Some?, RelatedCategories(category), PreferredTools(category), Extras(hint))
  }

  /** The 30 points for a tool whose category the clarified category relates to. */
  function CategoryBonus(tool: Tool, w: Weights): real {
    if w.hinted && tool.category in w.related then 30.0 else 0.0
  }

  /** The bonus for a preferred tool of the category, whether or not the category was clarified. */
  function PreferenceBonus(tool: Tool, w: Weights): real {
    match PreferredIndex(w.preferred, tool.name)
    case Some(i) => RankBonus(i)
    case None => 0.0
  }

  /** The category bonus is 30 points exactly for a tool of a related category when the category
      was clarified, and nothing otherwise. */
  lemma CategoryBonusIff(tool: Tool, w: Weights)
    ensures CategoryBonus(tool, w) == 0.0 || CategoryBonus(tool, w) == 30.0
    ensures CategoryBonus(tool, w) == 30.0 <==> w.hinted && tool.category in w.related
  {
  }

  /** A tool earns a preference bonus iff its name matches a preferred name, and the full 40
      points iff it matches the first one. */
  lemma PreferenceBonusIff(tool: Tool, w: Weights)
    ensures 0.0 <= PreferenceBonus(tool, w) <= 40.0
    ensures PreferenceBonus(tool, w) == 0.0 <==> forall j :: 0 <= j < |w.preferred| ==> !NameMatches(tool.name, w.preferred[j])
    ensures PreferenceBonus(tool, w) == 40.0 <==> |w.preferred| > 0 && NameMatches(tool.name, w.preferred[0])
  {
  }

  /** An extra keyword matches when, lower-cased, it overlaps a lower-cased tag. */
  function ExtraMatcher(lowerTags: seq<string>): string -> bool {
    k => MatchesTag(lowerTags, Lower(k))
  }

  /** The extra-keyword loop: 5 points for every match (a repeated extra keyword scores again),
      and the keyword recorded unless already recorded. */
  function ExtraLoop(lowerTags: seq<string>, extras: seq<string>, score: real, matched: seq<string>): (r: ToolScore)
    ensures r.score == score + 5.0 * CountWhere(extras, ExtraMatcher(lowerTags)) as real
    decreases |extras|
  {
    if |extras| == 0 then ToolScore(score, matched)
    else
      var k := extras[0];
      if MatchesTag(lowerTags, Lower(k)) then
        ExtraLoop(lowerTags, extras[1..], score + 5.0, if k in matched then matched else matched + [k])
      else
        ExtraLoop(lowerTags, extras[1..], score, matched)
  }

  /** The keywords the loop records are those already matched followed by the matching extra
      keywords not yet present, as a set union would give them. */
  lemma {:induction false} ExtraLoopRecords(lowerTags: seq<string>, extras: seq<string>, score: real, matched: seq<string>)
    ensures ExtraLoop(lowerTags, extras, score, matched).matched
         == AppendNew(matched, Filter(extras, ExtraMatcher(lowerTags)))
    decreases |extras|
  {
    if |extras| > 0 {
      var k := extras[0];
      var rest := Filter(extras[1..], ExtraMatcher(lowerTags));
      if MatchesTag(lowerTags, Lower(k)) {
        ExtraLoopRecords(lowerTags, extras[1..], score + 5.0, if k in matched then matched else matched + [k]);
        assert Filter(extras, ExtraMatcher(lowerTags)) == [k] + rest;
        AppendNewCons(matched, k, rest);
      } else {
        ExtraLoopRecords(lowerTags, extras[1..], score, matched);
        assert Filter(extras, ExtraMatcher(lowerTags)) == rest;
      }
    }
  }

  /** The base score with the category and preference bonuses, before the extra keywords. */
  function BonusScore(tool: Tool, keywords: seq<string>, w: Weights): real {
    CalculateToolScore(tool, keywords).score + CategoryBonus(tool, w) + PreferenceBonus(tool, w)
  }

  /** Step 3, one active tool: its base score, the bonuses and the extra keywords. */
  function ScoreTool(tool: Tool, keywords: seq<string>, w: Weights): (rt: RecommendedTool)
    ensures rt.tool == tool
    ensures rt.score == CalculateToolScore(tool, keywords).score
                        + CategoryBonus(tool, w) + PreferenceBonus(tool, w)
                        + 5.0 * CountWhere(w.extras, ExtraMatcher(LowerAll(Tags(tool)))) as real
    ensures CalculateToolScore(tool, keywords).matched <= rt.matchedKeywords
  {
    ExtraLoopRecords(LowerAll(Tags(tool)), w.extras, BonusScore(tool, keywords, w), CalculateToolScore(tool, keywords).matched);
    var s := ExtraLoop(LowerAll(Tags(tool)), w.extras, BonusScore(tool, keywords, w), CalculateToolScore(tool, keywords).matched);
    RecommendedTool(tool, s.score, s.matched)
  }

  /** The keywords an entry records: the task keywords matching a tag, then the extra keywords
      that match a tag once both sides are lower-cased. */
  lemma ScoreToolMatched(tool: Tool, keywords: seq<string>, w: Weights, k: string)
    ensures k in ScoreTool(tool, keywords, w).matchedKeywords <==>
            (k in keywords && MatchesTag(Tags(tool), k))
            || (k in w.extras && MatchesTag(LowerAll(Tags(tool)), Lower(k)))
  {
    var base := CalculateToolScore(tool, keywords).matched;
    ExtraLoopRecords(LowerAll(Tags(tool)), w.extras, BonusScore(tool, keywords, w), base);
    assert ScoreTool(tool, keywords, w).matchedKeywords
        == AppendNew(base, Filter(w.extras, ExtraMatcher(LowerAll(Tags(tool)))));
    MatchedUnion(base, keywords, w.extras, Tags(tool), LowerAll(Tags(tool)), k);
  }

  lemma MatchedUnion(base: seq<string>, keywords: seq<string>, extras: seq<string>, tags: seq<string>,
                     lowerTags: seq<string>, k: string)
    requires base == Filter(keywords, TagMatcher(tags))
    ensures k in AppendNew(base, Filter(extras, ExtraMatcher(lowerTags))) <==>
            (k in keywords && MatchesTag(tags, k)) || (k in extras && MatchesTag(lowerTags, Lower(k)))
  {
    FilterMembers(keywords, TagMatcher(tags));
    FilterMembers(extras, ExtraMatcher(lowerTags));
  }

  /** The `reason` the engine attaches to an entry; it depends only on the tool and the keywords
      the entry matched. */
  function Reason(rt: RecommendedTool): string {
    GenerateReason(rt.tool, rt.matchedKeywords)
  }

  /** The entries of `active`, in order. */
  function RankAll(active: seq<Tool>, keywords: seq<string>, w: Weights): (rs: seq<RecommendedTool>)
    ensures |rs| == |active|
    decreases |active|
  {
    if |active| == 0 then []
    else [ScoreTool(active[0], keywords, w)] + RankAll(active[1..], keywords, w)
  }

  /** Every active tool, in catalogue order, with its entry. */
  function Ranking(tools: seq<Tool>, keywords: seq<string>, w: Weights): (rs: seq<RecommendedTool>)
    ensures |rs| == CountWhere(tools, IsActive)
  {
    RankAll(Filter(tools, IsActive), keywords, w)
  }

  lemma {:induction false} RankAllHas(active: seq<Tool>, keywords: seq<string>, w: Weights, t: Tool)
    requires t in active
    ensures ScoreTool(t, keywords, w) in RankAll(active, keywords, w)
    decreases |active|
  {
    if active[0] != t {
      RankAllHas(active[1..], keywords, w, t);
    }
  }

  lemma {:induction false} RankAllEntries(active: seq<Tool>, keywords: seq<string>, w: Weights, rt: RecommendedTool)
    requires rt in RankAll(active, keywords, w)
    ensures rt.tool in active && rt == ScoreTool(rt.tool, keywords, w)
    decreases |active|
  {
    if rt != ScoreTool(active[0], keywords, w) {
      RankAllEntries(active[1..], keywords, w, rt);
    }
  }

  /** The ranking holds exactly the entries of the active tools. */
  lemma RankingMembers(tools: seq<Tool>, keywords: seq<string>, w: Weights, rt: RecommendedTool)
    ensures rt in Ranking(tools, keywords, w) <==>
            rt.tool in tools && IsActive(rt.tool) && rt == ScoreTool(rt.tool, keywords, w)
  {
    FilterMembers(tools, IsActive);
    if rt in Ranking(tools, keywords, w) {
      RankAllEntries(Filter(tools, IsActive), keywords, w, rt);
    } else if rt.tool in tools && IsActive(rt.tool) {
      RankAllHas(Filter(tools, IsActive), keywords, w, rt.tool);
    }
  }

  /** `recommendTools(tools, jobDescription, automationRequest, hours, hint)` with the hours in
      tenths: the five best-scoring active tools, best first, and what they add up to. */
  function RecommendTools(tools: seq<Tool>, jobDescription: string, automationRequest: string,
                          hoursTenths: int, hint: Option<ClarificationHint>): (r: RecommendationResult)
    ensures r.keywords == TaskKeywords(jobDescription, automationRequest, hint)
    ensures GivenCategory(hint).Some? ==> r.category == GivenCategory(hint).value
    ensures GivenCategory(hint).None? ==> r.category == InferCategory(r.keywords)
    ensures |r.recommended| == if CountWhere(tools, IsActive) < 5 then CountWhere(tools, IsActive) else 5
    ensures SortedDesc(r.recommended, ScoreOf)
    ensures r.automationLevel == DetermineAutomationLevel(r.recommended)
    ensures r.timeSaving == CalculateTimeSaving(hoursTenths, r.automationLevel)
  {
    var keywords := TaskKeywords(jobDescription, automationRequest, hint);
    var category := ResolveCategory(keywords, hint);
    var top := Top(Ranking(tools, keywords, RequestWeights(category, hint)), ScoreOf, 5);
    var level := DetermineAutomationLevel(top);
    RecommendationResult(category, keywords, top, level, CalculateTimeSaving(hoursTenths, level))
  }

  /** Every recommended entry is the entry of an active catalogue tool, scored against the
      request's keywords and category. */
  lemma RecommendedAreRanked(tools: seq<Tool>, jobDescription: string, automationRequest: string,
                             hoursTenths: int, hint: Option<ClarificationHint>, rt: RecommendedTool)
    requires rt in RecommendTools(tools, jobDescription, automationRequest, hoursTenths, hint).recommended
    ensures var r := RecommendTools(tools, jobDescription, automationRequest, hoursTenths, hint);
            rt.tool in tools && IsActive(rt.tool) && rt == ScoreTool(rt.tool, r.keywords, RequestWeights(r.category, hint))
  {
    var r := RecommendTools(tools, jobDescription, automationRequest, hoursTenths, hint);
    TopEntries(tools, r.keywords, RequestWeights(r.category, hint), rt);
  }

  lemma TopEntries(tools: seq<Tool>, keywords: seq<string>, w: Weights, rt: RecommendedTool)
    requires rt in Top(Ranking(tools, keywords, w), ScoreOf, 5)
    ensures rt.tool in tools && IsActive(rt.tool) && rt == ScoreTool(rt.tool, keywords, w)
  {
    assert rt in multiset(Top(Ranking(tools, keywords, w), ScoreOf, 5));
    RankingMembers(tools, keywords, w, rt);
  }

  /** The cut to five loses nothing better: every active tool whose entry was not kept scores no
      higher than each kept one. */
  lemma TopFiveDominates(tools: seq<Tool>, jobDescription: string, automationRequest: string,
                         hoursTenths: int, hint: Option<ClarificationHint>, t: Tool)
    requires t in tools && IsActive(t)
    ensures var r := RecommendTools(tools, jobDescription, automationRequest, hoursTenths, hint);
            var e := ScoreTool(t, r.keywords, RequestWeights(r.category, hint));
            e in r.recommended || forall i :: 0 <= i < |r.recommended| ==> r.recommended[i].score >= e.score
  {
    var r := RecommendTools(tools, jobDescription, automationRequest, hoursTenths, hint);
    RankingTopDominates(tools, r.keywords, RequestWeights(r.category, hint), t);
  }

  /** The cut to five over a ranking: an active tool's entry is kept or scores no higher than
      every kept entry. */
  lemma RankingTopDominates(tools: seq<Tool>, keywords: seq<string>, w: Weights, t: Tool)
    requires t in tools && IsActive(t)
    ensures var top := Top(Ranking(tools, keywords, w), ScoreOf, 5);
            var e := ScoreTool(t, keywords, w);
            e in top || forall i :: 0 <= i < |top| ==> top[i].score >= e.score
  {
    RankingMembers(tools, keywords, w, ScoreTool(t, keywords, w));
    TopDominates(Ranking(tools, keywords, w), ScoreOf, 5, ScoreTool(t, keywords, w));
  }

  /** Equal scores keep catalogue order: the kept entries with a given score are the first entries
      with that score. */
  lemma TiesKeepCatalogueOrder(tools: seq<Tool>, jobDescription: string, automationRequest: string,
                               hoursTenths: int, hint: Option<ClarificationHint>, v: real)
    ensures var r := RecommendTools(tools, jobDescription, automationRequest, hoursTenths, hint);
            WithKey(r.recommended, ScoreOf, v) <= WithKey(Ranking(tools, r.keywords, RequestWeights(r.category, hint)), ScoreOf, v)
  {
    var r := RecommendTools(tools, jobDescription, automationRequest, hoursTenths, hint);
    TopStable(Ranking(tools, r.keywords, RequestWeights(r.category, hint)), ScoreOf, 5, v);
  }

  /** An empty catalogue recommends nothing, reaches only assistance, and saves 30%. */
  lemma EmptyCatalogue(jobDescription: string, automationRequest: string, hoursTenths: int, hint: Option<ClarificationHint>)
    ensures var r := RecommendTools([], jobDescription, automationRequest, hoursTenths, hint);
            r.recommended == [] && r.automationLevel == Assist && r.timeSaving.percentage == 30
  {
  }
}
