/** The choice between the two language-model engines (ai-engine-selector.ts): points from the
    task's category, from the keywords found in the list and in the request, and from how
    technical and how creative the request reads; the engine with more points wins, Gemini on a
    tie. */
module EngineSelector {
  import opened Wrappers
  import opened Text
  import opened Numerals
  import opened Patterns
  import opened Collections
  import opened Records
  import opened Sorting
  import opened Catalog
  import Recommendation

  datatype Engine = Gemini | OpenAI

  /** Which engine a factor speaks for (`favors`). */
  datatype Favor = Favors(engine: Engine) | Neutral

  datatype CategoryPreference = CategoryPreference(engine: Engine, weight: nat, reason: string)

  datatype KeywordPreference = KeywordPreference(engine: Engine, weight: nat)

  /** `CATEGORY_PREFERENCES`, in source order. */
  const CategoryPreferences: seq<(string, CategoryPreference)> := [
    ("마케팅", CategoryPreference(Gemini, 30, "마케팅 콘텐츠 생성에 Gemini가 더 창의적")),
    ("콘텐츠", CategoryPreference(Gemini, 25, "콘텐츠 기획에 Gemini의 창의성 활용")),
    ("이미지생성", CategoryPreference(Gemini, 20, "이미지 관련 설명에 Gemini가 더 적합")),
    ("영상생성", CategoryPreference(Gemini, 20, "영상 콘텐츠 기획에 Gemini 활용")),
    ("리서치", CategoryPreference(Gemini, 15, "최신 정보 검색에 Gemini 강점")),
    ("개발", CategoryPreference(OpenAI, 35, "코드 및 기술 분석에 GPT가 더 정확")),
    ("데이터분석", CategoryPreference(OpenAI, 30, "데이터 분석 및 구조화에 GPT 강점")),
    ("업무자동화", CategoryPreference(OpenAI, 25, "워크플로우 설계에 GPT의 논리적 접근")),
    ("문서작성", CategoryPreference(Gemini, 10, "문서 작성은 둘 다 우수 (Gemini 약간 선호)")),
    ("일정관리", CategoryPreference(OpenAI, 10, "일정 관리는 둘 다 우수 (GPT 약간 선호)")),
    ("회의", CategoryPreference(Gemini, 10, "회의 관련은 둘 다 우수")),
    ("고객서비스", CategoryPreference(OpenAI, 15, "고객 응대 스크립트에 GPT 강점")),
    ("오디오편집", CategoryPreference(OpenAI, 20, "기술적 오디오 처리 설명에 GPT 강점"))
  ]

  /** `KEYWORD_PREFERENCES`, in source order (the order `Object.entries` reports). */
  const KeywordPreferences: seq<(string, KeywordPreference)> := [
    ("코드", KeywordPreference(OpenAI, 15)),
    ("코딩", KeywordPreference(OpenAI, 15)),
    ("개발", KeywordPreference(OpenAI, 15)),
    ("API", KeywordPreference(OpenAI, 15)),
    ("데이터베이스", KeywordPreference(OpenAI, 12)),
    ("데이터", KeywordPreference(OpenAI, 10)),
    ("분석", KeywordPreference(OpenAI, 10)),
    ("통계", KeywordPreference(OpenAI, 10)),
    ("엑셀", KeywordPreference(OpenAI, 8)),
    ("자동화", KeywordPreference(OpenAI, 8)),
    ("워크플로우", KeywordPreference(OpenAI, 8)),
    ("스크립트", KeywordPreference(OpenAI, 10)),
    ("정규화", KeywordPreference(OpenAI, 10)),
    ("오디오", KeywordPreference(OpenAI, 8)),
    ("레벨", KeywordPreference(OpenAI, 8)),
    ("콘텐츠", KeywordPreference(Gemini, 12)),
    ("마케팅", KeywordPreference(Gemini, 12)),
    ("SNS", KeywordPreference(Gemini, 12)),
    ("인스타그램", KeywordPreference(Gemini, 10)),
    ("페이스북", KeywordPreference(Gemini, 10)),
    ("유튜브", KeywordPreference(Gemini, 10)),
    ("블로그", KeywordPreference(Gemini, 10)),
    ("카피", KeywordPreference(Gemini, 12)),
    ("광고", KeywordPreference(Gemini, 10)),
    ("아이디어", KeywordPreference(Gemini, 15)),
    ("창의", KeywordPreference(Gemini, 15)),
    ("브레인스토밍", KeywordPreference(Gemini, 15)),
    ("기획", KeywordPreference(Gemini, 10)),
    ("디자인", KeywordPreference(Gemini, 10)),
    ("이미지", KeywordPreference(Gemini, 8)),
    ("영상", KeywordPreference(Gemini, 8)),
    ("트렌드", KeywordPreference(Gemini, 12))
  ]

  // ---------------------------------------------------------------------------
  // analyzeComplexity and analyzeCreativityNeed

  datatype Complexity = Simple | Moderate | Complex

  datatype ComplexityAnalysis = ComplexityAnalysis(level: Complexity, score: nat)

  const TechnicalTerms: seq<string> :=
    ["API", "데이터베이스", "SQL", "JSON", "XML", "스크립트", "코드", "함수", "변수", "알고리즘", "정규화", "노멀라이즈"]

  /** A count or a measure follows the digit ending at position `j - 1`. */
  predicate CountedUnitAt(t: string, j: nat)
    requires j <= |t|
  {
    "%" <= t[j..] || "시간" <= t[j..] || "개" <= t[j..] || "건" <= t[j..]
  }

  /** `/\d+%|\d+시간|\d+개|\d+건/g.test(t)`: some digit is directly followed by one of the units. */
  predicate HasCountedNumber(t: string) {
    exists i :: 0 <= i < |t| && IsDigit(t[i]) && CountedUnitAt(t, i + 1)
  }

  /** Points for the length of the request (`text.length`). */
  function LengthPoints(t: string): (p: nat)
    ensures p == 20 <==> |t| > 200
    ensures p == 0 <==> |t| <= 100
  {
    if |t| > 200 then 20 else if |t| > 100 then 10 else 0
  }

  /** `analyzeComplexity(text)`: 40 points or more is complex, 20 or more moderate, fewer simple. */
  function AnalyzeComplexity(t: string): (r: ComplexityAnalysis)
    ensures r.score % 10 == 0
    ensures r.level == Complex <==> r.score >= 40
    ensures r.level == Simple <==> r.score < 20
    ensures r.score == LengthPoints(t) + 10 * CountMatchesI(t, TechnicalTerms) + (if HasCountedNumber(t) then 10 else 0)
    ensures r.score >= 10 * CountMatchesI(t, TechnicalTerms)
    ensures r.score == 0 <==> |t| <= 100 && CountMatchesI(t, TechnicalTerms) == 0 && !HasCountedNumber(t)
  {
    var score := LengthPoints(t) + 10 * CountMatchesI(t, TechnicalTerms) + (if HasCountedNumber(t) then 10 else 0);
    if score >= 40 then ComplexityAnalysis(Complex, score)
    else if score >= 20 then ComplexityAnalysis(Moderate, score)
    else ComplexityAnalysis(Simple, score)
  }

  /** A request scores nothing for complexity exactly when it is at most 100 characters long, names
      no technical term in any letter case and has no digit directly followed by a unit. */
  lemma ComplexityZero(t: string)
    ensures AnalyzeComplexity(t).score == 0 <==>
      && |t| <= 100
      && (forall k :: 0 <= k < |TechnicalTerms| ==> !Contains(Lower(t), Lower(TechnicalTerms[k])))
      && !HasCountedNumber(t)
  {
    ComplexityZeroOver(t, TechnicalTerms);
  }

  lemma ComplexityZeroOver(t: string, ws: seq<string>)
    requires ws == TechnicalTerms
    ensures AnalyzeComplexity(t).score == 0 <==>
      && |t| <= 100
      && (forall k :: 0 <= k < |ws| ==> !Contains(Lower(t), Lower(ws[k])))
      && !HasCountedNumber(t)
  {
    TermListsNonEmpty();
    CountMatchesIZero(t, ws);
  }

  /** No term of the analyses is empty. */
  lemma TermListsNonEmpty()
    ensures NonEmptyWords(TechnicalTerms) && NonEmptyWords(CreativeTerms) && NonEmptyWords(MarketingTerms)
  {
  }

  /** Four technical terms make any request complex. */
  lemma FourTermsComplex(t: string)
    requires CountMatchesI(t, TechnicalTerms) >= 4
    ensures AnalyzeComplexity(t).level == Complex
  {
  }

  datatype Creativity = LowNeed | MediumNeed | HighNeed

  datatype CreativityAnalysis = CreativityAnalysis(level: Creativity, score: nat)

  const CreativeTerms: seq<string> :=
    ["아이디어", "창의", "새로운", "독특", "트렌드", "영감", "브레인스토밍", "기획", "컨셉", "스토리", "콘텐츠"]

  const MarketingTerms: seq<string> :=
    ["마케팅", "홍보", "광고", "캠페인", "SNS", "인스타", "페이스북", "유튜브"]

  /** `analyzeCreativityNeed(text)`: 15 points per creative term and 10 per marketing term; 30 or
      more is a high need, 15 or more a medium one. */
  function AnalyzeCreativityNeed(t: string): (r: CreativityAnalysis)
    ensures r.score % 5 == 0
    ensures r.level == HighNeed <==> r.score >= 30
    ensures r.level == LowNeed <==> r.score < 15
    ensures r.score == 15 * CountMatchesI(t, CreativeTerms) + 10 * CountMatchesI(t, MarketingTerms)
    ensures r.score == 0 <==> CountMatchesI(t, CreativeTerms) == 0 && CountMatchesI(t, MarketingTerms) == 0
  {
    var fifths := 3 * CountMatchesI(t, CreativeTerms) + 2 * CountMatchesI(t, MarketingTerms);
    MultipleOfFive(fifths);
    var score := 5 * fifths;
    if score >= 30 then CreativityAnalysis(HighNeed, score)
    else if score >= 15 then CreativityAnalysis(MediumNeed, score)
    else CreativityAnalysis(LowNeed, score)
  }

  /** A request needs no creativity exactly when it names none of the creative or marketing terms. */
  lemma CreativityZero(t: string)
    ensures AnalyzeCreativityNeed(t).score == 0 <==>
      && (forall k :: 0 <= k < |CreativeTerms| ==> !Contains(Lower(t), Lower(CreativeTerms[k])))
      && (forall k :: 0 <= k < |MarketingTerms| ==> !Contains(Lower(t), Lower(MarketingTerms[k])))
  {
    TermListsNonEmpty();
    CountMatchesIZero(t, CreativeTerms);
    CountMatchesIZero(t, MarketingTerms);
  }

  lemma MultipleOfFive(n: nat)
    ensures (5 * n) % 5 == 0
  {
  }

  /** Two creative terms always make a high need. */
  lemma TwoCreativeTermsHigh(t: string)
    requires CountMatchesI(t, CreativeTerms) >= 2
    ensures AnalyzeCreativityNeed(t).level == HighNeed
  {
  }

  // ---------------------------------------------------------------------------
  // Keyword points

  predicate IsPreferenceKeyword(k: string) {
    k in Keys(KeywordPreferences)
  }

  /** The points keyword `k` gives engine `e`. */
  function WeightFor(k: string, e: Engine): nat {
    match Lookup(KeywordPreferences, k)
    case Some(p) => if p.engine == e then p.weight else 0
    case None => 0
  }

  /** The points the keywords `ks` give engine `e`, one count per occurrence. */
  function ListWeight(ks: seq<string>, e: Engine): nat {
    if |ks| == 0 then 0 else WeightFor(ks[0], e) + ListWeight(ks[1..], e)
  }

  lemma {:induction false} ListWeightSnoc(ks: seq<string>, k: string, e: Engine)
    ensures ListWeight(ks + [k], e) == ListWeight(ks, e) + WeightFor(k, e)
    decreases |ks|
  {
    if |ks| == 0 {
      assert ks + [k] == [k];
      assert [k][1..] == [];
    } else {
      assert (ks + [k])[0] == ks[0] && (ks + [k])[1..] == ks[1..] + [k];
      ListWeightSnoc(ks[1..], k, e);
    }
  }

  function InText(t: string): string -> bool {
    k => Contains(t, k)
  }

  /** The keywords of the analysis and their points: the listed keywords that have a preference
      (repeats included), then each preference keyword found in the request text that is not
      already among them, in table order. Each engine's points are the total weight of the matched
      keywords that speak for it. */
  datatype KeywordTally = KeywordTally(matched: seq<string>, gemini: nat, openai: nat)

  function Tally(keywords: seq<string>, t: string): KeywordTally {
    var matched := AppendNew(Filter(keywords, IsPreferenceKeyword), Filter(Keys(KeywordPreferences), InText(t)));
    KeywordTally(matched, ListWeight(matched, Gemini), ListWeight(matched, OpenAI))
  }

  /** Records keyword `k` as matched and adds its weight to the engine it prefers (`WeightFor`
      gives the other engine nothing). */
  method AddKeyword(matched: seq<string>, g: nat, o: nat, k: string) returns (matched': seq<string>, g': nat, o': nat)
    requires g == ListWeight(matched, Gemini) && o == ListWeight(matched, OpenAI)
    ensures matched' == matched + [k]
    ensures g' == ListWeight(matched', Gemini) && o' == ListWeight(matched', OpenAI)
  {
    ListWeightSnoc(matched, k, Gemini);
    ListWeightSnoc(matched, k, OpenAI);
    matched', g', o' := matched + [k], g + WeightFor(k, Gemini), o + WeightFor(k, OpenAI);
  }

  /** The first loop of step 2: the listed keywords that have a preference, repeats included, and
      their points. */
  method ListPass(keywords: seq<string>) returns (r: KeywordTally)
    ensures r.matched == Filter(keywords, IsPreferenceKeyword)
    ensures r.gemini == ListWeight(r.matched, Gemini) && r.openai == ListWeight(r.matched, OpenAI)
  {
    var matched: seq<string> := [];
    var g: nat, o: nat := 0, 0;
    for i := 0 to |keywords|
      invariant matched == Filter(keywords[..i], IsPreferenceKeyword)
      invariant g == ListWeight(matched, Gemini) && o == ListWeight(matched, OpenAI)
    {
      var k := keywords[i];
      ListStep(keywords, i);
      if IsPreferenceKeyword(k) {
        matched, g, o := AddKeyword(matched, g, o, k);
      }
    }
    assert keywords[..|keywords|] == keywords;
    r := KeywordTally(matched, g, o);
  }

  lemma ListStep(keywords: seq<string>, i: nat)
    requires i < |keywords|
    ensures Filter(keywords[..i + 1], IsPreferenceKeyword)
         == Filter(keywords[..i], IsPreferenceKeyword) + if IsPreferenceKeyword(keywords[i]) then [keywords[i]] else []
  {
    assert keywords[..i + 1] == keywords[..i] + [keywords[i]];
    FilterSnoc(keywords[..i], keywords[i], IsPreferenceKeyword);
  }

  /** The second loop of step 2 over the keys `keys`: every key the text contains that is not
      matched yet is added, with its points. */
  method TextPass(listed: KeywordTally, t: string, keys: seq<string>) returns (r: KeywordTally)
    requires listed.gemini == ListWeight(listed.matched, Gemini) && listed.openai == ListWeight(listed.matched, OpenAI)
    ensures r.matched == AppendNew(listed.matched, Filter(keys, InText(t)))
    ensures r.gemini == ListWeight(r.matched, Gemini) && r.openai == ListWeight(r.matched, OpenAI)
  {
    var matched, g, o := listed.matched, listed.gemini, listed.openai;
    for i := 0 to |keys|
      invariant matched == AppendNew(listed.matched, Filter(keys[..i], InText(t)))
      invariant g == ListWeight(matched, Gemini) && o == ListWeight(matched, OpenAI)
    {
      var k := keys[i];
      TextStep(listed.matched, keys, i, t);
      if Contains(t, k) && k !in matched {
        matched, g, o := AddKeyword(matched, g, o, k);
      }
    }
    assert keys[..|keys|] == keys;
    r := KeywordTally(matched, g, o);
  }

  /** One more key of the second loop: it is added exactly when the text contains it and it is not
      matched yet. */
  lemma TextStep(listed: seq<string>, keys: seq<string>, i: nat, t: string)
    requires i < |keys|
    ensures var matched := AppendNew(listed, Filter(keys[..i], InText(t)));
            AppendNew(listed, Filter(keys[..i + 1], InText(t)))
              == if Contains(t, keys[i]) && keys[i] !in matched then matched + [keys[i]] else matched
  {
    var k := keys[i];
    var seen := Filter(keys[..i], InText(t));
    assert keys[..i + 1] == keys[..i] + [k];
    FilterSnoc(keys[..i], k, InText(t));
    if Contains(t, k) {
      assert Filter(keys[..i + 1], InText(t)) == seen + [k];
      AppendNewSnoc(listed, seen, k);
    } else {
      assert Filter(keys[..i + 1], InText(t)) == seen;
    }
  }

  /** Step 2 of `selectAIEngine`: the two loops together compute the tally. */
  method CountKeywords(keywords: seq<string>, t: string) returns (r: KeywordTally)
    ensures r == Tally(keywords, t)
  {
    var listed := ListPass(keywords);
    r := TextPass(listed, t, Keys(KeywordPreferences));
  }

  /** The tally records a preference keyword iff the list names it or the text contains it. A
      listed keyword keeps exactly its listed repeats: the text search never adds it again. A
      keyword the list does not name is recorded at most once. */
  lemma TallyRecordsOnce(keywords: seq<string>, t: string)
    ensures var m := Tally(keywords, t).matched;
            forall k :: k in m <==> IsPreferenceKeyword(k) && (k in keywords || Contains(t, k))
    ensures var m := Tally(keywords, t).matched;
            forall k :: k in keywords ==> multiset(m)[k] == multiset(Filter(keywords, IsPreferenceKeyword))[k]
    ensures var m := Tally(keywords, t).matched;
            forall k :: k !in keywords ==> multiset(m)[k] <= 1
  {
    var listed := Filter(keywords, IsPreferenceKeyword);
    var found := Filter(Keys(KeywordPreferences), InText(t));
    FilterMembers(keywords, IsPreferenceKeyword);
    FilterMembers(Keys(KeywordPreferences), InText(t));
    var m := Tally(keywords, t).matched;
    forall k | k in keywords
      ensures multiset(m)[k] == multiset(listed)[k]
    {
      AppendNewCounts(listed, found, k);
      if k !in listed {
        assert k !in found;
        assert k !in m;
      }
    }
    forall k | k !in keywords
      ensures multiset(m)[k] <= 1
    {
      AppendNewCounts(listed, found, k);
    }
  }

  /** 'API' and 'SNS' are written in capitals, so the search of the lower-cased request never finds
      them: they count only when the keyword list names them. */
  lemma CapitalKeysOnlyFromList(keywords: seq<string>, jobDescription: string, automationRequest: string)
    ensures var m := Tally(keywords, Lower(CombinedText(jobDescription, automationRequest))).matched;
            && ("API" in m <==> "API" in keywords)
            && ("SNS" in m <==> "SNS" in keywords)
  {
    var t := Lower(CombinedText(jobDescription, automationRequest));
    var listed := Filter(keywords, IsPreferenceKeyword);
    var found := Filter(Keys(KeywordPreferences), InText(t));
    assert HasUpperAscii("API") by { assert IsUpperAscii("API"[0]); }
    assert HasUpperAscii("SNS") by { assert IsUpperAscii("SNS"[0]); }
    LowerHidesUpper(CombinedText(jobDescription, automationRequest), "API");
    LowerHidesUpper(CombinedText(jobDescription, automationRequest), "SNS");
    assert "API" !in found && "SNS" !in found;
    assert IsPreferenceKeyword("API") && IsPreferenceKeyword("SNS") by {
      assert Keys(KeywordPreferences)[3] == "API" && Keys(KeywordPreferences)[17] == "SNS";
    }
    FilterMembers(keywords, IsPreferenceKeyword);
  }

  // ---------------------------------------------------------------------------
  // selectAIEngine

  datatype Factor = Factor(factor: string, weight: nat, favors: Favor, description: string)

  datatype Selection = Selection(engine: Engine, reason: string, confidence: int, factors: seq<Factor>)

  /** The points a stage's factor, when there is one, gives engine `e`. */
  function Points(f: Option<Factor>, e: Engine): nat {
    match f
    case Some(x) => if x.favors == Favors(e) then x.weight else 0
    case None => 0
  }

  /** Step 1: the category's preference, if it has one. */
  function CategoryFactor(category: string): (f: Option<Factor>)
    ensures f.Some? <==> category in Keys(CategoryPreferences)
    ensures f.Some? ==> f.value.favors.Favors? && f.value.weight > 0 && StartsWith(f.value.description, category + ": ")
    ensures f.Some? ==> var p := Lookup(CategoryPreferences, category).value;
      && f.value.weight == p.weight
      && f.value.favors == Favors(p.engine)
      && f.value.description == category + ": " + p.reason
  {
    match Lookup(CategoryPreferences, category)
    case Some(p) =>
      assert p.weight > 0 by {
        assert forall j :: 0 <= j < |CategoryPreferences| ==> CategoryPreferences[j].1.weight > 0;
      }
      Some(Factor("업무 카테고리", p.weight, Favors(p.engine), category + ": " + p.reason))
    case None => None
  }

  /** Step 2's factor: speaks for the side with more keyword points, for neither on a tie. */
  function KeywordFactor(t: KeywordTally): (f: Option<Factor>)
    ensures f.Some? <==> |t.matched| > 0
    ensures f.Some? ==> f.value.weight == if t.gemini >= t.openai then t.gemini else t.openai
    ensures f.Some? ==> (f.value.favors == Neutral <==> t.gemini == t.openai)
    ensures f.Some? && f.value.favors.Favors? ==>
      (f.value.favors.engine == Gemini <==> t.gemini > t.openai)
  {
    if |t.matched| == 0 then None
    else
      Some(Factor("키워드 분석",
                  if t.gemini >= t.openai then t.gemini else t.openai,
                  if t.gemini > t.openai then Favors(Gemini) else if t.openai > t.gemini then Favors(OpenAI) else Neutral,
                  "감지된 키워드: " + Join(Take(t.matched, 5), ", ")))
  }

  const SimpleRequest := Factor("복잡도", 5, Favors(Gemini), "단순한 요청으로 빠른 응답 선호")

  const AnalyticalRequest := Factor("창의성 요구", 10, Favors(OpenAI), "분석적/논리적 접근이 필요한 요청")

  /** Step 3: a complex request speaks for OpenAI, a simple one for Gemini. */
  function ComplexityFactor(t: string): (f: Option<Factor>)
    ensures f.None? <==> 20 <= AnalyzeComplexity(t).score < 40
    ensures f.Some? ==> f.value.favors == (if AnalyzeComplexity(t).score >= 40 then Favors(OpenAI) else Favors(Gemini))
    ensures f.Some? ==> f.value.weight == (if AnalyzeComplexity(t).score >= 40 then 15 else 5)
  {
    match AnalyzeComplexity(t).level
    case Complex => Some(Factor("복잡도", 15, Favors(OpenAI), "복잡한 요청으로 GPT의 구조화된 분석 선호"))
    case Simple => Some(SimpleRequest)
    case Moderate => None
  }

  /** Step 4: a high need for creativity speaks for Gemini, a low one for OpenAI. */
  function CreativityFactor(t: string): (f: Option<Factor>)
    ensures f.None? <==> 15 <= AnalyzeCreativityNeed(t).score < 30
    ensures f.Some? ==> f.value.favors == (if AnalyzeCreativityNeed(t).score >= 30 then Favors(Gemini) else Favors(OpenAI))
    ensures f.Some? ==> f.value.weight == (if AnalyzeCreativityNeed(t).score >= 30 then 20 else 10)
  {
    match AnalyzeCreativityNeed(t).level
    case HighNeed => Some(Factor("창의성 요구", 20, Favors(Gemini), "창의적 아이디어가 필요한 요청"))
    case LowNeed => Some(AnalyticalRequest)
    case MediumNeed => None
  }

  function Present(fs: seq<Option<Factor>>): (r: seq<Factor>)
    ensures |r| <= |fs|
    ensures forall x :: x in r <==> Some(x) in fs
  {
    if |fs| == 0 then []
    else (if fs[0].Some? then [fs[0].value] else []) + Present(fs[1..])
  }

  /** The text the selector reads: job description and request, lower-cased. */
  function RequestText(jobDescription: string, automationRequest: string): string {
    Lower(CombinedText(jobDescription, automationRequest))
  }

  /** An engine's points after the four stages: its category points, its keyword points and what
      the two analyses give it. The keyword stage gives each engine its own points whichever side
      its factor speaks for. */
  function EnginePoints(category: string, keywords: seq<string>, t: string, e: Engine): nat {
    var tally := Tally(keywords, t);
    Points(CategoryFactor(category), e) + KeywordPoints(tally, e)
      + Points(ComplexityFactor(t), e) + Points(CreativityFactor(t), e)
  }

  /** An engine's own keyword points. */
  function KeywordPoints(tally: KeywordTally, e: Engine): nat {
    match e
    case Gemini => tally.gemini
    case OpenAI => tally.openai
  }

  /** The total weight of the factors that speak for `e`. */
  function FavouredWeight(fs: seq<Factor>, e: Engine): nat {
    if |fs| == 0 then 0 else (if fs[0].favors == Favors(e) then fs[0].weight else 0) + FavouredWeight(fs[1..], e)
  }

  /** The points the stages' optional factors give `e`. */
  function StagePoints(fs: seq<Option<Factor>>, e: Engine): nat {
    if |fs| == 0 then 0 else Points(fs[0], e) + StagePoints(fs[1..], e)
  }

  lemma {:induction false} FavouredWeightPresent(fs: seq<Option<Factor>>, e: Engine)
    ensures FavouredWeight(Present(fs), e) == StagePoints(fs, e)
    decreases |fs|
  {
    if |fs| > 0 {
      var head := if fs[0].Some? then [fs[0].value] else [];
      FavouredWeightPresent(fs[1..], e);
      FavouredWeightConcat(head, Present(fs[1..]), e);
    }
  }

  lemma {:induction false} FavouredWeightConcat(a: seq<Factor>, b: seq<Factor>, e: Engine)
    ensures FavouredWeight(a + b, e) == FavouredWeight(a, e) + FavouredWeight(b, e)
    decreases |a|
  {
    if |a| > 0 {
      assert (a + b)[1..] == a[1..] + b;
      FavouredWeightConcat(a[1..], b, e);
    } else {
      assert a + b == b;
    }
  }

  /** The points are the factors' weights: an engine's points are the total weight of the stage
      factors that speak for it, plus its own keyword points when the keyword factor does not
      speak for it (a tie, or the other engine's keywords weigh more). */
  lemma EnginePointsFromFactors(category: string, keywords: seq<string>, t: string, e: Engine)
    ensures var kf := KeywordFactor(Tally(keywords, t));
            EnginePoints(category, keywords, t, e)
            == FavouredWeight(StageFactors(category, keywords, t), e)
               + (if kf.Some? && kf.value.favors == Favors(e) then 0 else KeywordPoints(Tally(keywords, t), e))
  {
    var tally := Tally(keywords, t);
    var kf := KeywordFactor(tally);
    var fs := [CategoryFactor(category), kf, ComplexityFactor(t), CreativityFactor(t)];
    FavouredWeightPresent(fs, e);
    assert StagePoints(fs[3..], e) == Points(fs[3], e) by { assert fs[3..][1..] == []; }
    assert StagePoints(fs[2..], e) == Points(fs[2], e) + StagePoints(fs[3..], e) by { assert fs[2..][1..] == fs[3..]; }
    assert StagePoints(fs[1..], e) == Points(fs[1], e) + StagePoints(fs[2..], e) by { assert fs[1..][1..] == fs[2..]; }
    if kf.Some? && kf.value.favors == Favors(e) {
      assert Points(kf, e) == KeywordPoints(tally, e);
    } else {
      assert Points(kf, e) == 0;
    }
  }

  /** The factors of the four stages, in stage order, for the stages that produced one. */
  function StageFactors(category: string, keywords: seq<string>, t: string): seq<Factor> {
    Present([CategoryFactor(category), KeywordFactor(Tally(keywords, t)), ComplexityFactor(t), CreativityFactor(t)])
  }

  /** `confidence`: the winner's share of all points in percent, rounded half up; 50 when no
      points were given. */
  function Confidence(g: nat, o: nat): (c: int)
    ensures 50 <= c <= 100
    ensures g == o ==> c == 50
    ensures g + o > 0 ==> var w := if g >= o then g else o;
                          2 * (g + o) * c <= 200 * w + (g + o) < 2 * (g + o) * c + 2 * (g + o)
  {
    if g + o > 0 then
      var w := if g >= o then g else o;
      var hi := if g == o then 50 else 100;
      assert 50 * (g + o) <= 100 * w <= hi * (g + o);
      RoundDivWithin(100 * w, g + o, 50, hi);
      Recommendation.RoundDiv(100 * w, g + o)
    else 50
  }

  lemma RoundDivWithin(n: int, d: int, lo: int, hi: int)
    requires d > 0 && lo * d <= n <= hi * d
    ensures lo <= Recommendation.RoundDiv(n, d) <= hi
  {
    var r := Recommendation.RoundDiv(n, d);
    assert d * (2 * lo + 1) < d * (2 * r + 2);
    MulCancel(d, 2 * lo + 1, 2 * r + 2);
    assert d * (2 * r) <= d * (2 * hi + 1);
    MulCancelLe(d, 2 * r, 2 * hi + 1);
  }

  lemma MulCancel(d: int, a: int, b: int)
    requires d > 0 && d * a < d * b
    ensures a < b
  {
    if a >= b {
      MulMonotone(d, b, a);
    }
  }

  lemma MulCancelLe(d: int, a: int, b: int)
    requires d > 0 && d * a <= d * b
    ensures a <= b
  {
    if a > b {
      MulMonotone(d, b + 1, a);
    }
  }

  lemma MulMonotone(d: int, a: int, b: int)
    requires d > 0 && a <= b
    ensures d * a <= d * b
  {
    assert d * b == d * a + d * (b - a);
  }

  function WinnerPrefix(e: Engine): string {
    match e
    case Gemini => "Gemini 선택: "
    case OpenAI => "GPT-4o-mini 선택: "
  }

  const GeneralReason := "일반적인 요청에 적합"

  /** `f.favors === engine` */
  function SpeaksFor(e: Engine): Factor -> bool {
    (f: Factor) => f.favors == Favors(e)
  }

  /** The sort key of the reason's factors (`b.weight - a.weight`). */
  function FactorWeight(f: Factor): real {
    f.weight as real
  }

  /** The factors the reason quotes: those speaking for the winner, heaviest first (ties in stage
      order), at most two. */
  function TopFactors(factors: seq<Factor>, e: Engine): (r: seq<Factor>)
    ensures |r| == if CountWhere(factors, SpeaksFor(e)) < 2 then CountWhere(factors, SpeaksFor(e)) else 2
    ensures forall x :: x in r ==> x in factors && x.favors == Favors(e)
    ensures SortedDesc(r, FactorWeight)
  {
    var top := Top(Filter(factors, SpeaksFor(e)), FactorWeight, 2);
    assert forall x :: x in top ==> x in multiset(top);
    top
  }

  function Descriptions(fs: seq<Factor>): (ds: seq<string>)
    ensures |ds| == |fs|
    ensures forall i :: 0 <= i < |fs| ==> ds[i] == fs[i].description
  {
    seq(|fs|, i requires 0 <= i < |fs| => fs[i].description)
  }

  /** `reasonParts.join(', ') || '일반적인 요청에 적합'` */
  function ReasonText(top: seq<Factor>): string {
    var parts := Join(Descriptions(top), ", ");
    if parts == "" then GeneralReason else parts
  }

  /** A description with a character that '일반적인 요청에 적합' lacks: no join that starts with it
      is empty or reads as the general text. */
  predicate Distinctive(d: string) {
    exists i :: 0 <= i < |d| && d[i] !in GeneralReason
  }

  /** A join starts with its first part. */
  lemma {:induction false} JoinStartsWithFirst(ds: seq<string>, sep: string)
    requires |ds| > 0
    ensures ds[0] <= Join(ds, sep)
  {
    if |ds| > 1 {
      assert Join(ds, sep) == ds[0] + (sep + Join(ds[1..], sep));
    }
  }

  /** When no factor speaks for the winner the reason falls back to '일반적인 요청에 적합'; when one
      does, the reason quotes at least one factor. The converse of the fallback needs the quoted
      descriptions to be distinctive: the source also falls back when the joined descriptions are
      empty. */
  lemma GeneralReasonIff(factors: seq<Factor>, e: Engine)
    ensures (forall i :: 0 <= i < |factors| ==> factors[i].favors != Favors(e))
            ==> ReasonText(TopFactors(factors, e)) == GeneralReason
    ensures (exists i :: 0 <= i < |factors| && factors[i].favors == Favors(e))
            ==> |TopFactors(factors, e)| > 0
    ensures (forall i :: 0 <= i < |factors| ==> Distinctive(factors[i].description))
            ==> (ReasonText(TopFactors(factors, e)) == GeneralReason
                 <==> forall i :: 0 <= i < |factors| ==> factors[i].favors != Favors(e))
  {
    CountWhereExtremes(factors, SpeaksFor(e));
    var top := TopFactors(factors, e);
    if forall i :: 0 <= i < |factors| ==> factors[i].favors != Favors(e) {
      assert top == [];
      assert Descriptions([]) == [];
    } else if forall i :: 0 <= i < |factors| ==> Distinctive(factors[i].description) {
      assert |top| > 0;
      var ds := Descriptions(top);
      var d := ds[0];
      assert top[0] in factors;
      var j :| 0 <= j < |factors| && factors[j] == top[0];
      assert Distinctive(d);
      var k :| 0 <= k < |d| && d[k] !in GeneralReason;
      JoinStartsWithFirst(ds, ", ");
      var parts := Join(ds, ", ");
      assert parts != "" && parts[k] == d[k];
      assert parts != GeneralReason;
    }
  }

  /** The stages' descriptions are distinctive: the category's carries a ':' after the category,
      the keyword stage's opens with '감', and the fixed texts of the two analyses open with
      letters the general text lacks. */
  lemma StageDescriptionsDistinctive(category: string, keywords: seq<string>, t: string)
    ensures forall x :: x in StageFactors(category, keywords, t) ==> Distinctive(x.description)
  {
    var fs := [CategoryFactor(category), KeywordFactor(Tally(keywords, t)), ComplexityFactor(t), CreativityFactor(t)];
    CategoryDistinctive(category);
    KeywordDistinctive(Tally(keywords, t));
    AnalysesDistinctive(t);
    forall x | x in StageFactors(category, keywords, t) ensures Distinctive(x.description) {
      assert Some(x) in fs;
    }
  }

  lemma CategoryDistinctive(category: string)
    ensures CategoryFactor(category).Some? ==> Distinctive(CategoryFactor(category).value.description)
  {
    if CategoryFactor(category).Some? {
      var d := CategoryFactor(category).value.description;
      assert StartsWith(d, category + ": ");
      assert d[|category|] == (category + ": ")[|category|] == ':';
      assert ':' !in GeneralReason;
    }
  }

  lemma KeywordDistinctive(tally: KeywordTally)
    ensures KeywordFactor(tally).Some? ==> Distinctive(KeywordFactor(tally).value.description)
  {
    if KeywordFactor(tally).Some? {
      var d := KeywordFactor(tally).value.description;
      assert d[0] == '감' && '감' !in GeneralReason;
    }
  }

  lemma AnalysesDistinctive(t: string)
    ensures ComplexityFactor(t).Some? ==> Distinctive(ComplexityFactor(t).value.description)
    ensures CreativityFactor(t).Some? ==> Distinctive(CreativityFactor(t).value.description)
  {
    FixedTextsDistinctive();
  }

  /** The four fixed descriptions of the two analyses open with '복', '단', '창' and '분'. */
  lemma FixedTextsDistinctive()
    ensures Distinctive("복잡한 요청으로 GPT의 구조화된 분석 선호") && Distinctive(SimpleRequest.description)
    ensures Distinctive("창의적 아이디어가 필요한 요청") && Distinctive(AnalyticalRequest.description)
  {
    assert '복' !in GeneralReason && '단' !in GeneralReason;
    assert '창' !in GeneralReason && '분' !in GeneralReason;
    assert "복잡한 요청으로 GPT의 구조화된 분석 선호"[0] == '복';
    assert SimpleRequest.description[0] == '단';
    assert "창의적 아이디어가 필요한 요청"[0] == '창';
    assert AnalyticalRequest.description[0] == '분';
  }

  /** Over the factors the four stages produce, the reason is the general text exactly when no
      factor speaks for the engine. */
  lemma StageReasonIff(category: string, keywords: seq<string>, t: string, e: Engine)
    ensures var fs := StageFactors(category, keywords, t);
            ReasonText(TopFactors(fs, e)) == GeneralReason
            <==> forall i :: 0 <= i < |fs| ==> fs[i].favors != Favors(e)
  {
    var fs := StageFactors(category, keywords, t);
    StageDescriptionsDistinctive(category, keywords, t);
    assert forall i :: 0 <= i < |fs| ==> fs[i] in fs;
    GeneralReasonIff(fs, e);
  }

  /** `selectAIEngine(category, keywords, automationRequest, jobDescription)`: the engine with
      more points wins, Gemini on a tie; the confidence is the winner's share of all points in
      percent, rounded half up; the reason names the winner. */
  function SelectAIEngine(category: string, keywords: seq<string>, automationRequest: string,
                          jobDescription: string): (s: Selection)
    ensures var t := RequestText(jobDescription, automationRequest);
            var g := EnginePoints(category, keywords, t, Gemini);
            var o := EnginePoints(category, keywords, t, OpenAI);
            && (s.engine == Gemini <==> g >= o)
            && s.confidence == Confidence(g, o)
    ensures 50 <= s.confidence <= 100
    ensures s.factors == StageFactors(category, keywords, RequestText(jobDescription, automationRequest))
    ensures |s.factors| <= 4
    ensures s.reason == WinnerPrefix(s.engine) + ReasonText(TopFactors(s.factors, s.engine))
    ensures StartsWith(s.reason, WinnerPrefix(s.engine))
  {
    var t := RequestText(jobDescription, automationRequest);
    var g := EnginePoints(category, keywords, t, Gemini);
    var o := EnginePoints(category, keywords, t, OpenAI);
    var factors := StageFactors(category, keywords, t);
    var engine := if g >= o then Gemini else OpenAI;
    Selection(engine, WinnerPrefix(engine) + ReasonText(TopFactors(factors, engine)), Confidence(g, o), factors)
  }

  /** A factor speaking for `e` that `TopFactors` leaves out weighs no more than each one it keeps. */
  lemma TopFactorsHeaviest(factors: seq<Factor>, e: Engine, x: Factor)
    requires x in factors && x.favors == Favors(e)
    ensures var top := TopFactors(factors, e);
            x in top || forall i :: 0 <= i < |top| ==> top[i].weight >= x.weight
  {
    FilterMembers(factors, SpeaksFor(e));
    TopDominates(Filter(factors, SpeaksFor(e)), FactorWeight, 2, x);
  }

  /** The reason quotes the heaviest factors that speak for the winner: any such factor it leaves
      out weighs no more than each one it quotes. */
  lemma ReasonQuotesHeaviest(category: string, keywords: seq<string>, automationRequest: string,
                             jobDescription: string, x: Factor)
    requires var s := SelectAIEngine(category, keywords, automationRequest, jobDescription);
             x in s.factors && x.favors == Favors(s.engine)
    ensures var s := SelectAIEngine(category, keywords, automationRequest, jobDescription);
            var top := TopFactors(s.factors, s.engine);
            && s.reason == WinnerPrefix(s.engine) + ReasonText(top)
            && (forall y :: y in top ==> y in s.factors && y.favors == Favors(s.engine))
            && (x in top || forall i :: 0 <= i < |top| ==> top[i].weight >= x.weight)
  {
    var s := SelectAIEngine(category, keywords, automationRequest, jobDescription);
    TopFactorsHeaviest(s.factors, s.engine, x);
  }

  /** A request with no text at all in a category without a preference: the request reads as
      simple (5 points for Gemini) and as needing no creativity (10 points for OpenAI), so OpenAI
      wins with a confidence of 67 and the reason quotes the creativity factor. */
  lemma EmptyRequestPrefersOpenAI(category: string)
    requires category !in Keys(CategoryPreferences)
    ensures var s := SelectAIEngine(category, [], "", "");
            && s.engine == OpenAI
            && s.confidence == 67
            && s.reason == "GPT-4o-mini 선택: 분석적/논리적 접근이 필요한 요청"
  {
    var t := RequestText("", "");
    assert t == " " by {
      assert CombinedText("", "") == " ";
    }
    EmptyRequestStages(category, t);
    ConfidenceOneThird();
    var factors := StageFactors(category, [], t);
    assert [SimpleRequest, AnalyticalRequest][1..] == [AnalyticalRequest];
    assert Filter(factors, SpeaksFor(OpenAI)) == [AnalyticalRequest];
    assert TopFactors(factors, OpenAI) == [AnalyticalRequest];
    AnalyticalReason();
  }

  lemma EmptyRequestStages(category: string, t: string)
    requires category !in Keys(CategoryPreferences) && t == " "
    ensures StageFactors(category, [], t) == [SimpleRequest, AnalyticalRequest]
    ensures EnginePoints(category, [], t, Gemini) == 5
    ensures EnginePoints(category, [], t, OpenAI) == 10
  {
    SpaceAnalyses(t);
    PresentLastTwo(CategoryFactor(category), KeywordFactor(Tally([], t)), ComplexityFactor(t), CreativityFactor(t));
  }

  lemma PresentLastTwo(a: Option<Factor>, b: Option<Factor>, c: Option<Factor>, d: Option<Factor>)
    requires a.None? && b.None? && c.Some? && d.Some?
    ensures Present([a, b, c, d]) == [c.value, d.value]
  {
    var fs := [a, b, c, d];
    assert fs[1..] == [b, c, d] && fs[1..][1..] == [c, d] && [c, d][1..] == [d] && [d][1..] == [];
    assert Present([d]) == [d.value];
    assert Present([c, d]) == [c.value, d.value];
    assert Present([b, c, d]) == [c.value, d.value];
  }

  /** A lone space holds no keyword and reads as a simple request needing no creativity. */
  lemma SpaceAnalyses(t: string)
    requires t == " "
    ensures Tally([], t) == KeywordTally([], 0, 0)
    ensures ComplexityFactor(t) == Some(SimpleRequest)
    ensures CreativityFactor(t) == Some(AnalyticalRequest)
  {
    NoKeyInSpace();
    ShortTextScoresNothing(t);
  }

  lemma ConfidenceOneThird()
    ensures Confidence(5, 10) == 67
  {
    assert Recommendation.RoundDiv(1000, 15) == 67;
  }

  lemma AnalyticalReason()
    ensures WinnerPrefix(OpenAI) + ReasonText([AnalyticalRequest]) == "GPT-4o-mini 선택: 분석적/논리적 접근이 필요한 요청"
  {
    assert Descriptions([AnalyticalRequest]) == ["분석적/논리적 접근이 필요한 요청"];
  }

  /** No preference keyword occurs in a one-character text: each is at least two characters long. */
  lemma NoKeyInSpace()
    ensures Filter(Keys(KeywordPreferences), InText(" ")) == []
  {
    var keys := Keys(KeywordPreferences);
    assert forall j :: 0 <= j < |KeywordPreferences| ==> |KeywordPreferences[j].0| >= 2;
    forall i | 0 <= i < |keys| ensures !InText(" ")(keys[i]) {
      ContainsNoLonger(" ", keys[i]);
    }
    FilterNone(keys, InText(" "));
  }

  /** A one-character text that is not a digit scores nothing in either analysis. */
  lemma ShortTextScoresNothing(t: string)
    requires t == " "
    ensures AnalyzeComplexity(t).score == 0 && AnalyzeCreativityNeed(t).score == 0
  {
    assert Lower(t) == " ";
    forall k | 0 <= k < |TechnicalTerms| ensures !Contains(Lower(t), Lower(TechnicalTerms[k])) {
      ContainsNoLonger(Lower(t), Lower(TechnicalTerms[k]));
    }
    forall k | 0 <= k < |CreativeTerms| ensures !Contains(Lower(t), Lower(CreativeTerms[k])) {
      ContainsNoLonger(Lower(t), Lower(CreativeTerms[k]));
    }
    forall k | 0 <= k < |MarketingTerms| ensures !Contains(Lower(t), Lower(MarketingTerms[k])) {
      ContainsNoLonger(Lower(t), Lower(MarketingTerms[k]));
    }
    ComplexityZero(t);
    CreativityZero(t);
    assert !IsDigit(t[0]);
  }
}
