/** The coaching report (gemini.ts): its record shapes, the report built locally when the language
    model is not asked, and the clean-up a model reply goes through before it is read as JSON. */
module Coaching {
  import opened Wrappers
  import opened Text
  import opened Numerals
  import opened Catalog
  import Recommendation

  /** One step of the suggested workflow (`WorkflowStep`). */
  datatype WorkflowStep = WorkflowStep(
    stepNumber: int,
    title: string,
    toolName: string,
    toolUrl: string,
    specificFeature: string,
    actionItems: seq<string>,
    expectedOutput: string,
    timeEstimate: string,
    tips: string)

  /** One entry of the learning roadmap (`LearningStep`). */
  datatype LearningStep = LearningStep(
    priority: int,
    toolName: string,
    reason: string,
    learningResources: string,
    estimatedLearningTime: string)

  datatype TimeAnalysis = TimeAnalysis(before: string, after: string, efficiencyGain: string)

  /** The whole report (`AICoachingResult`). */
  datatype CoachingResult = CoachingResult(
    summary: string,
    workflow: seq<WorkflowStep>,
    coachingTips: seq<string>,
    timeAnalysis: TimeAnalysis,
    learningRoadmap: seq<LearningStep>,
    conclusion: string)

  /** The submitted task the report is written for; the estimated hours are held in tenths. */
  datatype TaskInfo = TaskInfo(
    name: string,
    organization: string,
    department: string,
    jobDescription: string,
    repeatCycle: string,
    automationRequest: string,
    estimatedTenths: int,
    currentTools: Option<string>)

  // ---------------------------------------------------------------------------
  // Fallback values: `a?.b || c`

  /** The name of the `i`-th recommended tool, when there is one (`recommended_tools[i]?.tool.name`). */
  function NameAt(rs: seq<RecommendedTool>, i: nat): Option<string> {
    if i < |rs| then Some(rs[i].tool.name) else None
  }

  /** The address of the `i`-th recommended tool, when there is one and it has an address. */
  function UrlAt(rs: seq<RecommendedTool>, i: nat): Option<string> {
    if i < |rs| then rs[i].tool.websiteUrl else None
  }

  /** `c1 || c2 || ... || fallback` over texts that may be missing: the first candidate that is
      present and not empty, else the fallback. */
  function FirstGiven(cands: seq<Option<string>>, fallback: string): (r: string)
    ensures r == fallback || exists i :: 0 <= i < |cands| && cands[i] == Some(r) && r != ""
    ensures |cands| > 0 && cands[0].Some? && cands[0].value != "" ==> r == cands[0].value
    ensures (forall i :: 0 <= i < |cands| ==> cands[i].None? || cands[i].value == "") ==> r == fallback
    decreases |cands|
  {
    if |cands| == 0 then fallback
    else if cands[0].Some? && cands[0].value != "" then cands[0].value
    else
      var r := FirstGiven(cands[1..], fallback);
      assert forall i :: 1 <= i < |cands| ==> cands[i] == cands[1..][i - 1];
      r
  }

  // ---------------------------------------------------------------------------
  // Reading printed hours back

  /** The number printed between `head` and `tail`, read back in tenths. */
  function ReadBetween(s: string, head: string, tail: string): Option<int> {
    if |head| + |tail| <= |s| && StartsWith(s, head) && EndsWith(s, tail) then
      ParseTenths(s[|head|..|s| - |tail|])
    else None
  }

  /** The number printed after `head` up to the first `sep`, in tenths, with the text after `sep`. */
  function ReadUntil(s: string, head: string, sep: string): Option<(int, string)> {
    if StartsWith(s, head) then
      var m := s[|head|..];
      match IndexOf(m, sep)
      case Some(i) =>
        (match ParseTenths(m[..i])
         case Some(v) => Some((v, m[i + |sep|..]))
         case None => None)
      case None => None
    else None
  }

  /** Reads an `efficiency_gain` text, `약 <saved>시간(<percentage>%)...`: the saved hours in tenths
      and the percentage. */
  function ReadSaving(s: string): Option<(int, int)> {
    match ReadUntil(s, "약 ", "시간(")
    case Some((saved, rest)) =>
      (match ReadUntil(rest, "", "%)")
       case Some((pct, _)) => Some((saved, pct / 10))
       case None => None)
    case None => None
  }

  /** A separator that cannot start inside a printed number is first found right after it. */
  lemma IndexAfterNumeral(num: string, sep: string, tail: string)
    requires AllNumeral(num) && |sep| > 0 && !IsNumeralChar(sep[0])
    ensures IndexOf(num + sep + tail, sep) == Some(|num|)
  {
    var m := num + sep + tail;
    assert m[|num|..|num| + |sep|] == sep;
    OccursContains(m, sep, |num|);
    var k := IndexOf(m, sep).value;
    assert sep <= m[|num|..];
    assert k >= |num|;
  }

  /** A number printed after `head` and closed by `sep` reads back, and so does the rest. */
  lemma ReadUntilPrinted(head: string, num: string, sep: string, tail: string, v: int)
    requires AllNumeral(num) && |sep| > 0 && !IsNumeralChar(sep[0]) && ParseTenths(num) == Some(v)
    ensures ReadUntil(head + num + sep + tail, head, sep) == Some((v, tail))
  {
    var s := head + num + sep + tail;
    assert s[..|head|] == head;
    var m := s[|head|..];
    assert m == num + sep + tail;
    IndexAfterNumeral(num, sep, tail);
    assert m[..|num|] == num;
    assert m[|num| + |sep|..] == tail;
  }

  /** `efficiency_gain` texts give back the saved hours and the percentage they were printed from. */
  lemma ReadSavingPrinted(saved: int, pct: int, tail: string)
    ensures ReadSaving("약 " + TenthsString(saved) + "시간(" + IntString(pct) + "%)" + tail) == Some((saved, pct))
  {
    SavedHoursPrinted(saved, pct, tail);
    PercentagePrinted(pct, tail);
    TenthsOfTen(pct);
  }

  lemma TenthsOfTen(n: int)
    ensures 10 * n / 10 == n
  {
  }

  lemma SavedHoursPrinted(saved: int, pct: int, tail: string)
    ensures ReadUntil("약 " + TenthsString(saved) + "시간(" + IntString(pct) + "%)" + tail, "약 ", "시간(")
         == Some((saved, IntString(pct) + "%)" + tail))
  {
    var rest := IntString(pct) + "%)" + tail;
    TenthsRoundTrip(saved);
    assert "약 " + TenthsString(saved) + "시간(" + IntString(pct) + "%)" + tail
        == "약 " + TenthsString(saved) + "시간(" + rest;
    ReadUntilPrinted("약 ", TenthsString(saved), "시간(", rest, saved);
  }

  lemma PercentagePrinted(pct: int, tail: string)
    ensures ReadUntil(IntString(pct) + "%)" + tail, "", "%)") == Some((10 * pct, tail))
  {
    IntRoundTrip(pct);
    assert IntString(pct) + "%)" + tail == "" + IntString(pct) + "%)" + tail;
    ReadUntilPrinted("", IntString(pct), "%)", tail, 10 * pct);
  }

  /** A number printed between two texts reads back. */
  lemma ReadBetweenPrinted(head: string, t: int, tail: string)
    ensures ReadBetween(head + TenthsString(t) + tail, head, tail) == Some(t)
  {
    var s := head + TenthsString(t) + tail;
    assert s[..|head|] == head;
    assert s[|s| - |tail|..] == tail;
    assert s[|head|..|s| - |tail|] == TenthsString(t);
    TenthsRoundTrip(t);
  }

  // ---------------------------------------------------------------------------
  // generateFallbackCoaching

  /** Learning time by difficulty in the quick report. */
  function QuickLearningTime(d: Difficulty): string {
    match d
    case Beginner => "30분"
    case Intermediate => "1시간"
    case Advanced => "2시간"
  }

  /** The learning roadmap of the quick report: the first three recommended tools, in order. */
  function QuickRoadmap(rs: seq<RecommendedTool>): (r: seq<LearningStep>)
    ensures |r| == if |rs| < 3 then |rs| else 3
    ensures forall i :: 0 <= i < |r| ==>
      && r[i].priority == i + 1
      && r[i].toolName == rs[i].tool.name
      && r[i].reason == Recommendation.Reason(rs[i])
      && r[i].estimatedLearningTime == QuickLearningTime(rs[i].tool.difficulty)
  {
    var top := if |rs| < 3 then rs else rs[..3];
    seq(|top|, i requires 0 <= i < |top| =>
      LearningStep(i + 1, top[i].tool.name, Recommendation.Reason(top[i]),
                   top[i].tool.name + " 공식 문서 및 YouTube 튜토리얼", QuickLearningTime(top[i].tool.difficulty)))
  }

  /** The three steps of the quick workflow, each naming the tool it falls back to. */
  function QuickWorkflow(rs: seq<RecommendedTool>): (w: seq<WorkflowStep>)
    ensures |w| == 3
    ensures forall i :: 0 <= i < 3 ==> w[i].stepNumber == i + 1
  {
    [ WorkflowStep(1, "업무 분석 및 계획 수립",
        FirstGiven([NameAt(rs, 0)], "ChatGPT"),
        FirstGiven([UrlAt(rs, 0)], "https://chat.openai.com"),
        "대화형 AI 어시스턴트",
        ["현재 업무 프로세스 정리", "자동화 가능한 부분 식별", "AI 도구 활용 계획 수립"],
        "업무 자동화 계획서", "10분",
        "구체적인 업무 내용과 원하는 결과물을 명확히 설명하세요."),
      WorkflowStep(2, "핵심 업무 자동화",
        FirstGiven([NameAt(rs, 1), NameAt(rs, 0)], "AI 도구"),
        FirstGiven([UrlAt(rs, 1), UrlAt(rs, 0)], ""),
        "자동화 기능",
        ["도구 계정 생성 및 설정", "업무 템플릿 생성", "자동화 워크플로우 구성"],
        "자동화된 업무 프로세스", "20분",
        "처음에는 간단한 작업부터 자동화를 시작하세요."),
      WorkflowStep(3, "결과물 검토 및 최적화",
        FirstGiven([NameAt(rs, 2), NameAt(rs, 0)], "AI 도구"),
        FirstGiven([UrlAt(rs, 2), UrlAt(rs, 0)], ""),
        "검토 및 편집 기능",
        ["생성된 결과물 검토", "필요시 수정 및 보완", "최종 결과물 저장"],
        "완성된 업무 결과물", "10분",
        "AI 결과물은 항상 한 번 더 검토하는 습관을 들이세요.") ]
  }

  const QuickTips: seq<string> := [
    "처음에는 하나의 도구에 집중하여 충분히 익숙해진 후 다른 도구로 확장하세요.",
    "반복되는 작업은 템플릿화하여 재사용하면 더 큰 시간 절감 효과를 얻을 수 있습니다.",
    "AI 도구는 보조 수단입니다. 최종 검토는 항상 직접 수행하세요."
  ]

  /** An hour count printed between two fixed texts (`before` and `after` of both reports); it
      reads back as the number printed. */
  function HoursText(head: string, tenths: int, tail: string): (s: string)
    ensures ReadBetween(s, head, tail) == Some(tenths)
  {
    ReadBetweenPrinted(head, tenths, tail);
    head + TenthsString(tenths) + tail
  }

  /** An `efficiency_gain` text, `약 <saved>시간(<percentage>%)` followed by `tail`; it reads back as
      the hours saved and the percentage. */
  function SavingText(savedTenths: int, percentage: int, tail: string): (s: string)
    ensures ReadSaving(s) == Some((savedTenths, percentage))
  {
    ReadSavingPrinted(savedTenths, percentage, tail);
    "약 " + TenthsString(savedTenths) + "시간(" + IntString(percentage) + "%)" + tail
  }

  /** The end of the quick report's summary, which repeats the percentage of time saved. */
  function SummaryClose(percentage: int): string {
    "약 " + IntString(percentage) + "%의 시간 절감이 가능합니다."
  }

  const QuickConclusionLead := "님, 추천드린 AI 도구들을 활용하시면 "
  const QuickConclusionMiddle := "를 훨씬 효율적으로 처리하실 수 있습니다. "
  const QuickConclusionClose := " 보시고, 궁금한 점이 있으시면 언제든 문의해 주세요. 화이팅!"

  /** The quoted task of the quick conclusion. */
  function QuotedTask(jobDescription: string): string {
    "\"" + jobDescription + "\" 업무"
  }

  /** Where the quick conclusion tells the person which tool to start with. */
  function StartWith(toolName: string): string {
    "먼저 " + toolName + "부터 시작해"
  }

  /** The closing remark of the quick report. */
  function QuickConclusionText(task: TaskInfo, rs: seq<RecommendedTool>): string {
    (task.name + QuickConclusionLead) + QuotedTask(task.jobDescription)
      + (QuickConclusionMiddle + StartWith(FirstGiven([NameAt(rs, 0)], "첫 번째 추천 도구")) + QuickConclusionClose)
  }

  /** `generateFallbackCoaching(taskInfo, recommendation)`: the report written without the language
      model, from the recommendation alone. */
  function GenerateFallbackCoaching(task: TaskInfo, rec: RecommendationResult): (c: CoachingResult)
    ensures |c.workflow| == 3
    ensures forall i :: 0 <= i < 3 ==> c.workflow[i].stepNumber == i + 1
    ensures |c.learningRoadmap| == if |rec.recommended| < 3 then |rec.recommended| else 3
    ensures forall i :: 0 <= i < |c.learningRoadmap| ==>
      && c.learningRoadmap[i].priority == i + 1
      && c.learningRoadmap[i].toolName == rec.recommended[i].tool.name
      && c.learningRoadmap[i].estimatedLearningTime == QuickLearningTime(rec.recommended[i].tool.difficulty)
    ensures ReadBetween(c.timeAnalysis.before, "현재 ", "시간 소요") == Some(task.estimatedTenths)
    ensures ReadBetween(c.timeAnalysis.after, "자동화 후 ", "시간 소요 예상") == Some(rec.timeSaving.newTenths)
    ensures ReadSaving(c.timeAnalysis.efficiencyGain) == Some((rec.timeSaving.savedTenths, rec.timeSaving.percentage))
    ensures StartsWith(c.summary, task.name + "님의 \"" + task.jobDescription + "\" 업무는 " + rec.category)
    ensures EndsWith(c.summary, SummaryClose(rec.timeSaving.percentage))
  {
    var rs := rec.recommended;
    var ts := rec.timeSaving;
    var opening := task.name + "님의 \"" + task.jobDescription + "\" 업무는 " + rec.category;
    Affixes(opening, "", " 카테고리로 분류되며, AI 도구를 활용하면 ", SummaryClose(ts.percentage));
    CoachingResult(
      opening + " 카테고리로 분류되며, AI 도구를 활용하면 " + SummaryClose(ts.percentage),
      QuickWorkflow(rs),
      QuickTips,
      TimeAnalysis(HoursText("현재 ", task.estimatedTenths, "시간 소요"),
                   HoursText("자동화 후 ", ts.newTenths, "시간 소요 예상"),
                   SavingText(ts.savedTenths, ts.percentage, "의 시간을 절감할 수 있습니다.")),
      QuickRoadmap(rs),
      QuickConclusionText(task, rs))
  }

  /** Which tool each quick step names: the first step the best tool, else ChatGPT; the second and
      third steps the second and third tools, else the best tool, else a generic "AI 도구". */
  lemma QuickStepTools(task: TaskInfo, rec: RecommendationResult)
    ensures var w := GenerateFallbackCoaching(task, rec).workflow;
            var rs := rec.recommended;
            && (|rs| == 0 ==> w[0].toolName == "ChatGPT" && w[1].toolName == "AI 도구" && w[2].toolName == "AI 도구")
            && (|rs| > 0 && rs[0].tool.name != "" ==> w[0].toolName == rs[0].tool.name)
            && (|rs| == 1 && rs[0].tool.name != "" ==> w[1].toolName == rs[0].tool.name && w[2].toolName == rs[0].tool.name)
            && (|rs| >= 2 && rs[1].tool.name != "" ==> w[1].toolName == rs[1].tool.name)
            && (|rs| == 2 && rs[0].tool.name != "" ==> w[2].toolName == rs[0].tool.name)
            && (|rs| >= 3 && rs[2].tool.name != "" ==> w[2].toolName == rs[2].tool.name)
  {
    var rs := rec.recommended;
    var w := QuickWorkflow(rs);
    assert GenerateFallbackCoaching(task, rec).workflow == w;
    if |rs| == 1 && rs[0].tool.name != "" {
      assert FirstGiven([NameAt(rs, 1), NameAt(rs, 0)], "AI 도구") == rs[0].tool.name;
      assert FirstGiven([NameAt(rs, 2), NameAt(rs, 0)], "AI 도구") == rs[0].tool.name;
    }
    if |rs| == 2 && rs[0].tool.name != "" {
      assert FirstGiven([NameAt(rs, 2), NameAt(rs, 0)], "AI 도구") == rs[0].tool.name;
    }
  }

  /** Which address each quick step links to: the first step the best tool's, else ChatGPT's; the
      second and third steps the second and third tools', else the best tool's, else none. */
  lemma QuickStepUrls(task: TaskInfo, rec: RecommendationResult)
    ensures var w := GenerateFallbackCoaching(task, rec).workflow;
            var rs := rec.recommended;
            && (UrlAt(rs, 0).None? || UrlAt(rs, 0) == Some("") ==> w[0].toolUrl == "https://chat.openai.com")
            && (UrlAt(rs, 0).Some? && UrlAt(rs, 0).value != "" ==> w[0].toolUrl == UrlAt(rs, 0).value)
            && (UrlAt(rs, 1).Some? && UrlAt(rs, 1).value != "" ==> w[1].toolUrl == UrlAt(rs, 1).value)
            && (UrlAt(rs, 2).Some? && UrlAt(rs, 2).value != "" ==> w[2].toolUrl == UrlAt(rs, 2).value)
            && (forall i :: 1 <= i <= 2 && (UrlAt(rs, i).None? || UrlAt(rs, i) == Some("")) ==>
                  w[i].toolUrl == (if UrlAt(rs, 0).Some? then UrlAt(rs, 0).value else ""))
  {
    var rs := rec.recommended;
    assert GenerateFallbackCoaching(task, rec).workflow == QuickWorkflow(rs);
    QuickWorkflowUrls(rs);
  }

  lemma QuickWorkflowUrls(rs: seq<RecommendedTool>)
    ensures var w := QuickWorkflow(rs);
            && (UrlAt(rs, 0).None? || UrlAt(rs, 0) == Some("") ==> w[0].toolUrl == "https://chat.openai.com")
            && (UrlAt(rs, 0).Some? && UrlAt(rs, 0).value != "" ==> w[0].toolUrl == UrlAt(rs, 0).value)
            && (UrlAt(rs, 1).Some? && UrlAt(rs, 1).value != "" ==> w[1].toolUrl == UrlAt(rs, 1).value)
            && (UrlAt(rs, 2).Some? && UrlAt(rs, 2).value != "" ==> w[2].toolUrl == UrlAt(rs, 2).value)
            && (forall i :: 1 <= i <= 2 && (UrlAt(rs, i).None? || UrlAt(rs, i) == Some("")) ==>
                  w[i].toolUrl == (if UrlAt(rs, 0).Some? then UrlAt(rs, 0).value else ""))
  {
    var w := QuickWorkflow(rs);
    forall i | 1 <= i <= 2 && (UrlAt(rs, i).None? || UrlAt(rs, i) == Some(""))
      ensures w[i].toolUrl == (if UrlAt(rs, 0).Some? then UrlAt(rs, 0).value else "")
    {
      var cands := [UrlAt(rs, i), UrlAt(rs, 0)];
      assert w[i].toolUrl == FirstGiven(cands, "");
      assert FirstGiven(cands, "") == FirstGiven(cands[1..], "");
    }
  }

  /** The quick report's conclusion addresses the person, names the task, and names the tool to
      start with: the best tool, or '첫 번째 추천 도구' when there is none or it has no name. */
  lemma QuickConclusion(task: TaskInfo, rec: RecommendationResult)
    ensures var c := GenerateFallbackCoaching(task, rec).conclusion;
            var rs := rec.recommended;
            var start := if |rs| > 0 && rs[0].tool.name != "" then rs[0].tool.name else "첫 번째 추천 도구";
            && StartsWith(c, task.name + "님, ")
            && Contains(c, QuotedTask(task.jobDescription))
            && Contains(c, StartWith(start))
  {
    assert GenerateFallbackCoaching(task, rec).conclusion == QuickConclusionText(task, rec.recommended);
    QuickConclusionShape(task, rec.recommended);
  }

  lemma QuickConclusionShape(task: TaskInfo, rs: seq<RecommendedTool>)
    ensures var c := QuickConclusionText(task, rs);
            var start := if |rs| > 0 && rs[0].tool.name != "" then rs[0].tool.name else "첫 번째 추천 도구";
            && StartsWith(c, task.name + "님, ")
            && Contains(c, QuotedTask(task.jobDescription))
            && Contains(c, StartWith(start))
  {
    var start := FirstGiven([NameAt(rs, 0)], "첫 번째 추천 도구");
    assert start == if |rs| > 0 && rs[0].tool.name != "" then rs[0].tool.name else "첫 번째 추천 도구";
    ConclusionOpens(task, rs);
    ConclusionQuotesTask(task, rs);
    ConclusionNamesStart(task, rs);
  }

  lemma ConclusionOpens(task: TaskInfo, rs: seq<RecommendedTool>)
    ensures StartsWith(QuickConclusionText(task, rs), task.name + "님, ")
  {
    var start := FirstGiven([NameAt(rs, 0)], "첫 번째 추천 도구");
    var rest := QuotedTask(task.jobDescription) + (QuickConclusionMiddle + StartWith(start) + QuickConclusionClose);
    assert QuickConclusionText(task, rs) == task.name + QuickConclusionLead + rest;
    assert "님, " <= QuickConclusionLead;
    Affixes(task.name, "님, ", QuickConclusionLead, rest);
  }

  lemma ConclusionQuotesTask(task: TaskInfo, rs: seq<RecommendedTool>)
    ensures Contains(QuickConclusionText(task, rs), QuotedTask(task.jobDescription))
  {
    var start := FirstGiven([NameAt(rs, 0)], "첫 번째 추천 도구");
    var head := task.name + QuickConclusionLead;
    var job := QuotedTask(task.jobDescription);
    var rest := QuickConclusionMiddle + StartWith(start) + QuickConclusionClose;
    assert QuickConclusionText(task, rs) == head + job + rest;
    ContainsMiddle(head, job, rest);
  }

  lemma ConclusionNamesStart(task: TaskInfo, rs: seq<RecommendedTool>)
    ensures Contains(QuickConclusionText(task, rs), StartWith(FirstGiven([NameAt(rs, 0)], "첫 번째 추천 도구")))
  {
    var start := FirstGiven([NameAt(rs, 0)], "첫 번째 추천 도구");
    var head := task.name + QuickConclusionLead;
    var job := QuotedTask(task.jobDescription);
    var rest := QuickConclusionMiddle + StartWith(start) + QuickConclusionClose;
    assert QuickConclusionText(task, rs) == head + job + rest;
    assert head + job + rest == (head + job + QuickConclusionMiddle) + StartWith(start) + QuickConclusionClose;
    ContainsMiddle(head + job + QuickConclusionMiddle, StartWith(start), QuickConclusionClose);
  }

  // ---------------------------------------------------------------------------
  // parseJSONResponse

  const JsonFence := "```json"
  const Fence := "```"

  /** Removes a leading "```json", or else a leading "```". */
  function StripOpening(t: string): (r: string)
    ensures |r| <= |t|
  {
    if StartsWith(t, JsonFence) then t[|JsonFence|..] else if StartsWith(t, Fence) then t[|Fence|..] else t
  }

  /** Removes a trailing "```". */
  function StripClosing(a: string): (r: string)
    ensures |r| <= |a|
  {
    if EndsWith(a, Fence) then a[..|a| - |Fence|] else a
  }

  /** The text `JSON.parse` is given: trimmed, a leading "```json" (or else "```") and a trailing
      "```" removed, and trimmed again. */
  function StripFences(text: string): (r: string)
    ensures r == "" || (!IsSpace(r[0]) && !IsSpace(r[|r| - 1]))
    ensures |r| <= |text|
  {
    Trim(StripClosing(StripOpening(Trim(text))))
  }

  /** A reply with no fence at either end is only trimmed. */
  lemma UnfencedOnlyTrimmed(text: string)
    requires !StartsWith(Trim(text), Fence) && !EndsWith(Trim(text), Fence)
    ensures StripFences(text) == Trim(text)
  {
    assert Fence <= JsonFence;
    assert StripOpening(Trim(text)) == Trim(text);
    TrimIdempotent(text);
  }

  /** Padding around a fenced text does not survive the first trim. */
  lemma TrimFenced(pre: string, x: string, post: string)
    requires AllSpace(pre) && AllSpace(post) && |x| > 0 && x[0] == '`' && x[|x| - 1] == '`'
    ensures Trim(pre + x + post) == x
  {
    TrimPadded(pre, x, post);
    TrimOfTrimmed(x);
  }

  lemma ClosingRemoved(body: string)
    ensures StripClosing(body + Fence) == body
  {
    var a := body + Fence;
    assert a[|a| - |Fence|..] == Fence;
    assert a[..|a| - |Fence|] == body;
  }

  /** A body wrapped in a "```json" fence, with any white space around it, comes out trimmed. */
  lemma JsonFenceRoundTrip(pre: string, body: string, post: string)
    requires AllSpace(pre) && AllSpace(post)
    ensures StripFences(pre + JsonFence + body + Fence + post) == Trim(body)
  {
    var x := JsonFence + (body + Fence);
    assert pre + JsonFence + body + Fence + post == pre + x + post;
    TrimFenced(pre, x, post);
    assert x[..|JsonFence|] == JsonFence;
    assert StripOpening(x) == body + Fence;
    ClosingRemoved(body);
  }

  lemma NotJsonFence(body: string)
    requires !("json" <= body)
    ensures !StartsWith(Fence + (body + Fence), JsonFence)
  {
    var x := Fence + (body + Fence);
    assert x[3..] == body + Fence;
    if |body| > 0 {
      assert x[3..7] == (body + Fence)[..4];
      if |body| >= 4 {
        assert (body + Fence)[..4] == body[..4];
        assert body[..4] != "json";
        assert x[..7][3..] == x[3..7];
        assert JsonFence[3..] == "json";
        assert x[..7] != JsonFence;
      } else {
        assert (body + Fence)[|body|] == '`';
      }
    }
  }

  /** A body wrapped in a bare "```" fence comes out trimmed, unless it starts with "json". */
  lemma BareFenceRoundTrip(pre: string, body: string, post: string)
    requires AllSpace(pre) && AllSpace(post) && !("json" <= body)
    ensures StripFences(pre + Fence + body + Fence + post) == Trim(body)
  {
    var x := Fence + (body + Fence);
    assert pre + Fence + body + Fence + post == pre + x + post;
    TrimFenced(pre, x, post);
    NotJsonFence(body);
    assert x[..|Fence|] == Fence;
    assert StripOpening(x) == body + Fence;
    ClosingRemoved(body);
  }

  const ParseError := "Failed to parse AI response as JSON"

  /** `parseJSONResponse(text)`, with `JSON.parse` supplied as `parse` (`None` where it throws). */
  function ParseJSONResponse(text: string, parse: string -> Option<CoachingResult>): Result<CoachingResult> {
    match parse(StripFences(text))
    case Some(r) => Success(r)
    case None => Failure(ParseError)
  }

  /** A fenced JSON reply is parsed from its trimmed body, and a body the parser rejects is reported
      as the parse error. */
  lemma FencedReplyParsed(pre: string, body: string, post: string, parse: string -> Option<CoachingResult>)
    requires AllSpace(pre) && AllSpace(post)
    ensures var r := ParseJSONResponse(pre + JsonFence + body + Fence + post, parse);
            && (r.Success? <==> parse(Trim(body)).Some?)
            && (r.Success? ==> r.value == parse(Trim(body)).value)
            && (r.Failure? ==> r.error == ParseError)
  {
    JsonFenceRoundTrip(pre, body, post);
    ParsedFromStripped(pre + JsonFence + body + Fence + post, Trim(body), parse);
  }

  lemma ParsedFromStripped(text: string, stripped: string, parse: string -> Option<CoachingResult>)
    requires StripFences(text) == stripped
    ensures var r := ParseJSONResponse(text, parse);
            && (r.Success? <==> parse(stripped).Some?)
            && (r.Success? ==> r.value == parse(stripped).value)
            && (r.Failure? ==> r.error == ParseError)
  {
  }
}
