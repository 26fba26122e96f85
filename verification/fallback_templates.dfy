/** The category-specific local coaching report (fallback-templates.ts): the template of the
    task's category, its workflow re-pointed at the recommended tools, a learning roadmap and a
    closing remark. A category without a template is written up with the '문서작성' one. */
module FallbackTemplates {
  import opened Wrappers
  import opened Text
  import opened Numerals
  import opened Records
  import opened Collections
  import opened Catalog
  import opened Coaching
  import opened FallbackTables
  import Recommendation

  const DefaultCategory := "문서작성"

  /** `CATEGORY_TEMPLATES[category] || CATEGORY_TEMPLATES['문서작성']` */
  function TemplateFor(category: string): CategoryTemplate {
    match Lookup(CategoryTemplates, category)
    case Some(t) => t
    case None => CategoryTemplates[0].1
  }

  /** `AVAILABLE_CATEGORIES`: the categories that have a template, in source order. */
  function AvailableCategories(): seq<string> {
    Keys(CategoryTemplates)
  }

  lemma AvailableCategoriesListed()
    ensures AvailableCategories() == ["문서작성", "데이터분석", "마케팅", "업무자동화", "일정관리", "회의",
                                      "이미지생성", "영상생성", "고객서비스", "개발", "리서치"]
    ensures CategoryTemplates[0].0 == DefaultCategory
  {
  }

  /** A category without a template gets the '문서작성' template; a category with one gets its own.
      Categories the recommender can produce but no template covers include '로컬파일분석',
      '웹데이터분석', '오디오편집' and '다목적'. */
  lemma TemplateDefault(category: string)
    ensures TemplateFor(DefaultCategory) == DocumentWritingTemplate
    ensures category !in AvailableCategories() ==> TemplateFor(category) == DocumentWritingTemplate
    ensures category in AvailableCategories() ==> TemplateFor(category).category == category
    ensures "로컬파일분석" !in AvailableCategories() && "웹데이터분석" !in AvailableCategories()
    ensures "오디오편집" !in AvailableCategories() && "다목적" !in AvailableCategories()
  {
    AvailableCategoriesListed();
    TableWellFormed();
    assert CategoryTemplates[0] == (DefaultCategory, DocumentWritingTemplate);
    if category in AvailableCategories() {
      var i := KeyIndex(CategoryTemplates, category);
      assert WellFormedTemplate(CategoryTemplates[i].0, CategoryTemplates[i].1);
    }
  }

  /** Whatever the category, its template has five steps numbered 1 to 5, and a summary of the form
      `${name}` followed by text without a further `$`. */
  lemma TemplatesWellFormed(category: string)
    ensures var t := TemplateFor(category);
            && |t.workflow| == 5
            && (forall i :: 0 <= i < 5 ==> t.workflow[i].stepNumber == i + 1)
            && SummaryShaped(t.summaryTemplate)
  {
    TemplateDefault(category);
    TableWellFormed();
    if category in AvailableCategories() {
      var i := KeyIndex(CategoryTemplates, category);
      assert WellFormedTemplate(CategoryTemplates[i].0, CategoryTemplates[i].1);
    } else {
      assert WellFormedTemplate(CategoryTemplates[0].0, CategoryTemplates[0].1);
    }
  }

  // ---------------------------------------------------------------------------
  // customizeWorkflowWithTools

  /** The recommended tool fits the step: same name, its category mentions the step's tool, or
      the step's tool mentions its name. */
  predicate StepMatches(rt: RecommendedTool, stepTool: string) {
    rt.tool.name == stepTool || Contains(rt.tool.category, stepTool) || Contains(stepTool, rt.tool.name)
  }

  /** `recommendedTools.find(...)`, as a position. */
  function FindMatching(tools: seq<RecommendedTool>, stepTool: string): (r: Option<nat>)
    ensures r.Some? ==> r.value < |tools| && StepMatches(tools[r.value], stepTool)
    ensures r.Some? ==> forall j :: 0 <= j < r.value ==> !StepMatches(tools[j], stepTool)
    ensures r.None? <==> forall j :: 0 <= j < |tools| ==> !StepMatches(tools[j], stepTool)
    decreases |tools|
  {
    if |tools| == 0 then None
    else if StepMatches(tools[0], stepTool) then Some(0)
    else
      match FindMatching(tools[1..], stepTool)
      case Some(i) =>
        assert forall j :: 1 <= j < i + 1 ==> tools[j] == tools[1..][j - 1];
        Some(i + 1)
      case None =>
        assert forall j :: 1 <= j < |tools| ==> tools[j] == tools[1..][j - 1];
        None
  }

  /** `recommendedTools.map(rt => rt.tool.name)` */
  function ToolNames(tools: seq<RecommendedTool>): (ns: seq<string>)
    ensures |ns| == |tools|
    ensures forall i :: 0 <= i < |tools| ==> ns[i] == tools[i].tool.name
  {
    seq(|tools|, i requires 0 <= i < |tools| => tools[i].tool.name)
  }

  /** The step re-pointed at `rt`: its name and address (or `fallbackUrl`), and its reason in
      front of the step's tip. */
  function PointAt(step: WorkflowStep, rt: RecommendedTool, fallbackUrl: string): WorkflowStep {
    step.(toolName := rt.tool.name,
          toolUrl := FirstGiven([rt.tool.websiteUrl], fallbackUrl),
          tips := Recommendation.Reason(rt) + " " + step.tips)
  }

  /** One step of `customizeWorkflowWithTools`. Only the tool name, the address and the tip can
      change. */
  function CustomizeStep(step: WorkflowStep, index: nat, tools: seq<RecommendedTool>): (r: WorkflowStep)
    ensures r.(toolName := step.toolName, toolUrl := step.toolUrl, tips := step.tips) == step
  {
    match FindMatching(tools, step.toolName)
    case Some(j) => PointAt(step, tools[j], step.toolUrl)
    case None =>
      if index < |tools| && step.toolName !in ToolNames(tools) then PointAt(step, tools[index], "")
      else step
  }

  /** `customizeWorkflowWithTools(templateWorkflow, recommendedTools)`: the steps keep their
      number and order, and each is re-pointed at a recommended tool where one fits. */
  function CustomizeWorkflowWithTools(steps: seq<WorkflowStep>, tools: seq<RecommendedTool>): (r: seq<WorkflowStep>)
    ensures |r| == |steps|
    ensures forall i :: 0 <= i < |steps| ==> r[i] == CustomizeStep(steps[i], i, tools)
    ensures forall i :: 0 <= i < |steps| ==>
      r[i].(toolName := steps[i].toolName, toolUrl := steps[i].toolUrl, tips := steps[i].tips) == steps[i]
  {
    seq(|steps|, i requires 0 <= i < |steps| => CustomizeStep(steps[i], i, tools))
  }

  /** A step some recommended tool fits is taken over by the first such tool, and keeps its own
      address when that tool has none. */
  lemma CustomizeMatched(step: WorkflowStep, index: nat, tools: seq<RecommendedTool>, j: nat)
    requires j < |tools| && StepMatches(tools[j], step.toolName)
    requires forall k :: 0 <= k < j ==> !StepMatches(tools[k], step.toolName)
    ensures CustomizeStep(step, index, tools) == PointAt(step, tools[j], step.toolUrl)
  {
    var f := FindMatching(tools, step.toolName);
    assert f.Some?;
    assert f.value == j;
  }

  /** A step no recommended tool fits is taken over by the tool at its own position, with an empty
      address when that tool has none, and otherwise stays as written. The check
      `!toolNames.includes(step.tool_name)` never decides anything: a tool with the step's exact
      name would have fitted. */
  lemma CustomizeUnmatched(step: WorkflowStep, index: nat, tools: seq<RecommendedTool>)
    requires forall j :: 0 <= j < |tools| ==> !StepMatches(tools[j], step.toolName)
    ensures index < |tools| ==> CustomizeStep(step, index, tools) == PointAt(step, tools[index], "")
    ensures index >= |tools| ==> CustomizeStep(step, index, tools) == step
  {
    assert step.toolName !in ToolNames(tools);
  }

  /** With no recommended tool the workflow stays as written. */
  lemma CustomizeWithoutTools(steps: seq<WorkflowStep>)
    ensures CustomizeWorkflowWithTools(steps, []) == steps
  {
  }

  /** Every step names its template tool or one of the given tools. */
  lemma CustomizedToolsFromList(steps: seq<WorkflowStep>, tools: seq<RecommendedTool>, i: nat)
    requires i < |steps|
    ensures var n := CustomizeWorkflowWithTools(steps, tools)[i].toolName;
            n == steps[i].toolName || n in ToolNames(tools)
  {
    match FindMatching(tools, steps[i].toolName)
    case Some(j) =>
      assert ToolNames(tools)[j] == tools[j].tool.name;
    case None =>
      if i < |tools| {
        assert ToolNames(tools)[i] == tools[i].tool.name;
      }
  }

  // ---------------------------------------------------------------------------
  // generateLearningRoadmap

  function TemplateLearningTime(d: Difficulty): string {
    match d
    case Beginner => "30분-1시간"
    case Intermediate => "1-2시간"
    case Advanced => "2-3시간"
  }

  /** `focusAreas[index] || '관련 온라인 강의'` */
  function FocusAt(focus: seq<string>, i: nat): string {
    FirstGiven([if i < |focus| then Some(focus[i]) else None], "관련 온라인 강의")
  }

  /** `generateLearningRoadmap(recommendedTools, focusAreas)`: the first three tools, in order, each
      pointed at the category's learning topic of the same position. */
  function GenerateLearningRoadmap(tools: seq<RecommendedTool>, focus: seq<string>): (r: seq<LearningStep>)
    ensures |r| == if |tools| < 3 then |tools| else 3
    ensures forall i :: 0 <= i < |r| ==>
      && r[i].priority == i + 1
      && r[i].toolName == tools[i].tool.name
      && r[i].reason == Recommendation.Reason(tools[i])
      && StartsWith(r[i].learningResources, tools[i].tool.name)
      && EndsWith(r[i].learningResources, if i < |focus| && focus[i] != "" then focus[i] else "관련 온라인 강의")
      && r[i].estimatedLearningTime == TemplateLearningTime(tools[i].tool.difficulty)
  {
    var top := if |tools| < 3 then tools else tools[..3];
    seq(|top|, i requires 0 <= i < |top| =>
      Affixes(top[i].tool.name, "", " 공식 문서, YouTube 튜토리얼, ", FocusAt(focus, i));
      LearningStep(i + 1, top[i].tool.name, Recommendation.Reason(top[i]),
                   top[i].tool.name + " 공식 문서, YouTube 튜토리얼, " + FocusAt(focus, i),
                   TemplateLearningTime(top[i].tool.difficulty)))
  }

  // ---------------------------------------------------------------------------
  // generateConclusion

  /** `conclusions[category] || conclusions['문서작성']` */
  function ConclusionFor(category: string): ConclusionText {
    match Lookup(Conclusions, category)
    case Some(c) => c
    case None => Conclusions[0].1
  }

  /** `generateConclusion(name, category, topToolName)`: addresses the person and names the tool to
      start with. */
  function GenerateConclusion(name: string, category: string, topToolName: string): (r: string)
    ensures StartsWith(r, name)
    ensures Contains(r, topToolName)
  {
    var c := ConclusionFor(category);
    var r := name + c.lead + topToolName + c.close;
    assert r[..|name|] == name;
    assert r[|name| + |c.lead|..|name| + |c.lead| + |topToolName|] == topToolName;
    OccursContains(r, topToolName, |name| + |c.lead|);
    r
  }

  /** The remarks are written for exactly the categories that have a template, so an unknown
      category closes with the '문서작성' remark, as it uses the '문서작성' template. */
  lemma ConclusionDefault(name: string, category: string, topToolName: string)
    ensures Keys(Conclusions) == AvailableCategories()
    ensures category !in AvailableCategories() ==>
      GenerateConclusion(name, category, topToolName) == GenerateConclusion(name, DefaultCategory, topToolName)
  {
    AvailableCategoriesListed();
    assert Keys(Conclusions) == AvailableCategories();
  }

  // ---------------------------------------------------------------------------
  // generateCategoryFallbackCoaching

  /** Text without `$` holds no placeholder. */
  lemma NoDollarNoPlaceholder(s: string, p: string)
    requires '$' !in s && |p| > 0 && p[0] == '$'
    ensures !Contains(s, p)
  {
    if Contains(s, p) {
      var i := ContainsOccurs(s, p);
    }
  }

  /** The summary: the template with the first `${name}` replaced by the name, then the first
      `${job_description}` replaced by the job description. */
  function FillSummary(template: string, name: string, jobDescription: string): string {
    ReplaceFirst(ReplaceFirst(template, "${name}", name), "${job_description}", jobDescription)
  }

  /** A summary template opens with the person's name; no template mentions the job description,
      so for a name without `$` the summary is the name followed by the template's text. */
  lemma SummaryFilled(template: string, name: string, jobDescription: string)
    requires SummaryShaped(template)
    ensures '$' !in name ==> FillSummary(template, name, jobDescription) == name + template[7..]
  {
    if '$' !in name {
      assert template == "${name}" + template[7..];
      ReplaceLeading("${name}", template[7..], name);
      assert '$' !in name + template[7..];
      NoDollarNoPlaceholder(name + template[7..], "${job_description}");
    }
  }

  /** The closing text of `efficiency_gain` in the category report, which names the category. */
  function GainTail(category: string): string {
    "의 시간을 절감할 수 있습니다. " + category + " 업무의 핵심 단계를 AI가 대신 처리합니다."
  }

  /** `generateCategoryFallbackCoaching(taskInfo, recommendation)`: the category's template filled
      in with the first five recommended tools. */
  function GenerateCategoryFallbackCoaching(task: TaskInfo, rec: RecommendationResult): (c: CoachingResult)
    ensures var t := TemplateFor(rec.category);
      && |c.workflow| == |t.workflow|
      && (forall i :: 0 <= i < |t.workflow| ==>
            c.workflow[i].(toolName := t.workflow[i].toolName, toolUrl := t.workflow[i].toolUrl, tips := t.workflow[i].tips)
            == t.workflow[i])
      && c.coachingTips == t.coachingTips
    ensures |c.learningRoadmap| == if |rec.recommended| < 3 then |rec.recommended| else 3
    ensures ReadBetween(c.timeAnalysis.before, "현재 ", "시간 소요") == Some(task.estimatedTenths)
    ensures ReadBetween(c.timeAnalysis.after, "자동화 후 약 ", "시간 소요 예상") == Some(rec.timeSaving.newTenths)
    ensures ReadSaving(c.timeAnalysis.efficiencyGain) == Some((rec.timeSaving.savedTenths, rec.timeSaving.percentage))
    ensures SummaryShaped(TemplateFor(rec.category).summaryTemplate)
    ensures '$' !in task.name ==> c.summary == task.name + TemplateFor(rec.category).summaryTemplate[7..]
    ensures StartsWith(c.conclusion, task.name)
  {
    var template := TemplateFor(rec.category);
    TemplatesWellFormed(rec.category);
    SummaryFilled(template.summaryTemplate, task.name, task.jobDescription);
    var topTools := Take(rec.recommended, 5);
    CoachingResult(
      FillSummary(template.summaryTemplate, task.name, task.jobDescription),
      CustomizeWorkflowWithTools(template.workflow, topTools),
      template.coachingTips,
      TimeAnalysis(HoursText("현재 ", task.estimatedTenths, "시간 소요"),
                   HoursText("자동화 후 약 ", rec.timeSaving.newTenths, "시간 소요 예상"),
                   SavingText(rec.timeSaving.savedTenths, rec.timeSaving.percentage, GainTail(rec.category))),
      GenerateLearningRoadmap(topTools, template.learningFocus),
      GenerateConclusion(task.name, rec.category, FirstGiven([NameAt(topTools, 0)], "AI 도구")))
  }

  /** Only the first five recommended tools reach the report: its workflow names template tools or
      one of those five, and the closing remark names the best tool, or 'AI 도구' when there is
      none. */
  lemma CategoryReportTools(task: TaskInfo, rec: RecommendationResult, i: nat)
    requires i < |TemplateFor(rec.category).workflow|
    ensures var c := GenerateCategoryFallbackCoaching(task, rec);
            var n := c.workflow[i].toolName;
            && (n == TemplateFor(rec.category).workflow[i].toolName
                || exists j :: 0 <= j < |rec.recommended| && j < 5 && n == rec.recommended[j].tool.name)
            && (|rec.recommended| == 0 ==> Contains(c.conclusion, "AI 도구"))
            && (|rec.recommended| > 0 && rec.recommended[0].tool.name != "" ==> Contains(c.conclusion, rec.recommended[0].tool.name))
  {
    var topTools := Take(rec.recommended, 5);
    CustomizedToolsFromList(TemplateFor(rec.category).workflow, topTools, i);
    var n := GenerateCategoryFallbackCoaching(task, rec).workflow[i].toolName;
    if n in ToolNames(topTools) {
      var j :| 0 <= j < |topTools| && ToolNames(topTools)[j] == n;
      assert n == rec.recommended[j].tool.name;
    }
  }

  /** An unknown category is written up exactly as '문서작성' would be, but for the category's name
      in the efficiency text. */
  lemma UnknownCategoryReport(task: TaskInfo, rec: RecommendationResult)
    requires rec.category !in AvailableCategories()
    ensures var c := GenerateCategoryFallbackCoaching(task, rec);
            var d := GenerateCategoryFallbackCoaching(task, rec.(category := DefaultCategory));
            c.(timeAnalysis := d.timeAnalysis) == d
  {
    TemplateDefault(rec.category);
    ConclusionDefault(task.name, rec.category, FirstGiven([NameAt(Take(rec.recommended, 5), 0)], "AI 도구"));
  }

}
