/** The category templates of the local coaching report (fallback-templates.ts), as written. The
    tool names, addresses, step numbers and learning topics are the source's; every other piece of
    prose is an opaque tag naming the category, the step and the field it stands for. */
module FallbackTables {
  import opened Coaching

  /** A category's report template (`CategoryTemplate`). The summary starts with the placeholder
      `${name}`. */
  datatype CategoryTemplate = CategoryTemplate(
    category: string,
    summaryTemplate: string,
    workflow: seq<WorkflowStep>,
    coachingTips: seq<string>,
    learningFocus: seq<string>)

  /** A template step whose prose fields are tags derived from `tag`. */
  function Step(stepNumber: int, tag: string, toolName: string, toolUrl: string, actionItems: seq<string>): WorkflowStep {
    WorkflowStep(stepNumber, tag + "/title", toolName, toolUrl, tag + "/feature", actionItems,
                 tag + "/output", tag + "/time", tag + "/tips")
  }

  /** The '문서작성' template. */
  const DocumentWritingTemplate := CategoryTemplate("문서작성", "${name}" + "문서작성/summary",
    [
      Step(1, "문서작성/1", "ChatGPT", "https://chatgpt.com", ["문서작성/1/action1", "문서작성/1/action2", "문서작성/1/action3"]),
      Step(2, "문서작성/2", "Claude", "https://claude.ai", ["문서작성/2/action1", "문서작성/2/action2", "문서작성/2/action3"]),
      Step(3, "문서작성/3", "Perplexity AI", "https://perplexity.ai", ["문서작성/3/action1", "문서작성/3/action2", "문서작성/3/action3"]),
      Step(4, "문서작성/4", "Gamma", "https://gamma.app", ["문서작성/4/action1", "문서작성/4/action2", "문서작성/4/action3"]),
      Step(5, "문서작성/5", "ChatGPT", "https://chatgpt.com", ["문서작성/5/action1", "문서작성/5/action2", "문서작성/5/action3"])
    ],
    ["문서작성/tip1", "문서작성/tip2", "문서작성/tip3", "문서작성/tip4"],
    ["ChatGPT 프롬프트 작성법", "Claude 문서 작성 활용", "Gamma 기본 사용법"])

  /** The '데이터분석' template. */
  const DataAnalysisTemplate := CategoryTemplate("데이터분석", "${name}" + "데이터분석/summary",
    [
      Step(1, "데이터분석/1", "Listly", "https://listly.io", ["데이터분석/1/action1", "데이터분석/1/action2", "데이터분석/1/action3"]),
      Step(2, "데이터분석/2", "Julius AI", "https://julius.ai", ["데이터분석/2/action1", "데이터분석/2/action2", "데이터분석/2/action3"]),
      Step(3, "데이터분석/3", "Julius AI", "https://julius.ai", ["데이터분석/3/action1", "데이터분석/3/action2", "데이터분석/3/action3"]),
      Step(4, "데이터분석/4", "ChatGPT", "https://chatgpt.com", ["데이터분석/4/action1", "데이터분석/4/action2", "데이터분석/4/action3"]),
      Step(5, "데이터분석/5", "Google Apps Script", "https://script.google.com", ["데이터분석/5/action1", "데이터분석/5/action2", "데이터분석/5/action3"])
    ],
    ["데이터분석/tip1", "데이터분석/tip2", "데이터분석/tip3", "데이터분석/tip4"],
    ["Julius AI 데이터 분석", "Google Apps Script 기초", "데이터 시각화 원칙"])

  /** The '마케팅' template. */
  const MarketingTemplate := CategoryTemplate("마케팅", "${name}" + "마케팅/summary",
    [
      Step(1, "마케팅/1", "Perplexity AI", "https://perplexity.ai", ["마케팅/1/action1", "마케팅/1/action2", "마케팅/1/action3"]),
      Step(2, "마케팅/2", "Gemini Gems", "https://gemini.google.com", ["마케팅/2/action1", "마케팅/2/action2", "마케팅/2/action3"]),
      Step(3, "마케팅/3", "Canva AI", "https://www.canva.com", ["마케팅/3/action1", "마케팅/3/action2", "마케팅/3/action3"]),
      Step(4, "마케팅/4", "Nano Banana Pro", "https://genspark.ai", ["마케팅/4/action1", "마케팅/4/action2", "마케팅/4/action3"]),
      Step(5, "마케팅/5", "Google NotebookLM", "https://notebooklm.google.com", ["마케팅/5/action1", "마케팅/5/action2", "마케팅/5/action3"])
    ],
    ["마케팅/tip1", "마케팅/tip2", "마케팅/tip3", "마케팅/tip4"],
    ["Canva AI 디자인", "SNS 카피라이팅 프롬프트", "마케팅 데이터 분석"])

  /** The '업무자동화' template. */
  const WorkAutomationTemplate := CategoryTemplate("업무자동화", "${name}" + "업무자동화/summary",
    [
      Step(1, "업무자동화/1", "ChatGPT", "https://chatgpt.com", ["업무자동화/1/action1", "업무자동화/1/action2", "업무자동화/1/action3"]),
      Step(2, "업무자동화/2", "Make", "https://www.make.com", ["업무자동화/2/action1", "업무자동화/2/action2", "업무자동화/2/action3"]),
      Step(3, "업무자동화/3", "Make", "https://www.make.com", ["업무자동화/3/action1", "업무자동화/3/action2", "업무자동화/3/action3"]),
      Step(4, "업무자동화/4", "Google Apps Script", "https://script.google.com", ["업무자동화/4/action1", "업무자동화/4/action2", "업무자동화/4/action3"]),
      Step(5, "업무자동화/5", "Make", "https://www.make.com", ["업무자동화/5/action1", "업무자동화/5/action2", "업무자동화/5/action3"])
    ],
    ["업무자동화/tip1", "업무자동화/tip2", "업무자동화/tip3", "업무자동화/tip4"],
    ["Make 기본 사용법", "Google Apps Script 입문", "업무 프로세스 분석"])

  /** The '일정관리' template. */
  const SchedulingTemplate := CategoryTemplate("일정관리", "${name}" + "일정관리/summary",
    [
      Step(1, "일정관리/1", "Notion 캘린더", "https://www.notion.so/product/calendar", ["일정관리/1/action1", "일정관리/1/action2", "일정관리/1/action3"]),
      Step(2, "일정관리/2", "ChatGPT", "https://chatgpt.com", ["일정관리/2/action1", "일정관리/2/action2", "일정관리/2/action3"]),
      Step(3, "일정관리/3", "ChatGPT", "https://chatgpt.com", ["일정관리/3/action1", "일정관리/3/action2", "일정관리/3/action3"]),
      Step(4, "일정관리/4", "에이닷 전화", "https://adot.ai", ["일정관리/4/action1", "일정관리/4/action2", "일정관리/4/action3"]),
      Step(5, "일정관리/5", "Make", "https://www.make.com", ["일정관리/5/action1", "일정관리/5/action2", "일정관리/5/action3"])
    ],
    ["일정관리/tip1", "일정관리/tip2", "일정관리/tip3", "일정관리/tip4"],
    ["Notion 캘린더 활용", "회의 효율화 기법", "자동 알림 설정"])

  /** The '회의' template. */
  const MeetingTemplate := CategoryTemplate("회의", "${name}" + "회의/summary",
    [
      Step(1, "회의/1", "클로바노트", "https://clovanote.naver.com", ["회의/1/action1", "회의/1/action2", "회의/1/action3"]),
      Step(2, "회의/2", "클로바노트", "https://clovanote.naver.com", ["회의/2/action1", "회의/2/action2", "회의/2/action3"]),
      Step(3, "회의/3", "ChatGPT", "https://chatgpt.com", ["회의/3/action1", "회의/3/action2", "회의/3/action3"]),
      Step(4, "회의/4", "Notion AI", "https://www.notion.so", ["회의/4/action1", "회의/4/action2", "회의/4/action3"]),
      Step(5, "회의/5", "ChatGPT", "https://chatgpt.com", ["회의/5/action1", "회의/5/action2", "회의/5/action3"])
    ],
    ["회의/tip1", "회의/tip2", "회의/tip3", "회의/tip4"],
    ["클로바노트 활용", "효과적인 회의록 작성", "액션 아이템 관리"])

  /** The '이미지생성' template. */
  const ImageGenerationTemplate := CategoryTemplate("이미지생성", "${name}" + "이미지생성/summary",
    [
      Step(1, "이미지생성/1", "ChatGPT", "https://chatgpt.com", ["이미지생성/1/action1", "이미지생성/1/action2", "이미지생성/1/action3"]),
      Step(2, "이미지생성/2", "Nano Banana Pro", "https://genspark.ai", ["이미지생성/2/action1", "이미지생성/2/action2", "이미지생성/2/action3"]),
      Step(3, "이미지생성/3", "Nano Banana Pro", "https://genspark.ai", ["이미지생성/3/action1", "이미지생성/3/action2", "이미지생성/3/action3"]),
      Step(4, "이미지생성/4", "Canva AI", "https://www.canva.com", ["이미지생성/4/action1", "이미지생성/4/action2", "이미지생성/4/action3"]),
      Step(5, "이미지생성/5", "Canva AI", "https://www.canva.com", ["이미지생성/5/action1", "이미지생성/5/action2", "이미지생성/5/action3"])
    ],
    ["이미지생성/tip1", "이미지생성/tip2", "이미지생성/tip3", "이미지생성/tip4"],
    ["이미지 프롬프트 작성법", "Canva 기본 사용법", "이미지 편집 기초"])

  /** The '영상생성' template. */
  const VideoGenerationTemplate := CategoryTemplate("영상생성", "${name}" + "영상생성/summary",
    [
      Step(1, "영상생성/1", "ChatGPT", "https://chatgpt.com", ["영상생성/1/action1", "영상생성/1/action2", "영상생성/1/action3"]),
      Step(2, "영상생성/2", "Google VEO 3.1", "https://deepmind.google/veo", ["영상생성/2/action1", "영상생성/2/action2", "영상생성/2/action3"]),
      Step(3, "영상생성/3", "Suno AI", "https://suno.ai", ["영상생성/3/action1", "영상생성/3/action2", "영상생성/3/action3"]),
      Step(4, "영상생성/4", "CapCut", "https://www.capcut.com", ["영상생성/4/action1", "영상생성/4/action2", "영상생성/4/action3"]),
      Step(5, "영상생성/5", "Vrew", "https://vrew.voyagerx.com", ["영상생성/5/action1", "영상생성/5/action2", "영상생성/5/action3"])
    ],
    ["영상생성/tip1", "영상생성/tip2", "영상생성/tip3", "영상생성/tip4"],
    ["영상 스크립트 작성", "CapCut 기본 편집", "AI 영상 프롬프트"])

  /** The '고객서비스' template. */
  const CustomerServiceTemplate := CategoryTemplate("고객서비스", "${name}" + "고객서비스/summary",
    [
      Step(1, "고객서비스/1", "ChatGPT", "https://chatgpt.com", ["고객서비스/1/action1", "고객서비스/1/action2", "고객서비스/1/action3"]),
      Step(2, "고객서비스/2", "Typebot", "https://typebot.io", ["고객서비스/2/action1", "고객서비스/2/action2", "고객서비스/2/action3"]),
      Step(3, "고객서비스/3", "Typebot", "https://typebot.io", ["고객서비스/3/action1", "고객서비스/3/action2", "고객서비스/3/action3"]),
      Step(4, "고객서비스/4", "카카오 채널 챗봇", "https://business.kakao.com", ["고객서비스/4/action1", "고객서비스/4/action2", "고객서비스/4/action3"]),
      Step(5, "고객서비스/5", "Google NotebookLM", "https://notebooklm.google.com", ["고객서비스/5/action1", "고객서비스/5/action2", "고객서비스/5/action3"])
    ],
    ["고객서비스/tip1", "고객서비스/tip2", "고객서비스/tip3", "고객서비스/tip4"],
    ["Typebot 챗봇 제작", "카카오 채널 운영", "고객 서비스 자동화"])

  /** The '개발' template. */
  const DevelopmentTemplate := CategoryTemplate("개발", "${name}" + "개발/summary",
    [
      Step(1, "개발/1", "ChatGPT", "https://chatgpt.com", ["개발/1/action1", "개발/1/action2", "개발/1/action3"]),
      Step(2, "개발/2", "Cursor AI", "https://cursor.sh", ["개발/2/action1", "개발/2/action2", "개발/2/action3"]),
      Step(3, "개발/3", "Claude", "https://claude.ai", ["개발/3/action1", "개발/3/action2", "개발/3/action3"]),
      Step(4, "개발/4", "Genspark AI Developer", "https://genspark.ai", ["개발/4/action1", "개발/4/action2", "개발/4/action3"]),
      Step(5, "개발/5", "ChatGPT", "https://chatgpt.com", ["개발/5/action1", "개발/5/action2", "개발/5/action3"])
    ],
    ["개발/tip1", "개발/tip2", "개발/tip3", "개발/tip4"],
    ["Cursor AI 활용", "프롬프트 기반 코딩", "코드 리뷰 방법"])

  /** The '리서치' template. */
  const ResearchTemplate := CategoryTemplate("리서치", "${name}" + "리서치/summary",
    [
      Step(1, "리서치/1", "ChatGPT", "https://chatgpt.com", ["리서치/1/action1", "리서치/1/action2", "리서치/1/action3"]),
      Step(2, "리서치/2", "Perplexity AI", "https://perplexity.ai", ["리서치/2/action1", "리서치/2/action2", "리서치/2/action3"]),
      Step(3, "리서치/3", "Liner", "https://getliner.com", ["리서치/3/action1", "리서치/3/action2", "리서치/3/action3"]),
      Step(4, "리서치/4", "Google NotebookLM", "https://notebooklm.google.com", ["리서치/4/action1", "리서치/4/action2", "리서치/4/action3"]),
      Step(5, "리서치/5", "ChatGPT", "https://chatgpt.com", ["리서치/5/action1", "리서치/5/action2", "리서치/5/action3"])
    ],
    ["리서치/tip1", "리서치/tip2", "리서치/tip3", "리서치/tip4"],
    ["Perplexity AI 딥서치", "NotebookLM 문서 분석", "효과적인 검색 전략"])

  /** `CATEGORY_TEMPLATES`, in source order. */
  const CategoryTemplates: seq<(string, CategoryTemplate)> := [
    ("문서작성", DocumentWritingTemplate),
    ("데이터분석", DataAnalysisTemplate),
    ("마케팅", MarketingTemplate),
    ("업무자동화", WorkAutomationTemplate),
    ("일정관리", SchedulingTemplate),
    ("회의", MeetingTemplate),
    ("이미지생성", ImageGenerationTemplate),
    ("영상생성", VideoGenerationTemplate),
    ("고객서비스", CustomerServiceTemplate),
    ("개발", DevelopmentTemplate),
    ("리서치", ResearchTemplate)
  ]

  /** A summary template: the placeholder `${name}` and then text with no `$`. */
  predicate SummaryShaped(s: string) {
    |s| >= 7 && s[..7] == "${name}" && '$' !in s[7..]
  }

  lemma ShapedSummary(tag: string)
    requires '$' !in tag
    ensures SummaryShaped("${name}" + tag)
  {
    assert ("${name}" + tag)[7..] == tag;
  }

  /** A template of the table: filed under its own category, five steps numbered 1 to 5, and a
      summary that is `${name}` followed by text without a further `$`. */
  predicate WellFormedTemplate(key: string, t: CategoryTemplate) {
    && t.category == key
    && |t.workflow| == 5
    && (forall i :: 0 <= i < 5 ==> t.workflow[i].stepNumber == i + 1)
    && SummaryShaped(t.summaryTemplate)
  }

  lemma TableWellFormed()
    ensures forall j :: 0 <= j < |CategoryTemplates| ==> WellFormedTemplate(CategoryTemplates[j].0, CategoryTemplates[j].1)
  {
    FirstTemplatesWellFormed();
    LaterTemplatesWellFormed();
  }

  lemma FirstTemplatesWellFormed()
    ensures forall j :: 0 <= j < 6 ==> WellFormedTemplate(CategoryTemplates[j].0, CategoryTemplates[j].1)
  {
    ShapedSummary("문서작성/summary");
    assert WellFormedTemplate("문서작성", DocumentWritingTemplate);
    ShapedSummary("데이터분석/summary");
    assert WellFormedTemplate("데이터분석", DataAnalysisTemplate);
    ShapedSummary("마케팅/summary");
    assert WellFormedTemplate("마케팅", MarketingTemplate);
    ShapedSummary("업무자동화/summary");
    assert WellFormedTemplate("업무자동화", WorkAutomationTemplate);
    ShapedSummary("일정관리/summary");
    assert WellFormedTemplate("일정관리", SchedulingTemplate);
    ShapedSummary("회의/summary");
    assert WellFormedTemplate("회의", MeetingTemplate);
  }

  lemma LaterTemplatesWellFormed()
    ensures forall j :: 6 <= j < |CategoryTemplates| ==> WellFormedTemplate(CategoryTemplates[j].0, CategoryTemplates[j].1)
  {
    ShapedSummary("이미지생성/summary");
    assert WellFormedTemplate("이미지생성", ImageGenerationTemplate);
    ShapedSummary("영상생성/summary");
    assert WellFormedTemplate("영상생성", VideoGenerationTemplate);
    ShapedSummary("고객서비스/summary");
    assert WellFormedTemplate("고객서비스", CustomerServiceTemplate);
    ShapedSummary("개발/summary");
    assert WellFormedTemplate("개발", DevelopmentTemplate);
    ShapedSummary("리서치/summary");
    assert WellFormedTemplate("리서치", ResearchTemplate);
  }

  /** The closing remark of a category: the person's name, `lead`, the top tool's name, `close`. */
  datatype ConclusionText = ConclusionText(lead: string, close: string)

  /** The `conclusions` table of `generateConclusion`, in source order. */
  const Conclusions: seq<(string, ConclusionText)> := [
    ("문서작성", ConclusionText("문서작성/conclusion/lead", "문서작성/conclusion/close")),
    ("데이터분석", ConclusionText("데이터분석/conclusion/lead", "데이터분석/conclusion/close")),
    ("마케팅", ConclusionText("마케팅/conclusion/lead", "마케팅/conclusion/close")),
    ("업무자동화", ConclusionText("업무자동화/conclusion/lead", "업무자동화/conclusion/close")),
    ("일정관리", ConclusionText("일정관리/conclusion/lead", "일정관리/conclusion/close")),
    ("회의", ConclusionText("회의/conclusion/lead", "회의/conclusion/close")),
    ("이미지생성", ConclusionText("이미지생성/conclusion/lead", "이미지생성/conclusion/close")),
    ("영상생성", ConclusionText("영상생성/conclusion/lead", "영상생성/conclusion/close")),
    ("고객서비스", ConclusionText("고객서비스/conclusion/lead", "고객서비스/conclusion/close")),
    ("개발", ConclusionText("개발/conclusion/lead", "개발/conclusion/close")),
    ("리서치", ConclusionText("리서치/conclusion/lead", "리서치/conclusion/close"))
  ]
}
