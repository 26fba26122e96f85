/** The pattern and question tables of the clarification analyzer (clarification.ts), as
    written. Each regular expression is given as its alternatives; all of them carry flag `i`. */
module ClarificationTables {
  import opened Wrappers
  import opened Patterns

  /** One answer to a clarifying question: the keywords it adds and the category it suggests. */
  datatype ClarificationOption = ClarificationOption(id: string, labelText: string, keywords: seq<string>, categoryHint: Option<string>)

  datatype ClarificationQuestion = ClarificationQuestion(id: string, question: string, options: seq<ClarificationOption>)

  /** An entry of `AMBIGUOUS_PATTERNS`: its key, the pattern, the kind of ambiguity it signals and
      the question to ask. */
  datatype AmbiguousPattern = AmbiguousPattern(key: string, pattern: Pattern, ambiguityType: string, question: ClarificationQuestion)

  /** An entry of `COMPOUND_AMBIGUITY_PATTERNS`: it applies when every pattern matches. */
  datatype CompoundPattern = CompoundPattern(patterns: seq<Pattern>, question: ClarificationQuestion)

  /** `AMBIGUOUS_PATTERNS`, in source order (no key is repeated). */
  const AmbiguousPatterns: seq<AmbiguousPattern> := [
    AmbiguousPattern("audio_ambiguity",
      Pattern([["음향"], ["소리"], ["오디오"], ["볼륨"], ["녹음", "맞추"], ["소리", "다르"], ["음향", "틀리"], ["레벨"], ["음량"]]),
      "오디오 작업 유형 불명확",
      ClarificationQuestion("audio_type", "어떤 오디오 작업이 필요하신가요?", [
        ClarificationOption("audio_normalize", "여러 파일의 음량(볼륨) 레벨을 통일하고 싶어요", ["오디오", "정규화", "노멀라이즈", "레벨", "음량"], Some("오디오편집")),
        ClarificationOption("audio_quality", "음질을 개선하고 싶어요 (잡음 제거, 선명도 향상)", ["오디오", "향상", "잡음제거", "음질"], Some("오디오편집")),
        ClarificationOption("audio_edit", "오디오를 편집하고 싶어요 (자르기, 합치기)", ["오디오", "편집", "컷", "병합"], Some("오디오편집")),
        ClarificationOption("audio_transcribe", "음성을 텍스트로 변환하고 싶어요", ["전사", "자막", "STT", "음성인식"], Some("회의"))
      ])),
    AmbiguousPattern("video_ambiguity",
      Pattern([["영상"], ["비디오"], ["동영상"], ["유튜브"], ["편집", "영상"], ["영상", "편집"]]),
      "영상 작업 유형 불명확",
      ClarificationQuestion("video_type", "어떤 영상 작업이 필요하신가요?", [
        ClarificationOption("video_create", "새로운 영상을 AI로 생성하고 싶어요", ["영상", "생성", "AI영상"], Some("영상생성")),
        ClarificationOption("video_edit", "기존 영상을 편집하고 싶어요 (자르기, 효과 추가)", ["영상", "편집", "효과", "컷"], Some("영상생성")),
        ClarificationOption("video_subtitle", "자막을 추가하거나 번역하고 싶어요", ["자막", "번역", "캡션"], Some("영상생성")),
        ClarificationOption("video_thumbnail", "썸네일 이미지를 만들고 싶어요", ["썸네일", "이미지", "디자인"], Some("이미지생성"))
      ])),
    AmbiguousPattern("document_ambiguity",
      Pattern([["문서"], ["작성"], ["보고서"], ["기획"], ["제안서"]]),
      "문서 작업 유형 불명확",
      ClarificationQuestion("document_type", "어떤 문서 작업이 필요하신가요?", [
        ClarificationOption("doc_create", "새 문서 초안을 AI로 작성하고 싶어요", ["문서", "초안", "작성", "AI작성"], Some("문서작성")),
        ClarificationOption("doc_summarize", "기존 문서를 요약하거나 정리하고 싶어요", ["요약", "정리", "문서분석"], Some("문서작성")),
        ClarificationOption("doc_format", "문서 형식/디자인을 개선하고 싶어요", ["포맷", "디자인", "템플릿"], Some("문서작성")),
        ClarificationOption("doc_translate", "문서를 번역하고 싶어요", ["번역", "다국어", "현지화"], Some("문서작성"))
      ])),
    AmbiguousPattern("image_ambiguity",
      Pattern([["이미지"], ["그림"], ["디자인"], ["사진"], ["배너"], ["포스터"]]),
      "이미지 작업 유형 불명확",
      ClarificationQuestion("image_type", "어떤 이미지 작업이 필요하신가요?", [
        ClarificationOption("img_create", "새로운 이미지를 AI로 생성하고 싶어요", ["이미지", "생성", "AI이미지"], Some("이미지생성")),
        ClarificationOption("img_edit", "기존 이미지를 편집하고 싶어요", ["이미지", "편집", "보정"], Some("이미지생성")),
        ClarificationOption("img_remove_bg", "배경을 제거하거나 교체하고 싶어요", ["배경제거", "누끼", "배경교체"], Some("이미지생성")),
        ClarificationOption("img_design", "마케팅용 디자인 (배너, 포스터)을 만들고 싶어요", ["디자인", "배너", "포스터", "마케팅"], Some("마케팅"))
      ])),
    AmbiguousPattern("automation_ambiguity",
      Pattern([["자동화"], ["자동으로"], ["반복", "업무"], ["업무", "반복"], ["워크플로우"], ["파이프라인"]]),
      "자동화 대상 불명확",
      ClarificationQuestion("automation_type", "어떤 종류의 업무를 자동화하고 싶으신가요?", [
        ClarificationOption("auto_ai_workflow", "AI 기반 워크플로우를 만들고 싶어요 (프롬프트 체이닝)", ["AI워크플로우", "프롬프트", "체이닝", "Opal", "자동화"], Some("업무자동화")),
        ClarificationOption("auto_python", "파이썬으로 데이터 파이프라인을 만들고 싶어요", ["파이썬", "파이프라인", "ETL", "Prefect", "Airflow", "오케스트레이션"], Some("업무자동화")),
        ClarificationOption("auto_app_connect", "여러 앱 간의 연동을 자동화하고 싶어요", ["워크플로우", "연동", "API", "통합", "앱연동"], Some("업무자동화")),
        ClarificationOption("auto_report", "보고서/리포트 생성을 자동화하고 싶어요", ["보고서", "리포트", "자동생성"], Some("데이터분석"))
      ])),
    AmbiguousPattern("customer_ambiguity",
      Pattern([["고객"], ["문의"], ["응대"], ["CS"], ["서비스"]]),
      "고객 서비스 유형 불명확",
      ClarificationQuestion("customer_type", "어떤 고객 서비스 업무를 개선하고 싶으신가요?", [
        ClarificationOption("cs_chatbot", "자동 응답 챗봇을 만들고 싶어요", ["챗봇", "자동응답", "FAQ"], Some("고객서비스")),
        ClarificationOption("cs_template", "응대 템플릿/스크립트를 만들고 싶어요", ["템플릿", "스크립트", "응대"], Some("고객서비스")),
        ClarificationOption("cs_analyze", "고객 문의를 분석하고 싶어요", ["분석", "문의분석", "인사이트"], Some("데이터분석")),
        ClarificationOption("cs_manage", "고객 정보/이력을 관리하고 싶어요", ["CRM", "고객관리", "이력"], Some("업무자동화"))
      ])),
    AmbiguousPattern("data_ambiguity",
      Pattern([["데이터"], ["분석"], ["통계"], ["엑셀"], ["스프레드시트"], ["인사이트"], ["시각화"]]),
      "데이터 작업 유형 불명확",
      ClarificationQuestion("data_type", "어떤 데이터를 분석하고 싶으신가요?", [
        ClarificationOption("data_web", "웹사이트/검색 결과 데이터를 분석하고 싶어요", ["웹데이터", "웹분석", "검색결과", "인사이트", "트렌드", "웹페이지"], Some("웹데이터분석")),
        ClarificationOption("data_local", "엑셀/CSV 등 파일을 업로드해서 분석하고 싶어요", ["엑셀", "CSV", "로컬파일", "파일분석", "업로드", "스프레드시트"], Some("로컬파일분석")),
        ClarificationOption("data_visualize", "차트/그래프로 시각화하고 싶어요", ["시각화", "차트", "그래프", "대시보드", "Matplotlib"], Some("데이터분석")),
        ClarificationOption("data_collect", "웹에서 데이터를 수집/크롤링하고 싶어요", ["수집", "크롤링", "스크래핑", "웹자동화"], Some("웹크롤링"))
      ])),
    AmbiguousPattern("crawling_ambiguity",
      Pattern([["크롤링"], ["스크래핑"], ["웹", "수집"], ["사이트", "데이터"], ["모니터링", "자동"]]),
      "웹 데이터 수집 방식 불명확",
      ClarificationQuestion("crawling_type", "어떤 방식으로 웹 데이터를 수집/활용하고 싶으신가요?", [
        ClarificationOption("crawl_browser", "AI 브라우저로 간편하게 수집하고 싶어요", ["브라우저", "AI어시스턴트", "자동화", "웹검색"], Some("웹크롤링")),
        ClarificationOption("crawl_python", "파이썬 코드로 직접 크롤링하고 싶어요", ["파이썬", "BeautifulSoup", "크롤링", "스크래핑"], Some("다목적")),
        ClarificationOption("crawl_nocode", "노코드 도구로 간단히 수집하고 싶어요", ["노코드", "자동화", "Listly"], Some("업무자동화")),
        ClarificationOption("crawl_monitor", "웹사이트 변경사항을 모니터링하고 싶어요", ["모니터링", "알림", "변경감지"], Some("업무자동화"))
      ])),
    AmbiguousPattern("python_ambiguity",
      Pattern([["파이썬"], ["python"], ["코딩"], ["스크립트"], ["코드", "자동"], ["프로그래밍"]]),
      "파이썬 활용 목적 불명확",
      ClarificationQuestion("python_type", "파이썬으로 어떤 작업을 하고 싶으신가요?", [
        ClarificationOption("py_data", "데이터 분석/시각화 (Pandas, Matplotlib)", ["파이썬", "Pandas", "Matplotlib", "데이터분석", "시각화"], Some("다목적")),
        ClarificationOption("py_crawl", "웹 크롤링/스크래핑 (BeautifulSoup, Selenium)", ["파이썬", "BeautifulSoup", "크롤링", "웹스크래핑"], Some("웹크롤링")),
        ClarificationOption("py_video", "영상/오디오 처리 (moviepy, FFmpeg)", ["파이썬", "moviepy", "FFmpeg", "영상처리", "오디오"], Some("다목적")),
        ClarificationOption("py_automate", "업무 자동화 스크립트", ["파이썬", "자동화", "스크립트", "배치"], Some("업무자동화"))
      ])),
    AmbiguousPattern("music_ambiguity",
      Pattern([["음악"], ["BGM"], ["배경음악"], ["작곡"], ["뮤직"], ["노래", "만들"], ["사운드", "생성"]]),
      "음악/오디오 생성 목적 불명확",
      ClarificationQuestion("music_type", "어떤 음악/오디오를 만들고 싶으신가요?", [
        ClarificationOption("music_bgm", "영상용 배경음악(BGM)을 만들고 싶어요", ["음악", "BGM", "배경음악", "영상음악"], Some("음악생성")),
        ClarificationOption("music_song", "보컬이 있는 노래를 만들고 싶어요", ["음악", "노래", "보컬", "가사"], Some("음악생성")),
        ClarificationOption("music_effect", "효과음/사운드 이펙트를 만들고 싶어요", ["효과음", "사운드", "이펙트", "SFX"], Some("오디오편집")),
        ClarificationOption("music_edit", "기존 음악을 편집하고 싶어요", ["음악편집", "믹싱", "마스터링"], Some("오디오편집"))
      ])),
    AmbiguousPattern("tts_ambiguity",
      Pattern([["TTS"], ["음성합성"], ["나레이션"], ["더빙"], ["AI성우"], ["AI보이스"], ["음성", "생성"], ["목소리", "만들"]]),
      "TTS/음성 합성 용도 불명확",
      ClarificationQuestion("tts_type", "어떤 목적의 음성을 생성하고 싶으신가요?", [
        ClarificationOption("tts_narration", "영상/팟캐스트용 나레이션을 만들고 싶어요", ["TTS", "나레이션", "팟캐스트", "음성합성"], Some("음성생성")),
        ClarificationOption("tts_dubbing", "영상 더빙/외국어 음성을 만들고 싶어요", ["TTS", "더빙", "다국어", "음성합성"], Some("음성생성")),
        ClarificationOption("tts_clone", "특정 목소리를 복제/클론하고 싶어요", ["음성복제", "보이스클론", "TTS", "AI성우"], Some("음성생성")),
        ClarificationOption("tts_korean", "한국어 자연스러운 음성이 필요해요", ["TTS", "한국어", "음성합성", "슈퍼톤"], Some("음성생성"))
      ])),
    AmbiguousPattern("subtitle_ambiguity",
      Pattern([["자막"], ["STT"], ["음성인식"], ["전사"], ["자동", "자막"], ["음성", "텍스트"]]),
      "자막/음성인식 용도 불명확",
      ClarificationQuestion("subtitle_type", "어떤 자막/음성인식 작업이 필요하신가요?", [
        ClarificationOption("sub_auto", "영상에 자막을 자동으로 생성하고 싶어요", ["자막", "STT", "자동자막", "자막생성"], Some("자막생성")),
        ClarificationOption("sub_translate", "자막을 다른 언어로 번역하고 싶어요", ["자막", "번역", "다국어", "번역자막"], Some("자막생성")),
        ClarificationOption("sub_meeting", "회의/강의 내용을 텍스트로 변환하고 싶어요", ["STT", "전사", "회의록", "음성인식"], Some("회의")),
        ClarificationOption("sub_edit", "자막을 편집/수정하고 싶어요", ["자막편집", "자막", "타이밍", "캡션"], Some("영상편집"))
      ]))
  ]

  /** `COMPOUND_AMBIGUITY_PATTERNS`, in source order. */
  const CompoundPatterns: seq<CompoundPattern> := [
    CompoundPattern([Pattern([["유튜브"], ["youtube"]]), Pattern([["녹음"], ["음향"], ["소리"]])],
      ClarificationQuestion("youtube_audio", "유튜브 콘텐츠의 어떤 부분을 개선하고 싶으신가요?", [
        ClarificationOption("yt_audio_level", "여러 영상의 음량 레벨을 통일하고 싶어요", ["오디오", "정규화", "레벨통일", "음량"], Some("오디오편집")),
        ClarificationOption("yt_audio_quality", "음성 품질을 개선하고 싶어요", ["음질향상", "잡음제거", "오디오향상"], Some("오디오편집")),
        ClarificationOption("yt_video_edit", "영상 자체를 편집하고 싶어요", ["영상편집", "컷편집", "효과"], Some("영상생성")),
        ClarificationOption("yt_subtitle", "자막을 추가하거나 수정하고 싶어요", ["자막", "캡션", "번역"], Some("영상생성"))
      ])),
    CompoundPattern([Pattern([["SNS"], ["인스타"], ["페이스북"], ["소셜"]]), Pattern([["콘텐츠"], ["게시물"], ["포스팅"]])],
      ClarificationQuestion("sns_content", "SNS 콘텐츠의 어떤 작업이 필요하신가요?", [
        ClarificationOption("sns_text", "게시물 텍스트/카피를 작성하고 싶어요", ["카피", "텍스트", "SNS글"], Some("마케팅")),
        ClarificationOption("sns_image", "이미지/디자인을 만들고 싶어요", ["SNS이미지", "디자인", "배너"], Some("이미지생성")),
        ClarificationOption("sns_schedule", "게시 일정을 관리하고 싶어요", ["스케줄", "예약", "게시관리"], Some("일정관리")),
        ClarificationOption("sns_analyze", "성과를 분석하고 싶어요", ["성과분석", "인사이트", "통계"], Some("데이터분석"))
      ]))
  ]

  /** The tool names whose mention makes a request less vague. */
  const ToolMentions: Pattern := Pattern([["chatgpt"], ["gemini"], ["canva"], ["notion"], ["zapier"], ["adobe"], ["capcut"]])

  /** Phrasings of a vague wish ("I would like to ...", "please ...", "how ..."). */
  const VagueRequest: Pattern := Pattern([["싶어"], ["해주"], ["해 주"], ["할 수 있"], ["가능할까"], ["어떻게"]])

  /** The fixed word list of `extractBasicKeywords`, in order. */
  const BasicKeywordList: seq<string> := ["문서", "보고서", "이메일", "데이터", "분석", "SNS", "마케팅", "자동화", "일정", "회의", "녹음", "이미지", "영상", "고객", "개발", "리서치", "음향", "오디오", "유튜브", "파이썬", "크롤링", "음악", "BGM", "스크립트", "코딩", "브라우저"]
}
