/** The lookup tables of the recommendation engine (recommendation.ts), as written. */
module RecommendationTables {

  /** `KEYWORD_MAPPINGS`: trigger text -> the keywords it stands for, in source order. The
      trigger "트렌드" is written twice (second time with a different list). */
  const KeywordMappingsAsWritten: seq<(string, seq<string>)> := [
    ("문서", ["문서", "작성", "보고서"]),
    ("보고서", ["문서", "보고서", "작성"]),
    ("기획안", ["문서", "기획안", "작성", "제안서"]),
    ("제안서", ["문서", "제안서", "작성"]),
    ("이메일", ["문서", "이메일", "작성"]),
    ("회의록", ["회의록", "정리", "요약", "회의"]),
    ("발표", ["프레젠테이션", "PPT", "슬라이드", "발표"]),
    ("PPT", ["프레젠테이션", "PPT", "슬라이드"]),
    ("프레젠테이션", ["프레젠테이션", "PPT", "슬라이드"]),
    ("분석", ["분석", "데이터", "통계"]),
    ("데이터", ["데이터", "분석", "시각화"]),
    ("통계", ["데이터", "통계", "분석"]),
    ("차트", ["차트", "그래프", "시각화"]),
    ("엑셀", ["데이터", "엑셀", "분석", "로컬파일", "파일분석"]),
    ("CSV", ["데이터", "CSV", "분석", "로컬파일", "파일분석"]),
    ("스프레드시트", ["데이터", "엑셀", "스프레드시트", "로컬파일"]),
    ("업로드", ["로컬파일", "업로드", "파일분석"]),
    ("파일", ["로컬파일", "파일분석", "업로드"]),
    ("성과", ["분석", "데이터", "통계", "성과"]),
    ("모니터링", ["분석", "모니터링", "데이터"]),
    ("웹데이터", ["웹데이터", "웹분석", "크롤링", "인사이트"]),
    ("웹분석", ["웹데이터", "웹분석", "크롤링", "모니터링"]),
    ("검색결과", ["웹데이터", "검색", "인사이트", "웹분석"]),
    ("인사이트", ["인사이트", "분석", "웹데이터", "트렌드"]),
    ("트렌드", ["트렌드", "인사이트", "리서치", "웹분석"]),
    ("SNS", ["SNS", "마케팅", "게시물", "콘텐츠"]),
    ("소셜미디어", ["SNS", "마케팅", "게시물"]),
    ("게시물", ["SNS", "게시물", "콘텐츠"]),
    ("콘텐츠", ["콘텐츠", "마케팅", "SNS"]),
    ("광고", ["광고", "마케팅", "카피"]),
    ("인스타그램", ["SNS", "인스타그램", "마케팅"]),
    ("페이스북", ["SNS", "페이스북", "마케팅"]),
    ("디자인", ["디자인", "이미지", "SNS"]),
    ("이미지", ["이미지", "디자인", "생성"]),
    ("배너", ["디자인", "배너", "이미지"]),
    ("운영", ["운영", "관리", "SNS", "콘텐츠"]),
    ("계획", ["계획", "운영", "기획안"]),
    ("자동화", ["자동화", "워크플로우", "자동", "AI워크플로우"]),
    ("워크플로우", ["워크플로우", "자동화", "프로세스", "AI워크플로우", "파이프라인"]),
    ("반복", ["자동화", "반복", "워크플로우", "배치"]),
    ("프로세스", ["프로세스", "자동화", "워크플로우"]),
    ("연동", ["연동", "API", "자동화"]),
    ("템플릿", ["템플릿", "자동화", "문서"]),
    ("AI워크플로우", ["자동화", "AI워크플로우", "프롬프트", "체이닝"]),
    ("프롬프트체이닝", ["자동화", "프롬프트", "체이닝", "AI워크플로우"]),
    ("파이프라인", ["자동화", "파이프라인", "워크플로우", "배치"]),
    ("오케스트레이션", ["자동화", "오케스트레이션", "워크플로우", "파이프라인"]),
    ("ETL", ["데이터", "ETL", "자동화", "파이프라인"]),
    ("일정", ["일정", "스케줄", "관리", "캘린더"]),
    ("스케줄", ["스케줄", "일정", "관리"]),
    ("회의", ["회의", "미팅", "스케줄"]),
    ("시간", ["시간", "일정", "관리"]),
    ("캘린더", ["캘린더", "일정", "스케줄"]),
    ("녹음", ["녹음", "회의록", "전사"]),
    ("전사", ["전사", "녹음", "회의록"]),
    ("미팅", ["회의", "미팅", "녹음"]),
    ("고객", ["고객", "서비스", "CS"]),
    ("서비스", ["서비스", "고객", "CS"]),
    ("문의", ["문의", "고객", "서비스"]),
    ("응대", ["응대", "고객", "서비스"]),
    ("챗봇", ["챗봇", "고객", "자동화"]),
    ("코딩", ["코딩", "개발", "프로그래밍"]),
    ("개발", ["개발", "코딩", "프로그래밍"]),
    ("프로그래밍", ["프로그래밍", "코딩", "개발"]),
    ("앱", ["앱", "개발", "노코드"]),
    ("검색", ["검색", "리서치", "조사"]),
    ("리서치", ["리서치", "검색", "조사"]),
    ("조사", ["조사", "리서치", "검색"]),
    ("트렌드", ["트렌드", "분석", "리서치"]),
    ("그림", ["이미지", "생성", "그림"]),
    ("영상", ["영상", "비디오", "생성"]),
    ("비디오", ["비디오", "영상", "생성"]),
    ("편집", ["편집", "영상", "이미지"]),
    ("음량", ["오디오", "음량", "볼륨", "편집", "정규화"]),
    ("볼륨", ["오디오", "볼륨", "음량", "편집"]),
    ("오디오", ["오디오", "음량", "편집", "사운드"]),
    ("음향", ["오디오", "음향", "편집", "사운드"]),
    ("소리", ["오디오", "소리", "편집", "사운드"]),
    ("레벨", ["오디오", "레벨", "음량", "정규화"]),
    ("정규화", ["오디오", "정규화", "음량", "레벨통일"]),
    ("노이즈", ["오디오", "노이즈", "잡음제거", "편집"]),
    ("잡음", ["오디오", "잡음", "노이즈", "편집"]),
    ("음악", ["음악", "뮤직", "작곡", "BGM", "배경음악"]),
    ("뮤직", ["음악", "뮤직", "작곡", "BGM"]),
    ("작곡", ["음악", "작곡", "뮤직", "멜로디"]),
    ("BGM", ["음악", "BGM", "배경음악", "사운드"]),
    ("배경음악", ["음악", "배경음악", "BGM", "사운드"]),
    ("노래", ["음악", "노래", "보컬", "작곡"]),
    ("보컬", ["음악", "보컬", "노래", "가수"]),
    ("크롤링", ["크롤링", "웹스크래핑", "데이터수집", "자동화", "파이썬"]),
    ("스크래핑", ["크롤링", "웹스크래핑", "데이터수집", "자동화"]),
    ("웹크롤링", ["크롤링", "웹스크래핑", "데이터수집", "파이썬"]),
    ("수집", ["데이터수집", "크롤링", "자동화", "모니터링"]),
    ("파이썬", ["파이썬", "Python", "코딩", "자동화", "데이터분석"]),
    ("Python", ["파이썬", "Python", "코딩", "프로그래밍"]),
    ("Pandas", ["파이썬", "Pandas", "데이터분석", "시각화"]),
    ("시각화", ["시각화", "Matplotlib", "차트", "그래프", "데이터"]),
    ("Matplotlib", ["시각화", "Matplotlib", "파이썬", "차트"]),
    ("스크립트", ["파이썬", "스크립트", "자동화", "코딩"]),
    ("브라우저", ["브라우저", "Chrome", "웹", "자동화"]),
    ("어시스턴트", ["AI어시스턴트", "자동화", "도우미"]),
    ("웹자동화", ["웹자동화", "브라우저", "크롤링", "자동화"]),
    ("TTS", ["TTS", "음성합성", "나레이션", "더빙", "AI보이스"]),
    ("음성합성", ["TTS", "음성합성", "나레이션", "AI성우"]),
    ("나레이션", ["나레이션", "TTS", "음성합성", "더빙"]),
    ("더빙", ["더빙", "TTS", "음성합성", "나레이션"]),
    ("AI성우", ["TTS", "AI성우", "음성합성", "나레이션"]),
    ("음성복제", ["음성복제", "TTS", "보이스클론", "AI보이스"]),
    ("보이스클론", ["보이스클론", "음성복제", "TTS"]),
    ("STT", ["STT", "음성인식", "전사", "자막", "자동자막"]),
    ("음성인식", ["STT", "음성인식", "전사", "자막생성"]),
    ("자막", ["자막", "STT", "자막생성", "자동자막", "캡션"]),
    ("자막생성", ["자막생성", "STT", "자막", "자동자막"]),
    ("자동자막", ["자동자막", "STT", "자막", "음성인식"]),
    ("캡션", ["캡션", "자막", "STT", "자막생성"]),
    ("번역자막", ["번역자막", "자막", "번역", "다국어"])
  ]

  /** `categoryKeywords` of `inferCategory`: category -> the keywords that count as evidence for it,
      in the order `categoryScores` lists the categories (the two tables agree on the order). */
  const CategoryKeywords: seq<(string, seq<string>)> := [
    ("문서작성", ["문서", "작성", "보고서", "기획안", "제안서", "이메일", "회의록", "프레젠테이션", "PPT", "슬라이드"]),
    ("데이터분석", ["데이터", "분석", "통계", "차트", "그래프", "시각화", "성과", "Pandas", "Matplotlib"]),
    ("로컬파일분석", ["엑셀", "CSV", "로컬파일", "파일분석", "업로드", "스프레드시트", "파일"]),
    ("웹데이터분석", ["웹데이터", "웹분석", "검색결과", "인사이트", "트렌드", "웹페이지", "온라인데이터"]),
    ("마케팅", ["SNS", "마케팅", "게시물", "콘텐츠", "광고", "카피", "디자인", "배너", "운영"]),
    ("업무자동화", ["자동화", "워크플로우", "자동", "반복", "프로세스", "연동", "API", "템플릿", "AI워크플로우", "프롬프트체이닝", "파이프라인", "ETL", "오케스트레이션"]),
    ("일정관리", ["일정", "스케줄", "캘린더", "시간", "관리"]),
    ("회의", ["회의", "미팅", "녹음", "전사", "회의록", "STT", "음성인식"]),
    ("이미지생성", ["이미지", "생성", "그림", "아트", "일러스트"]),
    ("영상생성", ["영상", "비디오", "효과"]),
    ("영상편집", ["편집", "영상", "컷편집", "자막"]),
    ("오디오편집", ["오디오", "음량", "볼륨", "정규화", "레벨", "음향", "소리", "노이즈", "잡음"]),
    ("고객서비스", ["고객", "서비스", "CS", "문의", "응대", "챗봇"]),
    ("개발", ["코딩", "개발", "프로그래밍", "코드", "앱", "노코드"]),
    ("리서치", ["검색", "리서치", "조사", "트렌드", "정보"]),
    ("웹크롤링", ["크롤링", "스크래핑", "웹스크래핑", "데이터수집", "웹자동화", "모니터링"]),
    ("음악생성", ["음악", "뮤직", "작곡", "BGM", "배경음악", "노래", "보컬", "멜로디"]),
    ("음성생성", ["TTS", "음성합성", "나레이션", "더빙", "AI성우", "AI보이스", "음성복제", "보이스클론"]),
    ("자막생성", ["자막", "STT", "음성인식", "전사", "자동자막", "자막생성", "번역자막"]),
    ("다목적", ["파이썬", "Python", "스크립트", "브라우저", "AI어시스턴트"])
  ]

  /** `CATEGORY_HINT_MAPPING`: clarified category -> tool categories that earn the category bonus. */
  const CategoryHintMapping: seq<(string, seq<string>)> := [
    ("오디오편집", ["영상편집", "영상생성", "오디오편집"]),
    ("영상편집", ["영상편집", "영상생성"]),
    ("영상생성", ["영상생성"]),
    ("이미지생성", ["이미지생성"]),
    ("문서작성", ["문서작성", "업무자동화", "다목적"]),
    ("데이터분석", ["데이터분석", "업무자동화", "다목적"]),
    ("로컬파일분석", ["데이터분석", "다목적"]),
    ("웹데이터분석", ["데이터분석", "리서치", "웹크롤링"]),
    ("마케팅", ["마케팅", "이미지생성"]),
    ("업무자동화", ["업무자동화", "다목적"]),
    ("고객서비스", ["고객서비스", "업무자동화"]),
    ("개발", ["개발", "업무자동화", "다목적"]),
    ("리서치", ["리서치", "데이터분석", "웹데이터분석"]),
    ("웹크롤링", ["데이터분석", "업무자동화", "다목적", "리서치", "웹데이터분석"]),
    ("음악생성", ["음악생성"]),
    ("음성생성", ["음성생성"]),
    ("자막생성", ["영상편집", "회의"]),
    ("다목적", ["다목적", "문서작성", "데이터분석"])
  ]

  /** `CATEGORY_PREFERRED_TOOLS`: category -> preferred tool names, best first. */
  const CategoryPreferredTools: seq<(string, seq<string>)> := [
    ("오디오편집", ["CapCut", "Adobe Podcast", "Descript", "Auphonic", "DaVinci Resolve", "Google Colab"]),
    ("영상편집", ["CapCut", "DaVinci Resolve", "Vrew", "Descript", "Google Colab"]),
    ("영상생성", ["Google VEO 3.1", "OpenAI Sora 2", "Runway ML", "Pika Labs"]),
    ("이미지생성", ["Nano Banana Pro", "DALL-E 3", "Midjourney", "Stable Diffusion"]),
    ("문서작성", ["ChatGPT", "Gemini Gems", "Notion AI", "Microsoft Copilot", "Claude"]),
    ("데이터분석", ["Perplexity Comet", "Gemini in Chrome", "Julius AI", "Google Colab", "ChatGPT", "Claude"]),
    ("로컬파일분석", ["Julius AI", "Google Colab", "ChatGPT", "Claude"]),
    ("웹데이터분석", ["Perplexity Comet", "Gemini in Chrome", "Google Colab", "Listly"]),
    ("마케팅", ["Gemini Gems", "ChatGPT", "Canva", "Copy.ai"]),
    ("업무자동화", ["Google Opal", "Prefect", "Apache Airflow", "Google Apps Script", "Google Colab", "n8n", "Zapier", "Make"]),
    ("웹크롤링", ["Google Colab", "Perplexity Comet", "Gemini in Chrome", "Listly", "ChatGPT"]),
    ("음악생성", ["MiniMax Music", "Suno AI", "Udio", "AIVA"]),
    ("음성생성", ["ElevenLabs", "Supertone", "Gemini TTS", "Qwen3 TTS", "Google AI Studio TTS"]),
    ("자막생성", ["Vrew", "Descript", "Clova Note", "CapCut"]),
    ("다목적", ["Google Colab", "Google Opal", "ChatGPT", "Claude", "Gemini Gems", "Perplexity Comet"])
  ]
}
