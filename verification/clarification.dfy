/** The clarification analyzer (clarification.ts): before recommending, it looks for requests that
    name a broad area without saying which job in it is meant, scores how vague the request is and
    picks at most two multiple-choice questions to ask. */
module Clarification {
  import opened Wrappers
  import opened Collections
  import opened Text
  import opened Patterns
  import opened Catalog
  import opened ClarificationTables

  /** One detection: the analyzer pushes a question, an ambiguity description and a pattern key
      onto its three lists together, so they are kept here as one record. */
  datatype Hit = Hit(question: ClarificationQuestion, ambiguity: string, key: string)

  const CompoundAmbiguity: string := "복합 영역 요청 감지"
  const CompoundKey: string := "compound"

  function CompoundHit(c: CompoundPattern): Hit {
    Hit(c.question, CompoundAmbiguity, CompoundKey)
  }

  function SingleHit(p: AmbiguousPattern): Hit {
    Hit(p.question, p.ambiguityType, p.key)
  }

  /** `compound.patterns.every(p => p.test(text))`. */
  predicate AllMatch(ps: seq<Pattern>, text: string) {
    forall i :: 0 <= i < |ps| ==> TestI(ps[i], text)
  }

  /** The compound entries are tried in order; each one all of whose patterns match is a hit. */
  function CompoundHits(cs: seq<CompoundPattern>, text: string): (hs: seq<Hit>)
    ensures |hs| <= |cs|
    ensures forall c :: c in cs && AllMatch(c.patterns, text) ==> CompoundHit(c) in hs
    ensures forall h :: h in hs ==> exists c :: c in cs && AllMatch(c.patterns, text) && h == CompoundHit(c)
  {
    if |cs| == 0 then []
    else
      var rest := CompoundHits(cs[1..], text);
      assert forall c :: c in cs[1..] ==> c in cs;
      if AllMatch(cs[0].patterns, text) then [CompoundHit(cs[0])] + rest else rest
  }

  /** `questions.some(q => q.id === id)`. */
  predicate Asked(hs: seq<Hit>, id: string) {
    exists i :: 0 <= i < |hs| && hs[i].question.id == id
  }

  /** The ids of the questions already asked, in the order they were asked (over hits). */
  function QuestionIds(hs: seq<Hit>): (ids: seq<string>)
    ensures |ids| == |hs|
    ensures forall i :: 0 <= i < |hs| ==> ids[i] == hs[i].question.id
  {
    seq(|hs|, i requires 0 <= i < |hs| => hs[i].question.id)
  }

  /** The scan over `AMBIGUOUS_PATTERNS`, continuing from the hits `acc` already made: a matching
      entry is skipped when its question has already been asked. */
  function SingleScan(ps: seq<AmbiguousPattern>, text: string, acc: seq<Hit>): (hs: seq<Hit>)
    ensures acc <= hs && |hs| <= |acc| + |ps|
    ensures NoDup(QuestionIds(acc)) ==> NoDup(QuestionIds(hs))
    ensures forall p :: p in ps && TestI(p.pattern, text) ==> Asked(hs, p.question.id)
    ensures forall h :: h in hs ==> h in acc || exists p :: p in ps && TestI(p.pattern, text) && h == SingleHit(p)
    decreases |ps|
  {
    if |ps| == 0 then acc
    else
      var p := ps[0];
      var next := if TestI(p.pattern, text) && !Asked(acc, p.question.id) then acc + [SingleHit(p)] else acc;
      PushHit(acc, p, TestI(p.pattern, text));
      var hs := SingleScan(ps[1..], text, next);
      forall q | q in ps && TestI(q.pattern, text) ensures Asked(hs, q.question.id) {
        if q != p {
          assert q in ps[1..];
        } else {
          var i :| 0 <= i < |next| && next[i].question.id == p.question.id;
          assert hs[i] == next[i];
        }
      }
      forall h | h in hs
        ensures h in acc || exists q :: q in ps && TestI(q.pattern, text) && h == SingleHit(q)
      {
        if h !in next {
          var q :| q in ps[1..] && TestI(q.pattern, text) && h == SingleHit(q);
          assert q in ps;
        } else if h !in acc {
          assert p in ps;
        }
      }
      hs
  }

  /** Adding a matching entry's hit unless its question was asked leaves that question asked and
      keeps the questions distinct. */
  lemma PushHit(acc: seq<Hit>, p: AmbiguousPattern, matches: bool)
    ensures var next := if matches && !Asked(acc, p.question.id) then acc + [SingleHit(p)] else acc;
      && (matches ==> Asked(next, p.question.id))
      && (NoDup(QuestionIds(acc)) ==> NoDup(QuestionIds(next)))
      && (forall h :: h in next ==> h in acc || (matches && h == SingleHit(p)))
  {
    var next := if matches && !Asked(acc, p.question.id) then acc + [SingleHit(p)] else acc;
    if matches && Asked(acc, p.question.id) {
      var i :| 0 <= i < |acc| && acc[i].question.id == p.question.id;
      assert next[i] == acc[i];
    } else if matches {
      assert next[|acc|] == SingleHit(p);
    }
    if NoDup(QuestionIds(acc)) && next != acc {
      forall i | 0 <= i < |acc| ensures QuestionIds(next)[i] != QuestionIds(next)[|acc|] {
        assert next[i] == acc[i];
      }
    }
  }

  /** The hit of one single entry, if its pattern matches. */
  function MatchHit(p: AmbiguousPattern, text: string): (r: seq<Hit>)
    ensures r == [] || r == [SingleHit(p)]
  {
    if TestI(p.pattern, text) then [SingleHit(p)] else []
  }

  /** Reference definition: one hit for every matching entry, with no check for repeats. */
  function MatchingHits(ps: seq<AmbiguousPattern>, text: string): (hs: seq<Hit>)
    ensures |hs| <= |ps|
  {
    if |ps| == 0 then []
    else MatchHit(ps[0], text) + MatchingHits(ps[1..], text)
  }

  /** The ids of the questions a pattern table can ask, entry by entry (over table entries, before
      any text is scanned; `QuestionIds` is its counterpart over the hits a scan produced). */
  function TableIds(ps: seq<AmbiguousPattern>): (ids: seq<string>)
    ensures |ids| == |ps|
    ensures forall i :: 0 <= i < |ps| ==> ids[i] == ps[i].question.id
  {
    seq(|ps|, i requires 0 <= i < |ps| => ps[i].question.id)
  }

  /** When no two entries share a question, the repeat check never skips a match. */
  lemma {:induction false} ScanDistinct(ps: seq<AmbiguousPattern>, text: string, acc: seq<Hit>)
    requires NoDup(TableIds(ps))
    requires forall i :: 0 <= i < |ps| ==> !Asked(acc, ps[i].question.id)
    ensures SingleScan(ps, text, acc) == acc + MatchingHits(ps, text)
    decreases |ps|
  {
    if |ps| > 0 {
      var m := MatchHit(ps[0], text);
      ScanInvariantStep(ps, text, acc);
      ScanDistinct(ps[1..], text, acc + m);
      MatchingHitsCons(ps, text, acc);
    }
  }

  lemma MatchingHitsCons(ps: seq<AmbiguousPattern>, text: string, acc: seq<Hit>)
    requires |ps| > 0
    ensures acc + MatchHit(ps[0], text) + MatchingHits(ps[1..], text) == acc + MatchingHits(ps, text)
  {
    ConcatAssoc(acc, MatchHit(ps[0], text), MatchingHits(ps[1..], text));
  }

  /** After one step of the scan the rest of the table still meets the precondition of
      `ScanDistinct`. */
  lemma ScanInvariantStep(ps: seq<AmbiguousPattern>, text: string, acc: seq<Hit>)
    requires |ps| > 0 && NoDup(TableIds(ps))
    requires forall i :: 0 <= i < |ps| ==> !Asked(acc, ps[i].question.id)
    ensures SingleScan(ps, text, acc) == SingleScan(ps[1..], text, acc + MatchHit(ps[0], text))
    ensures NoDup(TableIds(ps[1..]))
    ensures forall i :: 0 <= i < |ps[1..]| ==> !Asked(acc + MatchHit(ps[0], text), ps[1..][i].question.id)
  {
    var m := MatchHit(ps[0], text);
    assert !Asked(acc, ps[0].question.id);
    ScanStep(ps, text, acc);
    TailDistinct(ps);
    assert m == [] ==> acc + m == acc;
    NotAskedNext(ps, acc, acc + m);
  }

  /** One step of the scan when the first entry's question has not been asked yet. */
  lemma ScanStep(ps: seq<AmbiguousPattern>, text: string, acc: seq<Hit>)
    requires |ps| > 0 && !Asked(acc, ps[0].question.id)
    ensures SingleScan(ps, text, acc) == SingleScan(ps[1..], text, acc + MatchHit(ps[0], text))
  {
    if !TestI(ps[0].pattern, text) {
      assert acc + [] == acc;
    }
  }

  lemma TailDistinct(ps: seq<AmbiguousPattern>)
    requires |ps| > 0 && NoDup(TableIds(ps))
    ensures NoDup(TableIds(ps[1..]))
  {
    forall i, j | 0 <= i < j < |ps| - 1 ensures TableIds(ps[1..])[i] != TableIds(ps[1..])[j] {
      assert TableIds(ps)[i + 1] != TableIds(ps)[j + 1];
    }
  }

  /** Pushing the first entry's question leaves the later entries' questions unasked. */
  lemma NotAskedNext(ps: seq<AmbiguousPattern>, acc: seq<Hit>, next: seq<Hit>)
    requires |ps| > 0 && NoDup(TableIds(ps))
    requires forall i :: 0 <= i < |ps| ==> !Asked(acc, ps[i].question.id)
    requires next == acc || next == acc + [SingleHit(ps[0])]
    ensures forall i :: 0 <= i < |ps[1..]| ==> !Asked(next, ps[1..][i].question.id)
  {
    forall i | 0 <= i < |ps[1..]| ensures !Asked(next, ps[1..][i].question.id) {
      assert TableIds(ps)[0] != TableIds(ps)[i + 1];
      assert !Asked(acc, ps[i + 1].question.id);
    }
  }

  /** The questions of `AMBIGUOUS_PATTERNS` are all different. */
  lemma TableIdsDistinct()
    ensures NoDup(TableIds(AmbiguousPatterns))
  {
    TableIdsListed();
    QuestionIdsDistinct();
  }

  const QuestionIdList: seq<string> :=
    ["audio_type", "video_type", "document_type", "image_type", "automation_type", "customer_type",
     "data_type", "crawling_type", "python_type", "music_type", "tts_type", "subtitle_type"]

  lemma TableIdsListed()
    ensures TableIds(AmbiguousPatterns) == QuestionIdList
  {
  }

  lemma QuestionIdsDistinct()
    ensures NoDup(QuestionIdList)
  {
  }

  /** The hits for a text against the given tables: the compound entries first; the single entries
      only when no compound entry matched. */
  function Detect(cs: seq<CompoundPattern>, ps: seq<AmbiguousPattern>, text: string): (hs: seq<Hit>)
    ensures |hs| <= |cs| || |hs| <= |ps|
    ensures NoDup(QuestionIds(hs)) || exists c :: c in cs && AllMatch(c.patterns, text)
  {
    var compound := CompoundHits(cs, text);
    if |compound| > 0 then
      assert compound[0] in compound;
      compound
    else
      assert QuestionIds([]) == [];
      SingleScan(ps, text, [])
  }

  /** All the hits for a text against the two tables of the analyzer. */
  function Hits(text: string): seq<Hit> {
    Detect(CompoundPatterns, AmbiguousPatterns, text)
  }

  // ---------------------------------------------------------------------------
  // Scoring

  function Cap(x: int): (r: int)
    ensures r <= 100 && r <= x && (r == 100 || r == x)
  {
    if x < 100 then x else 100
  }

  function LengthPenalty(text: string): int {
    if |text| < 30 then 20 else if |text| < 50 then 10 else 0
  }

  function NoToolPenalty(text: string): int {
    if TestI(ToolMentions, text) then 0 else 10
  }

  function VaguePenalty(text: string): int {
    if TestI(VagueRequest, text) then 10 else 0
  }

  /** `calculateAmbiguityScore`: 20 per matched pattern, up to 20 for a short text, 10 when no tool
      is named, 10 for a vague wish, at most 100. */
  function AmbiguityScore(text: string, matched: nat): (score: int)
    ensures 0 <= score <= 100
    ensures score >= Cap(20 * matched)
    ensures matched >= 5 ==> score == 100
    ensures |text| < 30 ==> score >= Cap(20 * matched + 20)
    ensures |text| >= 50 && TestI(ToolMentions, text) && !TestI(VagueRequest, text) ==> score == Cap(20 * matched)
  {
    Cap(20 * matched + LengthPenalty(text) + NoToolPenalty(text) + VaguePenalty(text))
  }

  // ---------------------------------------------------------------------------
  // The analysis

  datatype ClarificationResult = ClarificationResult(
    needsClarification: bool,
    ambiguityScore: int,
    detectedAmbiguities: seq<string>,
    questions: seq<ClarificationQuestion>,
    originalKeywords: seq<string>)

  function Ambiguities(hs: seq<Hit>): (r: seq<string>)
    ensures |r| == |hs|
    ensures forall i :: 0 <= i < |hs| ==> r[i] == hs[i].ambiguity
  {
    seq(|hs|, i requires 0 <= i < |hs| => hs[i].ambiguity)
  }

  function Questions(hs: seq<Hit>): (r: seq<ClarificationQuestion>)
    ensures |r| == |hs|
    ensures forall i :: 0 <= i < |hs| ==> r[i] == hs[i].question
  {
    seq(|hs|, i requires 0 <= i < |hs| => hs[i].question)
  }

  /** `extractBasicKeywords`: the words of a fixed list that occur in the text, case-sensitively,
      in list order. */
  function ExtractBasicKeywords(text: string): (ks: seq<string>)
    ensures forall w :: w in ks <==> w in BasicKeywordList && Contains(text, w)
    ensures NoDup(ks)
    ensures forall i, j :: 0 <= i < j < |ks| ==> Position(BasicKeywordList, ks[i]) < Position(BasicKeywordList, ks[j])
  {
    FilterMembers(BasicKeywordList, w => Contains(text, w));
    BasicKeywordsDistinct();
    FilterOrdered(BasicKeywordList, w => Contains(text, w));
    Filter(BasicKeywordList, w => Contains(text, w))
  }

  /** No word of the list of `extractBasicKeywords` is written twice. */
  lemma BasicKeywordsDistinct()
    ensures NoDup(BasicKeywordList)
  {
    var a := ["문서", "보고서", "이메일", "데이터", "분석", "SNS", "마케팅"];
    var b := ["자동화", "일정", "회의", "녹음", "이미지", "영상"];
    var c := ["고객", "개발", "리서치", "음향", "오디오", "유튜브", "파이썬"];
    var d := ["크롤링", "음악", "BGM", "스크립트", "코딩", "브라우저"];
    assert BasicKeywordList == (a + b) + (c + d);
    NoDupConcat(a, b);
    NoDupConcat(c, d);
    NoDupConcat(a + b, c + d);
  }

  /** `analyzeForClarification`. */
  function AnalyzeForClarification(jobDescription: string, automationRequest: string): (r: ClarificationResult)
    ensures var hs := Hits(CombinedText(jobDescription, automationRequest));
      && r.detectedAmbiguities == Ambiguities(hs)
      && r.questions == Take(Questions(hs), 2)
    ensures r.needsClarification <==> |r.questions| > 0 && r.ambiguityScore >= 30
    ensures r.ambiguityScore == AmbiguityScore(CombinedText(jobDescription, automationRequest), |r.detectedAmbiguities|)
    ensures 0 <= r.ambiguityScore <= 100
    ensures |r.questions| <= 2 && |r.questions| <= |r.detectedAmbiguities|
    ensures r.originalKeywords == ExtractBasicKeywords(CombinedText(jobDescription, automationRequest))
  {
    var text := CombinedText(jobDescription, automationRequest);
    var hs := Hits(text);
    var score := AmbiguityScore(text, |hs|);
    ClarificationResult(|hs| > 0 && score >= 30, score, Ambiguities(hs), Take(Questions(hs), 2), ExtractBasicKeywords(text))
  }

  /** A text that matches a compound entry is asked only compound questions. */
  lemma DetectCompoundFirst(cs: seq<CompoundPattern>, ps: seq<AmbiguousPattern>, text: string, c: CompoundPattern)
    requires c in cs && AllMatch(c.patterns, text)
    ensures CompoundHit(c) in Detect(cs, ps, text)
    ensures forall h :: h in Detect(cs, ps, text) ==> h.key == CompoundKey && h.ambiguity == CompoundAmbiguity
  {
    assert CompoundHit(c) in CompoundHits(cs, text);
  }

  /** Otherwise exactly the matching single entries are hits, in table order, provided no two of
      them share a question. */
  lemma DetectSingles(cs: seq<CompoundPattern>, ps: seq<AmbiguousPattern>, text: string)
    requires forall c :: c in cs ==> !AllMatch(c.patterns, text)
    requires NoDup(TableIds(ps))
    ensures Detect(cs, ps, text) == MatchingHits(ps, text)
  {
    if |CompoundHits(cs, text)| > 0 {
      assert CompoundHits(cs, text)[0] in CompoundHits(cs, text);
    }
    ScanDistinct(ps, text, []);
  }

  /** Every hit comes from an entry that matched the text, and every matching single entry has its
      question asked unless a compound entry took precedence. */
  lemma DetectJustified(cs: seq<CompoundPattern>, ps: seq<AmbiguousPattern>, text: string)
    ensures forall h :: h in Detect(cs, ps, text) ==>
      || (exists c :: c in cs && AllMatch(c.patterns, text) && h == CompoundHit(c))
      || (exists p :: p in ps && TestI(p.pattern, text) && h == SingleHit(p))
    ensures (forall c :: c in cs ==> !AllMatch(c.patterns, text)) ==>
      forall p :: p in ps && TestI(p.pattern, text) ==> Asked(Detect(cs, ps, text), p.question.id)
  {
    if |CompoundHits(cs, text)| > 0 {
      assert CompoundHits(cs, text)[0] in CompoundHits(cs, text);
    }
  }

  lemma CompoundPriority(text: string, c: CompoundPattern)
    requires c in CompoundPatterns && AllMatch(c.patterns, text)
    ensures CompoundHit(c) in Hits(text)
    ensures forall h :: h in Hits(text) ==> h.key == CompoundKey && h.ambiguity == CompoundAmbiguity
  {
    DetectCompoundFirst(CompoundPatterns, AmbiguousPatterns, text, c);
  }

  lemma NoCompoundSingles(text: string)
    requires forall c :: c in CompoundPatterns ==> !AllMatch(c.patterns, text)
    ensures Hits(text) == MatchingHits(AmbiguousPatterns, text)
  {
    TableIdsDistinct();
    DetectSingles(CompoundPatterns, AmbiguousPatterns, text);
  }

  /** The verdict in terms of the hits: at least one, and then either a second hit, a text under
      50 characters, no named tool or a vague wish. */
  lemma NeedsIff(text: string, n: nat)
    ensures n > 0 && AmbiguityScore(text, n) >= 30
      <==> n > 0 && (n >= 2 || |text| < 50 || !TestI(ToolMentions, text) || TestI(VagueRequest, text))
  {
  }

  lemma NeedsClarificationIff(jobDescription: string, automationRequest: string)
    ensures var text := CombinedText(jobDescription, automationRequest);
      AnalyzeForClarification(jobDescription, automationRequest).needsClarification
      <==> |Hits(text)| > 0 && (|Hits(text)| >= 2 || |text| < 50 || !TestI(ToolMentions, text) || TestI(VagueRequest, text))
  {
    var text := CombinedText(jobDescription, automationRequest);
    NeedsIff(text, |Hits(text)|);
  }

  // ---------------------------------------------------------------------------
  // Applying an answer

  /** What `applyClarificationChoice` hands back to the recommender. */
  datatype EnhancedRequest = EnhancedRequest(
    jobDescription: string,
    automationRequest: string,
    additionalKeywords: seq<string>,
    suggestedCategory: Option<string>)

  /** The note appended to the request: ` [구체화: <label>]`. */
  function ChoiceNote(labelText: string): string {
    " [구체화: " + labelText + "]"
  }

  function ApplyClarificationChoice(jobDescription: string, automationRequest: string, option: ClarificationOption): (e: EnhancedRequest)
    ensures e.jobDescription == jobDescription
    ensures StartsWith(e.automationRequest, automationRequest)
    ensures EndsWith(e.automationRequest, ChoiceNote(option.labelText))
    ensures |e.automationRequest| == |automationRequest| + |ChoiceNote(option.labelText)|
    ensures e.additionalKeywords == option.keywords && e.suggestedCategory == option.categoryHint
  {
    var r := automationRequest + ChoiceNote(option.labelText);
    assert r[..|automationRequest|] == automationRequest;
    assert r[|automationRequest|..] == ChoiceNote(option.labelText);
    EnhancedRequest(jobDescription, r, option.keywords, option.categoryHint)
  }

  /** Inverse of the note: the request as it was before the answer was applied. */
  function StripChoice(request: string, labelText: string): (r: Option<string>)
    ensures r.Some? <==> EndsWith(request, ChoiceNote(labelText))
    ensures r.Some? ==> r.value + ChoiceNote(labelText) == request
  {
    var note := ChoiceNote(labelText);
    if EndsWith(request, note) then
      var n := |request| - |note|;
      assert request == request[..n] + request[n..];
      Some(request[..n])
    else None
  }

  lemma ChoiceRoundTrip(jobDescription: string, automationRequest: string, option: ClarificationOption)
    ensures StripChoice(ApplyClarificationChoice(jobDescription, automationRequest, option).automationRequest, option.labelText)
            == Some(automationRequest)
  {
    var r := ApplyClarificationChoice(jobDescription, automationRequest, option).automationRequest;
    assert r[..|automationRequest|] == automationRequest;
  }
}
