/** The interview screen of components/screens/InterviewScreen.tsx: the screen
    asks a generated question, takes the candidate's answer, records the answer
    with its response time and question type, updates the running metrics, and
    asks for the next question until the configured count is reached.
    What `generateQuestion` settles with and the clock are parameters. */
module InterviewScreen {
  import opened Text
  import opened InterviewTypes
  import GeminiApi

  // ===========================================================================
  // analyzeQuestionType

  predicate IntroductionWording(q: string) { Contains(q, "自己紹介") || Contains(q, "お名前") }
  predicate MotivationWording(q: string) { Contains(q, "志望") || Contains(q, "理由") }
  predicate ExperienceWording(q: string) { Contains(q, "学生時代") || Contains(q, "力を入れ") }
  predicate PersonalityWording(q: string) { Contains(q, "性格") || Contains(q, "長所") || Contains(q, "短所") }
  predicate ChallengeWording(q: string) { Contains(q, "挑戦") || Contains(q, "困難") }

  /** `analyzeQuestionType(question)`: on the lower-cased question, the first matching
      category in the order introduction, motivation, experience, personality,
      challenge; `other` when none matches. */
  function AnalyzeQuestionType(question: string): QuestionType {
    var text := ToLower(question);
    if IntroductionWording(text) then Introduction
    else if MotivationWording(text) then Motivation
    else if ExperienceWording(text) then Experience
    else if PersonalityWording(text) then Personality
    else if ChallengeWording(text) then Challenge
    else Other
  }

  /** The keywords contain no ASCII letters, so lower-casing changes none of the
      wording tests. */
  lemma WordingUncased(q: string)
    ensures IntroductionWording(ToLower(q)) == IntroductionWording(q)
    ensures MotivationWording(ToLower(q)) == MotivationWording(q)
    ensures ExperienceWording(ToLower(q)) == ExperienceWording(q)
    ensures PersonalityWording(ToLower(q)) == PersonalityWording(q)
    ensures ChallengeWording(ToLower(q)) == ChallengeWording(q)
  {
    LowerKeepsUncasedMatch(q, "自己紹介");
    LowerKeepsUncasedMatch(q, "お名前");
    LowerKeepsUncasedMatch(q, "志望");
    LowerKeepsUncasedMatch(q, "理由");
    LowerKeepsUncasedMatch(q, "学生時代");
    LowerKeepsUncasedMatch(q, "力を入れ");
    LaterWordingUncased(q);
  }

  lemma LaterWordingUncased(q: string)
    ensures PersonalityWording(ToLower(q)) == PersonalityWording(q)
    ensures ChallengeWording(ToLower(q)) == ChallengeWording(q)
  {
    LowerKeepsUncasedMatch(q, "性格");
    LowerKeepsUncasedMatch(q, "長所");
    LowerKeepsUncasedMatch(q, "短所");
    LowerKeepsUncasedMatch(q, "挑戦");
    LowerKeepsUncasedMatch(q, "困難");
  }

  /** The type is decided by the question's own wording, by priority. */
  lemma AnalyzeQuestionTypeExact(q: string)
    ensures AnalyzeQuestionType(q) == Introduction <==> IntroductionWording(q)
    ensures AnalyzeQuestionType(q) == Motivation <==> !IntroductionWording(q) && MotivationWording(q)
    ensures AnalyzeQuestionType(q) == Experience <==>
      !IntroductionWording(q) && !MotivationWording(q) && ExperienceWording(q)
    ensures AnalyzeQuestionType(q) == Personality <==>
      !IntroductionWording(q) && !MotivationWording(q) && !ExperienceWording(q) && PersonalityWording(q)
    ensures AnalyzeQuestionType(q) == Challenge <==>
      !IntroductionWording(q) && !MotivationWording(q) && !ExperienceWording(q) && !PersonalityWording(q)
      && ChallengeWording(q)
    ensures AnalyzeQuestionType(q) == Other <==>
      !IntroductionWording(q) && !MotivationWording(q) && !ExperienceWording(q) && !PersonalityWording(q)
      && !ChallengeWording(q)
  {
    WordingUncased(q);
  }

  /** The screen and the question generator classify differently: a question that
      asks for a self-introduction is filed under `introduction` by the screen,
      while the generator's classifier never answers `introduction`. */
  lemma ClassifiersDisagreeOnIntroduction(q: string, a: string)
    requires IntroductionWording(q)
    ensures AnalyzeQuestionType(q) == Introduction
    ensures GeminiApi.ClassifyQuestionType(q, a) != AnalyzeQuestionType(q)
  {
    AnalyzeQuestionTypeExact(q);
  }

  // ===========================================================================
  // calculateDeepDiveLevel

  const DeepDiveKeywords: seq<string> := ["具体的", "どのよう", "なぜ", "どうして", "詳しく", "もう少し"]

  /** `keywords.filter(k => text.includes(k)).length`, counted from position `i` of
      the keyword list. */
  function HitsFrom(text: string, keywords: seq<string>, i: nat): nat
    requires i <= |keywords|
    decreases |keywords| - i
  {
    if i == |keywords| then 0 else (if Contains(text, keywords[i]) then 1 else 0) + HitsFrom(text, keywords, i + 1)
  }

  /** No keyword is counted exactly when none occurs. */
  lemma {:induction false} HitsFromZero(text: string, keywords: seq<string>, i: nat)
    requires i <= |keywords|
    ensures HitsFrom(text, keywords, i) == 0 <==> forall j | i <= j < |keywords| :: !Contains(text, keywords[j])
    decreases |keywords| - i
  {
    if i < |keywords| {
      HitsFromZero(text, keywords, i + 1);
    }
  }

  /** Where `history.slice(-3)` starts: the last three turns, or all of them when
      there are fewer. */
  function RecentStart(h: seq<Turn>): (i: nat)
    ensures i <= |h| && |h| - i == (if |h| < 3 then |h| else 3)
  {
    if |h| <= 3 then 0 else |h| - 3
  }

  /** Turns whose question refers back to an earlier answer. */
  predicate RefersBack(t: Turn) {
    Contains(t.question, "先ほど") || Contains(t.question, "さっき")
  }

  /** The number of turns from position `i` on that refer back. */
  function ReferralsFrom(h: seq<Turn>, i: nat): nat
    requires i <= |h|
    decreases |h| - i
  {
    if i == |h| then 0 else (if RefersBack(h[i]) then 1 else 0) + ReferralsFrom(h, i + 1)
  }

  /** `calculateDeepDiveLevel(question, history)`: keyword hits in the question plus
      back-references among the last three turns, clamped to 1..3. */
  function CalculateDeepDiveLevel(question: string, h: seq<Turn>): (level: int)
    ensures 1 <= level <= 3
  {
    var score := HitsFrom(question, DeepDiveKeywords, 0) + ReferralsFrom(h, RecentStart(h));
    if score < 1 then 1 else if score > 3 then 3 else score
  }

  /** A level above 1 needs a deep-dive keyword in the question or a back-reference in
      one of the last three turns; two keywords alone already give level 2, and the
      level never depends on turns before the last three. */
  lemma DeepDiveLevelMeaning(question: string, h: seq<Turn>)
    ensures CalculateDeepDiveLevel(question, h) > 1 ==>
      ContainsAny(question, DeepDiveKeywords) || exists i | RecentStart(h) <= i < |h| :: RefersBack(h[i])
    ensures HitsFrom(question, DeepDiveKeywords, 0) >= 2 ==> CalculateDeepDiveLevel(question, h) >= 2
    ensures |h| > 3 ==> CalculateDeepDiveLevel(question, h) == CalculateDeepDiveLevel(question, h[1..])
  {
    HitsFromZero(question, DeepDiveKeywords, 0);
    if ReferralsFrom(h, RecentStart(h)) > 0 {
      ReferralExists(h, RecentStart(h));
    }
    if |h| > 3 {
      ReferralsShift(h, RecentStart(h));
    }
  }

  /** A positive count has a turn that refers back. */
  lemma {:induction false} ReferralExists(h: seq<Turn>, i: nat)
    requires i <= |h| && ReferralsFrom(h, i) > 0
    ensures exists j | i <= j < |h| :: RefersBack(h[j])
    decreases |h| - i
  {
    if !RefersBack(h[i]) {
      ReferralExists(h, i + 1);
    }
  }

  /** Dropping the first turn shifts every position by one. */
  lemma {:induction false} ReferralsShift(h: seq<Turn>, i: nat)
    requires 1 <= i <= |h|
    ensures ReferralsFrom(h, i) == ReferralsFrom(h[1..], i - 1)
    decreases |h| - i
  {
    if i < |h| {
      ReferralsShift(h, i + 1);
      assert h[1..][i - 1] == h[i];
    }
  }

  // ===========================================================================
  // updateMetrics

  /** `topicCoverage` with `t` pushed when it is not there yet. */
  function Cover(coverage: seq<QuestionType>, t: QuestionType): seq<QuestionType> {
    if t in coverage then coverage else coverage + [t]
  }

  /** The new metrics after an answer, where `answered` is the number of questions
      before the update (the screen's `questions.length`). The flow is exploratory
      when deep dives exceed 60% of the answered questions, stated over integers. */
  function NextMetrics(prev: Metrics, answered: nat, responseTime: int, t: QuestionType): Metrics {
    var deep := prev.deepDiveCount + (if t != Introduction then 1 else 0);
    Metrics(
      prev.totalResponseTime + responseTime,
      deep,
      Cover(prev.topicCoverage, t),
      if 5 * deep > 3 * (answered + 1) then Exploratory else Linear)
  }

  /** The metrics after answering questions of the given types in order, from the
      initial metrics, with the given response times. When the k-th answer is
      submitted the screen holds k questions (the answered ones and the open one),
      which is what `updateMetrics` is given as the question count. */
  function MetricsAfter(types: seq<QuestionType>, times: seq<int>): Metrics
    requires |times| == |types|
    decreases |types|
  {
    if types == [] then InitialMetrics
    else
      var n := |types| - 1;
      NextMetrics(MetricsAfter(types[..n], times[..n]), |types|, times[n], types[n])
  }

  function NonIntroductionCount(types: seq<QuestionType>): nat
    decreases |types|
  {
    if types == [] then 0
    else NonIntroductionCount(types[..|types| - 1]) + (if types[|types| - 1] != Introduction then 1 else 0)
  }

  function Sum(xs: seq<int>): int
    decreases |xs|
  {
    if xs == [] then 0 else Sum(xs[..|xs| - 1]) + xs[|xs| - 1]
  }

  /** Over a run of answers the metrics mean what their names say: the total time is
      the sum of the response times, the deep-dive count is the number of answers to
      non-introduction questions (never more than the answers), the coverage lists
      each type answered exactly once, and the flow is exploratory exactly when
      deep dives exceed 60% of one more than the answers, since the open question
      is counted as well. */
  lemma {:induction false} MetricsSummary(types: seq<QuestionType>, times: seq<int>)
    requires |times| == |types|
    ensures var m := MetricsAfter(types, times);
      && m.totalResponseTime == Sum(times)
      && m.deepDiveCount == NonIntroductionCount(types) <= |types|
      && (forall t :: t in m.topicCoverage <==> t in types)
      && (forall i, j | 0 <= i < j < |m.topicCoverage| :: m.topicCoverage[i] != m.topicCoverage[j])
      && (m.conversationFlow == Exploratory <==> 5 * m.deepDiveCount > 3 * (|types| + 1))
    decreases |types|
  {
    if types != [] {
      var n := |types| - 1;
      MetricsSummary(types[..n], times[..n]);
      var prev := MetricsAfter(types[..n], times[..n]);
      assert forall t :: t in types <==> t in types[..n] || t == types[n] by {
        assert types == types[..n] + [types[n]];
      }
      if types[n] !in prev.topicCoverage {
        var c := prev.topicCoverage + [types[n]];
        forall i, j | 0 <= i < j < |c| ensures c[i] != c[j] {
          if j == |c| - 1 {
            assert c[i] in prev.topicCoverage;
          }
        }
      }
    }
  }

  /** Submitting the same answer again after the next question failed to arrive
      runs the update a second time with the same question count: the response
      time is added once more and a deep dive is counted twice, while the coverage
      stays what the first update made it. */
  lemma ResubmitCountsTwice(m: Metrics, n: nat, first: int, second: int, t: QuestionType)
    ensures var once := NextMetrics(m, n, first, t);
      var twice := NextMetrics(once, n, second, t);
      && twice.totalResponseTime == m.totalResponseTime + first + second
      && twice.deepDiveCount == m.deepDiveCount + (if t != Introduction then 2 else 0)
      && twice.topicCoverage == once.topicCoverage
  {
  }

  // ===========================================================================
  // handleEndInterview

  /** Blank after `trim()`. */
  predicate Blank(s: string) {
    Trim(s) == ""
  }

  /** The last question takes the typed answer when it is not blank. */
  function Patched(q: Question, lastId: int, typed: string): Question {
    if q.id == lastId && !Blank(typed) then q.(answer := Trim(typed)) else q
  }

  /** `questions.filter(q => q.answer.trim())`. */
  function KeepAnswered(qs: seq<Question>): (r: seq<Question>)
    ensures |r| <= |qs|
    ensures forall q :: q in r <==> q in qs && !Blank(q.answer)
    decreases |qs|
  {
    if qs == [] then []
    else (if Blank(qs[0].answer) then [] else [qs[0]]) + KeepAnswered(qs[1..])
  }

  /** The filter keeps questions one by one, in their order and once each: what a
      concatenation keeps is what each part keeps, one after the other. */
  lemma {:induction false} KeepAnsweredDistributes(a: seq<Question>, b: seq<Question>)
    ensures KeepAnswered(a + b) == KeepAnswered(a) + KeepAnswered(b)
    decreases |a|
  {
    if a == [] {
      assert a + b == b;
    } else {
      assert (a + b)[0] == a[0] && (a + b)[1..] == a[1..] + b;
      KeepAnsweredDistributes(a[1..], b);
    }
  }

  /** One question is kept exactly when its answer is not blank. */
  lemma KeepAnsweredSingle(q: Question)
    ensures KeepAnswered([q]) == if Blank(q.answer) then [] else [q]
  {
    assert [q][1..] == [];
  }

  /** The questions `handleEndInterview` hands over: the typed answer is kept for the
      question whose id is the question count, then unanswered questions are dropped. */
  function FinalQuestions(qs: seq<Question>, typed: string): seq<Question> {
    KeepAnswered(seq(|qs|, i requires 0 <= i < |qs| => Patched(qs[i], |qs|, typed)))
  }

  /** Ending the interview keeps exactly the answered questions, with the last one
      answered by what was typed when that is not blank; every question handed over
      has a non-blank answer. */
  lemma FinalQuestionsExact(qs: seq<Question>, typed: string)
    requires forall i | 0 <= i < |qs| :: qs[i].id == i + 1
    requires |qs| > 0
    ensures forall q | q in FinalQuestions(qs, typed) :: !Blank(q.answer)
    ensures forall i | 0 <= i < |qs| - 1 :: qs[i] in FinalQuestions(qs, typed) <==> !Blank(qs[i].answer)
    ensures !Blank(typed) ==> qs[|qs| - 1].(answer := Trim(typed)) in FinalQuestions(qs, typed)
    ensures Blank(typed) ==> (qs[|qs| - 1] in FinalQuestions(qs, typed) <==> !Blank(qs[|qs| - 1].answer))
    ensures |FinalQuestions(qs, typed)| <= |qs|
  {
    var patched := seq(|qs|, i requires 0 <= i < |qs| => Patched(qs[i], |qs|, typed));
    var last := |qs| - 1;
    forall i | 0 <= i < last ensures qs[i] in patched {
      assert patched[i] == qs[i];
    }
    if !Blank(typed) {
      TrimEmptyIffBlank(typed);
      TrimmedEdges(typed);
      assert patched[last] == qs[last].(answer := Trim(typed));
      assert Trim(Trim(typed)) == Trim(typed) by {
        TrimIdempotent(typed);
      }
    } else {
      assert patched[last] == qs[last];
    }
  }

  /** Ending the interview keeps the order of the questions: the answered ones
      before the last come first, as they were, followed by the last question
      when it is answered, by what was typed if that is not blank. */
  lemma FinalQuestionsInOrder(qs: seq<Question>, typed: string)
    requires forall i | 0 <= i < |qs| :: qs[i].id == i + 1
    requires |qs| > 0
    ensures var last := qs[|qs| - 1];
      FinalQuestions(qs, typed) == KeepAnswered(qs[..|qs| - 1])
        + KeepAnswered([if Blank(typed) then last else last.(answer := Trim(typed))])
  {
    var n := |qs| - 1;
    var patched := seq(|qs|, i requires 0 <= i < |qs| => Patched(qs[i], |qs|, typed));
    assert patched == patched[..n] + [patched[n]];
    assert patched[..n] == qs[..n];
    KeepAnsweredDistributes(patched[..n], [patched[n]]);
  }

  /** Trimming twice is trimming once. */
  lemma TrimIdempotent(s: string)
    ensures Trim(Trim(s)) == Trim(s)
  {
    var t := Trim(s);
    TrimmedEdges(s);
    if t != [] {
      assert TrimStart(t) == t;
      assert TrimEnd(t) == t;
    }
  }

  // ===========================================================================
  // The screen

  /** The notification a handler shows, if any. */
  datatype Notice =
    | NoNotice
    | Started            // 面接を開始しました
    | LoadFailed         // 質問の読み込みに失敗しました
    | EmptyAnswer        // 回答を入力してください
    | OfflineNotice      // オフラインです
    | InterviewFinished  // 面接が完了しました
    | DeepDiveAhead      // 深掘り質問です
    | GenerationFailed   // 次の質問の生成に失敗しました

  /** Where the screen hands control: `onComplete(questions)` or `onBack()`. */
  datatype Exit = Staying | Completed(questions: seq<Question>) | BackToHome

  /** The question the screen records when an answer is submitted. */
  function AnsweredQuestion(current: Question, typed: string, responseTime: int): Question {
    current.(answer := Trim(typed), responseTime := Some(responseTime),
             questionType := Some(AnalyzeQuestionType(current.question)))
  }

  /** The questions after the current (last) one is answered. */
  function Answered(qs: seq<Question>, typed: string, responseTime: int): seq<Question>
    requires |qs| > 0
  {
    qs[..|qs| - 1] + [AnsweredQuestion(qs[|qs| - 1], typed, responseTime)]
  }

  /** A freshly generated, unanswered question. */
  function NewQuestion(id: int, text: string, at: int, h: seq<Turn>): Question {
    Question(id, text, "", at, None, Some(AnalyzeQuestionType(text)), Some(CalculateDeepDiveLevel(text, h)))
  }

  /** `Math.floor((now - questionStartTime) / 1000)`. */
  function ResponseSeconds(now: int, start: int): int {
    (now - start) / 1000
  }

  /** What the screen keeps true of its questions between handlers: ids count up
      from 1, every question carries a type and a deep-dive level in 1..3, every
      question but the last has an answer, and questions are only added up to the
      configured count. */
  predicate WellFormed(qs: seq<Question>, count: int) {
    && (forall i | 0 <= i < |qs| :: qs[i].id == i + 1)
    && (forall i | 0 <= i < |qs| ::
          qs[i].questionType.Some? && qs[i].deepDiveLevel.Some? && 1 <= qs[i].deepDiveLevel.value <= 3)
    && (forall i | 0 <= i < |qs| - 1 :: !Blank(qs[i].answer))
    && (|qs| <= 1 || |qs| <= count)
  }

  /** Recording an answer keeps the questions well formed, and a non-blank typed
      answer leaves the last question answered. */
  lemma AnsweringKeepsWellFormed(qs: seq<Question>, count: int, typed: string, responseTime: int)
    requires WellFormed(qs, count) && |qs| > 0
    ensures var updated := Answered(qs, typed, responseTime);
      && WellFormed(updated, count)
      && |updated| == |qs|
      && (!Blank(typed) ==> !Blank(updated[|qs| - 1].answer))
  {
    TrimEmptyIffBlank(typed);
    TrimIdempotent(typed);
  }

  /** Appending a generated question after an answered one, below the count, keeps
      the questions well formed. */
  lemma AppendingKeepsWellFormed(qs: seq<Question>, count: int, q: Question)
    requires WellFormed(qs, count) && |qs| > 0 && |qs| < count && !Blank(qs[|qs| - 1].answer)
    requires q.id == |qs| + 1 && q.questionType.Some? && q.deepDiveLevel.Some?
    requires 1 <= q.deepDiveLevel.value <= 3
    ensures WellFormed(qs + [q], count)
  {
    var r := qs + [q];
    forall i | 0 <= i < |r| - 1 ensures r[i] == qs[i] {
    }
  }

  class Screen {
    const settings: Settings
    var questions: seq<Question>
    var currentAnswer: string
    var loadingQuestion: bool
    var submitting: bool
    var questionStartTime: int
    var online: bool
    var metrics: Metrics
    var exit: Exit

    /** What the screen keeps true between handlers: question ids count up from 1,
        every question carries a type and a deep-dive level in 1..3, every question
        but the last has an answer, and questions are only added up to the count. */
    predicate Valid()
      reads this
    {
      WellFormed(questions, settings.questionCount)
    }

    constructor (settings: Settings, now: int, online: bool)
      ensures this.settings == settings && questions == [] && currentAnswer == ""
      ensures loadingQuestion && !submitting && questionStartTime == now && this.online == online
      ensures metrics == InitialMetrics && exit == Staying
      ensures Valid()
    {
      this.settings := settings;
      questions := [];
      currentAnswer := "";
      loadingQuestion := true;
      submitting := false;
      questionStartTime := now;
      this.online := online;
      metrics := InitialMetrics;
      exit := Staying;
    }

    /** `loadFirstQuestion()`: `first` is what `generateQuestion` settled with for an
        empty history, started at `now` and settled at `arrivedAt`. */
    method LoadFirstQuestion(first: GeminiApi.GenerateResult, now: int, arrivedAt: int) returns (notice: Notice)
      modifies this
      ensures questionStartTime == now && !loadingQuestion
      ensures first.Resolved? ==>
        questions == [Question(1, first.text, "", arrivedAt, None, Some(Introduction), Some(1))] && notice == Started
      ensures first.Rejected? ==> questions == old(questions) && notice == LoadFailed
      ensures currentAnswer == old(currentAnswer) && metrics == old(metrics) && exit == old(exit)
      ensures submitting == old(submitting) && online == old(online)
      ensures first.Resolved? || old(Valid()) ==> Valid()
    {
      loadingQuestion := true;
      questionStartTime := now;
      match first {
        case Resolved(text) =>
          questions := [Question(1, text, "", arrivedAt, None, Some(Introduction), Some(1))];
          notice := Started;
        case Rejected(_) =>
          notice := LoadFailed;
      }
      loadingQuestion := false;
    }

    /** The browser's online and offline events. */
    method SetOnline(value: bool)
      modifies this
      ensures online == value
      ensures questions == old(questions) && currentAnswer == old(currentAnswer) && metrics == old(metrics)
      ensures exit == old(exit) && submitting == old(submitting) && loadingQuestion == old(loadingQuestion)
      ensures questionStartTime == old(questionStartTime)
    {
      online := value;
    }

    /** A speech transcript is appended to the answer, separated by a space when the
        answer already has text; a blank transcript changes nothing. */
    method AppendTranscript(transcript: string)
      modifies this
      ensures Blank(transcript) ==> currentAnswer == old(currentAnswer)
      ensures !Blank(transcript) ==>
        currentAnswer == old(currentAnswer) + (if Blank(old(currentAnswer)) then "" else " ") + Trim(transcript)
      ensures questions == old(questions) && metrics == old(metrics) && exit == old(exit) && online == old(online)
      ensures submitting == old(submitting) && loadingQuestion == old(loadingQuestion)
      ensures questionStartTime == old(questionStartTime)
    {
      if !Blank(transcript) {
        var separator := if Blank(currentAnswer) then "" else " ";
        currentAnswer := currentAnswer + separator + Trim(transcript);
      }
    }

    /** `submitAnswer()` at time `now`; `next` is what `generateQuestion` settles with
        for the updated history, at time `arrivedAt`. The answer box only exists while
        a question is shown, so there is always a current question. */
    method SubmitAnswer(now: int, next: GeminiApi.GenerateResult, arrivedAt: int) returns (notice: Notice)
      requires |questions| > 0
      requires Valid()
      modifies this
      ensures Valid()
      ensures Blank(old(currentAnswer)) ==> notice == EmptyAnswer && unchanged(this)
      ensures !Blank(old(currentAnswer)) && !old(online) ==> notice == OfflineNotice && unchanged(this)
      ensures !Blank(old(currentAnswer)) && old(online) ==>
        var n := |old(questions)|;
        var updated := Answered(old(questions), old(currentAnswer), ResponseSeconds(now, old(questionStartTime)));
        && metrics == NextMetrics(old(metrics), n, ResponseSeconds(now, old(questionStartTime)),
                                  AnalyzeQuestionType(old(questions)[n - 1].question))
        && (n >= settings.questionCount ==>
              && questions == updated && exit == Completed(updated) && notice == InterviewFinished && submitting
              && currentAnswer == old(currentAnswer) && questionStartTime == old(questionStartTime))
        && (n < settings.questionCount ==> !submitting && exit == old(exit))
        && (n < settings.questionCount && next.Resolved? ==>
              var q := NewQuestion(n + 1, next.text, arrivedAt, History(updated));
              && questions == updated + [q] && currentAnswer == "" && questionStartTime == arrivedAt
              && notice == (if q.deepDiveLevel.value > 2 then DeepDiveAhead else NoNotice))
        && (n < settings.questionCount && next.Rejected? ==>
              && questions == updated && notice == GenerationFailed
              && currentAnswer == old(currentAnswer) && questionStartTime == old(questionStartTime))
    {
      if Blank(currentAnswer) {
        return EmptyAnswer;
      }
      if !online {
        return OfflineNotice;
      }
      var n := |questions|;
      RecordAnswer(now);
      if n >= settings.questionCount {
        exit := Completed(questions);
        return InterviewFinished;
      }
      notice := ReceiveQuestion(next, arrivedAt);
    }

    /** The first half of `submitAnswer()`: the current question gets the trimmed
        answer, its response time in whole seconds and its type, and the metrics
        take the answer into account. */
    method RecordAnswer(now: int)
      requires |questions| > 0 && Valid() && !Blank(currentAnswer)
      modifies this
      ensures Valid() && |questions| == |old(questions)| && !Blank(questions[|questions| - 1].answer)
      ensures questions == Answered(old(questions), old(currentAnswer), ResponseSeconds(now, old(questionStartTime)))
      ensures metrics == NextMetrics(old(metrics), |old(questions)|, ResponseSeconds(now, old(questionStartTime)),
                                     AnalyzeQuestionType(old(questions)[|old(questions)| - 1].question))
      ensures submitting
      ensures currentAnswer == old(currentAnswer) && questionStartTime == old(questionStartTime)
      ensures exit == old(exit) && online == old(online) && loadingQuestion == old(loadingQuestion)
    {
      submitting := true;
      var responseTime := ResponseSeconds(now, questionStartTime);
      var n := |questions|;
      AnsweringKeepsWellFormed(questions, settings.questionCount, currentAnswer, responseTime);
      metrics := NextMetrics(metrics, n, responseTime, AnalyzeQuestionType(questions[n - 1].question));
      questions := Answered(questions, currentAnswer, responseTime);
    }

    /** The second half of `submitAnswer()`: a generated question is appended and
        timed from its arrival, a failure leaves the answer typed for a retry. */
    method ReceiveQuestion(next: GeminiApi.GenerateResult, arrivedAt: int) returns (notice: Notice)
      requires Valid() && 0 < |questions| < settings.questionCount && !Blank(questions[|questions| - 1].answer)
      modifies this
      ensures Valid() && !submitting
      ensures next.Resolved? ==>
        var q := NewQuestion(|old(questions)| + 1, next.text, arrivedAt, History(old(questions)));
        && questions == old(questions) + [q] && currentAnswer == "" && questionStartTime == arrivedAt
        && notice == (if q.deepDiveLevel.value > 2 then DeepDiveAhead else NoNotice)
      ensures next.Rejected? ==>
        && questions == old(questions) && notice == GenerationFailed
        && currentAnswer == old(currentAnswer) && questionStartTime == old(questionStartTime)
      ensures metrics == old(metrics) && exit == old(exit) && online == old(online)
      ensures loadingQuestion == old(loadingQuestion)
    {
      match next {
        case Resolved(text) =>
          var q := NewQuestion(|questions| + 1, text, arrivedAt, History(questions));
          AppendingKeepsWellFormed(questions, settings.questionCount, q);
          questions := questions + [q];
          currentAnswer := "";
          questionStartTime := arrivedAt;
          notice := if q.deepDiveLevel.value > 2 then DeepDiveAhead else NoNotice;
        case Rejected(_) =>
          notice := GenerationFailed;
      }
      submitting := false;
    }

    /** `handleEndInterview()`, where `confirmed` is the answer to the confirmation
        dialog: with questions on screen the answered ones are handed over, otherwise
        the screen goes back home. */
    method HandleEndInterview(confirmed: bool)
      modifies this
      ensures !confirmed ==> exit == old(exit)
      ensures confirmed && |questions| > 0 ==> exit == Completed(FinalQuestions(questions, currentAnswer))
      ensures confirmed && |questions| == 0 ==> exit == BackToHome
      ensures questions == old(questions) && currentAnswer == old(currentAnswer) && metrics == old(metrics)
      ensures submitting == old(submitting) && loadingQuestion == old(loadingQuestion) && online == old(online)
      ensures questionStartTime == old(questionStartTime)
    {
      if confirmed {
        if |questions| > 0 {
          exit := Completed(FinalQuestions(questions, currentAnswer));
        } else {
          exit := BackToHome;
        }
      }
    }
  }
}
