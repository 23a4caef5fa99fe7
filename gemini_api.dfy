/** The question-generation service of services/geminiAPI.ts: a sliding-window
    rate limiter, bounded exponential-backoff retry, the keyword classifier,
    conversation-flow analysis, the industry personas and deep-dive patterns,
    the interviewer prompt, and `generateQuestion` with its error messages.
    The HTTP call is an oracle: `respond(prompt, k)` is what attempt `k` gets back. */
module GeminiApi {
  import opened Text
  import opened InterviewTypes

  // ===========================================================================
  // RateLimiter

  const MaxRequests: nat := 60
  const WindowMs: int := 60000

  /** `requests.filter(time => now - time < windowMs)`: the timestamps still inside
      the sliding window at `now`, in their original order. */
  function InWindow(requests: seq<int>, now: int): (r: seq<int>)
    ensures |r| <= |requests|
    ensures forall t :: t in r <==> t in requests && now - t < WindowMs
    decreases |requests|
  {
    if requests == [] then []
    else (if now - requests[0] < WindowMs then [requests[0]] else []) + InWindow(requests[1..], now)
  }

  /** Pruning works entry by entry, keeping each recent timestamp once and in
      place: the window of a concatenation is the concatenation of the windows. */
  lemma {:induction false} InWindowDistributes(a: seq<int>, b: seq<int>, now: int)
    ensures InWindow(a + b, now) == InWindow(a, now) + InWindow(b, now)
    decreases |a|
  {
    if a == [] {
      assert a + b == b;
    } else {
      assert (a + b)[0] == a[0] && (a + b)[1..] == a[1..] + b;
      InWindowDistributes(a[1..], b, now);
    }
  }

  /** A single timestamp is kept exactly when it is less than a window old. */
  lemma InWindowSingle(t: int, now: int)
    ensures InWindow([t], now) == if now - t < WindowMs then [t] else []
  {
    assert [t][1..] == [];
  }

  /** Pruning keeps everything when every timestamp is recent. */
  lemma {:induction false} InWindowKeepsRecent(requests: seq<int>, now: int)
    requires forall i | 0 <= i < |requests| :: now - requests[i] < WindowMs
    ensures InWindow(requests, now) == requests
    decreases |requests|
  {
    if requests != [] {
      InWindowKeepsRecent(requests[1..], now);
      assert [requests[0]] + requests[1..] == requests;
    }
  }

  /** Pruning drops at least one entry when some timestamp has aged out. */
  lemma {:induction false} InWindowDropsStale(requests: seq<int>, now: int, stale: int)
    requires stale in requests && now - stale >= WindowMs
    ensures |InWindow(requests, now)| < |requests|
    decreases |requests|
  {
    if requests[0] != stale {
      InWindowDropsStale(requests[1..], now, stale);
    }
  }

  /** `Math.min(...requests)`. */
  function Oldest(requests: seq<int>): (m: int)
    requires |requests| > 0
    ensures m in requests
    ensures forall i | 0 <= i < |requests| :: m <= requests[i]
    decreases |requests|
  {
    if |requests| == 1 then requests[0]
    else
      var rest := Oldest(requests[1..]);
      if requests[0] <= rest then requests[0] else rest
  }

  /** `getWaitTime()`: how long until the oldest request leaves the window; 0 when
      the window is empty. It is the least such wait: by `now + w` the oldest
      request is out of the window, and one millisecond earlier it is still in. */
  function WaitTime(requests: seq<int>, now: int): (w: int)
    ensures w >= 0
    ensures requests == [] ==> w == 0
    ensures requests != [] ==> (w == 0 <==> now - Oldest(requests) >= WindowMs)
    ensures requests != [] ==> now + w - Oldest(requests) >= WindowMs
    ensures requests != [] && w > 0 ==> now + (w - 1) - Oldest(requests) < WindowMs
  {
    if requests == [] then 0
    else
      var left := WindowMs - (now - Oldest(requests));
      if left > 0 then left else 0
  }

  /** Waiting the advertised time is enough: by then the oldest request has left
      the window, so the window holds strictly fewer requests. */
  lemma WaitTimeSuffices(requests: seq<int>, now: int)
    requires requests != []
    ensures |InWindow(requests, now + WaitTime(requests, now))| < |requests|
  {
    var later := now + WaitTime(requests, now);
    var oldest := Oldest(requests);
    assert later - oldest >= WindowMs;
    InWindowDropsStale(requests, later, oldest);
  }

  /** Sixty requests recorded within the last minute block the next one; once the
      advertised wait has passed, a request is allowed again. */
  lemma FullWindowBlocksThenReopens(requests: seq<int>, now: int)
    requires |requests| == MaxRequests
    requires forall i | 0 <= i < |requests| :: now - requests[i] < WindowMs
    ensures |InWindow(requests, now)| >= MaxRequests
    ensures |InWindow(requests, now + WaitTime(requests, now))| < MaxRequests
  {
    InWindowKeepsRecent(requests, now);
    WaitTimeSuffices(requests, now);
  }

  /** The process-wide rate limiter; `requests` is its private timestamp list. */
  class RateLimiter {
    var requests: seq<int>

    constructor ()
      ensures requests == []
    {
      requests := [];
    }

    /** `canMakeRequest()`: prunes the window, then answers whether fewer than
        `maxRequests` timestamps remain. */
    method CanMakeRequest(now: int) returns (ok: bool)
      modifies this
      ensures requests == InWindow(old(requests), now)
      ensures ok <==> |requests| < MaxRequests
    {
      requests := InWindow(requests, now);
      ok := |requests| < MaxRequests;
    }

    /** `recordRequest()`: appends exactly one timestamp. */
    method RecordRequest(now: int)
      modifies this
      ensures requests == old(requests) + [now]
    {
      requests := requests + [now];
    }

    /** `getWaitTime()`: reads the window without changing it. */
    method GetWaitTime(now: int) returns (w: int)
      ensures w == WaitTime(requests, now)
    {
      if |requests| == 0 {
        return 0;
      }
      var oldest := Oldest(requests);
      w := if WindowMs - (now - oldest) > 0 then WindowMs - (now - oldest) else 0;
    }
  }

  // ===========================================================================
  // retryWithBackoff

  const MaxRetries: nat := 3
  const BaseDelay: nat := 1000
  const MaxDelay: nat := 5000

  function Pow2(k: nat): (p: nat)
    ensures p >= 1
  {
    if k == 0 then 1 else 2 * Pow2(k - 1)
  }

  /** `Math.min(baseDelay * 2 ** (maxRetries - retries), maxDelay)`, the wait before
      retrying with `retries` retries left. */
  function BackoffDelay(retries: nat): (d: nat)
    requires 1 <= retries <= MaxRetries
    ensures d <= MaxDelay
  {
    CappedDelay(MaxRetries - retries)
  }

  /** `Math.min(baseDelay * 2 ** n, maxDelay)`. */
  function CappedDelay(n: nat): (d: nat)
    ensures d <= MaxDelay
  {
    var raw := BaseDelay * Pow2(n);
    if raw < MaxDelay then raw else MaxDelay
  }

  /** The outcome of one call of the retried operation. */
  datatype Outcome = Success(text: string) | Failure(message: string)

  /** What a run of `retryWithBackoff` did: its result, how many times it called the
      operation, and the delays it slept between calls. */
  datatype RetryRun = RetryRun(result: Outcome, calls: nat, delays: seq<nat>)

  /** `retryWithBackoff(fn, retries)` where `fn(first + k)` is the outcome of the
      operation's k-th call in this run. */
  function RetryWithBackoff(fn: nat -> Outcome, retries: nat, first: nat): RetryRun
    requires retries <= MaxRetries
    decreases retries
  {
    match fn(first)
    case Success(v) => RetryRun(Success(v), 1, [])
    case Failure(e) =>
      if retries == 0 then RetryRun(Failure(e), 1, [])
      else
        var rest := RetryWithBackoff(fn, retries - 1, first + 1);
        RetryRun(rest.result, rest.calls + 1, [BackoffDelay(retries)] + rest.delays)
  }

  /** A run makes between one and `retries + 1` calls, all but the last failing; it
      returns the last call's outcome, gives up only when the retries are used up,
      and before the k-th retry waits the capped delay for that retry. */
  lemma {:induction false} RetryRunFacts(fn: nat -> Outcome, retries: nat, first: nat)
    requires retries <= MaxRetries
    ensures var run := RetryWithBackoff(fn, retries, first);
      && 1 <= run.calls <= retries + 1
      && |run.delays| == run.calls - 1
      && (forall j | first <= j < first + run.calls - 1 :: fn(j).Failure?)
      && run.result == fn(first + run.calls - 1)
      && (run.result.Failure? ==> run.calls == retries + 1)
      && (forall k | 0 <= k < |run.delays| :: run.delays[k] == CappedDelay(MaxRetries - retries + k))
    decreases retries
  {
    if fn(first).Failure? && retries > 0 {
      RetryRunFacts(fn, retries - 1, first + 1);
      var rest := RetryWithBackoff(fn, retries - 1, first + 1);
      var run := RetryWithBackoff(fn, retries, first);
      assert run.delays == [BackoffDelay(retries)] + rest.delays;
      forall k | 0 <= k < |run.delays| ensures run.delays[k] == CappedDelay(MaxRetries - retries + k) {
        if k > 0 {
          assert run.delays[k] == rest.delays[k - 1];
        }
      }
    }
  }

  /** With the default three retries the operation is called at most four times, and
      the waits are 1000, 2000 and 4000 ms: strictly increasing and never above the
      5000 ms cap. */
  lemma DefaultBackoffSchedule(fn: nat -> Outcome)
    ensures var run := RetryWithBackoff(fn, MaxRetries, 0);
      run.calls <= 4
      && run.delays == [1000, 2000, 4000][..run.calls - 1]
      && (forall k | 0 <= k < |run.delays| :: run.delays[k] <= MaxDelay)
      && (forall j, k | 0 <= j < k < |run.delays| :: run.delays[j] < run.delays[k])
  {
    var run := RetryWithBackoff(fn, MaxRetries, 0);
    RetryRunFacts(fn, MaxRetries, 0);
    assert Pow2(0) == 1 && Pow2(1) == 2 && Pow2(2) == 4;
    assert CappedDelay(0) == 1000 && CappedDelay(1) == 2000 && CappedDelay(2) == 4000;
    assert run.delays == [1000, 2000, 4000][..run.calls - 1];
  }

  /** When every call fails, the run gives up after exactly four calls and reports the
      last call's error. */
  lemma AllCallsFail(fn: nat -> Outcome)
    requires forall k: nat :: fn(k).Failure?
    ensures var run := RetryWithBackoff(fn, MaxRetries, 0);
      run.calls == 4 && run.result == fn(3) && run.delays == [1000, 2000, 4000]
  {
    RetryRunFacts(fn, MaxRetries, 0);
    DefaultBackoffSchedule(fn);
  }

  /** The first success is returned at once: no later call is made. */
  lemma FirstSuccessStops(fn: nat -> Outcome, k: nat)
    requires k <= MaxRetries
    requires forall j | 0 <= j < k :: fn(j).Failure?
    requires fn(k).Success?
    ensures var run := RetryWithBackoff(fn, MaxRetries, 0);
      run.calls == k + 1 && run.result == fn(k)
  {
    RetryRunFacts(fn, MaxRetries, 0);
  }

  // ===========================================================================
  // Industry personas

  datatype Persona = Persona(characteristics: string, values: string, keyQuestions: seq<string>, tone: string)

  const FallbackIndustry: string := "その他"

  /** The `personas` table, keyed by industry. */
  const Personas: map<string, Persona> := map[
    "IT" := Persona(
      "技術的好奇心、論理的思考、イノベーション、問題解決力、継続学習意欲、アジャイル思考",
      "スピード感、効率性、創造性、データドリブン思考、ユーザー中心設計",
      ["プログラミング経験や技術への興味・学習方法",
       "論理的思考力を示すエピソード・問題解決アプローチ",
       "新しい技術への学習姿勢・キャッチアップ方法",
       "チーム開発やアジャイル開発への理解・経験",
       "ユーザー視点での思考・UX/UI への関心"],
      "親しみやすく、技術的な話題にも踏み込む現代的で革新的な面接官"),
    "金融" := Persona(
      "リスク管理意識、数値分析力、信頼性、コンプライアンス意識、責任感、長期的視点",
      "安定性、正確性、信頼関係、長期的視点、社会的責任",
      ["数字やデータに対する関心・分析経験",
       "責任感や信頼性を示すエピソード",
       "金融業界への理解度・社会的意義の認識",
       "リスク管理や慎重な判断力の経験",
       "長期的な視点での計画・目標設定"],
      "丁寧で落ち着いた、信頼感があり社会的責任を重視する面接官"),
    "商社" := Persona(
      "グローバル視点、交渉力、関係構築力、チャレンジ精神、適応力、文化理解力",
      "多様性、スピード感、関係性、挑戦、グローバル思考",
      ["海外経験や語学力、国際的な関心・異文化理解",
       "コミュニケーション能力や交渉経験・説得力",
       "チャレンジ精神を示すエピソード・困難克服",
       "多様な人との関係構築経験・チームワーク",
       "グローバルな視点での思考・世界情勢への関心"],
      "エネルギッシュで国際的な視野を持つ、挑戦を重視する面接官"),
    "コンサル" := Persona(
      "論理的分析力、問題解決力、提案力、クライアント志向、構造化思考、仮説思考",
      "論理性、効率性、価値創造、クライアントファースト、結果重視",
      ["論理的思考力や分析力を示すエピソード・フレームワーク活用",
       "問題解決の具体的なプロセス・アプローチ方法",
       "チームでの提案や改善経験・リーダーシップ",
       "クライアント視点での思考・相手の立場理解",
       "仮説立案と検証の経験・PDCA サイクル"],
      "論理的で鋭い質問をする、知的で結果重視の面接官"),
    "メーカー" := Persona(
      "品質意識、継続改善、チームワーク、ものづくり精神、安全意識、技術への敬意",
      "品質、安全性、チームワーク、継続改善、技術革新",
      ["ものづくりや品質への関心・こだわり",
       "チームワークや協調性のエピソード・役割分担",
       "継続的な改善や工夫の経験・カイゼン思考",
       "安全や品質に対する意識・責任感",
       "技術や製造プロセスへの興味・理解"],
      "温かみがあり、チームワークと品質を重視する堅実な面接官"),
    "その他" := Persona(
      "基本的なビジネススキル、コミュニケーション能力、学習意欲、適応力、誠実性",
      "コミュニケーション、学習意欲、適応力、基本的なビジネスマナー、誠実性",
      ["基本的なコミュニケーション能力・対人関係",
       "学習意欲や成長への姿勢・自己啓発",
       "適応力や柔軟性のエピソード・変化対応",
       "ビジネスマナーや社会人としての基礎・責任感",
       "誠実性や信頼関係構築の経験"],
      "バランスの取れた、基本を重視する親しみやすい面接官")
  ]

  /** `personas[industry] || personas['その他']`: the persona of a known industry, and
      the fallback persona for any other key. */
  function PersonaFor(industry: string): (p: Persona)
    ensures p in Personas.Values
    ensures industry in Personas ==> p == Personas[industry]
    ensures industry !in Personas ==> p == Personas[FallbackIndustry]
  {
    if industry in Personas then Personas[industry] else Personas[FallbackIndustry]
  }

  /** Every persona names exactly five key question areas. */
  lemma PersonasHaveFiveKeyQuestions(industry: string)
    ensures |PersonaFor(industry).keyQuestions| == 5
  {
  }

  /** The persona keys are exactly the six industries. */
  lemma PersonaKeys()
    ensures Personas.Keys == {"IT", "金融", "商社", "コンサル", "メーカー", "その他"}
  {
  }

  /** The persona block of the prompt for one persona. */
  function PersonaBlock(p: Persona): string {
    Concat(PersonaParts(p))
  }

  function PersonaParts(p: Persona): seq<string> {
    ["\n【業界特性】", p.characteristics,
     "\n【重視する価値観】", p.values,
     "\n【重要な質問領域】", Join(p.keyQuestions, "、"),
     "\n【面接官の特徴】", p.tone,
     "\n  "]
  }

  /** `getIndustryPersona(industry)`. */
  function IndustryPersona(industry: string): string {
    PersonaBlock(PersonaFor(industry))
  }

  /** The persona block names the persona's characteristics, values, tone and every
      key question area. */
  lemma PersonaBlockMentions(p: Persona, i: nat)
    requires i < |p.keyQuestions|
    ensures Contains(PersonaBlock(p), p.characteristics)
    ensures Contains(PersonaBlock(p), p.values)
    ensures Contains(PersonaBlock(p), p.tone)
    ensures Contains(PersonaBlock(p), p.keyQuestions[i])
  {
    var parts := PersonaParts(p);
    ConcatContainsPart(parts, 1);
    ConcatContainsPart(parts, 3);
    ConcatContainsPart(parts, 7);
    ConcatContainsPart(parts, 5);
    JoinContainsElement(p.keyQuestions, "、", i);
    ContainsTransitive(PersonaBlock(p), parts[5], p.keyQuestions[i]);
  }

  // ===========================================================================
  // Deep-dive patterns

  /** The `patterns` table, keyed by question type. */
  const DeepDivePatternTable: map<string, seq<string>> := map[
    "experience" := [
      "具体的にはどのような役割を担っていましたか？",
      "その経験で最も困難だったことは何でしたか？どう乗り越えましたか？",
      "どのような工夫や改善を行いましたか？結果はいかがでしたか？",
      "チームメンバーとはどのように連携しましたか？あなたの役割は？",
      "その経験から何を学び、どう成長しましたか？",
      "もし同じ状況になったら、今度はどうしますか？",
      "その活動を通じて、周囲からどのような評価を受けましたか？",
      "最も印象に残っている出来事やエピソードはありますか？"],
    "motivation" := [
      "なぜその業界に興味を持ったのですか？きっかけは？",
      "他の業界や企業と比較してどう思いますか？",
      "将来的にはどのような仕事をしたいですか？",
      "その目標に向けて今何をしていますか？",
      "弊社でどのような価値を提供できると思いますか？",
      "入社後の具体的なキャリアプランはありますか？",
      "業界の課題や将来性についてどう考えますか？",
      "弊社の事業内容についてどの程度ご存知ですか？"],
    "personality" := [
      "その性格はいつ頃から自覚していましたか？",
      "具体的にどのような場面で発揮されますか？",
      "それが原因で困ったことはありますか？どう対処しましたか？",
      "チームワークにどう影響しますか？",
      "その特徴を仕事でどう活かせると思いますか？",
      "改善したい点はありますか？どんな努力をしていますか？",
      "周囲の人からはどのように見られていると思いますか？",
      "ストレスを感じる場面とその対処法を教えてください。"],
    "challenge" := [
      "なぜその挑戦をしようと思ったのですか？",
      "準備段階でどんなことをしましたか？",
      "途中で諦めたくなったことはありますか？なぜ続けられましたか？",
      "どのように困難を乗り越えましたか？",
      "周囲の人からはどんな反応でしたか？サポートはありましたか？",
      "その挑戦があなたをどう変えましたか？",
      "失敗や挫折から学んだことはありますか？",
      "今振り返って、違うアプローチがあったと思いますか？"]
  ]

  /** `getDeepDivePatterns(questionType, previousAnswer)`: the patterns of a known type,
      the experience patterns for any other key. The answer is not consulted. */
  function DeepDivePatterns(questionType: string, previousAnswer: string): (r: seq<string>)
    ensures questionType in DeepDivePatternTable ==> r == DeepDivePatternTable[questionType]
    ensures questionType !in DeepDivePatternTable ==> r == DeepDivePatternTable["experience"]
    ensures |r| == 8
  {
    if questionType in DeepDivePatternTable then DeepDivePatternTable[questionType]
    else DeepDivePatternTable["experience"]
  }

  // ===========================================================================
  // classifyQuestionType

  const MotivationKeywords: seq<string> := ["志望", "理由", "なぜ", "目標", "やりたい", "興味", "将来", "キャリア"]
  const ExperienceKeywords: seq<string> := ["経験", "取り組", "活動", "頑張", "力を入れ", "エピソード", "学生時代", "サークル", "アルバイト"]
  const PersonalityKeywords: seq<string> := ["性格", "特徴", "長所", "短所", "強み", "弱み", "人柄", "価値観"]
  const ChallengeKeywords: seq<string> := ["挑戦", "チャレンジ", "困難", "乗り越え", "努力", "工夫", "失敗", "挫折"]

  /** `(question + ' ' + answer).toLowerCase()`. */
  function ClassifierText(question: string, answer: string): string {
    ToLower(question + " " + answer)
  }

  /** `classifyQuestionType(question, answer)`: the first of motivation, challenge,
      personality and experience whose keywords occur in the question and answer;
      experience when none does. */
  function ClassifyQuestionType(question: string, answer: string): (r: QuestionType)
    ensures r != Introduction && r != Other
    ensures var text := ClassifierText(question, answer);
      && (r == Motivation <==> ContainsAny(text, MotivationKeywords))
      && (r == Challenge <==> !ContainsAny(text, MotivationKeywords) && ContainsAny(text, ChallengeKeywords))
      && (r == Personality <==> !ContainsAny(text, MotivationKeywords) && !ContainsAny(text, ChallengeKeywords)
                                && ContainsAny(text, PersonalityKeywords))
  {
    var text := ClassifierText(question, answer);
    if ContainsAny(text, MotivationKeywords) then Motivation
    else if ContainsAny(text, ChallengeKeywords) then Challenge
    else if ContainsAny(text, PersonalityKeywords) then Personality
    else if ContainsAny(text, ExperienceKeywords) then Experience
    else Experience
  }

  /** The keyword lists contain no ASCII letters, so lower-casing does not change
      which of them occur. */
  lemma KeywordsUncased(text: string, keywords: seq<string>)
    requires keywords == MotivationKeywords || keywords == ChallengeKeywords
          || keywords == PersonalityKeywords || keywords == ExperienceKeywords
    ensures ContainsAny(ToLower(text), keywords) <==> ContainsAny(text, keywords)
  {
    forall i | 0 <= i < |keywords|
      ensures Contains(ToLower(text), keywords[i]) <==> Contains(text, keywords[i])
    {
      LowerKeepsUncasedMatch(text, keywords[i]);
    }
  }

  /** A motivation keyword anywhere in the question or the answer decides the type,
      whatever else the text contains: motivation outranks every other category. */
  lemma MotivationOutranksAll(question: string, answer: string, k: nat)
    requires k < |MotivationKeywords|
    requires Contains(question, MotivationKeywords[k]) || Contains(answer, MotivationKeywords[k])
    ensures ClassifyQuestionType(question, answer) == Motivation
  {
    var raw := question + " " + answer;
    if Contains(question, MotivationKeywords[k]) {
      ContainsAppendRight(question, " " + answer, MotivationKeywords[k]);
      assert raw == question + (" " + answer);
    } else {
      ContainsPrepend(question + " ", answer, MotivationKeywords[k]);
    }
    KeywordsUncased(raw, MotivationKeywords);
  }

  /** With no motivation, challenge or personality keyword the type is experience:
      the default and the experience branch give the same answer. */
  lemma ExperienceIsTheDefault(question: string, answer: string)
    requires !ContainsAny(question + " " + answer, MotivationKeywords)
    requires !ContainsAny(question + " " + answer, ChallengeKeywords)
    requires !ContainsAny(question + " " + answer, PersonalityKeywords)
    ensures ClassifyQuestionType(question, answer) == Experience
  {
    KeywordsUncased(question + " " + answer, MotivationKeywords);
    KeywordsUncased(question + " " + answer, ChallengeKeywords);
    KeywordsUncased(question + " " + answer, PersonalityKeywords);
  }

  // ===========================================================================
  // analyzeConversationFlow

  const SelfIntroduction: string := "自己紹介"
  const MotivationTopic: string := "志望動機"
  const StudentExperience: string := "学生時代の経験"
  const EssentialTopics: seq<string> := [SelfIntroduction, MotivationTopic, StudentExperience]
  const OpportunityNote: string := "詳細な深掘りが可能"

  predicate AsksIntroduction(question: string) {
    Contains(question, "自己紹介") || Contains(question, "お名前")
  }

  predicate AsksMotivation(question: string) {
    Contains(question, "志望") || Contains(question, "理由")
  }

  predicate AsksStudentLife(question: string) {
    Contains(question, "学生時代") || Contains(question, "力を入れ") || Contains(question, "頑張")
  }

  /** A long answer (over 100 characters) to a question without deep-dive wording. */
  predicate IsOpportunity(t: Turn) {
    |t.answer| > 100 && !Contains(t.question, "具体的") && !Contains(t.question, "詳しく")
  }

  /** Questions phrased as a deep dive. */
  predicate IsDeepQuestion(t: Turn) {
    Contains(t.question, "具体的") || Contains(t.question, "どのよう") || Contains(t.question, "なぜ")
  }

  /** The topics one turn pushes onto `coveredTopics`, in push order. */
  function TurnTopics(t: Turn): seq<string> {
    (if AsksIntroduction(t.question) then [SelfIntroduction] else [])
    + (if AsksMotivation(t.question) then [MotivationTopic] else [])
    + (if AsksStudentLife(t.question) then [StudentExperience] else [])
  }

  /** `coveredTopics` after the `forEach` over `h`: duplicates are kept. */
  function CoveredTopics(h: seq<Turn>): seq<string>
    decreases |h|
  {
    if h == [] then [] else CoveredTopics(h[..|h| - 1]) + TurnTopics(h[|h| - 1])
  }

  /** `deepDiveOpportunities` after the `forEach` over `h`. */
  function Opportunities(h: seq<Turn>): seq<string>
    decreases |h|
  {
    if h == [] then []
    else Opportunities(h[..|h| - 1]) + (if IsOpportunity(h[|h| - 1]) then [OpportunityNote] else [])
  }

  /** `essentialTopics.filter(topic => !coveredTopics.includes(topic))`. */
  function MissingTopics(covered: seq<string>): seq<string> {
    (if SelfIntroduction in covered then [] else [SelfIntroduction])
    + (if MotivationTopic in covered then [] else [MotivationTopic])
    + (if StudentExperience in covered then [] else [StudentExperience])
  }

  function AnswerLengthSum(h: seq<Turn>): nat
    decreases |h|
  {
    if h == [] then 0 else AnswerLengthSum(h[..|h| - 1]) + |h[|h| - 1].answer|
  }

  function DeepQuestionCount(h: seq<Turn>): nat
    decreases |h|
  {
    if h == [] then 0 else DeepQuestionCount(h[..|h| - 1]) + (if IsDeepQuestion(h[|h| - 1]) then 1 else 0)
  }

  /** The quality grade from `sum / n > 80`, `deep > n * 0.3` and `sum / n > 50`,
      stated over integers. */
  function GradeQuality(sum: int, deep: int, n: int): Quality
    requires n > 0
  {
    if sum > 80 * n && 10 * deep > 3 * n then Deep
    else if sum > 50 * n || deep > 0 then Moderate
    else Shallow
  }

  datatype NextAction = DeepDive | NewTopic | WrapUp

  function RecommendAction(missing: seq<string>, opportunities: seq<string>, quality: Quality, n: int): NextAction {
    if |missing| > 0 then NewTopic
    else if |opportunities| > 0 && quality != Deep then DeepDive
    else if n >= 8 then WrapUp
    else NewTopic
  }

  datatype FlowAnalysis = FlowAnalysis(
    coveredTopics: seq<string>,
    missingTopics: seq<string>,
    deepDiveOpportunities: seq<string>,
    conversationQuality: Quality,
    recommendedNextAction: NextAction)

  /** The analysis `analyzeConversationFlow` returns for a non-empty history. */
  function FlowOf(h: seq<Turn>): FlowAnalysis
    requires |h| > 0
  {
    var covered := CoveredTopics(h);
    var missing := MissingTopics(covered);
    var opportunities := Opportunities(h);
    var quality := GradeQuality(AnswerLengthSum(h), DeepQuestionCount(h), |h|);
    FlowAnalysis(covered, missing, opportunities, quality, RecommendAction(missing, opportunities, quality, |h|))
  }

  /** The pushes of one iteration of the `forEach` in `analyzeConversationFlow`. */
  method VisitTurn(t: Turn, covered: seq<string>, opportunities: seq<string>)
    returns (covered': seq<string>, opportunities': seq<string>)
    ensures covered' == covered + TurnTopics(t)
    ensures opportunities' == opportunities + (if IsOpportunity(t) then [OpportunityNote] else [])
  {
    covered' := covered;
    if Contains(t.question, "自己紹介") || Contains(t.question, "お名前") {
      covered' := covered' + [SelfIntroduction];
    }
    if Contains(t.question, "志望") || Contains(t.question, "理由") {
      covered' := covered' + [MotivationTopic];
    }
    if Contains(t.question, "学生時代") || Contains(t.question, "力を入れ") || Contains(t.question, "頑張") {
      covered' := covered' + [StudentExperience];
    }
    opportunities' := opportunities;
    if |t.answer| > 100 && !Contains(t.question, "具体的") && !Contains(t.question, "詳しく") {
      opportunities' := opportunities' + [OpportunityNote];
    }
  }

  /** The `forEach` over the history. */
  method CollectTopics(h: seq<Turn>) returns (covered: seq<string>, opportunities: seq<string>)
    ensures covered == CoveredTopics(h) && opportunities == Opportunities(h)
  {
    covered, opportunities := [], [];
    var i := 0;
    while i < |h|
      invariant 0 <= i <= |h|
      invariant covered == CoveredTopics(h[..i])
      invariant opportunities == Opportunities(h[..i])
    {
      covered, opportunities := VisitTurn(h[i], covered, opportunities);
      assert h[..i + 1][..i] == h[..i];
      i := i + 1;
    }
    assert h[..|h|] == h;
  }

  /** `analyzeConversationFlow(history)`: one pass over the history pushing covered
      topics and opportunities, then the grade and the recommendation. The source
      divides by the history length; it is only called on a non-empty history. */
  method AnalyzeConversationFlow(h: seq<Turn>) returns (a: FlowAnalysis)
    requires |h| > 0
    ensures a == FlowOf(h)
  {
    var covered, opportunities := CollectTopics(h);
    var missing := MissingTopics(covered);
    var quality := Shallow;
    var sum := AnswerLengthSum(h);
    var deep := DeepQuestionCount(h);
    if sum > 80 * |h| && 10 * deep > 3 * |h| {
      quality := Deep;
    } else if sum > 50 * |h| || deep > 0 {
      quality := Moderate;
    }
    var action := NewTopic;
    if |missing| > 0 {
      action := NewTopic;
    } else if |opportunities| > 0 && quality != Deep {
      action := DeepDive;
    } else if |h| >= 8 {
      action := WrapUp;
    }
    a := FlowAnalysis(covered, missing, opportunities, quality, action);
  }

  /** The wording that makes a question count as covering an essential topic. */
  predicate AsksAbout(topic: string, question: string) {
    if topic == SelfIntroduction then AsksIntroduction(question)
    else if topic == MotivationTopic then AsksMotivation(question)
    else topic == StudentExperience && AsksStudentLife(question)
  }

  /** One turn covers a topic exactly when its question has that topic's wording. */
  lemma TurnTopicsExact(t: Turn, topic: string)
    ensures topic in TurnTopics(t) <==> topic in EssentialTopics && AsksAbout(topic, t.question)
  {
  }

  /** Some question of the history asks about the topic. */
  predicate AskedIn(topic: string, h: seq<Turn>) {
    exists i | 0 <= i < |h| :: AsksAbout(topic, h[i].question)
  }

  /** A question of the history asks about the topic exactly when one before the
      last does or the last one does. */
  lemma AskedInSnoc(topic: string, h: seq<Turn>)
    requires h != []
    ensures AskedIn(topic, h) <==> AskedIn(topic, h[..|h| - 1]) || AsksAbout(topic, h[|h| - 1].question)
  {
    var init := h[..|h| - 1];
    if AskedIn(topic, h) {
      var i :| 0 <= i < |h| && AsksAbout(topic, h[i].question);
      if i < |init| {
        assert init[i] == h[i];
      }
    }
    if AskedIn(topic, init) {
      var i :| 0 <= i < |init| && AsksAbout(topic, init[i].question);
      assert h[i] == init[i];
    }
  }

  /** A topic is covered exactly when it is essential and some question of the
      history asks about it. */
  lemma {:induction false} CoveredTopicsExact(h: seq<Turn>, topic: string)
    ensures topic in CoveredTopics(h) <==> topic in EssentialTopics && AskedIn(topic, h)
    decreases |h|
  {
    if h != [] {
      var n := |h| - 1;
      CoveredTopicsExact(h[..n], topic);
      TurnTopicsExact(h[n], topic);
      AskedInSnoc(topic, h);
    }
  }

  /** The place of an essential topic in the essential order. */
  function TopicRank(t: string): nat {
    if t == SelfIntroduction then 0 else if t == MotivationTopic then 1 else 2
  }

  /** `missingTopics` is exactly the essential topics not covered, in the essential
      order, each once; its head is therefore the first uncovered essential topic. */
  lemma MissingTopicsExact(covered: seq<string>)
    ensures forall t :: t in MissingTopics(covered) <==> t in EssentialTopics && t !in covered
    ensures |MissingTopics(covered)| <= 3
    ensures MissingTopics(covered) != [] ==>
      exists j | 0 <= j < 3 :: MissingTopics(covered)[0] == EssentialTopics[j] && EssentialTopics[j] !in covered
        && forall l | 0 <= l < j :: EssentialTopics[l] in covered
    ensures forall i, j | 0 <= i < j < |MissingTopics(covered)| ::
      exists a, b | 0 <= a < b < 3 ::
        MissingTopics(covered)[i] == EssentialTopics[a] && MissingTopics(covered)[j] == EssentialTopics[b]
  {
    var m := MissingTopics(covered);
    forall i, j | 0 <= i < j < |m|
      ensures exists a, b | 0 <= a < b < 3 :: m[i] == EssentialTopics[a] && m[j] == EssentialTopics[b]
    {
      var a, b := TopicRank(m[i]), TopicRank(m[j]);
      if SelfIntroduction !in covered && MotivationTopic !in covered {
        assert m[..2] == [SelfIntroduction, MotivationTopic];
      } else if SelfIntroduction !in covered && StudentExperience !in covered {
        assert m[..2] == [SelfIntroduction, StudentExperience];
      } else {
        assert m[..2] == [MotivationTopic, StudentExperience];
      }
      assert m[i] == EssentialTopics[a] && m[j] == EssentialTopics[b] && a < b;
    }
    if m != [] {
      if SelfIntroduction !in covered {
        assert m[0] == EssentialTopics[0];
      } else if MotivationTopic !in covered {
        assert m[0] == EssentialTopics[1];
      } else {
        assert m[0] == EssentialTopics[2];
      }
    }
  }

  /** One opportunity is recorded per long answer to a question without deep-dive wording. */
  lemma {:induction false} OpportunitiesCount(h: seq<Turn>)
    ensures |Opportunities(h)| == |set i | 0 <= i < |h| && IsOpportunity(h[i])|
    ensures forall j | 0 <= j < |Opportunities(h)| :: Opportunities(h)[j] == OpportunityNote
    decreases |h|
  {
    if h != [] {
      var n := |h| - 1;
      var init := h[..n];
      OpportunitiesCount(init);
      var before := set i | 0 <= i < n && IsOpportunity(init[i]);
      var after := set i | 0 <= i < |h| && IsOpportunity(h[i]);
      assert forall i | 0 <= i < n :: init[i] == h[i];
      if IsOpportunity(h[n]) {
        assert after == before + {n};
      } else {
        assert after == before;
      }
    }
  }

  /** The grade, stated over the whole history: deep needs an average answer above
      80 characters and more than 30% deep-dive questions; moderate needs an average
      above 50 or one deep-dive question. Deep therefore implies a deep question. */
  lemma QualityGrades(h: seq<Turn>)
    requires |h| > 0
    ensures var n := |h|; var sum := AnswerLengthSum(h); var d := DeepQuestionCount(h);
      && (FlowOf(h).conversationQuality == Deep <==> sum > 80 * n && 10 * d > 3 * n)
      && (FlowOf(h).conversationQuality == Moderate <==> !(sum > 80 * n && 10 * d > 3 * n) && (sum > 50 * n || d > 0))
      && (FlowOf(h).conversationQuality == Deep ==> d > 0)
  {
    assert FlowOf(h).conversationQuality == GradeQuality(AnswerLengthSum(h), DeepQuestionCount(h), |h|);
  }

  /** The recommendation: a new topic while a required topic is missing; otherwise a
      deep dive when there are opportunities and the talk is not yet deep; otherwise
      wrap-up from the eighth turn on. */
  lemma ActionRules(h: seq<Turn>)
    requires |h| > 0
    ensures var a := FlowOf(h);
      && (a.missingTopics != [] ==> a.recommendedNextAction == NewTopic)
      && (a.recommendedNextAction == DeepDive <==>
            a.missingTopics == [] && a.deepDiveOpportunities != [] && a.conversationQuality != Deep)
      && (a.recommendedNextAction == WrapUp ==> a.missingTopics == [] && |h| >= 8)
  {
  }

  /** From the eighth turn on, with every required topic covered and no opportunity
      pending, the recommendation is to wrap up. */
  lemma WrapUpThreshold(h: seq<Turn>)
    requires |h| >= 8
    requires forall j | 0 <= j < 3 :: AskedIn(EssentialTopics[j], h)
    requires forall i | 0 <= i < |h| :: !IsOpportunity(h[i])
    ensures FlowOf(h).recommendedNextAction == WrapUp
  {
    forall j | 0 <= j < 3 ensures EssentialTopics[j] in CoveredTopics(h) {
      CoveredTopicsExact(h, EssentialTopics[j]);
    }
    var c := CoveredTopics(h);
    assert EssentialTopics[0] in c && EssentialTopics[1] in c && EssentialTopics[2] in c;
    assert MissingTopics(c) == [];
    OpportunitiesCount(h);
    assert (set i | 0 <= i < |h| && IsOpportunity(h[i])) == {};
  }

  /** Three short turns that ask, in order, for each required topic. */
  const CoveredExample: seq<Turn> := [Turn(SelfIntroduction, ""), Turn(MotivationTopic, ""), Turn(StudentExperience, "")]

  lemma CoveredExampleMissesNothing()
    ensures MissingTopics(CoveredTopics(CoveredExample)) == []
  {
    var h := CoveredExample;
    ContainsSelf(SelfIntroduction);
    ContainsPiece("", "志望", "動機");
    assert "" + "志望" + "動機" == MotivationTopic;
    ContainsPiece("", "学生時代", "の経験");
    assert "" + "学生時代" + "の経験" == StudentExperience;
    assert AsksAbout(SelfIntroduction, h[0].question);
    assert AsksAbout(MotivationTopic, h[1].question);
    assert AsksAbout(StudentExperience, h[2].question);
    CoveredTopicsExact(h, SelfIntroduction);
    CoveredTopicsExact(h, MotivationTopic);
    CoveredTopicsExact(h, StudentExperience);
  }

  lemma CoveredExampleHasNoOpportunity()
    ensures Opportunities(CoveredExample) == []
  {
    var h := CoveredExample;
    OpportunitiesCount(h);
    assert forall i | 0 <= i < |h| :: !IsOpportunity(h[i]);
    assert (set i | 0 <= i < |h| && IsOpportunity(h[i])) == {};
  }

  /** Covering all three required topics is not enough to leave `new_topic`: with
      short answers and fewer than eight turns the final fallback is still a new topic. */
  lemma CoveredButStillNewTopic()
    ensures FlowOf(CoveredExample).missingTopics == []
    ensures FlowOf(CoveredExample).recommendedNextAction == NewTopic
  {
    CoveredExampleMissesNothing();
    CoveredExampleHasNoOpportunity();
  }

  // ===========================================================================
  // createInterviewerPrompt

  const FirstQuestionText: string := "まずは簡単に自己紹介をお願いします。お名前、大学・学部、そして簡単に人柄について教えてください。"
  const TenQuestionPolicy: string := "- 15分面接（10問）：必須3問 + 深掘り7問の効率的な構成"
  const TenQuestionPlanBlock: string :=
    "\n【15分面接（10問）特別配分】\n- 必須3問（自己紹介・志望動機・ガクチカ）: 問1-3\n- 深掘り質問: 問4-9（各トピックを2-3回深掘り）\n- 最終質問: 問10（逆質問または総括）\n"
  const FinalQuestionRule: string := "最終質問として「最後に何か質問はありますか？」"
  const TransitionRule: string := "深掘りまたは新トピックへの移行"
  const ExperienceHeavyText: string :=
    "- 学生時代の経験: 70%（具体的なエピソード、役割、成果を詳しく）\n- 志望動機: 30%（基本的な動機確認）"
  const BalancedText: string :=
    "- 学生時代の経験: 50%（リーダーシップ、困難克服を重点的に）\n- 志望動機: 50%（業界理解、キャリアビジョン）"
  const MotivationHeavyText: string :=
    "- 志望動機: 70%（将来ビジョン、企業理解を詳しく）\n- 学生時代の経験: 30%（仕事への活かし方）"

  /** What the next question should do. */
  datatype Strategy = AskMissingTopic(topic: string) | DeepDiveInto(answerHead: string) | WrapUpQuestion

  /** How the interview type splits attention between experience and motivation. */
  datatype Weighting = ExperienceHeavy | Balanced | MotivationHeavy

  /** The decisions a prompt embodies; `RenderPrompt` turns them into text. */
  datatype PromptPlan =
    | OpeningPlan(industry: string, interviewType: string, persona: Persona, questionCount: int, tenQuestionPolicy: bool)
    | FollowUpPlan(
        industry: string,
        interviewType: string,
        persona: Persona,
        questionNumber: int,
        questionCount: int,
        last: Turn,
        analysis: FlowAnalysis,
        strategy: Strategy,
        answerType: QuestionType,
        patterns: seq<string>,
        weighting: Weighting,
        tenQuestionPlan: bool,
        finalQuestion: bool)

  function WeightingFor(interviewType: string): Weighting {
    if interviewType == "一次面接" then ExperienceHeavy
    else if interviewType == "二次面接" then Balanced
    else MotivationHeavy
  }

  /** `answer.substring(0, 50)`. */
  function AnswerHead(answer: string): string {
    if |answer| <= 50 then answer else answer[..50]
  }

  function StrategyFor(a: FlowAnalysis, last: Turn): Strategy {
    if |a.missingTopics| > 0 then AskMissingTopic(a.missingTopics[0])
    else if a.recommendedNextAction == DeepDive then DeepDiveInto(AnswerHead(last.answer))
    else WrapUpQuestion
  }

  /** The decisions `createInterviewerPrompt` takes. */
  function PlanPrompt(industry: string, interviewType: string, questionCount: int, h: seq<Turn>): PromptPlan {
    var persona := PersonaFor(industry);
    if |h| == 0 then OpeningPlan(industry, interviewType, persona, questionCount, questionCount == 10)
    else
      var last := h[|h| - 1];
      var a := FlowOf(h);
      var t := ClassifyQuestionType(last.question, last.answer);
      var patterns := DeepDivePatterns(TypeLabel(t), last.answer);
      FollowUpPlan(industry, interviewType, persona, |h| + 1, questionCount, last, a, StrategyFor(a, last), t,
                   patterns[..3], WeightingFor(interviewType), questionCount == 10, |h| + 1 >= questionCount)
  }

  function QualityLabel(q: Quality): string {
    match q
    case Shallow => "shallow"
    case Moderate => "moderate"
    case Deep => "deep"
  }

  function ActionLabel(a: NextAction): string {
    match a
    case DeepDive => "deep_dive"
    case NewTopic => "new_topic"
    case WrapUp => "wrap_up"
  }

  /** `list.join('、') || 'なし'`. */
  function ListOrNone(items: seq<string>): string {
    var joined := Join(items, "、");
    if joined == "" then "なし" else joined
  }

  function StrategyText(s: Strategy): string {
    match s
    case AskMissingTopic(topic) => "優先事項: 未カバーの重要トピック「" + topic + "」について質問する"
    case DeepDiveInto(head) => "前回の回答「" + head + "...」について深掘り質問を行う"
    case WrapUpQuestion => "面接の総括に向けた質問を行う"
  }

  function WeightingText(w: Weighting): string {
    match w
    case ExperienceHeavy => ExperienceHeavyText
    case Balanced => BalancedText
    case MotivationHeavy => MotivationHeavyText
  }

  /** `patterns.map(p => '- ' + p).join('\n')`. */
  function PatternLines(patterns: seq<string>): string {
    Join(seq(|patterns|, i requires 0 <= i < |patterns| => "- " + patterns[i]), "\n")
  }

  function RoleLine(industry: string, interviewType: string): string {
    "あなたは" + industry + "業界の人事部で" + interviewType + "を担当する経験豊富な面接官です。\n\n"
  }

  const PolicyHead: string := "\n\n【面接の進行方針】\n- 合計"
  const PolicyBody: string := "問で構成される本格的な面接\n- 必須3項目（自己紹介→志望動機→学生時代の経験）を軸に展開\n- 各回答に対して2-3回の深掘り質問で本質を探る\n- 業界特性に合わせた専門的な視点での評価\n"
  const OpeningQuestionHead: string := "\n\n【最初の質問】\n"
  const OpeningRules: string := "\n\n【重要ルール】\n- 質問は一度に一つだけ\n- 親しみやすく自然な口調\n- 質問番号は表示しない\n- 面接官らしい適度な緊張感を保つ"
  const StatusHead: string := "\n\n【現在の面接状況】\n- 進行状況: "
  const QuestionHead: string := "問目\n- 前回の質問: \""
  const PreviousAnswerHead: string := "\"\n- 前回の回答: \""
  const QualityHead: string := "\"\n- 回答の質: "
  const CoveredHead: string := "\n- カバー済みトピック: "
  const MissingHead: string := "\n- 未カバートピック: "
  const ActionHead: string := "\n- 推奨アクション: "
  const StrategyHead: string := "\n\n【次の質問戦略】\n"
  const PatternsHead: string := "\n\n【深掘りパターン（前回回答タイプ: "
  const WeightingHead: string := "\n\n【面接タイプ別重点配分】\n"
  const RulesHead: string := "\n\n【質問生成ルール】\n1. 前回の回答に必ず言及（「先ほどの○○について...」「○○とおっしゃいましたが...」）\n2. 会話の自然な流れを重視\n3. "
  const RulesTail: string := "\n4. 業界特性を反映した専門的な視点\n5. 質問番号は表示しない\n\n【重要】前回の回答内容を踏まえ、面接官として自然で意味のある次の質問を一つだけ生成してください。"

  function OpeningPolicyParts(count: int, ten: bool): seq<string> {
    [PolicyHead, IntToString(count),
     PolicyBody,
     if ten then TenQuestionPolicy else ""]
  }

  function OpeningQuestionParts(): seq<string> {
    [OpeningQuestionHead,
     FirstQuestionText,
     OpeningRules]
  }

  function StatusParts(number: int, count: int, last: Turn): seq<string> {
    [StatusHead, IntToString(number), "/", IntToString(count),
     QuestionHead, last.question,
     PreviousAnswerHead, last.answer]
  }

  function AnalysisParts(a: FlowAnalysis): seq<string> {
    [QualityHead, QualityLabel(a.conversationQuality),
     CoveredHead, ListOrNone(a.coveredTopics),
     MissingHead, ListOrNone(a.missingTopics),
     ActionHead, ActionLabel(a.recommendedNextAction)]
  }

  function GuidanceParts(strategy: Strategy, t: QuestionType, patterns: seq<string>, w: Weighting, ten: bool): seq<string> {
    [StrategyHead, StrategyText(strategy),
     PatternsHead, TypeLabel(t), "）】\n", PatternLines(patterns),
     WeightingHead, WeightingText(w),
     "\n\n", if ten then TenQuestionPlanBlock else ""]
  }

  function RuleParts(final: bool): seq<string> {
    [RulesHead,
     if final then FinalQuestionRule else TransitionRule,
     RulesTail]
  }

  /** The sections of the prompt text, in order. */
  function PromptParts(p: PromptPlan): seq<string> {
    match p
    case OpeningPlan(industry, interviewType, persona, count, ten) =>
      [RoleLine(industry, interviewType),
       PersonaBlock(persona),
       Concat(OpeningPolicyParts(count, ten)),
       Concat(OpeningQuestionParts())]
    case FollowUpPlan(industry, interviewType, persona, number, count, last, a, strategy, t, patterns, w, ten, final) =>
      [RoleLine(industry, interviewType),
       PersonaBlock(persona),
       Concat(StatusParts(number, count, last)),
       Concat(AnalysisParts(a)),
       Concat(GuidanceParts(strategy, t, patterns, w, ten)),
       Concat(RuleParts(final))]
  }

  function RenderPrompt(p: PromptPlan): string {
    Concat(PromptParts(p))
  }

  /** `createInterviewerPrompt(industry, interviewType, questionCount, history)`. */
  function CreateInterviewerPrompt(industry: string, interviewType: string, questionCount: int, h: seq<Turn>): string {
    RenderPrompt(PlanPrompt(industry, interviewType, questionCount, h))
  }

  /** With an empty history the plan is the opening one; its 10-question policy is
      included exactly for the 10-question format. */
  lemma OpeningPlanFacts(industry: string, interviewType: string, questionCount: int)
    ensures var p := PlanPrompt(industry, interviewType, questionCount, []);
      p.OpeningPlan? && p.industry == industry && p.interviewType == interviewType
      && p.persona == PersonaFor(industry)
      && p.questionCount == questionCount && (p.tenQuestionPolicy <==> questionCount == 10)
  {
  }

  /** With a history of n turns the plan is for turn n+1: it quotes the last turn,
      asks first for the first uncovered required topic, deep-dives only when the
      analysis says so, asks the closing question from the last turn on, and uses the
      10-question layout exactly for that format. */
  lemma FollowUpPlanFacts(industry: string, interviewType: string, questionCount: int, h: seq<Turn>)
    requires |h| > 0
    ensures var p := PlanPrompt(industry, interviewType, questionCount, h);
      && p.FollowUpPlan?
      && p.industry == industry && p.interviewType == interviewType
      && p.persona == PersonaFor(industry)
      && p.questionNumber == |h| + 1
      && p.last == h[|h| - 1]
      && p.analysis == FlowOf(h)
      && (FlowOf(h).missingTopics != [] ==> p.strategy == AskMissingTopic(FlowOf(h).missingTopics[0]))
      && (p.strategy.DeepDiveInto? <==> FlowOf(h).missingTopics == [] && FlowOf(h).recommendedNextAction == DeepDive)
      && (p.strategy.DeepDiveInto? ==> StartsWith(h[|h| - 1].answer, p.strategy.answerHead) && |p.strategy.answerHead| <= 50)
      && (p.finalQuestion <==> |h| + 1 >= questionCount)
      && (p.tenQuestionPlan <==> questionCount == 10)
  {
    var p := PlanPrompt(industry, interviewType, questionCount, h);
    var answer := h[|h| - 1].answer;
    if p.strategy.DeepDiveInto? {
      assert answer[..|AnswerHead(answer)|] == AnswerHead(answer);
    }
  }

  /** The deep-dive examples are the first three patterns for the type of the previous
      answer; that type is never introduction or other, so the fallback table is not
      reached from here. */
  lemma PromptPatterns(industry: string, interviewType: string, questionCount: int, h: seq<Turn>)
    requires |h| > 0
    ensures var p := PlanPrompt(industry, interviewType, questionCount, h);
      var last := h[|h| - 1];
      && p.FollowUpPlan?
      && p.answerType == ClassifyQuestionType(last.question, last.answer)
      && TypeLabel(p.answerType) in DeepDivePatternTable
      && p.patterns == DeepDivePatternTable[TypeLabel(p.answerType)][..3]
  {
  }

  /** The weighting: 70/30 towards experience for a first interview, 50/50 for a second,
      and 70/30 towards motivation for any other type. */
  lemma PromptWeighting(industry: string, interviewType: string, questionCount: int, h: seq<Turn>)
    requires |h| > 0
    ensures var p := PlanPrompt(industry, interviewType, questionCount, h);
      && p.FollowUpPlan?
      && (interviewType == "一次面接" ==> p.weighting == ExperienceHeavy)
      && (interviewType == "二次面接" ==> p.weighting == Balanced)
      && (interviewType != "一次面接" && interviewType != "二次面接" ==> p.weighting == MotivationHeavy)
  {
  }

  /** Every rendered prompt opens with the interviewer's role and carries its persona's
      characteristics, values and interviewer tone. */
  lemma PromptIntroducesInterviewer(p: PromptPlan)
    requires |p.persona.keyQuestions| > 0
    ensures StartsWith(RenderPrompt(p), RoleLine(p.industry, p.interviewType))
    ensures Contains(RenderPrompt(p), p.persona.characteristics)
    ensures Contains(RenderPrompt(p), p.persona.values)
    ensures Contains(RenderPrompt(p), p.persona.tone)
  {
    var parts := PromptParts(p);
    assert |parts| >= 2 && parts[0] == RoleLine(p.industry, p.interviewType) && parts[1] == PersonaBlock(p.persona);
    ConcatStartsWithFirst(parts);
    PersonaPartMentions(parts, p.persona);
  }

  /** Text made of parts whose second part is a persona block carries the persona's
      characteristics, values and tone. */
  lemma PersonaPartMentions(parts: seq<string>, persona: Persona)
    requires |parts| >= 2 && parts[1] == PersonaBlock(persona) && |persona.keyQuestions| > 0
    ensures Contains(Concat(parts), persona.characteristics)
    ensures Contains(Concat(parts), persona.values)
    ensures Contains(Concat(parts), persona.tone)
  {
    PersonaBlockMentions(persona, 0);
    ConcatContainsWithin(parts, 1, persona.characteristics);
    ConcatContainsWithin(parts, 1, persona.values);
    ConcatContainsWithin(parts, 1, persona.tone);
  }

  /** The rendered opening prompt asks the fixed self-introduction question and states
      the 10-question policy when its plan has it. */
  lemma OpeningPromptText(p: PromptPlan)
    requires p.OpeningPlan?
    ensures Contains(RenderPrompt(p), FirstQuestionText)
    ensures Contains(RenderPrompt(p), IntToString(p.questionCount))
    ensures p.tenQuestionPolicy ==> Contains(RenderPrompt(p), TenQuestionPolicy)
  {
    var parts := PromptParts(p);
    var policy := OpeningPolicyParts(p.questionCount, p.tenQuestionPolicy);
    ConcatContainsPart(OpeningQuestionParts(), 1);
    ConcatContainsWithin(parts, 3, FirstQuestionText);
    ConcatContainsPart(policy, 1);
    ConcatContainsWithin(parts, 2, IntToString(p.questionCount));
    ConcatContainsPart(policy, 3);
    ConcatContainsWithin(parts, 2, policy[3]);
  }

  /** The rendered follow-up prompt states the turn number, quotes the previous
      question and answer, and carries the chosen strategy, weighting, final-question
      rule and 10-question layout. */
  lemma FollowUpPromptText(p: PromptPlan)
    requires p.FollowUpPlan?
    ensures var text := RenderPrompt(p);
      && Contains(text, IntToString(p.questionNumber))
      && Contains(text, p.last.question)
      && Contains(text, p.last.answer)
      && Contains(text, StrategyText(p.strategy))
      && Contains(text, WeightingText(p.weighting))
      && (p.finalQuestion ==> Contains(text, FinalQuestionRule))
      && (!p.finalQuestion ==> Contains(text, TransitionRule))
      && (p.tenQuestionPlan ==> Contains(text, TenQuestionPlanBlock))
  {
    var parts := PromptParts(p);
    var status := StatusParts(p.questionNumber, p.questionCount, p.last);
    var guidance := GuidanceParts(p.strategy, p.answerType, p.patterns, p.weighting, p.tenQuestionPlan);
    var rules := RuleParts(p.finalQuestion);
    ConcatContainsPart(status, 1);
    ConcatContainsWithin(parts, 2, status[1]);
    ConcatContainsPart(status, 5);
    ConcatContainsWithin(parts, 2, status[5]);
    ConcatContainsPart(status, 7);
    ConcatContainsWithin(parts, 2, status[7]);
    ConcatContainsPart(guidance, 1);
    ConcatContainsWithin(parts, 4, guidance[1]);
    ConcatContainsPart(guidance, 7);
    ConcatContainsWithin(parts, 4, guidance[7]);
    ConcatContainsPart(guidance, 9);
    ConcatContainsWithin(parts, 4, guidance[9]);
    ConcatContainsPart(rules, 1);
    ConcatContainsWithin(parts, 5, rules[1]);
  }

  /** Each deep-dive example of the plan appears in the rendered follow-up prompt. */
  lemma FollowUpPromptPatterns(p: PromptPlan, i: nat)
    requires p.FollowUpPlan? && i < |p.patterns|
    ensures Contains(RenderPrompt(p), p.patterns[i])
  {
    var parts := PromptParts(p);
    var guidance := GuidanceParts(p.strategy, p.answerType, p.patterns, p.weighting, p.tenQuestionPlan);
    var lines := seq(|p.patterns|, k requires 0 <= k < |p.patterns| => "- " + p.patterns[k]);
    assert guidance[5] == Join(lines, "\n");
    JoinContainsElement(lines, "\n", i);
    ContainsPiece("- ", p.patterns[i], "");
    assert "- " + p.patterns[i] + "" == lines[i];
    ContainsTransitive(guidance[5], lines[i], p.patterns[i]);
    ConcatContainsWithin(guidance, 5, p.patterns[i]);
    ConcatContainsWithin(parts, 4, p.patterns[i]);
  }

  /** Put together: the prompt for turn n+1 quotes the last answer, names the first
      missing required topic while there is one, and carries the type's weighting. */
  lemma InterviewerPromptForHistory(industry: string, interviewType: string, questionCount: int, h: seq<Turn>)
    requires |h| > 0
    ensures var text := CreateInterviewerPrompt(industry, interviewType, questionCount, h);
      && Contains(text, IntToString(|h| + 1))
      && Contains(text, h[|h| - 1].answer)
      && Contains(text, WeightingText(WeightingFor(interviewType)))
      && (FlowOf(h).missingTopics != [] ==> Contains(text, StrategyText(AskMissingTopic(FlowOf(h).missingTopics[0]))))
  {
    FollowUpPlanFacts(industry, interviewType, questionCount, h);
    FollowUpPromptText(PlanPrompt(industry, interviewType, questionCount, h));
  }

  /** Put together: the opening prompt asks for the self-introduction, and states the
      10-question policy in the 10-question format. */
  lemma InterviewerPromptOpening(industry: string, interviewType: string, questionCount: int)
    ensures var text := CreateInterviewerPrompt(industry, interviewType, questionCount, []);
      && Contains(text, FirstQuestionText)
      && (questionCount == 10 ==> Contains(text, TenQuestionPolicy))
  {
    OpeningPlanFacts(industry, interviewType, questionCount);
    OpeningPromptText(PlanPrompt(industry, interviewType, questionCount, []));
  }

  // ===========================================================================
  // generateQuestion and handleAPIError

  /** What one attempt of `makeRequest` gets back for the prompt it sent. */
  datatype Attempt =
    | Thrown(message: string)               // fetch or response.json() rejected
    | HttpFailure(status: int, detail: string)  // !response.ok
    | NoContent                             // no candidates[0].content
    | ContentWithoutText                    // content, but no parts[0].text
    | Generated(text: string)               // content.parts[0].text

  /** The engine's message for reading a property of `undefined` (V8 wording). */
  const MissingTextMessage: string := "Cannot read properties of undefined (reading '0')"

  /** Whether `recordRequest` runs during the attempt: exactly when
      `candidates[0].content` exists, before the text is read. */
  predicate RecordsRequest(a: Attempt) {
    a.ContentWithoutText? || a.Generated?
  }

  /** The outcome of one attempt of `makeRequest`. */
  function AttemptOutcome(a: Attempt): Outcome {
    match a
    case Thrown(m) => Failure(m)
    case HttpFailure(status, detail) => Failure("API request failed: " + IntToString(status) + " - " + detail)
    case NoContent => Failure("Invalid API response structure")
    case ContentWithoutText => Failure(MissingTextMessage)
    case Generated(t) => Success(Trim(t))
  }

  function AttemptFn(respond: (string, nat) -> Attempt, prompt: string): nat -> Outcome {
    (k: nat) => AttemptOutcome(respond(prompt, k))
  }

  /** The timestamps attempts `first .. first + n - 1` record. */
  function Recorded(respond: (string, nat) -> Attempt, prompt: string, times: nat -> int, first: nat, n: nat): (r: seq<int>)
    ensures |r| <= n
    decreases n
  {
    if n == 0 then []
    else (if RecordsRequest(respond(prompt, first)) then [times(first)] else [])
         + Recorded(respond, prompt, times, first + 1, n - 1)
  }

  const QuotaMessage: string := "APIの利用制限に達しました。少し時間をおいて再度お試しください。"
  const AuthMessage: string := "API認証に問題があります。管理者にお問い合わせください。"
  const ForbiddenMessage: string := "APIアクセスが制限されています。管理者にお問い合わせください。"
  const NetworkMessage: string := "ネットワーク接続に問題があります。インターネット接続を確認してください。"
  const ConfigMessage: string := "サービスの設定に問題があります。管理者にお問い合わせください。"
  const GenericMessage: string := "申し訳ございません。一時的な問題が発生しました。少し時間をおいて再度お試しください。"
  const RateLimitMarker: string := "レート制限"

  /** Which branch of `handleAPIError` an error message takes. */
  datatype ApiErrorKind = QuotaExceeded | Unauthorized | Forbidden | NetworkError | LocalRateLimit | NotConfigured | Unknown

  /** The first matching substring, in the order 429, 401, 403, network/fetch, the
      local rate-limit text, not configured. */
  function ClassifyApiError(message: string): (kind: ApiErrorKind)
    ensures kind == QuotaExceeded <==> Contains(message, "429")
    ensures kind == Unauthorized <==> !Contains(message, "429") && Contains(message, "401")
    ensures kind == Forbidden <==> !Contains(message, "429") && !Contains(message, "401") && Contains(message, "403")
    ensures kind == NetworkError <==> !Contains(message, "429") && !Contains(message, "401") && !Contains(message, "403")
                                      && (Contains(message, "network") || Contains(message, "fetch"))
    ensures kind == Unknown <==> !Contains(message, "429") && !Contains(message, "401") && !Contains(message, "403")
                                 && !Contains(message, "network") && !Contains(message, "fetch")
                                 && !Contains(message, RateLimitMarker) && !Contains(message, "not configured")
    ensures kind == LocalRateLimit <==> !Contains(message, "429") && !Contains(message, "401") && !Contains(message, "403")
                                        && !Contains(message, "network") && !Contains(message, "fetch")
                                        && Contains(message, RateLimitMarker)
    ensures kind == NotConfigured <==> !Contains(message, "429") && !Contains(message, "401") && !Contains(message, "403")
                                       && !Contains(message, "network") && !Contains(message, "fetch")
                                       && !Contains(message, RateLimitMarker) && Contains(message, "not configured")
  {
    if Contains(message, "429") then QuotaExceeded
    else if Contains(message, "401") then Unauthorized
    else if Contains(message, "403") then Forbidden
    else if Contains(message, "network") || Contains(message, "fetch") then NetworkError
    else if Contains(message, RateLimitMarker) then LocalRateLimit
    else if Contains(message, "not configured") then NotConfigured
    else Unknown
  }

  /** `handleAPIError(error)`: the user-facing text; only the local rate-limit error
      is passed through unchanged. */
  function HandleApiError(message: string): (r: string)
    ensures ClassifyApiError(message) == LocalRateLimit ==> r == message
  {
    match ClassifyApiError(message)
    case QuotaExceeded => QuotaMessage
    case Unauthorized => AuthMessage
    case Forbidden => ForbiddenMessage
    case NetworkError => NetworkMessage
    case LocalRateLimit => message
    case NotConfigured => ConfigMessage
    case Unknown => GenericMessage
  }

  /** A final HTTP 429 answer becomes the quota message. */
  lemma HttpQuotaMessage(detail: string)
    ensures HandleApiError(AttemptOutcome(HttpFailure(429, detail)).message) == QuotaMessage
  {
    assert IntToString(429) == "429";
    ContainsPiece("API request failed: ", "429", " - " + detail);
    assert "API request failed: " + "429" + " - " + detail == "API request failed: " + "429" + (" - " + detail);
  }

  /** `Math.ceil(ms / 1000)` for a non-negative wait. */
  function CeilSeconds(ms: int): (sec: int)
    requires ms >= 0
    ensures sec >= 0 && sec * 1000 >= ms && (ms > 0 ==> (sec - 1) * 1000 < ms)
  {
    (ms + 999) / 1000
  }

  const LimitReached: string := "に達しました。"
  const RetryAfter: string := "秒後に再試行してください。"

  /** The error `generateQuestion` throws when the window is full. */
  function RateLimitMessage(waitMs: int): string
    requires waitMs >= 0
  {
    RateLimitMarker + LimitReached + IntToString(CeilSeconds(waitMs)) + RetryAfter
  }

  /** The wait never exceeds the window when no timestamp lies in the future, so the
      advertised wait is at most 60 seconds. */
  lemma WaitTimeBounded(requests: seq<int>, now: int)
    requires forall i | 0 <= i < |requests| :: requests[i] <= now
    ensures WaitTime(requests, now) <= WindowMs
    ensures CeilSeconds(WaitTime(requests, now)) <= 60
  {
    if requests != [] {
      assert Oldest(requests) <= now;
    }
  }

  /** A three-digit status code cannot occur in a message whose number has at most
      two digits. */
  lemma NoStatusInRateLimitMessage(waitMs: int, code: string)
    requires 0 <= waitMs <= WindowMs
    requires |code| == 3 && IsDigit(code[0]) && IsDigit(code[2])
    ensures !Contains(RateLimitMessage(waitMs), code)
  {
    var a := RateLimitMarker + LimitReached;
    var secs := IntToString(CeilSeconds(waitMs));
    var b := RetryAfter;
    NatToStringShort(CeilSeconds(waitMs));
    DigitRunConfined(a, secs, b, code);
    ContainsIffMatch(a + secs + b, code);
  }

  /** The rate-limit error states the wait in seconds and names the rate limit. */
  lemma RateLimitMessageMentions(waitMs: int)
    requires waitMs >= 0
    ensures Contains(RateLimitMessage(waitMs), IntToString(CeilSeconds(waitMs)))
    ensures Contains(RateLimitMessage(waitMs), RateLimitMarker)
  {
    var a := RateLimitMarker + LimitReached;
    var secs := IntToString(CeilSeconds(waitMs));
    var b := RetryAfter;
    ContainsPiece(a, secs, b);
    ContainsSelf(RateLimitMarker);
    ContainsAppendRight(RateLimitMarker, LimitReached, RateLimitMarker);
    ContainsAppendRight(a, secs, RateLimitMarker);
    ContainsAppendRight(a + secs, b, RateLimitMarker);
  }

  /** The rate-limit error is Japanese text around a number: it contains no Latin
      letter, so neither "network" nor "fetch" occurs in it. */
  lemma RateLimitMessageNoLatin(waitMs: int)
    requires waitMs >= 0
    ensures !Contains(RateLimitMessage(waitMs), "network") && !Contains(RateLimitMessage(waitMs), "fetch")
  {
    var m := RateLimitMessage(waitMs);
    var a := RateLimitMarker + LimitReached;
    var secs := IntToString(CeilSeconds(waitMs));
    var b := RetryAfter;
    NatToStringRoundTrip(CeilSeconds(waitMs));
    assert 'n' !in secs && 'f' !in secs;
    assert 'n' !in a && 'f' !in a;
    assert 'n' !in b && 'f' !in b;
    assert m == a + secs + b;
    NotContainsIfHeadAbsent(m, "network");
    NotContainsIfHeadAbsent(m, "fetch");
  }

  /** `handleAPIError` passes the local rate-limit error through unchanged. */
  lemma RateLimitMessagePassesThrough(waitMs: int)
    requires 0 <= waitMs <= WindowMs
    ensures ClassifyApiError(RateLimitMessage(waitMs)) == LocalRateLimit
    ensures HandleApiError(RateLimitMessage(waitMs)) == RateLimitMessage(waitMs)
  {
    RateLimitMessageMentions(waitMs);
    RateLimitMessageNoLatin(waitMs);
    NoStatusInRateLimitMessage(waitMs, "429");
    NoStatusInRateLimitMessage(waitMs, "401");
    NoStatusInRateLimitMessage(waitMs, "403");
  }

  /** The error `generateQuestion` throws when no API key was configured at build time. */
  const MissingKeyMessage: string := "Google API Key is not configured. Please contact the administrator."

  /** What `generateQuestion` settles with: a rejection (the promise throws) or a
      resolved string. */
  datatype GenerateResult = Rejected(message: string) | Resolved(text: string)

  /** One step of the retry recursion: a success or the last allowed call ends the run;
      otherwise the run is this call followed by the run with one retry fewer. */
  lemma RetryStep(fn: nat -> Outcome, retries: nat, first: nat)
    requires retries <= MaxRetries
    ensures var run := RetryWithBackoff(fn, retries, first);
      if fn(first).Success? || retries == 0 then run.result == fn(first) && run.calls == 1
      else var rest := RetryWithBackoff(fn, retries - 1, first + 1);
        run.result == rest.result && run.calls == rest.calls + 1
  {
  }

  /** `retryWithBackoff(makeRequest)`, carried out against the limiter: each attempt
      records a request when the response has content, whatever happens next. */
  method RetryMakeRequest(limiter: RateLimiter, respond: (string, nat) -> Attempt, prompt: string,
                          times: nat -> int, retries: nat, k: nat) returns (result: Outcome, calls: nat)
    requires retries <= MaxRetries
    modifies limiter
    ensures var run := RetryWithBackoff(AttemptFn(respond, prompt), retries, k);
      result == run.result && calls == run.calls
    ensures limiter.requests == old(limiter.requests) + Recorded(respond, prompt, times, k, calls)
    decreases retries
  {
    var attempt := respond(prompt, k);
    ghost var head: seq<int> := if RecordsRequest(attempt) then [times(k)] else [];
    if RecordsRequest(attempt) {
      limiter.RecordRequest(times(k));
    }
    ghost var mid := limiter.requests;
    assert mid == old(limiter.requests) + head;
    var outcome := AttemptOutcome(attempt);
    RetryStep(AttemptFn(respond, prompt), retries, k);
    if outcome.Success? || retries == 0 {
      RecordedChain(old(limiter.requests), respond, prompt, times, k, 0);
      assert Recorded(respond, prompt, times, k + 1, 0) == [];
      assert mid + [] == mid;
      return outcome, 1;
    }
    // the source sleeps BackoffDelay(retries) here
    var rest, restCalls := RetryMakeRequest(limiter, respond, prompt, times, retries - 1, k + 1);
    assert limiter.requests == mid + Recorded(respond, prompt, times, k + 1, restCalls);
    RecordedChain(old(limiter.requests), respond, prompt, times, k, restCalls);
    return rest, restCalls + 1;
  }

  /** Recording attempt `first` and then attempts `first + 1 ..` is recording them all. */
  lemma RecordedChain(before: seq<int>, respond: (string, nat) -> Attempt, prompt: string, times: nat -> int, first: nat, n: nat)
    ensures before + (if RecordsRequest(respond(prompt, first)) then [times(first)] else [])
              + Recorded(respond, prompt, times, first + 1, n)
            == before + Recorded(respond, prompt, times, first, n + 1)
  {
    var head := if RecordsRequest(respond(prompt, first)) then [times(first)] else [];
    assert Recorded(respond, prompt, times, first, n + 1) == head + Recorded(respond, prompt, times, first + 1, n);
    assert before + head + Recorded(respond, prompt, times, first + 1, n)
        == before + (head + Recorded(respond, prompt, times, first + 1, n));
  }

  /** `generateQuestion(industry, interviewType, questionCount, history)` at time `now`:
      `respond(prompt, k)` is the service's answer to attempt `k`, and `times(k)` the
      clock when that attempt's response arrives. */
  method GenerateQuestion(limiter: RateLimiter, apiKeyConfigured: bool, now: int, industry: string, interviewType: string,
                          questionCount: int, h: seq<Turn>,
                          respond: (string, nat) -> Attempt, times: nat -> int) returns (r: GenerateResult)
    modifies limiter
    ensures !apiKeyConfigured ==> r == Rejected(MissingKeyMessage) && limiter.requests == old(limiter.requests)
    ensures apiKeyConfigured ==>
      var pruned := InWindow(old(limiter.requests), now);
      var prompt := CreateInterviewerPrompt(industry, interviewType, questionCount, h);
      var run := RetryWithBackoff(AttemptFn(respond, prompt), MaxRetries, 0);
      if |pruned| >= MaxRequests then
        r == Rejected(RateLimitMessage(WaitTime(pruned, now))) && limiter.requests == pruned
      else
        && limiter.requests == pruned + Recorded(respond, prompt, times, 0, run.calls)
        && r == Resolved(if run.result.Success? then run.result.text else HandleApiError(run.result.message))
  {
    if !apiKeyConfigured {
      return Rejected(MissingKeyMessage);
    }
    var ok := limiter.CanMakeRequest(now);
    if !ok {
      var waitTime := limiter.GetWaitTime(now);
      return Rejected(RateLimitMessage(waitTime));
    }
    var prompt := CreateInterviewerPrompt(industry, interviewType, questionCount, h);
    var result, calls := RetryMakeRequest(limiter, respond, prompt, times, MaxRetries, 0);
    match result
    case Success(text) => r := Resolved(text);
    case Failure(message) => r := Resolved(HandleApiError(message));
  }

  /** Once the limiter lets a call through, `generateQuestion` never rejects: exhausted
      retries resolve with `handleAPIError`'s text, which the interview then shows as
      its next question. */
  lemma ExhaustedRetriesResolve(respond: (string, nat) -> Attempt, prompt: string)
    requires forall k: nat :: AttemptOutcome(respond(prompt, k)).Failure?
    ensures var run := RetryWithBackoff(AttemptFn(respond, prompt), MaxRetries, 0);
      run.calls == 4 && run.result == AttemptOutcome(respond(prompt, 3))
  {
    AllCallsFail(AttemptFn(respond, prompt));
  }

  /** Failed attempts without content never occupy the rate window. */
  lemma FailuresRecordNothing(respond: (string, nat) -> Attempt, prompt: string, times: nat -> int, first: nat, n: nat)
    requires forall k: nat :: !RecordsRequest(respond(prompt, k))
    ensures Recorded(respond, prompt, times, first, n) == []
    decreases n
  {
    if n > 0 {
      FailuresRecordNothing(respond, prompt, times, first + 1, n - 1);
    }
  }
}
