/** The statistics of components/screens/ResultScreen.tsx: after the interview the
    result screen summarises the questions and answers in whole minutes, whole
    seconds and whole characters, and grades the conversation. */
module ResultScreen {
  import opened InterviewTypes
  import opened Lists

  /** `calculateStats()`; the minutes and seconds are the integers the screen
      writes followed by 分 and 秒. */
  datatype Stats = Stats(
    totalMinutes: int,
    averageResponseTime: int,
    averageResponseLength: int,
    deepDiveCount: int,
    topicCoverage: seq<QuestionType>,
    quality: Quality)

  /** `questions.filter(q => q.responseTime).map(q => q.responseTime!)`: the
      response times that are present and not zero. */
  function ResponseTimes(qs: seq<Question>): (r: seq<int>)
    ensures |r| <= |qs|
    ensures forall v | v in r :: v != 0 && exists i | 0 <= i < |qs| :: qs[i].responseTime == Some(v)
    ensures forall i | 0 <= i < |qs| :: qs[i].responseTime.Some? && qs[i].responseTime.value != 0 ==>
      qs[i].responseTime.value in r
    decreases |qs|
  {
    if qs == [] then []
    else
      var rest := ResponseTimes(qs[1..]);
      assert forall i | 1 <= i < |qs| :: qs[i] == qs[1..][i - 1];
      (if qs[0].responseTime.Some? && qs[0].responseTime.value != 0 then [qs[0].responseTime.value] else [])
      + rest
  }

  /** The times are picked question by question, each present non-zero time once
      and in question order: the times of a concatenation are the concatenation
      of the times. */
  lemma {:induction false} ResponseTimesDistribute(a: seq<Question>, b: seq<Question>)
    ensures ResponseTimes(a + b) == ResponseTimes(a) + ResponseTimes(b)
    decreases |a|
  {
    if a == [] {
      assert a + b == b;
    } else {
      assert (a + b)[0] == a[0] && (a + b)[1..] == a[1..] + b;
      ResponseTimesDistribute(a[1..], b);
    }
  }

  /** One question gives its time exactly when it is present and not zero. */
  lemma ResponseTimesSingle(q: Question)
    ensures ResponseTimes([q]) == if q.responseTime.Some? && q.responseTime.value != 0 then [q.responseTime.value] else []
  {
    assert [q][1..] == [];
  }

  function Sum(xs: seq<int>): int
    decreases |xs|
  {
    if xs == [] then 0 else xs[0] + Sum(xs[1..])
  }

  /** The total length of the answers. */
  function AnswerLengthTotal(qs: seq<Question>): (total: nat)
    decreases |qs|
  {
    if qs == [] then 0 else |qs[0].answer| + AnswerLengthTotal(qs[1..])
  }

  /** The questions asked at a deep-dive level above 1. */
  function DeepDiveCount(qs: seq<Question>): (n: nat)
    ensures n <= |qs|
    ensures n == 0 <==> forall i | 0 <= i < |qs| :: !(qs[i].deepDiveLevel.Some? && qs[i].deepDiveLevel.value > 1)
    decreases |qs|
  {
    if qs == [] then 0
    else
      var rest := DeepDiveCount(qs[1..]);
      assert forall i | 1 <= i < |qs| :: qs[i] == qs[1..][i - 1];
      (if qs[0].deepDiveLevel.Some? && qs[0].deepDiveLevel.value > 1 then 1 else 0) + rest
  }

  /** The question types that are set, in question order. */
  function DefinedTypes(qs: seq<Question>): (r: seq<QuestionType>)
    ensures forall t :: t in r <==> exists i | 0 <= i < |qs| :: qs[i].questionType == Some(t)
    decreases |qs|
  {
    if qs == [] then []
    else
      var rest := DefinedTypes(qs[1..]);
      assert forall i | 1 <= i < |qs| :: qs[i] == qs[1..][i - 1];
      (if qs[0].questionType.Some? then [qs[0].questionType.value] else []) + rest
  }

  /** The set types are picked question by question, once each and in question
      order: the types of a concatenation are the concatenation of the types. */
  lemma {:induction false} DefinedTypesDistribute(a: seq<Question>, b: seq<Question>)
    ensures DefinedTypes(a + b) == DefinedTypes(a) + DefinedTypes(b)
    decreases |a|
  {
    if a == [] {
      assert a + b == b;
    } else {
      assert (a + b)[0] == a[0] && (a + b)[1..] == a[1..] + b;
      DefinedTypesDistribute(a[1..], b);
    }
  }

  /** One question gives its type exactly when the type is set. */
  lemma DefinedTypesSingle(q: Question)
    ensures DefinedTypes([q]) == if q.questionType.Some? then [q.questionType.value] else []
  {
    assert [q][1..] == [];
  }

  /** The grade: deep when the floored average answer exceeds 80 characters and
      deep dives exceed 30% of the questions; moderate when the average exceeds 50
      or there was any deep dive; shallow otherwise. */
  function Grade(averageLength: int, deepDives: int, n: int): Quality {
    if averageLength > 80 && 10 * deepDives > 3 * n then Deep
    else if averageLength > 50 || deepDives > 0 then Moderate
    else Shallow
  }

  /** `calculateStats()` over the interview's questions. */
  function CalculateStats(qs: seq<Question>): Stats {
    if qs == [] then Stats(0, 0, 0, 0, [], Shallow)
    else
      var times := ResponseTimes(qs);
      var averageTime := if |times| > 0 then Sum(times) / |times| else 0;
      var averageLength := AnswerLengthTotal(qs) / |qs|;
      var deep := DeepDiveCount(qs);
      Stats(
        (qs[|qs| - 1].timestamp - qs[0].timestamp) / 60000,
        averageTime,
        averageLength,
        deep,
        Dedup(DefinedTypes(qs)),
        Grade(averageLength, deep, |qs|))
  }

  /** `x / n` rounded down is the largest `q` with `q * n <= x`. */
  lemma FloorDivision(x: int, n: int)
    requires n > 0
    ensures (x / n) * n <= x < (x / n) * n + n
  {
  }

  /** Rounded-down averages: the time is the floor of the mean over the non-zero
      response times and 0 when there are none, the length is the floor of the
      mean answer length, and the duration counts whole minutes between the first
      and the last question. */
  lemma StatsAverages(qs: seq<Question>)
    requires qs != []
    ensures var s := CalculateStats(qs);
      && (ResponseTimes(qs) == [] ==> s.averageResponseTime == 0)
      && (ResponseTimes(qs) != [] ==>
            s.averageResponseTime * |ResponseTimes(qs)| <= Sum(ResponseTimes(qs))
            < s.averageResponseTime * |ResponseTimes(qs)| + |ResponseTimes(qs)|)
      && s.averageResponseLength * |qs| <= AnswerLengthTotal(qs) < s.averageResponseLength * |qs| + |qs|
      && s.totalMinutes * 60000 <= qs[|qs| - 1].timestamp - qs[0].timestamp < s.totalMinutes * 60000 + 60000
  {
    var times := ResponseTimes(qs);
    if times != [] {
      FloorDivision(Sum(times), |times|);
    }
    FloorDivision(AnswerLengthTotal(qs), |qs|);
    FloorDivision(qs[|qs| - 1].timestamp - qs[0].timestamp, 60000);
  }

  /** The grade in terms of the questions themselves: an average above 80 after
      rounding down means at least 81 characters per answer in total, and a deep
      conversation always had a deep dive. */
  lemma StatsQuality(qs: seq<Question>)
    requires qs != []
    ensures var s := CalculateStats(qs); var n := |qs|; var total := AnswerLengthTotal(qs);
      && (s.quality == Deep <==> total >= 81 * n && 10 * s.deepDiveCount > 3 * n)
      && (s.quality == Moderate <==>
            !(total >= 81 * n && 10 * s.deepDiveCount > 3 * n) && (total >= 51 * n || s.deepDiveCount > 0))
      && (s.quality == Deep ==> s.deepDiveCount > 0)
  {
    var n := |qs|;
    var total := AnswerLengthTotal(qs);
    var avg := total / n;
    FloorDivision(total, n);
    AboveAfterFloor(total, n, 80);
    AboveAfterFloor(total, n, 50);
  }

  /** `floor(total / n) > k` exactly when `total >= (k + 1) * n`. */
  lemma AboveAfterFloor(total: int, n: int, k: int)
    requires n > 0
    ensures total / n > k <==> total >= (k + 1) * n
  {
    FloorDivision(total, n);
    var q := total / n;
    if q > k {
      assert q >= k + 1;
      assert q * n >= (k + 1) * n by {
        MultiplyMonotone(k + 1, q, n);
      }
    } else {
      assert (q + 1) * n <= (k + 1) * n by {
        MultiplyMonotone(q + 1, k + 1, n);
      }
    }
  }

  lemma MultiplyMonotone(a: int, b: int, n: int)
    requires a <= b && n > 0
    ensures a * n <= b * n
  {
  }

  /** The topics list each set question type once, in order of first appearance,
      and the deep-dive count never exceeds the number of questions; no questions
      give zeros, no topics and a shallow grade. */
  lemma StatsTopics(qs: seq<Question>)
    ensures var s := CalculateStats(qs);
      && (forall t :: t in s.topicCoverage <==> exists i | 0 <= i < |qs| :: qs[i].questionType == Some(t))
      && (forall i, j | 0 <= i < j < |s.topicCoverage| :: s.topicCoverage[i] != s.topicCoverage[j])
      && (forall i, j | 0 <= i < j < |s.topicCoverage| ::
            FirstIndex(DefinedTypes(qs), s.topicCoverage[i]) < FirstIndex(DefinedTypes(qs), s.topicCoverage[j]))
      && 0 <= s.deepDiveCount <= |qs|
    ensures qs == [] ==> CalculateStats(qs) == Stats(0, 0, 0, 0, [], Shallow)
  {
    DedupExact(DefinedTypes(qs));
  }

  /** `getTopicName(topic)`: the display name of a known question type, the topic
      itself otherwise. */
  function TopicName(topic: string): string {
    if topic == "introduction" then "自己紹介"
    else if topic == "motivation" then "志望動機"
    else if topic == "experience" then "学生時代の経験"
    else if topic == "personality" then "人柄・性格"
    else if topic == "challenge" then "挑戦・困難克服"
    else if topic == "other" then "その他"
    else topic
  }

  /** The six question types have six different display names, and any string that
      is not a question type's name is shown as it is. */
  lemma TopicNamesDistinct()
    ensures forall t, u | t != u :: TopicName(TypeLabel(t)) != TopicName(TypeLabel(u))
    ensures forall topic | forall t :: topic != TypeLabel(t) :: TopicName(topic) == topic
  {
    forall topic | forall t :: topic != TypeLabel(t) ensures TopicName(topic) == topic {
      assert topic != TypeLabel(Introduction) && topic != TypeLabel(Motivation) && topic != TypeLabel(Experience);
      assert topic != TypeLabel(Personality) && topic != TypeLabel(Challenge) && topic != TypeLabel(Other);
    }
  }
}
