/** The records of types/interview.ts, shared by every screen and service. */
module InterviewTypes {

  datatype Option<T> = None | Some(value: T)

  /** `InterviewQuestion['questionType']`. */
  datatype QuestionType = Introduction | Motivation | Experience | Personality | Challenge | Other

  /** The string each question type is written as in the source. */
  function TypeLabel(t: QuestionType): string {
    match t
    case Introduction => "introduction"
    case Motivation => "motivation"
    case Experience => "experience"
    case Personality => "personality"
    case Challenge => "challenge"
    case Other => "other"
  }

  /** `InterviewSettings`: chosen once on the setup screen. */
  datatype Settings = Settings(industry: string, duration: int, questionCount: int, interviewType: string)

  /** `InterviewQuestion`: one turn of the interview. The optional fields are
      `None` where the source leaves them undefined. */
  datatype Question = Question(
    id: int,
    question: string,
    answer: string,
    timestamp: int,
    responseTime: Option<int>,
    questionType: Option<QuestionType>,
    deepDiveLevel: Option<int>)

  /** One `{question, answer}` entry of the conversation history that is sent
      to the question generator. */
  datatype Turn = Turn(question: string, answer: string)

  /** The conversation history `questions.map(q => ({question, answer}))`. */
  function History(qs: seq<Question>): (h: seq<Turn>)
    ensures |h| == |qs|
    ensures forall i | 0 <= i < |qs| :: h[i] == Turn(qs[i].question, qs[i].answer)
  {
    seq(|qs|, i requires 0 <= i < |qs| => Turn(qs[i].question, qs[i].answer))
  }

  /** The history grows with the questions: one more question adds its turn at
      the end and leaves the earlier turns as they were. */
  lemma HistoryAppend(qs: seq<Question>, q: Question)
    ensures History(qs + [q]) == History(qs) + [Turn(q.question, q.answer)]
    ensures |History(qs)| == |qs|
  {
    var l, r := History(qs + [q]), History(qs) + [Turn(q.question, q.answer)];
    forall i | 0 <= i < |l| ensures l[i] == r[i] {
      if i < |qs| {
        assert (qs + [q])[i] == qs[i];
      }
    }
  }

  datatype Quality = Shallow | Moderate | Deep

  datatype Flow = Linear | Exploratory

  /** `InterviewMetrics`, without the floating-point `averageResponseLength`. */
  datatype Metrics = Metrics(
    totalResponseTime: int,
    deepDiveCount: int,
    topicCoverage: seq<QuestionType>,
    conversationFlow: Flow)

  const InitialMetrics: Metrics := Metrics(0, 0, [], Linear)

  /** The `interviewMetrics` a stored session carries: the only writer is the
      session upgrade, which stores zero totals and leaves the optional coverage
      and flow out. */
  datatype SessionMetrics = SessionMetrics(totalResponseTime: int, deepDiveCount: int)

  /** `Screen` of the top-level application. */
  datatype Screen = Home | Setup | Interview | Result

  /** `InterviewSession`: what is stored in the browser between page loads.
      An empty `version` or `userId` stands for the field being absent or empty
      (both are falsy in the source). */
  datatype Session = Session(
    settings: Settings,
    questions: seq<Question>,
    currentQuestionIndex: int,
    isCompleted: bool,
    startTime: int,
    lastUpdated: Option<int>,
    version: string,
    userId: string,
    conversationQuality: Option<Quality>,
    coveredTopics: Option<seq<string>>,
    interviewMetrics: Option<SessionMetrics>)
}
