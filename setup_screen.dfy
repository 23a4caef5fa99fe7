/** The setup screen of components/screens/SetupScreen.tsx: the candidate picks an
    industry, a duration and an interview type, and the screen turns the duration
    into the number of questions the interview asks. */
module SetupScreen {
  import opened InterviewTypes
  import GeminiApi

  /** The offered industries, in the order shown. */
  const Industries: seq<string> := ["IT", "金融", "商社", "コンサル", "メーカー", "その他"]

  /** The offered durations in minutes, in the order shown. */
  const Durations: seq<int> := [5, 15, 30]

  /** The offered interview types, in the order shown. */
  const InterviewKinds: seq<string> := ["一次面接", "二次面接", "最終面接"]

  /** The number of questions each offered duration's label announces. */
  const AnnouncedCounts: seq<int> := [5, 10, 25]

  const DefaultIndustry: string := "IT"
  const DefaultDuration: int := 15
  const DefaultInterviewType: string := "一次面接"

  /** The question count `handleStart` derives from the selected duration: 5 minutes
      ask 5 questions, 15 minutes ask 10, and any other duration asks 25. */
  function QuestionCountFor(duration: int): (count: int)
    ensures count == 5 || count == 10 || count == 25
    ensures count == 5 <==> duration == 5
    ensures count == 10 <==> duration == 15
  {
    if duration == 5 then 5 else if duration == 15 then 10 else 25
  }

  /** The settings record `handleStart` hands to the interview: the choices as
      made, and a question count that is always one the screen announces, the one
      on the chosen duration's label. */
  function HandleStart(industry: string, duration: int, interviewType: string): (s: Settings)
    ensures s.industry == industry && s.duration == duration && s.interviewType == interviewType
    ensures s.questionCount == QuestionCountFor(duration)
    ensures s.questionCount in AnnouncedCounts
    ensures forall i | 0 <= i < |Durations| && Durations[i] == duration :: s.questionCount == AnnouncedCounts[i]
  {
    Settings(industry, duration, QuestionCountFor(duration), interviewType)
  }

  /** Each offered duration asks the number of questions its label announces, a
      longer interview never asks fewer questions, and 30 minutes ask 25. */
  lemma OfferedDurationsMatchLabels()
    ensures forall i | 0 <= i < |Durations| :: QuestionCountFor(Durations[i]) == AnnouncedCounts[i]
    ensures forall i, j | 0 <= i < j < |Durations| ::
      Durations[i] < Durations[j] && QuestionCountFor(Durations[i]) < QuestionCountFor(Durations[j])
    ensures QuestionCountFor(30) == 25
  {
  }

  /** Opening the screen and starting at once gives an IT first-round interview of
      fifteen minutes and ten questions. */
  lemma DefaultSettings()
    ensures HandleStart(DefaultIndustry, DefaultDuration, DefaultInterviewType)
      == Settings("IT", 15, 10, "一次面接")
    ensures DefaultIndustry in Industries && DefaultDuration in Durations && DefaultInterviewType in InterviewKinds
  {
  }

  /** Every offered industry has its own interviewer persona, and there is no persona
      the screen does not offer; the three interview types get the three different
      question weightings. */
  lemma OfferedChoicesAreKnown()
    ensures forall i | 0 <= i < |Industries| :: Industries[i] in GeminiApi.Personas
    ensures forall k | k in GeminiApi.Personas :: k in Industries
    ensures GeminiApi.WeightingFor(InterviewKinds[0]) == GeminiApi.ExperienceHeavy
    ensures GeminiApi.WeightingFor(InterviewKinds[1]) == GeminiApi.Balanced
    ensures GeminiApi.WeightingFor(InterviewKinds[2]) == GeminiApi.MotivationHeavy
  {
    GeminiApi.PersonaKeys();
  }
}
