# Interview practice app: a verified model of its core

The app is a browser-based mock job interview for Japanese students. A user
chooses an industry, a length and an interview round. An AI interviewer then
asks one question at a time, the user answers, and the app grades the
conversation at the end. This project models the deterministic core of that
app in Dafny and proves what the code promises about it:

- `GeminiApi` (`src/services/geminiAPI.ts`):
  - the sliding-window rate limiter, a class over its timestamp list;
  - exponential-backoff retries;
  - the keyword classifier of an answer's topic;
  - the conversation-flow analysis (topic coverage, quality grade, next action);
  - the persona and deep-dive pattern tables;
  - the interviewer prompt, as a plan of the facts it carries and the text that renders them;
  - `generateQuestion`'s control flow around the model call;
  - the mapping from errors to messages.
- `InterviewScreen`: the per-turn loop of the interview screen, a class holding
  the question list, the draft answer and the running metrics.
- `SetupScreen`: how a duration becomes a question count.
- `ResultScreen`: the result statistics.
- `UserDashboard`: streaks, achievements, favourite industry and round, and the
  guards of the improvement rate.
- `SessionManager`: the per-user session store over the two browser key-value
  stores.
- `App`: the screen state machine of `AppContent`.
- `NotificationSystem`: the notification list.
- `SignupScreen` and `LoginScreen`: the sign-up validator and the sign-in error
  classifier.

`Text` holds the string operations the code relies on:

- `includes`, written `Contains`;
- `trim`;
- ASCII `toLowerCase`;
- decimal rendering of integers;
- `<` on strings.

`InterviewTypes` holds the records of `src/types/interview.ts`, and `Lists`
holds `[...new Set(xs)]`.

Inputs from outside the program become parameters:

- the clock (`now`);
- the model call, as an oracle from attempt number to answer;
- the random notification id;
- the answers of `window.confirm`, the account service and the online flag.

Where the app's written description and its code differ, the model follows the
code:

- **Essential topics do not rule out `new_topic`.** Covering all three topics
  still gives `new_topic` when there is no deep-dive opportunity and fewer than
  eight turns. `GeminiApi.CoveredButStillNewTopic` exhibits such a history.
- **The prompt weighting.** The 70/30 motivation-heavy weighting applies to every
  interview type other than 一次面接 and 二次面接, not only to the final round.
- **`coveredTopics` is a list.** It may repeat a topic, once per turn that asks
  about it.
- **`updateMetrics` divides by the wrong count.** It compares deep dives with
  `questions.length + 1` while the open question is still on the list.
- **Streak days are ordered as text.** The dashboard sorts the `toDateString()` texts, which begin with the weekday name, so the streaks follow that order and not the calendar's. A Thursday followed by a Friday sorts as Friday, Thursday and breaks the streak.
- **The session version is compared as text.** "10.0" counts as older than "3.0".
- **A restored session can come back empty.** The app saves sessions while an
  interview is on screen, but the app's own question list stays empty until the
  interview completes. So a restore resumes the interview with no questions,
  and going back home from it asks for no confirmation (`App.FreshInterviewHoldsNoQuestions`).

## Model

| member | source | states |
|---|---|---|
| GeminiApi.InWindow | src/services/geminiAPI.ts:32-35 | the kept timestamps are exactly those less than 60000 ms old, never more than before |
| GeminiApi.InWindowDistributes | src/services/geminiAPI.ts:32-35 | pruning goes entry by entry: the window of a concatenation is the concatenation of the windows, so each recent timestamp is kept once, in place, and `requests.length` counts them |
| GeminiApi.InWindowSingle | src/services/geminiAPI.ts:34 | a single timestamp is kept exactly when it is less than 60000 ms old |
| GeminiApi.InWindowKeepsRecent | src/services/geminiAPI.ts:32-35 | a window whose timestamps are all recent is kept whole |
| GeminiApi.InWindowDropsStale | src/services/geminiAPI.ts:32-35 | one timestamp at least 60000 ms old makes the window shrink |
| GeminiApi.Oldest | src/services/geminiAPI.ts:44 | `Math.min` of the window: a member no greater than any other |
| GeminiApi.WaitTime | src/services/geminiAPI.ts:42-46 | never negative and 0 for an empty window; the least sufficient wait: by `now + w` the oldest request is out of the window, one millisecond earlier it is still in, and w is 0 exactly when it is already out |
| GeminiApi.WaitTimeSuffices | src/services/geminiAPI.ts:42-46 | after waiting the reported time, at least one request has left the window |
| GeminiApi.FullWindowBlocksThenReopens | src/services/geminiAPI.ts:27-46 | 60 recent requests block the next one, and waiting the reported time admits it |
| GeminiApi.RateLimiter.constructor | src/services/geminiAPI.ts:27-30 | a limiter starts with no requests |
| GeminiApi.RateLimiter.CanMakeRequest | src/services/geminiAPI.ts:32-36 | prunes the window and answers whether fewer than 60 requests remain |
| GeminiApi.RateLimiter.RecordRequest | src/services/geminiAPI.ts:38-40 | appends exactly the current time |
| GeminiApi.RateLimiter.GetWaitTime | src/services/geminiAPI.ts:42-46 | reports the wait time of the current window and changes nothing |
| GeminiApi.BackoffDelay | src/services/geminiAPI.ts:278-281 | the delay before a retry never exceeds 5000 ms |
| GeminiApi.CappedDelay | src/services/geminiAPI.ts:278-281 | the capped delay never exceeds 5000 ms |
| GeminiApi.RetryRunFacts | src/services/geminiAPI.ts:269-287 | `RetryWithBackoff` makes between 1 and retries+1 calls; every call before the last failed; the result is the last call's; a failure means every retry was used; one delay per retry, following the backoff formula |
| GeminiApi.RetryStep | src/services/geminiAPI.ts:269-287 | a success or zero retries ends the run at once; otherwise the run is one call more than the run with one retry fewer |
| GeminiApi.DefaultBackoffSchedule | src/services/geminiAPI.ts:269-287 | at most 4 calls, with delays 1000, 2000, 4000 ms in that order, strictly increasing and each at most 5000 |
| GeminiApi.AllCallsFail | src/services/geminiAPI.ts:269-287 | when every call fails, all 4 are made and the last failure is returned |
| GeminiApi.FirstSuccessStops | src/services/geminiAPI.ts:269-287 | the first success among the 4 calls is returned and no further call is made |
| GeminiApi.PersonaFor | src/services/geminiAPI.ts:128 | always one of the table's personas: a known industry's own, otherwise the persona of その他 |
| GeminiApi.PersonasHaveFiveKeyQuestions | src/services/geminiAPI.ts:52-126 | every persona lists five key questions |
| GeminiApi.PersonaKeys | src/services/geminiAPI.ts:52-126 | the persona table covers exactly IT, 金融, 商社, コンサル, メーカー and その他 |
| GeminiApi.PersonaBlockMentions | src/services/geminiAPI.ts:129-134 | the persona block contains the characteristics, the values, the tone and every key question |
| GeminiApi.DeepDivePatterns | src/services/geminiAPI.ts:138-183 | a known type's eight patterns, otherwise those of experience |
| GeminiApi.ClassifyQuestionType | src/services/geminiAPI.ts:186-200 | the first of motivation, challenge, personality whose keywords occur in question + ' ' + answer; never introduction or other |
| GeminiApi.KeywordsUncased | src/services/geminiAPI.ts:192 | lower-casing the text changes no keyword test, because no keyword has a Latin letter |
| GeminiApi.MotivationOutranksAll | src/services/geminiAPI.ts:194 | any motivation keyword in the question or the answer decides motivation |
| GeminiApi.ExperienceIsTheDefault | src/services/geminiAPI.ts:194-199 | text without motivation, challenge or personality keywords is classified experience |
| GeminiApi.VisitTurn | src/services/geminiAPI.ts:215-231 | one `forEach` step appends the turn's topics and, for an opportunity, one note |
| GeminiApi.CollectTopics | src/services/geminiAPI.ts:214-232 | the loop collects exactly the covered-topic list and the opportunity list of the history |
| GeminiApi.AnalyzeConversationFlow | src/services/geminiAPI.ts:203-264 | the analysis of a non-empty history equals its specification `FlowOf`, whose meaning the lemmas below state |
| GeminiApi.TurnTopicsExact | src/services/geminiAPI.ts:215-224 | a turn adds an essential topic exactly when its question asks about it |
| GeminiApi.CoveredTopicsExact | src/services/geminiAPI.ts:214-225 | a topic is covered exactly when it is essential and some question asks about it |
| GeminiApi.MissingTopicsExact | src/services/geminiAPI.ts:210-234 | the missing topics are exactly the uncovered essential ones, each once and in the table order 自己紹介, 志望動機, 学生時代の経験, at most 3; the head is the first uncovered one |
| GeminiApi.OpportunitiesCount | src/services/geminiAPI.ts:227-231 | one note per turn with an answer over 100 characters and a question without 具体的 or 詳しく |
| GeminiApi.QualityGrades | src/services/geminiAPI.ts:235-245 | deep iff sum > 80n and 10d > 3n; moderate iff not deep and (sum > 50n or d > 0); deep implies d > 0 |
| GeminiApi.ActionRules | src/services/geminiAPI.ts:248-255 | a missing topic forces new_topic; deep_dive iff nothing is missing, there is an opportunity and quality is not deep; wrap_up needs no missing topic and n ≥ 8 |
| GeminiApi.WrapUpThreshold | src/services/geminiAPI.ts:248-255 | eight or more turns that cover every topic and hold no opportunity give wrap_up |
| GeminiApi.CoveredExampleMissesNothing | src/services/geminiAPI.ts:214-234 | three questions naming the three topics leave none missing |
| GeminiApi.CoveredExampleHasNoOpportunity | src/services/geminiAPI.ts:227-231 | short answers give no deep-dive opportunity |
| GeminiApi.CoveredButStillNewTopic | src/services/geminiAPI.ts:248-255 | all topics covered, yet the recommended action is new_topic |
| GeminiApi.OpeningPlanFacts | src/services/geminiAPI.ts:295-317 | `PlanPrompt` of an empty history is the opening prompt with the industry's persona, and its 10-question line exactly when the count is 10 |
| GeminiApi.FollowUpPlanFacts | src/services/geminiAPI.ts:320-366 | turn number n+1, the last exchange, the flow analysis, a strategy naming the first missing topic, a deep dive on the answer's first 50 characters, the final-question rule iff n+1 ≥ count |
| GeminiApi.PromptPatterns | src/services/geminiAPI.ts:320-346 | the patterns are the first 3 of the table entry for the last answer's classified type |
| GeminiApi.PromptWeighting | src/services/geminiAPI.ts:348-354 | 70/30 experience for 一次面接, 50/50 for 二次面接, 70/30 motivation for any other type |
| GeminiApi.PromptIntroducesInterviewer | src/services/geminiAPI.ts:295-327 | both prompts open with the interviewer's role line and carry the persona's characteristics, values and tone |
| GeminiApi.OpeningPromptText | src/services/geminiAPI.ts:297-317 | `RenderPrompt` of the opening plan contains the fixed self-introduction question, the question count, and the 10-question line when planned |
| GeminiApi.FollowUpPromptText | src/services/geminiAPI.ts:325-366 | the follow-up prompt contains the turn number, the last question and answer, the strategy, the weighting and the right closing rule |
| GeminiApi.FollowUpPromptPatterns | src/services/geminiAPI.ts:345-346 | every chosen pattern appears in the prompt |
| GeminiApi.InterviewerPromptForHistory | src/services/geminiAPI.ts:289-366 | `CreateInterviewerPrompt` for a history names turn n+1, the last answer, the type's weighting and the first missing topic |
| GeminiApi.InterviewerPromptOpening | src/services/geminiAPI.ts:289-317 | the prompt for an empty history asks for a self-introduction and has the 10-question line when the count is 10 |
| GeminiApi.Recorded | src/services/geminiAPI.ts:430-432 | an attempt, as `AttemptOutcome` classifies its answer, records at most one timestamp |
| GeminiApi.FailuresRecordNothing | src/services/geminiAPI.ts:430-435 | attempts without a candidate's content never enter the rate window |
| GeminiApi.RetryMakeRequest | src/services/geminiAPI.ts:390-440 | the retried request returns what the retry run returns, and appends exactly the timestamps of the well-formed answers |
| GeminiApi.GenerateQuestion | src/services/geminiAPI.ts:373-444 | no key: rejects and records nothing; full window: rejects with the wait message and no call; otherwise resolves with the answer, or with `handleAPIError`'s text after the retries |
| GeminiApi.ExhaustedRetriesResolve | src/services/geminiAPI.ts:438-443 | when every attempt fails, 4 attempts are made and the fourth failure is the one handled |
| GeminiApi.ClassifyApiError | src/services/geminiAPI.ts:446-466 | the message class is the first of 429, 401, 403, network/fetch, レート制限, not configured, else unknown; each of the seven classes is stated as an if-and-only-if |
| GeminiApi.HandleApiError | src/services/geminiAPI.ts:459-460 | a message in the rate-limit class is returned unchanged |
| GeminiApi.HttpQuotaMessage | src/services/geminiAPI.ts:418-451 | an HTTP 429 failure shows the quota message |
| GeminiApi.CeilSeconds | src/services/geminiAPI.ts:388 | `Math.ceil(ms / 1000)`: the least whole number of seconds covering the wait |
| GeminiApi.WaitTimeBounded | src/services/geminiAPI.ts:385-388 | a wait is at most 60000 ms, so the message names at most 60 seconds |
| GeminiApi.NoStatusInRateLimitMessage | src/services/geminiAPI.ts:385-388 | the rate-limit message contains no three-digit code such as 429, 401 or 403 |
| GeminiApi.RateLimitMessageMentions | src/services/geminiAPI.ts:385-388 | the message contains the number of seconds and the marker レート制限 |
| GeminiApi.RateLimitMessageNoLatin | src/services/geminiAPI.ts:385-388 | the message contains neither "network" nor "fetch" |
| GeminiApi.RateLimitMessagePassesThrough | src/services/geminiAPI.ts:459-460 | the error handler classifies the rate-limit message as such and returns it unchanged |
| InterviewScreen.WordingUncased | src/components/screens/InterviewScreen.tsx:186 | lower-casing the question changes none of the wording tests |
| InterviewScreen.AnalyzeQuestionTypeExact | src/components/screens/InterviewScreen.tsx:185-201 | `AnalyzeQuestionType` gives each type exactly when its wording occurs and no earlier one does, with `other` when none does |
| InterviewScreen.ClassifiersDisagreeOnIntroduction | src/components/screens/InterviewScreen.tsx:185-201 | a self-introduction question is introduction here but never for the API's classifier |
| InterviewScreen.HitsFromZero | src/components/screens/InterviewScreen.tsx:205 | the keyword count is 0 exactly when no keyword occurs |
| InterviewScreen.RecentStart | src/components/screens/InterviewScreen.tsx:207 | `slice(-3)` keeps the last min(3, n) turns |
| InterviewScreen.CalculateDeepDiveLevel | src/components/screens/InterviewScreen.tsx:203-213 | the level is always in 1..3 |
| InterviewScreen.DeepDiveLevelMeaning | src/components/screens/InterviewScreen.tsx:203-213 | a level above 1 needs a keyword or a recent back-reference; two keywords give at least 2; turns older than the last three do not matter |
| InterviewScreen.MetricsSummary | src/components/screens/InterviewScreen.tsx:215-235 | after one `NextMetrics` update per answered question, in order: total time is the sum, deep dives count the non-introduction types, coverage is the distinct types seen, exploratory iff 5d > 3(n+1) |
| InterviewScreen.ResubmitCountsTwice | src/components/screens/InterviewScreen.tsx:264-338 | a second submit of the same answer after a failed generation adds its time again and counts its deep dive twice, with the coverage unchanged |
| InterviewScreen.KeepAnswered | src/components/screens/InterviewScreen.tsx:352-358 | keeps exactly the questions with non-blank answers |
| InterviewScreen.KeepAnsweredDistributes | src/components/screens/InterviewScreen.tsx:352-358 | the filter goes question by question: what a concatenation keeps is what each part keeps, in order, each once |
| InterviewScreen.KeepAnsweredSingle | src/components/screens/InterviewScreen.tsx:352-358 | one question is kept exactly when its answer is not blank |
| InterviewScreen.FinalQuestionsExact | src/components/screens/InterviewScreen.tsx:347-359 | `FinalQuestions` holds only answered questions; a non-blank draft completes the last one |
| InterviewScreen.FinalQuestionsInOrder | src/components/screens/InterviewScreen.tsx:347-359 | the final list is the answered earlier questions in their original order, followed by the last question when answered, by the draft if it is not blank |
| InterviewScreen.AnsweringKeepsWellFormed | src/components/screens/InterviewScreen.tsx:263-272 | recording an answer keeps ids 1..n, types and levels, and answers every question but the last |
| InterviewScreen.AppendingKeepsWellFormed | src/components/screens/InterviewScreen.tsx:298-308 | appending question n+1 after an answered one keeps the list well formed |
| InterviewTypes.HistoryAppend | src/components/screens/InterviewScreen.tsx:293-296 | the conversation history has one turn per question, and one more question adds its own turn at the end, leaving the earlier turns |
| InterviewScreen.Screen.constructor | src/components/screens/InterviewScreen.tsx:24-38 | no questions, empty draft, loading, initial metrics |
| InterviewScreen.Screen.LoadFirstQuestion | src/components/screens/InterviewScreen.tsx:143-183 | a generated question becomes question 1, an unanswered introduction at level 1; a rejection leaves the list as it was |
| InterviewScreen.Screen.SetOnline | src/components/screens/InterviewScreen.tsx:63-90 | the online flag follows the browser and nothing else changes |
| InterviewScreen.Screen.AppendTranscript | src/components/screens/InterviewScreen.tsx:110-134 | a non-blank transcript is trimmed and appended to the draft, with a space after a non-blank draft |
| InterviewScreen.Screen.SubmitAnswer | src/components/screens/InterviewScreen.tsx:237-339 | a blank draft or being offline changes nothing; otherwise only the last question is answered, the metrics are updated, and the interview completes or gets exactly one new question, keeping the draft on failure |
| InterviewScreen.Screen.RecordAnswer | src/components/screens/InterviewScreen.tsx:259-276 | answers only the last question with the trimmed draft, its time and its type |
| InterviewScreen.Screen.ReceiveQuestion | src/components/screens/InterviewScreen.tsx:292-338 | success appends question n+1 and clears the draft; failure changes neither list nor draft |
| InterviewScreen.Screen.HandleEndInterview | src/components/screens/InterviewScreen.tsx:341-364 | a confirmed end completes with the final answered list, or goes home when there are no questions |
| SetupScreen.QuestionCountFor | src/components/screens/SetupScreen.tsx:37 | 5 iff duration 5, 10 iff duration 15, 25 otherwise |
| SetupScreen.HandleStart | src/components/screens/SetupScreen.tsx:36-45 | the settings keep the chosen industry, duration and type; the count is always one the screen announces, the one on the chosen duration's label |
| SetupScreen.OfferedDurationsMatchLabels | src/components/screens/SetupScreen.tsx:24-28 | 5, 15, 30 minutes give the 5, 10, 25 questions their labels announce, in increasing order |
| SetupScreen.DefaultSettings | src/components/screens/SetupScreen.tsx:11-13 | the default choice IT / 15 / 一次面接 gives 10 questions and is among the offered choices |
| SetupScreen.OfferedChoicesAreKnown | src/components/screens/SetupScreen.tsx:15-34 | the offered industries are exactly the persona keys; the three types get the three weightings |
| ResultScreen.ResponseTimes | src/components/screens/ResultScreen.tsx:33 | exactly the present, non-zero response times |
| ResultScreen.ResponseTimesDistribute | src/components/screens/ResultScreen.tsx:33 | the times are picked question by question: those of a concatenation are those of each part, in order, so the average divides by the number of questions with a time |
| ResultScreen.ResponseTimesSingle | src/components/screens/ResultScreen.tsx:33 | one question gives its time exactly when it is present and not zero |
| ResultScreen.DeepDiveCount | src/components/screens/ResultScreen.tsx:42-44 | at most n, and 0 exactly when no level exceeds 1 |
| ResultScreen.DefinedTypes | src/components/screens/ResultScreen.tsx:46 | exactly the question types that are set |
| ResultScreen.DefinedTypesDistribute | src/components/screens/ResultScreen.tsx:46 | the types are picked question by question: those of a concatenation are those of each part, in question order |
| ResultScreen.DefinedTypesSingle | src/components/screens/ResultScreen.tsx:46 | one question gives its type exactly when it is set |
| ResultScreen.StatsAverages | src/components/screens/ResultScreen.tsx:29-40 | in `CalculateStats`, each average and the minutes are the floor of their quotient; no response times give 0 |
| ResultScreen.StatsQuality | src/components/screens/ResultScreen.tsx:49-54 | deep iff total ≥ 81n and 10d > 3n; moderate iff not deep and (total ≥ 51n or d > 0); deep implies d > 0 |
| ResultScreen.StatsTopics | src/components/screens/ResultScreen.tsx:18-46 | coverage is each set type once, in first-seen order; no questions give zeros and shallow |
| ResultScreen.TopicNamesDistinct | src/components/screens/ResultScreen.tsx:84-94 | `TopicName` gives six distinct labels for the six types, and shows any other string as it is |
| Lists.DedupExact | src/components/screens/ResultScreen.tsx:46 | `[...new Set(xs)]` keeps each value once, in first-occurrence order |
| UserDashboard.RunEndingAt | src/components/screens/UserDashboardScreen.tsx:263-275 | a run ending at day j has length between 1 and j+1 |
| UserDashboard.MaxRun | src/components/screens/UserDashboardScreen.tsx:263-276 | the longest run among the first k days is between 1 and k |
| UserDashboard.RunIsMaximal | src/components/screens/UserDashboardScreen.tsx:263-275 | a run is a maximal stretch of one-day steps |
| UserDashboard.MaxRunIsMaximum | src/components/screens/UserDashboardScreen.tsx:263-276 | the longest run bounds every run and is attained |
| UserDashboard.CalculateStreaks | src/components/screens/UserDashboardScreen.tsx:229-279 | both loops compute `CurrentStreak` and `LongestStreak`, the current and the longest runs of consecutive days |
| UserDashboard.StreakBounds | src/components/screens/UserDashboardScreen.tsx:229-279 | (0, 0) for no days; 1 ≤ longest ≤ days; current ≤ longest; current is 0 unless today or yesterday was active |
| UserDashboard.Achievements | src/components/screens/UserDashboardScreen.tsx:184-222 | five achievements |
| UserDashboard.AchievementsMeaning | src/components/screens/UserDashboardScreen.tsx:179-222 | first interview unlocked iff at least one interview; the others show min(count, target) for 5 and 10 interviews, 3 industries, 3 types, and are unlocked iff the count reaches the target; more usage never re-locks one |
| UserDashboard.PresentGrows | src/components/screens/UserDashboardScreen.tsx:180-181 | extending the log never shrinks the set of distinct non-empty values |
| UserDashboard.Labels | src/components/screens/UserDashboardScreen.tsx:114 | no label is empty: a set value is its own label and an empty one is counted as 未設定 |
| UserDashboard.PickMostFacts | src/components/screens/UserDashboardScreen.tsx:123-129 | the reduce keeps a key of maximal count, the later key winning ties |
| UserDashboard.FavoriteIsMostFrequent | src/components/screens/UserDashboardScreen.tsx:113-129 | `Favorite` is 未設定 for no interviews; otherwise a most frequent label, ties going to the later first occurrence |
| UserDashboard.RecentCountFacts | src/components/screens/UserDashboardScreen.tsx:284-285 | the recent half has ⌈n/2⌉ entries, and the older half is nonempty |
| UserDashboard.ImprovementGuards | src/components/screens/UserDashboardScreen.tsx:281-289 | `ImprovementRate` is 0 for fewer than 2 interviews or an older half of total 0; otherwise the halves partition the list and the older total is the sum of the older half |
| UserDashboard.LoadUserStats | src/components/screens/UserDashboardScreen.tsx:81-144 | the statistics are the count, the favourites, the streaks and the improvement of the log |
| SessionManager.KeysDistinct | src/services/sessionManager.ts:6-7 | session and backup keys differ from each other, across users and from the legacy keys |
| SessionManager.SaveThenLoad | src/services/sessionManager.ts:10-97 | `LoadSpec` after `SaveSpec` within two hours returns the stamped session and changes nothing |
| SessionManager.ClearThenLoad | src/services/sessionManager.ts:109-130 | after a clear, loading finds nothing |
| SessionManager.LoadOutcomes | src/services/sessionManager.ts:44-97 | null exactly for a foreign or expired session (both keys removed); a current one as stored; an old version replaced by `Upgrade` and saved again |
| SessionManager.ForeignSessionRefused | src/services/sessionManager.ts:72-76 | another user's session is refused and cleared |
| SessionManager.ClearsAreExact | src/services/sessionManager.ts:109-157 | clear removes exactly the two user keys and the two legacy keys; clear-all exactly the keys containing 'interview' |
| SessionManager.OtherUsersUntouched | src/services/sessionManager.ts:10-130 | saving or clearing one user never changes what another user loads |
| SessionManager.VersionComparedAsText | src/services/sessionManager.ts:89-93 | version "10.0" is treated as older than "3.0" and upgraded |
| SessionManager.RecoverOutcomes | src/services/sessionManager.ts:221-248 | `RecoverSpec` removes nothing and keeps the backups; it returns a session iff the user's backup is readable and owned by the user or nobody, and then copies it under the user's session key, touching no other key |
| SessionManager.SaveThenRecover | src/services/sessionManager.ts:221-248 | recovering right after a save returns the stamped session and changes nothing |
| SessionManager.BrowserStorage.constructor | src/services/sessionManager.ts:28-31 | the session store and the local store hold the given entries |
| SessionManager.BrowserStorage.Save | src/services/sessionManager.ts:10-41 | the stores become the save specification of the old stores |
| SessionManager.BrowserStorage.Clear | src/services/sessionManager.ts:109-130 | the stores become the clear specification of the old stores |
| SessionManager.BrowserStorage.Load | src/services/sessionManager.ts:44-106 | result and stores are the load specification of the old stores |
| SessionManager.BrowserStorage.Check | src/services/sessionManager.ts:70-97 | result and stores are the checks on a found session |
| SessionManager.BrowserStorage.Recover | src/services/sessionManager.ts:221-248 | result and stores are the recover specification |
| SessionManager.BrowserStorage.ClearAll | src/services/sessionManager.ts:133-157 | both stores lose exactly their interview keys |
| SessionManager.InterviewKeys | src/services/sessionManager.ts:139-146 | the loop collects exactly the keys containing 'interview' |
| App.TransitionsKeepGuard | src/App.tsx:151-224 | `StartInterview`, `BackToHome`, `StartWithSettings`, `Complete`, `NewInterview` and `Restore` all keep "interview or result implies settings present" |
| App.BackToHomeOutcomes | src/App.tsx:155-172 | a declined confirmation changes nothing; otherwise it is a new interview and the user's keys are gone |
| App.StartAndComplete | src/App.tsx:151-188 | starting stores the settings with no questions; completing keeps them and shows the result |
| App.FreshInterviewHoldsNoQuestions | src/App.tsx:91-172 | a fresh interview saves no questions and leaves without confirmation |
| App.AutoSaveThenRestore | src/App.tsx:41-111 | the `Snapshot` that `AutoSave` stores is brought back by `Restore` on the next login within two hours |
| App.FinishedInterviewNotRestored | src/App.tsx:181-199 | after completing or starting over, a login restores nothing |
| App.AppContent.constructor | src/App.tsx:34-37 | the app starts home with nothing selected |
| App.AppContent.Reset | src/App.tsx:68-71 | the home state (keeps the render guard) |
| App.AppContent.HandleStartInterview | src/App.tsx:151-153 | the state becomes `StartInterview` of the old state |
| App.AppContent.HandleBackToHome | src/App.tsx:155-172 | state and stores become `BackToHome` of the old ones, keeping the render guard |
| App.AppContent.HandleStartInterviewWithSettings | src/App.tsx:174-179 | the state becomes `StartWithSettings` of the old state |
| App.AppContent.HandleInterviewComplete | src/App.tsx:181-188 | state and stores become `Complete` of the old ones, keeping the render guard; called from the interview screen |
| App.AppContent.HandleNewInterview | src/App.tsx:190-199 | state and stores become `NewInterview` of the old stores |
| App.AppContent.OnLogin | src/App.tsx:41-71 | state and stores become `Restore` of the old stores, keeping the render guard |
| App.AppContent.OnLogout | src/App.tsx:72-79 | the home state |
| App.AppContent.SaveProgress | src/App.tsx:91-111 | the stores become `AutoSave` of the state and the old stores |
| NotificationSystem.Without | src/components/NotificationSystem.tsx:57 | keeps exactly the entries with another id |
| NotificationSystem.FilledDuration | src/components/NotificationSystem.tsx:40-53 | `Filled` sets 5000 only when the duration is absent, keeping an explicit 0; auto-hide iff not persistent and duration > 0 |
| NotificationSystem.WithoutAppend | src/components/NotificationSystem.tsx:57 | removal keeps the order of the rest |
| NotificationSystem.WithoutUnknown | src/components/NotificationSystem.tsx:57 | an unknown id leaves the list unchanged |
| NotificationSystem.WithoutIdempotent | src/components/NotificationSystem.tsx:56-58 | hiding twice is hiding once |
| NotificationSystem.ShowThenHide | src/components/NotificationSystem.tsx:38-58 | showing under a new id and hiding it restores the list |
| NotificationSystem.NotificationProvider.constructor | src/components/NotificationSystem.tsx:36 | the list starts empty |
| NotificationSystem.NotificationProvider.ShowNotification | src/components/NotificationSystem.tsx:38-54 | appends exactly the filled notification and schedules its removal iff it auto-hides |
| NotificationSystem.NotificationProvider.HideNotification | src/components/NotificationSystem.tsx:56-58 | the list loses the entries with that id |
| NotificationSystem.NotificationProvider.ClearAll | src/components/NotificationSystem.tsx:60-62 | the list becomes empty |
| SignupScreen.Validate | src/components/screens/SignupScreen.tsx:29-81 | passes iff all fields are filled, the password has ≥ 6 characters and matches, and both boxes are ticked; else the first failing check |
| SignupScreen.SignupErrorTextMeaning | src/components/screens/SignupScreen.tsx:95-104 | `SignupErrorText` shows each text exactly when its phrase occurs and no earlier phrase does; the generic text iff no phrase occurs; always one of four texts |
| SignupScreen.SignupOutcomeMeaning | src/components/screens/SignupScreen.tsx:83-131 | in `SignupOutcome` the service is called iff the form is valid; a failed check shows its warning; completion needs a valid form and a user |
| SignupScreen.SignupForm.constructor | src/components/screens/SignupScreen.tsx:15-16 | not loading and not yet registered |
| SignupScreen.SignupForm.HandleSignup | src/components/screens/SignupScreen.tsx:83-132 | what is called, shown and completed is `SignupOutcome` of the form and the response |
| LoginScreen.Classify | src/components/screens/LoginScreen.tsx:44-58 | the first branch whose code or phrase fits, every earlier branch not fitting |
| LoginScreen.ClassificationMeaning | src/components/screens/LoginScreen.tsx:36-67 | help iff credentials or password branch; 8000 ms iff help; generic text iff no branch fits; distinct texts |
| LoginScreen.CredentialsBeforePassword | src/components/screens/LoginScreen.tsx:44-53 | a credentials message mentioning Password stays a credentials error |
| LoginScreen.MessageOfEarlierBranchWins | src/components/screens/LoginScreen.tsx:48-53 | an earlier branch's phrase overrides a later branch's code |
| LoginScreen.EmptyErrorUnrecognised | src/components/screens/LoginScreen.tsx:37-58 | an error with no code and no message shows the generic text |
| LoginScreen.RedirectMeaning | src/components/screens/LoginScreen.tsx:77 | the page the user came from when there is one, otherwise '/' |
| LoginScreen.LoginForm.constructor | src/components/screens/LoginScreen.tsx:11-13 | not loading and the help closed |
| LoginScreen.LoginForm.HandleLogin | src/components/screens/LoginScreen.tsx:28-91 | help reset then set only for its branches; the right notification; redirect only after a successful sign-in |
| Text.ToLower | src/services/geminiAPI.ts:192 | no capital letter is left: each ASCII capital becomes its small letter in place and every other character stays |
| Text.LowerKeepsUncasedMatch | src/services/geminiAPI.ts:192 | a keyword without Latin letters occurs in the lower-cased text iff in the text |
| Text.TrimEmptyIffBlank | src/components/screens/InterviewScreen.tsx:238 | `trim()` is empty exactly for white-space-only text |
| Text.NatToStringRoundTrip | src/services/geminiAPI.ts:388 | a rendered number is a non-empty run of digits whose value is the number |
| Text.LexLessAsymmetric | src/services/sessionManager.ts:89 | string `<` never holds both ways |

## Left out

- The HTTP request to the model, its JSON body and `response.json()`: an oracle from attempt number to answer stands in for them. A well-formed answer is the only kind that records a request. The generation parameters are plain data and are not modelled.
- The check for credentials when the module loads, console output and `alert`: these are environment configuration and side output.
- Clocks and timers:
  - The clock is a parameter.
  - `sleep` between retries is recorded as the list of delays.
  - A notification's auto-dismiss is returned as a `Timer` value.
  - `enableAutoSave`, `setupBrowserCloseCleanup`, `beforeunload` and the speech auto-stop are not modelled.
- NotificationSystem.NotificationProvider.ShowNotification: the id is a parameter. The model does not capture that `Math.random` makes it fresh, so freshness is a precondition of the lemmas that need it.
- Floating-point values: the running average answer length, the progress percentages, the improvement percentage, the average duration and `getSessionStats`. Only the integer forms of the threshold comparisons are kept.
- UserDashboard.CalculateStreaks: takes the distinct practice days as day numbers in the order the screen puts them, which is the order of their `toDateString()` text, not the order of the calendar. Any order is allowed, and today and yesterday are inputs. Date parsing and `toDateString` are not modelled.
- UserDashboard.LoadUserStats: `thisWeekInterviews`, `thisMonthInterviews`, the average duration and the rounded percentage of the improvement rate are not modelled. These depend on calendar dates or floats.
- UserDashboard.Achievements: `unlockedAt` is not modelled.
- Stored sessions are values: `JSON.stringify`/`parse` are not modelled. An entry that cannot be parsed is the `Unreadable` entry, and reading one clears the user's keys. The storage-quota branch of save is not modelled.
- SessionManager.BrowserStorage.ClearAll: the result is stated as sets of keys. The order of `storage.key(i)` is not modelled.
- The visibility-change save in `App.tsx`: it writes the same record as the auto-save and is not modelled separately.
- App.AppContent.OnLogin: the `currentUserId` entry is maintained by the sign-in hook, which is not part of this model. Its value is the parameter `previous`.
- Text.ToLower: only ASCII letters are lowered. None of the keywords has a letter that lower-casing would change.
- Lengths are counted in characters, not UTF-16 code units. The 100-character and 6-character thresholds therefore differ for text outside the Basic Multilingual Plane.
- Speech recognition:
  - the transcript is an input of `AppendTranscript`;
  - the confidence warning is not modelled;
  - the speech-error notification is not modelled;
  - microphone handling is not modelled.
- Rendering, `handleKeyPress`, `handleVoiceInput` and the usage recording when the first question appears: these are presentation or external calls.
- The notifications that InterviewScreen shows are named by the `Notice` datatype. Their texts are not modelled.
- InterviewScreen.Screen.SubmitAnswer: requires a current question. The answer box that triggers it is rendered only when one exists.
- InterviewScreen.MetricsSummary: covers one update per answered question only. After a failed generation the draft stays, and submitting it again runs the update a second time for the same question. That adds the response time twice and counts a deep dive twice (`InterviewScreen.ResubmitCountsTwice`). The screen's metrics are not tied to a log of submissions.
- Lookups in JavaScript objects (`personas[industry]`, the deep-dive table, `topicNames[topic]`, the count records of the dashboard) are modelled as maps. Keys inherited from `Object.prototype`, such as `constructor`, are not modelled. No caller passes such a key.
- GeminiApi.HandleApiError: its contract covers only the rate-limit class. The fixed texts for the other classes are a lookup table that the contract does not repeat.
- `getAPIMetrics`, `getSessionStats` and the account, usage, retention and admin screens and hooks: these are reporting or thin wrappers around external calls.
