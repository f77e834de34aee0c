# AI German Tutor: a Dafny model of its core logic

The AI German Tutor is a React single-page app. It lets a learner hold spoken German
conversations with a live speech model, receive a scored feedback report, collect XP,
levels, streaks and achievements, and get scenario suggestions matched to their level and
track. This project models the logic behind that in Dafny and proves properties of it:

- **Live-conversation controller** (`controller.dfy`, `pcm.dfy`). This is the state machine
  over idle / listening / thinking / speaking that ConversationPage.tsx and SpeakingPage.tsx
  each implement. The model is one class, `Controller.Session`, with a `variant` flag. It
  covers:
  - the playback scheduler, with the next start time and the set of active sources;
  - the two in-flight transcription buffers and the append-only transcript;
  - start and stop;
  - the handling of each part of a server message;
  - the encoding of microphone frames into 16-bit little-endian PCM.
- **Gamification** (`levels.dfy`, `app.dfy`): the XP threshold table, the level lookup
  (a descending loop), next-level XP, the per-session user update (streak, XP, level,
  session count, achievements) and the app shell's view selection. The shell is a class
  whose methods update its fields.
- **Scenario suggestion** (`scenarios.dfy`, `home.dfy`): the scenario table, the level to
  CEFR band function, the candidate filter, the exclusion of the last five played scenarios,
  the fallbacks and the "Explore More" list. The random pick is a nondeterministic choice.
- **Formatters and decisions**:
  - `feedback_modal.dfy`: the transcript download and the certificate verdict.
  - `gemini.dfy`: the evaluation prompt's transcript, the mapping of service failures, and
    the level / track selection with the fallback exam topic.
  - `progress.dfy`: the vocabulary list, the chart series and the newest-first lists.

`text.dfy` models the JavaScript string operations these rely on: `trim` with its exact
white-space set, `join`, `toLowerCase` on Latin-1 and `includes`. `records.dfy` holds the
shared record shapes. `wrappers.dfy` holds `Option` and `Result`.

Dates are whole day numbers. Scores, clock times and durations are exact reals. Each
controller event is one atomic method.

## Model

| member | source | states |
|---|---|---|
| Controller.StartTimeSpec | components/ConversationPage.tsx:123-126 | a chunk starts no earlier than the output clock and no earlier than the previous chunk's end, and exactly at that end unless the clock has passed it |
| Controller.ConsecutiveChunks | components/ConversationPage.tsx:123-147 | two chunks scheduled one after the other never overlap, and are back to back while the clock has not passed the first one's end |
| Controller.TurnOfSpec | components/ConversationPage.tsx:274-281 | a buffer yields no turn exactly when it is all white space (JavaScript's `trim` set), otherwise one turn of its speaker with non-empty text and no white space at either end |
| Controller.NewTurnsSpec | components/ConversationPage.tsx:273-284 | turn-complete emits at most two turns, none exactly when both buffers are blank, the user's first and the ai's last, each well formed; SpeakingPage.tsx:178-192: the same `newTurns` assembly: user before ai, each only if non-empty after trimming, nothing appended when both are empty |
| Controller.NewTurnsCount | components/ConversationPage.tsx:273-284 | at most two turns, and none exactly when both buffers are all white space |
| Controller.NewTurnsWellFormed | components/ConversationPage.tsx:273-284 | every emitted turn has non-empty text with no white space at either end |
| Controller.NewTurnsOrder | components/ConversationPage.tsx:273-284 | the first turn is the user's exactly when the user buffer had visible text, the last the ai's exactly when the ai buffer had |
| Controller.AssembleTurns | components/ConversationPage.tsx:273-284 | the step-by-step `newTurns` pushes produce exactly the specified turns, each well formed; SpeakingPage.tsx:178-192: the speaking page's pushes produce the same turns |
| Controller.TurnAssemblyExample | components/ConversationPage.tsx:266-287 | partial texts "Hal"+"lo" and "Wie"+" geht's" become exactly the turns user "Hallo" and ai "Wie geht's" |
| Controller.AppendWellFormed | components/ConversationPage.tsx:278-283 | appending well-formed turns keeps every turn of the transcript well formed |
| Controller.RoundIsNearest | components/SpeakingPage.tsx:117 | `Math.round` gives the integer within one half of its argument, halves rounded up |
| Controller.ConversationReport | components/ConversationPage.tsx:197-203 | the stored report carries the given id, day, evaluation and transcript, and no certificate flag, topic, XP or scenario id |
| Controller.SpeakingReport | components/SpeakingPage.tsx:116-129 | the handed-on report carries id, day, evaluation and transcript, the scenario's exam flag, topic title and id, and XP within one half of 5 per overall point plus 2 per turn |
| Controller.Session.constructor | components/ConversationPage.tsx:72-91 | the controller starts idle, not recording, with no sources, clock 0, empty buffers and transcript, no error and no report; the speaking page is built with its scenario |
| Controller.Session.StopPlayback | components/ConversationPage.tsx:154-162 | afterwards there are no active sources and the next start time is 0, whatever the state before, so a second call changes nothing |
| Controller.Session.HandlePlayback | components/ConversationPage.tsx:113-152 | the listening guard reads the state of the render that started the session (idle when a page starts), so a chunk is dropped only without an output context or when that render was listening; otherwise the state becomes speaking and the clock is clamped to now; a decoded chunk starts at the clamped time as one fresh source, and the next start time advances by its duration; SpeakingPage.tsx:68-88: the same on the speaking page |
| Controller.Session.SourceEnded | components/ConversationPage.tsx:134-143 | the `ended` listener as evidently intended: the ended source leaves the set; once it is empty, the state is listening while the session is active (recording, on SpeakingPage.tsx:80-83) and idle otherwise; otherwise the state is unchanged |
| Controller.Session.SourceEndedAsWritten | components/ConversationPage.tsx:134-143 | the listener as written reads the activity flag of the render that started the session: once the set is empty the state is listening only if that render was already active, idle otherwise |
| Controller.Session.CompleteTurn | components/ConversationPage.tsx:273-287 | the transcript becomes the old one followed by the new turns (so the old one stays a prefix), and both buffers become empty |
| Controller.Session.ReceiveText | components/ConversationPage.tsx:266-287 | the output and input texts are appended to their buffers, then turn-complete is applied to the extended buffers |
| Controller.Session.ReceiveSignals | components/ConversationPage.tsx:289-298 | the audio part is handled before the interrupted marker; a chunk plays iff it decodes and the session plays audio, starting at the clamped next start time as a fresh source; without an interrupt the state becomes speaking and the chunk joins the sources with the clock advanced by its duration; a message without playable audio plays nothing and, without an interrupt, leaves playback untouched |
| Controller.Session.Interrupt | components/ConversationPage.tsx:294-298 | interrupted leaves no active sources and clock 0, the state listening, and clears only the output buffer; SpeakingPage.tsx:199: the same interrupt handling on the speaking page |
| Controller.Session.HandleMessage | components/ConversationPage.tsx:265-299 | text, then turn-complete, then audio, then interrupted: the transcript gains exactly the assembled turns of the extended buffers; the input buffer survives an interrupt and the output buffer does not; an audio chunk is scheduled as in ReceiveSignals; with neither playable audio nor interrupt, playback state is untouched |
| Controller.Session.StartRecording | components/ConversationPage.tsx:220-337 | without a client or scenario nothing changes; otherwise the transcript is emptied and the session goes to listening; a successful setup opens the session with fresh buffers, its callbacks keeping the state and activity flag of the render before the start; a failed setup ends not recording and idle, with "Microphone access denied."; SpeakingPage.tsx:143-216: the speaking page also does nothing while already recording, and sets no error when setup fails |
| Controller.Session.Begin | components/ConversationPage.tsx:223-227 | error cleared, transcript emptied, recording, session active on ConversationPage, state listening |
| Controller.Session.Connect | components/ConversationPage.tsx:243-329 | the buffers start empty, the session is open, and its callbacks keep the values of the starting render |
| Controller.Session.SetupFailed | components/ConversationPage.tsx:331-336 | not recording, idle, and "Microphone access denied." on ConversationPage (SpeakingPage.tsx:215 sets no error) |
| Controller.Session.Shutdown | components/ConversationPage.tsx:164-193 | the tear-down leaves nothing recording, the session closed, no active sources, clock 0, and the state thinking |
| Controller.Session.RecordFeedback | components/ConversationPage.tsx:195-216 | feedback is requested iff asked for and the transcript is non-empty, with that transcript; success stores and shows exactly the conversation report, failure sets "Feedback generation failed." and changes nothing else; when feedback is not asked for the transcript is cleared; SpeakingPage.tsx:114-139: the speaking page needs more than one turn, and success hands exactly the speaking report to the session-complete callback instead of storing it |
| Controller.Session.StopRecording | components/ConversationPage.tsx:164-218 | when the session closes normally: ends idle, not recording, session closed, playback flushed, with the feedback outcome above; SpeakingPage.tsx:98-141: nothing at all changes while not recording; otherwise the same tear-down and the speaking page's feedback outcome |
| Controller.Session.OnError | components/ConversationPage.tsx:300-304 | `onerror` as evidently intended on both pages: sets "Connection lost." and stops without feedback: idle, not recording, session closed, session flag cleared, playback flushed with the clock at 0, transcript cleared, nothing evaluated, no report stored or shown |
| Controller.Session.OnErrorAsWritten | components/SpeakingPage.tsx:201 | as written: ConversationPage stops as above; SpeakingPage calls the `stopRecording` of the render that started the session, which returns at once, so only "Connection lost." is set and recording, session, playback, transcript and reports are all unchanged |
| Controller.Session.OnClose | components/ConversationPage.tsx:305-308 | closing the session sets the state to idle and keeps the controller invariant |
| Controller.PlaybackInSession | components/ConversationPage.tsx:265-299 | in a session started on either page, the first chunk starts at the clock, the next at the end of the first unless the clock has passed it, and after a barge-in a new chunk starts at the clock again |
| Controller.LastChunkEndsIdle | components/ConversationPage.tsx:134-143 | as written, when the only chunk of a first session has played, the page is idle while the session is still running |
| Controller.LastChunkEndsListening | components/ConversationPage.tsx:134-143 | with the intended listener, the same session returns to listening |
| Controller.SpeakingConnectionLossAsWritten | components/SpeakingPage.tsx:201 | as written, a lost connection leaves the speaking page recording with the session open, showing "Connection lost." |
| Controller.SpeakingConnectionLoss | components/SpeakingPage.tsx:201 | with the intended handler, a lost connection stops the speaking session |
| Controller.Session.CaptureFrame | components/ConversationPage.tsx:249-261 | while the session is open each frame is sent as 2 bytes per sample, tagged audio/pcm;rate=16000, decoding back to the quantised samples; nothing is sent otherwise; SpeakingPage.tsx:166-170: the speaking page's frame callback, with the same guarantees |
| Pcm.ToInt16 | components/ConversationPage.tsx:253 | storing into an Int16Array yields a 16-bit value congruent modulo 65536 to the truncated number (ToInt16 of ECMA-262, section 7.1.8) |
| Pcm.QuantizeWithinOneStep | components/ConversationPage.tsx:253 | for samples in [-1, 1) no wrap happens and the stored value is within one quantisation step of the sample |
| Pcm.FullScaleWraps | components/ConversationPage.tsx:253 | the sample 1.0 wraps to -32768 |
| Pcm.DecodeEncodeRoundTrip | components/ConversationPage.tsx:255 | the little-endian bytes of an Int16Array read back to the same values |
| Pcm.EncodeFrame | components/ConversationPage.tsx:250-257 | the loop-filled frame has 2 bytes per sample, the fixed mime type, and decodes to the quantised samples |
| Pcm.Frame | components/SpeakingPage.tsx:168 | the `map`-built frame has the same length, mime type and content |
| Text.TrimStart | components/ConversationPage.tsx:274-275 | the result is a suffix of the input, only white space is cut, and none is left at its start |
| Text.TrimEnd | components/ConversationPage.tsx:274-275 | the result is a prefix of the input, only white space is cut, and none is left at its end |
| Text.Trim | components/ConversationPage.tsx:274-275 | `trim` is never longer than its input and leaves no white space at either end |
| Text.TrimEmptyIffAllSpace | components/ConversationPage.tsx:277 | a trimmed buffer is empty exactly when the buffer is all white space |
| Text.TrimIdempotent | components/ConversationPage.tsx:274-275 | trimming twice is trimming once |
| Text.JoinLength | components/FeedbackModal.tsx:25 | a join is as long as its parts plus one separator between each neighbouring pair |
| Text.JoinSnoc | components/FeedbackModal.tsx:25 | joining one more part appends one separator and that part |
| Text.ContainsIffOccurs | components/FeedbackModal.tsx:54 | `includes` holds exactly when the pattern occurs at some index |
| Text.LowerHasNoUpper | components/FeedbackModal.tsx:54 | `toLowerCase` leaves no upper-case ASCII or Latin-1 letter |
| FeedbackModal.DownloadTextAppend | components/FeedbackModal.tsx:25 | each turn adds one line "You: " or "Tutor: " plus its text, separated by a blank line, with no trailing separator |
| FeedbackModal.DownloadTextLength | components/FeedbackModal.tsx:25 | the download text is as long as its lines plus two characters between neighbours |
| FeedbackModal.DownloadFileName | components/FeedbackModal.tsx:30 | the file name is german-practice-transcript-, the report id, then .txt |
| FeedbackModal.MisencodedWordNeverMatches | components/FeedbackModal.tsx:54 | as written, a title is an interview iff its lower-cased form contains "interview": the second literal never matches |
| FeedbackModal.GermanInterviewTitleCase | components/FeedbackModal.tsx:54 | the title "Vorstellungsgespräch" is missed as written and recognised with the intended literal |
| FeedbackModal.LowersToInterviewWord | components/FeedbackModal.tsx:54 | every title lower-casing to "vorstellungsgespräch" is missed as written and recognised as corrected |
| FeedbackModal.ResultTextDistinguishes | components/FeedbackModal.tsx:59 | the four verdict texts are distinct, so the text tells both outcome and certificate kind |
| FeedbackModal.ScorePercentage | components/FeedbackModal.tsx:36-45 | the score bar is within 0-100 % exactly for scores within 0-10, full exactly at 10 and empty exactly at 0 |
| FeedbackModal.CertificateFor | components/FeedbackModal.tsx:53-99 | given the interview classification (the modal uses the as-written test, CertificateOf the intended IsInterview): passed iff overall reaches 7 for interviews and 6 otherwise; the verdict text follows; title "Interview Result" or "Zertifikat" and subtitle "Candidate Evaluation" or "Mock Exam Report" by kind; the topic is the report's topic title, or "B2 Examination" when it is missing or empty; evaluator notes are the first three weak points in order |
| FeedbackModal.GermanInterviewCertificate | components/FeedbackModal.tsx:53-61 | a "Vorstellungsgespräch" report scoring at least 6 and below 7 passes as a "Zertifikat" as written, and is "Not Selected" under the title "Interview Result" with the intended test |
| Gemini.NatToString | services/geminiService.ts:12 | turn numbers are written in decimal without leading zeros |
| Gemini.NatToStringRoundTrip | services/geminiService.ts:12 | reading a turn number back gives the index, so distinct turns carry distinct numbers |
| Gemini.PromptLines | services/geminiService.ts:12 | exactly one line per turn, line i built from turn i and index i |
| Gemini.PromptLineParts | services/geminiService.ts:12 | line i reads "[Turn ", the index i, "] ", then the label and the turn's text at the end |
| Gemini.PromptLineHead | services/geminiService.ts:12 | line i starts with "[Turn " and a numeral that reads back as i |
| Gemini.PromptLineTail | services/geminiService.ts:12 | after the numeral comes "] ", and the line ends with the turn's text |
| Gemini.ConversationTextAppend | services/geminiService.ts:12 | each turn adds one newline and its numbered line, with no trailing newline |
| Gemini.ServiceResult | services/geminiService.ts:115-122 | a value results iff the call answered with non-blank text that parses, and is that parse of the trimmed text; every other case is the one failure message; geminiService.ts:177-184: the writing evaluation maps its failures the same way, to its own message |
| Gemini.BlankAnswerFails | services/geminiService.ts:115-116 | an empty or whitespace-only answer fails whatever the parser would accept |
| Gemini.ComplexityFor | services/geminiService.ts:194-209 | A1/A2 select the beginner text, B1/B2 the intermediate, C1/C2 the expert, anything else the default |
| Gemini.ContextFor | services/geminiService.ts:212-218 | nursing selects healthcare, academic the university, general the everyday context |
| Gemini.TopicResult | services/geminiService.ts:252-263 | the topic is the parsed answer, or the fixed fallback whenever the call fails, answers blank or does not parse |
| Gemini.FallbackTopicShape | services/geminiService.ts:256-263 | a failed call yields the fallback topic, which has a title and exactly four points |
| Progress.Reverse | components/ProgressPage.tsx:104 | `slice().reverse()` has the same length, position i holding element n-1-i |
| Progress.ReverseInvolution | components/ProgressPage.tsx:104 | reversing keeps every element and reversing twice restores the stored order |
| Progress.NewestFirstOrder | components/ProgressPage.tsx:150 | the history list shows the newest stored entry first and the oldest last |
| Progress.VocabListShape | components/ProgressPage.tsx:22-23 | the vocabulary list is as long as all reports' word lists together (missing lists count as empty), the last report's words reversed at its head |
| Progress.LastWordFirst | components/ProgressPage.tsx:23 | the last word of the last report comes first |
| Progress.VocabListAppend | components/ProgressPage.tsx:22-23 | one more report puts its words, newest first, ahead of the list |
| Progress.SpeakingChart | components/ProgressPage.tsx:32-36 | one point per report in stored order, carrying its date, overall and fluency |
| Progress.WritingChart | components/ProgressPage.tsx:43-46 | one point per writing report in stored order, carrying its score |
| Progress.Load | components/ProgressPage.tsx:15-30 | an unparsable speaking list leaves every list empty; otherwise the lists are what was stored and the vocabulary is derived from the speaking reports |
| Levels.ThresholdsShape | data/store.ts:69-72 | eleven thresholds, starting at 0, strictly increasing |
| Levels.LevelOfSpec | data/store.ts:74-81 | the level is in 1..11, 1 for negative XP, and for XP >= 0 the band whose threshold is reached while the next one is not |
| Levels.LevelOfMonotone | data/store.ts:74-81 | more XP never gives a lower level |
| Levels.GetLevelFromXp | data/store.ts:74-81 | the descending loop with early return computes that level |
| Levels.NextLevelIsLeastXpOfNextLevel | data/store.ts:83-88 | for levels 0..10 the next-level XP is the least XP of the next level |
| Levels.NoNextLevelAtTop | data/store.ts:83-88 | the next-level XP is infinite exactly from level 11 on |
| App.UnlockIf | App.tsx:110 | an achievement is present afterwards iff it was before or its rule fires, added at most once at the end; the list is unchanged when the id is already there or the rule does not fire |
| App.UnlockAchievements | App.tsx:107-117 | the old list is a prefix, each of the eight ids is present iff it was or its rule fires, nothing else is added and no duplicate appears |
| App.RuleAtNamesRule | App.tsx:110-117 | the k-th unlock check tests exactly the rule of the k-th badge id |
| App.AllApplied | App.tsx:107-117 | once all eight checks are applied, each badge is held iff it was or its rule fires, only badges were added, and no duplicate appears |
| App.AchievementRules | App.tsx:110-117 | session_1 always; session_5/10 at 5/10 sessions, streak_3/7 at streak 3/7, level_5/10 at level 5/10, grammar_perfect on an empty grammar analysis |
| App.UpdatedUser | App.tsx:90-127 | streak 1 without a previous date, unchanged on the same day, +1 on the next day, else 1; XP adds the report's XP, level follows the XP, one more session, last date today, achievements as above, other fields kept |
| App.Shell.constructor | App.tsx:37-43 | the shell starts on the login view, loading, without the welcome modal |
| App.Shell.SyncView | App.tsx:45-59 | no user gives login, a teacher the teacher dashboard, anyone else home, the welcome modal shown for a general-track user who has not completed onboarding |
| App.Shell.HandleSessionComplete | App.tsx:85-128 | with no user nothing changes; otherwise exactly one report is appended and the user becomes a session update of the old one: the streak cases, XP, level, count, date, badges and kept fields of App.UpdatedUser |
| ScenarioCatalogue.IdsDistinct | data/scenarios.ts:3-158 | scenario ids are pairwise distinct |
| ScenarioCatalogue.BakeryExists | data/scenarios.ts:17-27 | general_bakery is found, for the general track at A1 and not exam preparation |
| ScenarioCatalogue.FreestyleExists | data/scenarios.ts:5-15 | freestyle_chat is found, for every track at A1 |
| ScenarioCatalogue.ExactlyTwoExamPrep | data/scenarios.ts:3-158 | exactly nurse_job_interview and exam_b2_planen are exam preparation |
| ScenarioCatalogue.Filter | components/HomePage.tsx:34-39 | `filter` keeps exactly the elements satisfying the predicate, in order, each as often as it occurs in the input |
| ScenarioCatalogue.FindById | components/HomePage.tsx:48 | `find` by id returns an entry with that id, and nothing only when no entry has it |
| Home.TargetCefrLevelsShape | components/HomePage.tsx:16-22 | one or two target bands, adjacent, never empty, moving up with the level |
| Home.UnplayedExcludesExactlyRecent | components/HomePage.tsx:41 | a candidate is fresh iff its id is not among the recent scenario ids |
| Home.FreshExcludesExactlyRecent | components/HomePage.tsx:32-41 | fresh candidates are exactly the candidates not played in the last five reports |
| Home.GetNewSuggestion | components/HomePage.tsx:30-50 | the suggestion is from the pool (fresh candidates, else all candidates) when it is non-empty, else general_bakery; never freestyle_chat or exam preparation; unplayed and a candidate whenever fresh candidates exist |
| Home.AcademicBeginnerFallsBack | components/HomePage.tsx:34-49 | an academic user at level 1 has no candidates, so the bakery fallback is used |
| Home.ExploreScenarios | components/HomePage.tsx:126 | the first four explorable scenarios in table order (not freestyle_chat, offered to the user's track or every track), or all of them when there are fewer |

## Left out

- Web Audio and microphone plumbing are not modelled. This covers `getUserMedia`, the audio contexts, script processors, `start`/`stop`/`disconnect`/`close` and the mount effects. The output clock and a chunk's decoded duration are parameters, sources are ids, and setup success is a boolean parameter.
- `encode`, `decode` and `decodeAudioData` (utils/audio.ts) are not part of this model. A frame's data is its byte string, without base64. Decoding a chunk yields either a duration or a failure.
- The network calls are left out: the live connection, `sendRealtimeInput`, `generateContent`, the JSON schemas, the prompt wording and `JSON.parse`. An evaluation is a parameter of `StopRecording`, and parsing is a parameter of `ServiceResult`.
- `localStorage`, `Date.now`/`toISOString` ids, locale date formatting and `Math.random` are not modelled. Report ids and day numbers are parameters, and the random pick is a nondeterministic index.
- Controller.Session.HandleMessage: each event is one atomic step, as are all controller methods. In the app, decoding is asynchronous, so a chunk arriving with an interrupt in the same message is added after the flush. Likewise the "thinking" state is only visible while the evaluation is awaited; in the model it passes straight to idle.
- Controller.Session.StopRecording: `Math.round` on a floating-point product is modelled on exact reals. A missing `isExamPrep` is taken as false.
- Controller.Session.StopRecording: models only a live session whose close succeeds. Both pages await the session outside any `try` (ConversationPage.tsx:187-189, SpeakingPage.tsx:110). If that promise rejects, `stopRecording` throws after setting "thinking": playback is not flushed, no feedback is requested, and the state never returns to idle. That path is not modelled.
- Controller.Session.constructor: requires a scenario on the speaking page, where it is a required prop. SpeakingPage's missing-API-key message and its automatic start on mount are not modelled; the caller invokes `StartRecording`.
- ConversationPage's own scenario menu (ConversationPage.tsx:18-59) is not modelled; only whether a scenario is selected matters to the controller.
- The transcription text of a message is always a string. An absent `text` field, which JavaScript would append as "undefined", is not modelled.
- App.UpdatedUser: requires the report to carry `xpEarned`, which every speaking-page report does. Without it JavaScript would compute NaN XP.
- Text.ToLowerChar: `toLowerCase` is modelled on the Basic Latin and Latin-1 blocks only; every other character is kept unchanged. This affects no interview test. U+0130 lower-cases to "i" followed by U+0307, and that combining mark never continues a match. No other character outside Latin-1 lower-cases to a letter of "interview" or "vorstellungsgespräch", or to U+00C3.
- The level progress percentage (HomePage.tsx:56-60) is floating point and is left out.
- ProgressPage, WritingPage, LoginPage, TeacherDashboard, the welcome modal, the navigation bar, the chart wrapper and all rendering and styling are left out. Only the list logic of ProgressPage is modelled.
- types.ts is out of date relative to the code in some record fields; record shapes follow App.tsx, HomePage.tsx, SpeakingPage.tsx and data/scenarios.ts. Both pages spread the evaluation service's fields (`scores`, `grammarAnalysis`, `weakPoints`, …) flat into the report (ConversationPage.tsx:201, SpeakingPage.tsx:122), and the app reads them there. The model groups those fields under `Report.evaluation`; the nesting changes no modelled behaviour.

## Findings

| source | as written | input that shows it | evidently intended | confidence | as-written member | corrected member |
|---|---|---|---|---|---|---|
| components/FeedbackModal.tsx:54 | the second literal is "vorstellungsgespräch" mis-encoded as U+00C3 U+00A4 for "ä". `toLowerCase` maps U+00C3 to U+00E3, so a lower-cased title never contains the literal | topic title "Vorstellungsgespräch": not classified as an interview, so it is graded against 6 instead of 7 and titled "Zertifikat" | the literal "vorstellungsgespräch" with U+00E4, matching German interview titles | high (by proof; not executed) | FeedbackModal.IsInterviewAsWritten (with FeedbackModal.MisencodedWordNeverMatches, FeedbackModal.CertificateAsWritten, FeedbackModal.GermanInterviewCertificate) | FeedbackModal.IsInterview (used by FeedbackModal.CertificateOf; FeedbackModal.GermanInterviewTitleCase, FeedbackModal.GermanInterviewCertificate) |
| components/ConversationPage.tsx:138 | the `ended` listener reads `isSessionActive` from the render that started the session (`isRecording` at SpeakingPage.tsx:82), which is false before a first start | one session: start, one audio chunk, the chunk ends: the state becomes idle while the session is still running | the current flag, returning to listening while the session runs, as the comment at ConversationPage.tsx:137 says | medium (by reading React closure capture; not executed) | Controller.Session.SourceEndedAsWritten (with Controller.LastChunkEndsIdle) | Controller.Session.SourceEnded (with Controller.LastChunkEndsListening) |
| components/SpeakingPage.tsx:201 | `onerror` calls the `stopRecording` captured when the session started; its `isRecording` is false, so it returns at line 99 | the connection drops during a speaking session: "Connection lost." is shown but the page keeps recording, the session stays open and nothing is flushed | the same stop without feedback that ConversationPage.tsx:303 performs | medium (by reading React closure capture; not executed) | Controller.Session.OnErrorAsWritten (with Controller.SpeakingConnectionLossAsWritten) | Controller.Session.OnError (with Controller.SpeakingConnectionLoss) |
