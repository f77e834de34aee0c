/** The record shapes the application passes around, as App.tsx, HomePage.tsx,
  * SpeakingPage.tsx and the feedback service build and read them. */

/** One finalised utterance of the live transcript. */
module Transcript {
  datatype Speaker = User | Ai
  datatype Turn = Turn(speaker: Speaker, text: string)
}

/** Feedback reports produced at the end of a speaking session, and writing reports. */
module Reports {
  import opened Wrappers
  import opened Transcript

  /** Scores on the 0-10 scale; the service returns JSON numbers, kept here as exact reals. */
  datatype Scores = Scores(fluency: real, pronunciation: real, grammar: real, overall: real)

  datatype GrammarIssue = GrammarIssue(sentence: string, error: string, correction: string, reason: string)

  datatype VocabularyItem = VocabularyItem(word: string, translation: string, context: string)

  /** What the evaluation service returns for one transcript (`feedbackData`). */
  datatype Evaluation = Evaluation(
    scores: Scores,
    cefrLevel: string,
    grammarAnalysis: seq<GrammarIssue>,
    weakPoints: seq<string>,
    newVocabulary: Option<seq<VocabularyItem>>)

  /** A stored speaking report. Fields that only the speaking page fills in are optional. */
  datatype Report = Report(
    id: string,
    date: int,
    evaluation: Evaluation,
    transcript: seq<Turn>,
    isExamCertificate: bool,
    examTopicTitle: Option<string>,
    xpEarned: Option<int>,
    scenarioId: Option<string>)

  /** A stored writing report; only its score is read by the progress view. */
  datatype WritingReport = WritingReport(id: string, date: int, score: real)
}

/** The logged-in user's profile. */
module Profiles {
  import opened Wrappers

  datatype Track = General | Nursing | Academic
  datatype Role = Student | Teacher

  /** `lastSessionDate` is a calendar day number in the user's local time zone. */
  datatype User = User(
    name: string,
    role: Role,
    track: Track,
    xp: int,
    level: int,
    streak: int,
    lastSessionDate: Option<int>,
    completedSessionCount: int,
    unlockedAchievements: seq<string>,
    hasCompletedOnboarding: bool)
}
