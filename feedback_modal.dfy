/** The decisions of FeedbackModal.tsx: the downloadable transcript text, the score bar
  * percentage, and the exam / interview certificate (title, pass threshold, verdict). */
module FeedbackModal {
  import opened Wrappers
  import opened Text
  import opened Transcript
  import opened Reports

  // ----- Transcript download -----

  function SpeakerLabel(s: Speaker): string {
    if s == User then "You" else "Tutor"
  }

  /** One line of the download: the speaker's label, a colon and a space, then the text. */
  function DownloadLine(t: Turn): (r: string)
    ensures r == SpeakerLabel(t.speaker) + ": " + t.text
    ensures r[|r| - |t.text|..] == t.text
  {
    SpeakerLabel(t.speaker) + ": " + t.text
  }

  function DownloadLines(ts: seq<Turn>): (r: seq<string>)
    ensures |r| == |ts|
    ensures forall i :: 0 <= i < |ts| ==> r[i] == DownloadLine(ts[i])
  {
    if ts == [] then [] else [DownloadLine(ts[0])] + DownloadLines(ts[1..])
  }

  /** `downloadTranscript`'s text: the lines separated by a blank line. */
  function DownloadText(ts: seq<Turn>): string {
    Join(DownloadLines(ts), "\n\n")
  }

  /** One more turn adds exactly one separator and its own line at the end; there is no
    * trailing separator. */
  lemma DownloadTextAppend(ts: seq<Turn>, t: Turn)
    ensures DownloadText(ts + [t]) ==
              (if ts == [] then DownloadLine(t) else DownloadText(ts) + "\n\n" + DownloadLine(t))
  {
    DownloadLinesSnoc(ts, t);
    if ts != [] {
      JoinSnoc(DownloadLines(ts), DownloadLine(t), "\n\n");
    }
  }

  lemma DownloadLinesSnoc(ts: seq<Turn>, t: Turn)
    ensures DownloadLines(ts + [t]) == DownloadLines(ts) + [DownloadLine(t)]
  {
    var l, r := DownloadLines(ts + [t]), DownloadLines(ts) + [DownloadLine(t)];
    forall i | 0 <= i < |l| ensures l[i] == r[i] {
      if i < |ts| { assert (ts + [t])[i] == ts[i]; }
    }
  }

  /** The text's length is that of its lines plus two characters between each neighbouring
    * pair. */
  lemma DownloadTextLength(ts: seq<Turn>)
    requires ts != []
    ensures |DownloadText(ts)| == TotalLength(DownloadLines(ts)) + 2 * (|ts| - 1)
  {
    JoinLength(DownloadLines(ts), "\n\n");
  }

  /** The downloaded file's name. */
  function DownloadFileName(id: string): (r: string)
    ensures |r| == |id| + 31 && r[..27] == "german-practice-transcript-"
    ensures r[27..|r| - 4] == id && r[|r| - 4..] == ".txt"
  {
    "german-practice-transcript-" + id + ".txt"
  }

  // ----- Score bars -----

  /** `renderScore`'s bar width in percent: a score out of 10 fills the bar in proportion,
    * exactly full at 10 and exactly empty at 0. */
  function ScorePercentage(score: real): (r: real)
    ensures 0.0 <= score <= 10.0 <==> 0.0 <= r <= 100.0
    ensures r == 100.0 <==> score == 10.0
    ensures r == 0.0 <==> score == 0.0
  {
    score * 10.0
  }

  // ----- Interview detection -----

  /** The second literal as it appears in the source file: "vorstellungsgespräch" with its
    * "ä" written as the two characters U+00C3 U+00A4 (UTF-8 bytes read as Latin-1). */
  const MisencodedInterviewWord := "vorstellungsgespr\U{C3}\U{A4}ch"

  const InterviewWord := "vorstellungsgespr\U{E4}ch"

  /** `isInterview` as written: the lower-cased topic title contains "interview" or the
    * mis-encoded word; a missing title is not an interview. */
  function IsInterviewAsWritten(title: Option<string>): bool {
    title.Some? &&
    (Contains(ToLower(title.value), "interview") || Contains(ToLower(title.value), MisencodedInterviewWord))
  }

  /** `isInterview` with the literal spelled as evidently intended. */
  function IsInterview(title: Option<string>): bool {
    title.Some? &&
    (Contains(ToLower(title.value), "interview") || Contains(ToLower(title.value), InterviewWord))
  }

  /** The mis-encoded literal holds U+00C3, an upper-case letter that lower-casing always
    * maps away, so no lower-cased title can contain it: only "interview" ever matches. */
  lemma MisencodedWordNeverMatches(title: Option<string>)
    ensures IsInterviewAsWritten(title) <==> title.Some? && Contains(ToLower(title.value), "interview")
  {
    if title.Some? {
      var lower := ToLower(title.value);
      if Contains(lower, MisencodedInterviewWord) {
        ContainsHasChars(lower, MisencodedInterviewWord, 17);
        var k :| 0 <= k < |lower| && lower[k] == '\U{C3}';
        LowerHasNoUpper(title.value[k]);
        assert false;
      }
    }
  }

  /** A lower-cased string contains a pattern equal to it. */
  lemma ContainsItself(s: string)
    ensures Contains(s, s)
  {
    ContainsIffOccurs(s, s);
    assert OccursAt(s, s, 0);
  }

  /** Any title that lower-cases to the German word for a job interview is missed as
    * written and recognised with the intended literal. */
  lemma LowersToInterviewWord(title: string)
    requires ToLower(title) == InterviewWord
    ensures !IsInterviewAsWritten(Some(title))
    ensures IsInterview(Some(title))
  {
    var lower := ToLower(title);
    MisencodedWordNeverMatches(Some(title));
    if Contains(lower, "interview") {
      ContainsHasChars(lower, "interview", 0);
      InterviewWordHasNoI();
      assert false;
    }
    ContainsItself(lower);
  }

  const GermanInterviewTitle := "Vorstellungsgespr\U{E4}ch"

  /** The title "Vorstellungsgespräch" is not recognised as an interview as written, and
    * is recognised with the intended literal. */
  lemma GermanInterviewTitleCase()
    ensures !IsInterviewAsWritten(Some(GermanInterviewTitle))
    ensures IsInterview(Some(GermanInterviewTitle))
  {
    GermanTitleLowers();
    LowersToInterviewWord(GermanInterviewTitle);
  }

  /** The four pieces the literal computations below are split into (short literals keep
    * the solver's work small). */
  const PieceA := "vorst"
  const PieceB := "ellun"
  const PieceC := "gsges"
  const PieceD := "pr\U{E4}ch"

  lemma InterviewWordPieces()
    ensures InterviewWord == PieceA + PieceB + PieceC + PieceD
    ensures GermanInterviewTitle == "Vorst" + PieceB + PieceC + PieceD
  {
  }

  lemma InterviewWordHasNoI()
    ensures 'i' !in InterviewWord
  {
    InterviewWordPieces();
    assert 'i' !in PieceA && 'i' !in PieceB && 'i' !in PieceC && 'i' !in PieceD;
  }

  lemma ToLowerOfFour(a: string, b: string, c: string, d: string)
    ensures ToLower(a + b + c + d) == ToLower(a) + ToLower(b) + ToLower(c) + ToLower(d)
  {
    ToLowerAppend(a, b);
    ToLowerAppend(a + b, c);
    ToLowerAppend(a + b + c, d);
  }

  lemma PiecesLower()
    ensures ToLower("Vorst") == PieceA
    ensures ToLower(PieceB) == PieceB && ToLower(PieceC) == PieceC && ToLower(PieceD) == PieceD
  {
    PieceALower();
    PieceBLower();
    PieceCLower();
    PieceDLower();
  }

  lemma PieceALower() ensures ToLower("Vorst") == PieceA { }
  lemma PieceBLower() ensures ToLower(PieceB) == PieceB { }
  lemma PieceCLower() ensures ToLower(PieceC) == PieceC { }
  lemma PieceDLower() ensures ToLower(PieceD) == PieceD { }

  lemma GermanTitleLowers()
    ensures ToLower(GermanInterviewTitle) == InterviewWord
  {
    InterviewWordPieces();
    ToLowerOfFour("Vorst", PieceB, PieceC, PieceD);
    PiecesLower();
  }

  // ----- Certificate -----

  /** Interviews are graded more strictly: 7 instead of 6 out of 10. */
  function PassThreshold(isInterview: bool): real {
    if isInterview then 7.0 else 6.0
  }

  function Passed(overall: real, isInterview: bool): bool {
    overall >= PassThreshold(isInterview)
  }

  function ResultText(passed: bool, isInterview: bool): string {
    if passed then (if isInterview then "Recommended for Hire" else "Passed (Bestanden)")
    else (if isInterview then "Not Selected" else "Failed (Nicht Bestanden)")
  }

  /** The verdict text tells both the outcome and the kind of certificate apart. */
  lemma ResultTextDistinguishes(p1: bool, i1: bool, p2: bool, i2: bool)
    ensures ResultText(p1, i1) == ResultText(p2, i2) <==> p1 == p2 && i1 == i2
  {
  }

  /** What the certificate shows. */
  datatype Certificate = Certificate(
    title: string,
    subtitle: string,
    topic: string,
    passed: bool,
    resultText: string,
    evaluatorNotes: seq<string>)

  /** The certificate of an exam report, given whether it is classified as an interview.
    * The topic line falls back to "B2 Examination" when the report has no (or an empty)
    * topic title. */
  function CertificateFor(report: Report, interview: bool): (c: Certificate)
    ensures (c.passed <==> report.evaluation.scores.overall >= (if interview then 7.0 else 6.0)) &&
            c.resultText == ResultText(c.passed, interview) &&
            c.title == (if interview then "Interview Result" else "Zertifikat") &&
            c.subtitle == (if interview then "Candidate Evaluation" else "Mock Exam Report") &&
            (report.examTopicTitle.Some? && report.examTopicTitle.value != "" ==>
               c.topic == report.examTopicTitle.value) &&
            (report.examTopicTitle.None? || report.examTopicTitle.value == "" ==> c.topic == "B2 Examination") &&
            |c.evaluatorNotes| <= 3 && c.evaluatorNotes <= report.evaluation.weakPoints &&
            (|report.evaluation.weakPoints| >= 3 ==> |c.evaluatorNotes| == 3) &&
            (|report.evaluation.weakPoints| < 3 ==> c.evaluatorNotes == report.evaluation.weakPoints)
  {
    var passed := Passed(report.evaluation.scores.overall, interview);
    var wp := report.evaluation.weakPoints;
    Certificate(
      if interview then "Interview Result" else "Zertifikat",
      if interview then "Candidate Evaluation" else "Mock Exam Report",
      if report.examTopicTitle.Some? && report.examTopicTitle.value != "" then report.examTopicTitle.value
      else "B2 Examination",
      passed,
      ResultText(passed, interview),
      if |wp| <= 3 then wp else wp[..3])
  }

  /** The certificate as the modal renders it, with the mis-encoded interview test. */
  function CertificateAsWritten(report: Report): Certificate {
    CertificateFor(report, IsInterviewAsWritten(report.examTopicTitle))
  }

  /** The certificate with the interview test spelled as intended. */
  function CertificateOf(report: Report): Certificate {
    CertificateFor(report, IsInterview(report.examTopicTitle))
  }

  /** A German job-interview report scoring between 6 and 7 passes as a plain "Zertifikat"
    * as written, where the intended test fails it as an interview. */
  lemma GermanInterviewCertificate(report: Report)
    requires report.examTopicTitle == Some(GermanInterviewTitle)
    requires 6.0 <= report.evaluation.scores.overall < 7.0
    ensures CertificateAsWritten(report).passed
    ensures CertificateAsWritten(report).title == "Zertifikat"
    ensures CertificateAsWritten(report).resultText == "Passed (Bestanden)"
    ensures !CertificateOf(report).passed
    ensures CertificateOf(report).title == "Interview Result"
    ensures CertificateOf(report).resultText == "Not Selected"
  {
    GermanInterviewTitleCase();
  }
}
