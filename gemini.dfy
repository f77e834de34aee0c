/** The deterministic parts of geminiService.ts: the transcript formatting sent for
  * evaluation, how a service response becomes a result or the single failure message,
  * and the level / track selection and fallback of the exam-topic generator. The network
  * calls themselves are parameters. */
module Gemini {
  import opened Wrappers
  import opened Text
  import opened Transcript
  import Profiles

  // ----- Decimal numerals -----

  /** The decimal digit character for `d`. */
  function Digit(d: nat): char
    requires d < 10
  {
    ('0' as int + d) as char
  }

  /** A turn index as JavaScript's template literal writes it: decimal, no leading zeros. */
  function NatToString(n: nat): (r: string)
    ensures r != [] && (|r| > 1 ==> r[0] != '0')
    ensures forall i :: 0 <= i < |r| ==> '0' <= r[i] <= '9'
    decreases n
  {
    if n < 10 then [Digit(n)] else NatToString(n / 10) + [Digit(n % 10)]
  }

  /** Reads a decimal numeral back. */
  function ParseNat(s: string): nat
    requires forall i :: 0 <= i < |s| ==> '0' <= s[i] <= '9'
  {
    if s == [] then 0 else 10 * ParseNat(s[..|s| - 1]) + (s[|s| - 1] as int - '0' as int)
  }

  /** Different turn indices are written differently: reading the numeral gives the index back. */
  lemma {:induction false} NatToStringRoundTrip(n: nat)
    ensures ParseNat(NatToString(n)) == n
    decreases n
  {
    var r := NatToString(n);
    if n >= 10 {
      NatToStringRoundTrip(n / 10);
      assert r[..|r| - 1] == NatToString(n / 10);
    }
  }

  // ----- Transcript for the evaluation prompt -----

  function PromptLabel(s: Speaker): string {
    if s == User then "Student" else "Tutor"
  }

  /** Line i of the prompt's transcript. */
  function PromptLine(i: nat, t: Turn): string {
    "[Turn " + NatToString(i) + "] " + PromptLabel(t.speaker) + ": " + t.text
  }

  /** The lines for `ts`, numbered from `first`. */
  function PromptLines(ts: seq<Turn>, first: nat): (r: seq<string>)
    ensures |r| == |ts|
    ensures forall i :: 0 <= i < |ts| ==> r[i] == PromptLine(first + i, ts[i])
  {
    if ts == [] then [] else [PromptLine(first, ts[0])] + PromptLines(ts[1..], first + 1)
  }

  /** `conversationText`: one numbered line per turn, newline-separated. */
  function ConversationText(ts: seq<Turn>): string {
    Join(PromptLines(ts, 0), "\n")
  }

  /** A further turn adds one newline and its line numbered by its position; there is no
    * trailing newline. */
  lemma ConversationTextAppend(ts: seq<Turn>, t: Turn)
    ensures ConversationText(ts + [t]) ==
              (if ts == [] then PromptLine(0, t) else ConversationText(ts) + "\n" + PromptLine(|ts|, t))
  {
    assert PromptLines(ts + [t], 0) == PromptLines(ts, 0) + [PromptLine(|ts|, t)];
    if ts != [] {
      JoinSnoc(PromptLines(ts, 0), PromptLine(|ts|, t), "\n");
    }
  }

  /** Line i carries the index i of its turn and that turn's speaker label and text. */
  lemma PromptLineParts(i: nat, t: Turn)
    ensures var line := PromptLine(i, t);
            var num := NatToString(i);
            line[..6] == "[Turn " && line[6..6 + |num|] == num && ParseNat(line[6..6 + |num|]) == i &&
            line[6 + |num|..8 + |num|] == "] " && line[|line| - |t.text|..] == t.text
  {
    PromptLineHead(i, t);
    PromptLineTail(i, t);
  }

  lemma PromptLineHead(i: nat, t: Turn)
    ensures var line := PromptLine(i, t);
            var num := NatToString(i);
            line[..6] == "[Turn " && line[6..6 + |num|] == num && ParseNat(line[6..6 + |num|]) == i
  {
    NatToStringRoundTrip(i);
  }

  lemma PromptLineTail(i: nat, t: Turn)
    ensures var line := PromptLine(i, t);
            var num := NatToString(i);
            line[6 + |num|..8 + |num|] == "] " && line[|line| - |t.text|..] == t.text
  {
  }

  // ----- Service responses -----

  const FeedbackFailure := "Failed to generate feedback."
  const WritingFeedbackFailure := "Failed to generate feedback for the provided image."

  /** What a generation call produced: it failed (threw), or it answered with a text that may
    * be missing. */
  datatype Response = CallFailed | Answered(text: Option<string>)

  /** The call answered with a text that is not blank. */
  predicate Usable(response: Response) {
    response.Answered? && response.text.Some? && !AllSpace(response.text.value)
  }

  /** How `getFeedbackOnConversation` and `getFeedbackOnWriting` turn a response into a value:
    * the text is trimmed, an empty or missing text is an error, and so is text `parse`
    * rejects; every error surfaces as the one `failure` message. */
  function ServiceResult<T>(response: Response, parse: string -> Option<T>, failure: string): (r: Result<T>)
    ensures r.Err? ==> r.message == failure
    ensures r.Ok? <==> Usable(response) && parse(Trim(response.text.value)).Some?
    ensures r.Ok? ==> parse(Trim(response.text.value)) == Some(r.value)
  {
    match response
    case CallFailed => Err(failure)
    case Answered(text) =>
      TrimEmptyIffAllSpace(text.GetOr(""));
      if text.None? || Trim(text.value) == "" then Err(failure)
      else
        match parse(Trim(text.value))
        case None => Err(failure)
        case Some(v) => Ok(v)
  }

  /** An answer made only of white space is an error whatever the parser accepts. */
  lemma BlankAnswerFails<T>(text: string, parse: string -> Option<T>, failure: string)
    requires AllSpace(text)
    ensures ServiceResult(Answered(Some(text)), parse, failure) == Err(failure)
  {
  }

  // ----- Exam topic generation -----

  /** The complexity instruction chosen by the level string. */
  datatype Complexity = Beginner | Intermediate | Expert | DefaultB2

  function ComplexityFor(level: string): (c: Complexity)
    ensures c == Beginner <==> level == "A1" || level == "A2"
    ensures c == Intermediate <==> level == "B1" || level == "B2"
    ensures c == Expert <==> level == "C1" || level == "C2"
  {
    if level == "A1" || level == "A2" then Beginner
    else if level == "B1" || level == "B2" then Intermediate
    else if level == "C1" || level == "C2" then Expert
    else DefaultB2
  }

  /** The subject-area instruction chosen by the track. */
  datatype TopicContext = Healthcare | University | GeneralLife

  function ContextFor(track: Profiles.Track): (c: TopicContext)
    ensures c == Healthcare <==> track == Profiles.Nursing
    ensures c == University <==> track == Profiles.Academic
    ensures c == GeneralLife <==> track == Profiles.General
  {
    match track
    case Nursing => Healthcare
    case Academic => University
    case General => GeneralLife
  }

  datatype ExamTopic = ExamTopic(title: string, introText: string, bulletPoints: seq<string>)

  const FallbackTopic := ExamTopic(
    "Mein liebstes Hobby",
    "Erz\U{E4}hlen Sie uns etwas \U{FC}ber sich.",
    ["Was ist Ihr Hobby?", "Warum machen Sie es?", "Wie oft?", "Mit wem?"])

  /** `generateDynamicExamTopic`'s value: the parsed topic, or the fixed fallback on any failure. */
  function TopicResult(response: Response, parse: string -> Option<ExamTopic>): (t: ExamTopic)
    ensures !Usable(response) ==> t == FallbackTopic
    ensures Usable(response) ==>
              (parse(Trim(response.text.value)).None? ==> t == FallbackTopic) &&
              (parse(Trim(response.text.value)).Some? ==> t == parse(Trim(response.text.value)).value)
  {
    match ServiceResult(response, parse, "")
    case Err(_) => FallbackTopic
    case Ok(topic) => topic
  }

  /** A failed generation still yields a topic with a title and exactly four points. */
  lemma FallbackTopicShape(parse: string -> Option<ExamTopic>)
    ensures TopicResult(CallFailed, parse) == FallbackTopic
    ensures FallbackTopic.title != "" && |FallbackTopic.bulletPoints| == 4
  {
  }
}
