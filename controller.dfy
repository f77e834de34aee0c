/** The live-conversation controller of ConversationPage.tsx and SpeakingPage.tsx: the
  * playback scheduler, the turn assembly of the transcript, session start and stop, and
  * the state machine over idle / listening / thinking / speaking.
  * The two pages are near-duplicates; one class models both, `variant` selecting the
  * lines where SpeakingPage.tsx differs. */
module Controller {
  import opened Wrappers
  import opened Text
  import opened Transcript
  import opened Reports
  import opened ScenarioCatalogue
  import Pcm

  datatype AiState = Idle | Listening | Thinking | Speaking

  datatype Variant = ConversationPage | SpeakingPage

  /** One inbound server message; every part is optional and they are handled in this order:
    * output text, input text, turn-complete, audio, interrupted. */
  datatype ServerMessage = ServerMessage(
    outputTranscription: Option<string>,
    inputTranscription: Option<string>,
    turnComplete: bool,
    audio: Option<string>,
    interrupted: bool)

  /** The message carries a non-empty audio chunk. */
  predicate HasAudio(msg: ServerMessage) {
    msg.audio.Some? && msg.audio.value != ""
  }

  /** A started playback source: its id, start time on the output clock and duration. */
  datatype Playback = Playback(source: nat, start: real, duration: real)

  const FeedbackFailed := "Feedback generation failed."
  const ConnectionLost := "Connection lost."
  const MicrophoneDenied := "Microphone access denied."

  // ----- Playback scheduling -----

  /** Where a chunk starts: the next free time, moved up to the clock if it has fallen behind. */
  function StartTime(nextStartTime: real, now: real): real {
    if nextStartTime < now then now else nextStartTime
  }

  /** A chunk never starts before the clock, nor before the previous chunk has finished;
    * it starts exactly when the previous one ends unless the clock has already passed that. */
  lemma StartTimeSpec(nextStartTime: real, now: real)
    ensures StartTime(nextStartTime, now) >= now && StartTime(nextStartTime, now) >= nextStartTime
    ensures StartTime(nextStartTime, now) == nextStartTime <==> now <= nextStartTime
  {
  }

  /** Two chunks scheduled one after the other never overlap, and are back to back (no gap)
    * when the clock has not passed the end of the first by the time the second arrives. */
  lemma ConsecutiveChunks(next0: real, now1: real, d1: real, now2: real)
    requires now1 <= now2
    ensures var s1 := StartTime(next0, now1);
            var s2 := StartTime(s1 + d1, now2);
            s2 >= s1 + d1 && (now2 <= s1 + d1 ==> s2 == s1 + d1)
  {
  }

  // ----- Turn assembly -----

  /** The turn one buffer contributes: its trimmed text, when that is non-empty. */
  function TurnOf(speaker: Speaker, buffer: string): seq<Turn> {
    var text := Trim(buffer);
    if text != "" then [Turn(speaker, text)] else []
  }

  /** The turns a turn-complete marker emits: the user's turn, then the ai's. */
  function NewTurns(inputBuffer: string, outputBuffer: string): seq<Turn> {
    TurnOf(User, inputBuffer) + TurnOf(Ai, outputBuffer)
  }

  /** The `newTurns` array of the turn-complete handler, pushed step by step: the trimmed
    * user text, then the trimmed ai text, each only when non-empty. */
  method AssembleTurns(inputBuffer: string, outputBuffer: string) returns (newTurns: seq<Turn>)
    ensures newTurns == NewTurns(inputBuffer, outputBuffer)
    ensures forall i :: 0 <= i < |newTurns| ==> WellFormedTurn(newTurns[i])
  {
    var finalUserInput := Trim(inputBuffer);
    var finalModelOutput := Trim(outputBuffer);
    newTurns := [];
    if finalUserInput != "" {
      newTurns := newTurns + [Turn(User, finalUserInput)];
    }
    assert newTurns == TurnOf(User, inputBuffer);
    if finalModelOutput != "" {
      newTurns := newTurns + [Turn(Ai, finalModelOutput)];
    }
    assert newTurns == NewTurns(inputBuffer, outputBuffer);
    NewTurnsWellFormed(inputBuffer, outputBuffer);
  }

  /** A buffer after a message part: the part's text appended when the part is present. */
  function Absorb(buffer: string, part: Option<string>): (r: string)
    ensures buffer <= r
    ensures part.Some? ==> r[|buffer|..] == part.value
    ensures part.None? ==> r == buffer
  {
    if part.Some? then buffer + part.value else buffer
  }

  /** A finalised turn holds non-empty text with no white space at either end. */
  predicate WellFormedTurn(t: Turn) {
    t.text != "" && !IsSpace(t.text[0]) && !IsSpace(t.text[|t.text| - 1])
  }

  /** Appending well-formed turns to a well-formed transcript keeps it well formed. */
  lemma AppendWellFormed(t: seq<Turn>, n: seq<Turn>)
    requires forall i :: 0 <= i < |t| ==> WellFormedTurn(t[i])
    requires forall i :: 0 <= i < |n| ==> WellFormedTurn(n[i])
    ensures forall i :: 0 <= i < |t + n| ==> WellFormedTurn((t + n)[i])
  {
    forall i | 0 <= i < |t + n| ensures WellFormedTurn((t + n)[i]) {
      if i < |t| { assert (t + n)[i] == t[i]; } else { assert (t + n)[i] == n[i - |t|]; }
    }
  }

  /** A buffer contributes no turn exactly when it is all white space, and otherwise one
    * well-formed turn of its speaker. */
  lemma TurnOfSpec(speaker: Speaker, buffer: string)
    ensures var r := TurnOf(speaker, buffer);
            |r| <= 1 && (r == [] <==> AllSpace(buffer)) &&
            (r != [] ==> r[0].speaker == speaker && WellFormedTurn(r[0]))
  {
    TrimEmptyIffAllSpace(buffer);
  }

  /** At most two turns, each well formed; none exactly when both buffers hold only white
    * space; the first is the user's iff the user buffer had visible text, and the last is
    * the ai's iff the ai buffer had. */
  lemma NewTurnsSpec(inputBuffer: string, outputBuffer: string)
    ensures var r := NewTurns(inputBuffer, outputBuffer);
            |r| <= 2 &&
            (r == [] <==> AllSpace(inputBuffer) && AllSpace(outputBuffer)) &&
            (forall i :: 0 <= i < |r| ==> WellFormedTurn(r[i])) &&
            (!AllSpace(inputBuffer) <==> |r| > 0 && r[0].speaker == User) &&
            (!AllSpace(outputBuffer) <==> |r| > 0 && r[|r| - 1].speaker == Ai)
  {
    NewTurnsCount(inputBuffer, outputBuffer);
    NewTurnsWellFormed(inputBuffer, outputBuffer);
    NewTurnsOrder(inputBuffer, outputBuffer);
  }

  lemma NewTurnsCount(inputBuffer: string, outputBuffer: string)
    ensures var r := NewTurns(inputBuffer, outputBuffer);
            |r| <= 2 && (r == [] <==> AllSpace(inputBuffer) && AllSpace(outputBuffer))
  {
    TurnOfSpec(User, inputBuffer);
    TurnOfSpec(Ai, outputBuffer);
  }

  lemma NewTurnsWellFormed(inputBuffer: string, outputBuffer: string)
    ensures var r := NewTurns(inputBuffer, outputBuffer);
            forall i :: 0 <= i < |r| ==> WellFormedTurn(r[i])
  {
    TurnOfSpec(User, inputBuffer);
    TurnOfSpec(Ai, outputBuffer);
    UserThenAi(TurnOf(User, inputBuffer), TurnOf(Ai, outputBuffer));
  }

  lemma NewTurnsOrder(inputBuffer: string, outputBuffer: string)
    ensures var r := NewTurns(inputBuffer, outputBuffer);
            (!AllSpace(inputBuffer) <==> |r| > 0 && r[0].speaker == User) &&
            (!AllSpace(outputBuffer) <==> |r| > 0 && r[|r| - 1].speaker == Ai)
  {
    TurnOfSpec(User, inputBuffer);
    TurnOfSpec(Ai, outputBuffer);
    UserThenAi(TurnOf(User, inputBuffer), TurnOf(Ai, outputBuffer));
  }

  /** At most one user turn followed by at most one ai turn: the user's comes first and the
    * ai's last, each present exactly when its part is non-empty. */
  lemma UserThenAi(u: seq<Turn>, a: seq<Turn>)
    requires |u| <= 1 && (u != [] ==> u[0].speaker == User && WellFormedTurn(u[0]))
    requires |a| <= 1 && (a != [] ==> a[0].speaker == Ai && WellFormedTurn(a[0]))
    ensures var r := u + a;
            |r| <= 2 && (r == [] <==> u == [] && a == []) &&
            (forall i :: 0 <= i < |r| ==> WellFormedTurn(r[i])) &&
            (u != [] <==> |r| > 0 && r[0].speaker == User) &&
            (a != [] <==> |r| > 0 && r[|r| - 1].speaker == Ai)
  {
    forall i | 0 <= i < |u + a| ensures WellFormedTurn((u + a)[i]) {
      if i < |u| { assert (u + a)[i] == u[0]; } else { assert (u + a)[i] == a[0]; }
    }
  }

  /** Partial texts "Hal" + "lo" and "Wie" + " geht's" become exactly one user and one ai turn. */
  lemma TurnAssemblyExample()
    ensures NewTurns("Hal" + "lo", "Wie" + " geht's") == [Turn(User, "Hallo"), Turn(Ai, "Wie geht's")]
  {
    var user := "Hal" + "lo";
    var ai := "Wie" + " geht's";
    assert user == "Hallo" && ai == "Wie geht's";
    assert !IsSpace(user[0]) && !IsSpace(user[|user| - 1]);
    assert !IsSpace(ai[0]) && !IsSpace(ai[|ai| - 1]);
    assert TrimStart(user) == user && TrimEnd(user) == user;
    assert TrimStart(ai) == ai && TrimEnd(ai) == ai;
  }

  // ----- Report construction (SpeakingPage) -----

  /** `Math.round`: the nearest integer, halves rounded up. */
  function Round(x: real): int {
    (x + 0.5).Floor
  }

  lemma RoundIsNearest(x: real)
    ensures -0.5 < Round(x) as real - x <= 0.5
  {
  }

  /** `scenario.dynamicTopic?.title || scenario.title`. */
  function ExamTopicTitle(s: Scenario): string {
    if s.dynamicTopicTitle.Some? && s.dynamicTopicTitle.value != "" then s.dynamicTopicTitle.value else s.title
  }

  /** The report ConversationPage.tsx stores: the evaluation and the transcript, nothing more. */
  function ConversationReport(id: string, today: int, e: Evaluation, transcript: seq<Turn>): (r: Report)
    ensures r.id == id && r.date == today && r.evaluation == e && r.transcript == transcript
    ensures !r.isExamCertificate && r.examTopicTitle == None && r.xpEarned == None && r.scenarioId == None
  {
    Report(id, today, e, transcript, false, None, None, None)
  }

  /** The report SpeakingPage.tsx hands on. Besides the evaluation and the transcript it
    * records whether the scenario is exam preparation, its topic title and id, and the XP:
    * the integer nearest to five per overall score point plus two per turn. */
  function SpeakingReport(s: Scenario, id: string, today: int, e: Evaluation, transcript: seq<Turn>): (r: Report)
    ensures r.id == id && r.date == today && r.evaluation == e && r.transcript == transcript
    ensures r.isExamCertificate == s.isExamPrep && r.scenarioId == Some(s.id)
    ensures r.examTopicTitle == Some(ExamTopicTitle(s))
    ensures r.xpEarned.Some? &&
            -0.5 < r.xpEarned.value as real - (e.scores.overall * 5.0 + (2 * |transcript|) as real) <= 0.5
  {
    var x := e.scores.overall * 5.0 + (|transcript| * 2) as real;
    RoundIsNearest(x);
    Report(id, today, e, transcript, s.isExamPrep, Some(ExamTopicTitle(s)), Some(Round(x)), Some(s.id))
  }

  // ----- The controller -----

  class Session {
    const variant: Variant
    /** The model client exists (an API key was configured). */
    const hasClient: bool
    /** The 24 kHz output audio context exists. */
    const hasOutputContext: bool
    /** The selected scenario (a prop on SpeakingPage, a menu choice on ConversationPage). */
    var scenario: Option<Scenario>

    var state: AiState
    var isRecording: bool
    /** Only ConversationPage.tsx keeps this flag; SpeakingPage.tsx reads `isRecording` instead. */
    var isSessionActive: bool
    /** A live session handle exists (`sessionPromiseRef.current`) and frames are captured. */
    var sessionOpen: bool

    var nextStartTime: real
    var sources: set<nat>
    var nextSourceId: nat

    /** The `aiState` of the render in which the running session was started. The session's
      * callbacks were built in that render, so its message handler calls that render's
      * `handlePlayback`, whose listening guard reads this value and not the current state. */
    var startState: AiState
    /** The activity flag of that same render (`isSessionActive`; `isRecording` on
      * SpeakingPage.tsx), which the `ended` listeners of the session's sources read. */
    var startActive: bool

    var inputBuffer: string
    var outputBuffer: string
    var transcript: seq<Turn>

    var error: Option<string>
    var feedbackReport: Option<Report>
    /** Every transcript handed to the evaluation service, in order. */
    var evaluationRequests: seq<seq<Turn>>
    /** Reports ConversationPage.tsx appends to stored reports. */
    var storedReports: seq<Report>
    /** Reports SpeakingPage.tsx hands to `onSessionComplete`. */
    var completedSessions: seq<Report>

    ghost predicate Valid()
      reads this
    {
      nextStartTime >= 0.0 &&
      (!hasOutputContext ==> sources == {} && nextStartTime == 0.0) &&
      (forall id :: id in sources ==> id < nextSourceId) &&
      (variant == SpeakingPage ==> !isSessionActive && scenario.Some?) &&
      (forall i :: 0 <= i < |transcript| ==> WellFormedTurn(transcript[i]))
    }

    constructor (variant: Variant, hasClient: bool, hasOutputContext: bool, scenario: Option<Scenario>)
      requires variant == SpeakingPage ==> scenario.Some?
      ensures Valid()
      ensures this.variant == variant && this.hasClient == hasClient
      ensures this.hasOutputContext == hasOutputContext && this.scenario == scenario
      ensures state == Idle && !isRecording && !isSessionActive && !sessionOpen
      ensures nextStartTime == 0.0 && sources == {} && nextSourceId == 0
      ensures startState == Idle && !startActive
      ensures inputBuffer == "" && outputBuffer == "" && transcript == []
      ensures error == None && feedbackReport == None
      ensures evaluationRequests == [] && storedReports == [] && completedSessions == []
    {
      this.variant := variant;
      this.hasClient := hasClient;
      this.hasOutputContext := hasOutputContext;
      this.scenario := scenario;
      state := Idle;
      isRecording := false;
      isSessionActive := false;
      sessionOpen := false;
      nextStartTime := 0.0;
      sources := {};
      nextSourceId := 0;
      startState := Idle;
      startActive := false;
      inputBuffer := "";
      outputBuffer := "";
      transcript := [];
      error := None;
      feedbackReport := None;
      evaluationRequests := [];
      storedReports := [];
      completedSessions := [];
    }

    /** `stopPlayback`: stops every active source, empties the set and resets the clock. */
    method StopPlayback()
      requires Valid()
      modifies this`sources, this`nextStartTime
      ensures Valid()
      ensures sources == {} && nextStartTime == 0.0
    {
      if hasOutputContext {
        sources := {};
        nextStartTime := 0.0;
      }
    }

    /** Chunks reach the speakers: an output context exists and the render that started the
      * session was not listening. */
    function Plays(): bool
      reads this
    {
      hasOutputContext && startState != Listening
    }

    /** `handlePlayback`, as the session's message handler reaches it, for a chunk whose
      * decoding yields a buffer of `decoded` seconds (`None` when decoding fails), at
      * output-clock time `now`. Dropped when the render that started the session was
      * listening; otherwise the state becomes speaking and, if decoded, one new source is
      * scheduled at the clamped next start time, which then advances by the buffer's
      * duration. */
    method HandlePlayback(now: real, decoded: Option<real>) returns (played: Option<Playback>)
      requires Valid() && now >= 0.0
      requires decoded.Some? ==> decoded.value >= 0.0
      modifies this`state, this`nextStartTime, this`sources, this`nextSourceId
      ensures Valid()
      ensures !Plays() ==>
                played == None && state == old(state) && nextStartTime == old(nextStartTime) &&
                sources == old(sources) && nextSourceId == old(nextSourceId)
      ensures Plays() ==>
                state == Speaking &&
                (decoded.None? ==> played == None && sources == old(sources) &&
                                   nextStartTime == StartTime(old(nextStartTime), now)) &&
                (decoded.Some? ==> played.Some? &&
                                   played.value.start == StartTime(old(nextStartTime), now) &&
                                   played.value.duration == decoded.value &&
                                   played.value.source !in old(sources) &&
                                   sources == old(sources) + {played.value.source} &&
                                   nextStartTime == played.value.start + decoded.value)
    {
      played := None;
      if !hasOutputContext {
        return;
      }
      if startState == Listening {
        return;
      }
      state := Speaking;
      if nextStartTime < now {
        nextStartTime := now;
      }
      if decoded.Some? {
        var id := nextSourceId;
        nextSourceId := nextSourceId + 1;
        played := Some(Playback(id, nextStartTime, decoded.value));
        nextStartTime := nextStartTime + decoded.value;
        sources := sources + {id};
      }
    }

    /** The `ended` listener of a source as written: removes it; once none is left, the state
      * becomes listening if the render that started the session was active and idle
      * otherwise. That render precedes the start, so a first session goes idle here while
      * it is still running. */
    method SourceEndedAsWritten(id: nat)
      requires Valid()
      modifies this`sources, this`state
      ensures Valid()
      ensures sources == old(sources) - {id}
      ensures sources == {} ==> state == (if startActive then Listening else Idle)
      ensures sources != {} ==> state == old(state)
    {
      sources := sources - {id};
      if sources == {} {
        state := if startActive then Listening else Idle;
      }
    }

    /** The `ended` listener as evidently intended: removes the source; once none is left,
      * the state returns to listening while the session is active and to idle otherwise. */
    method SourceEnded(id: nat)
      requires Valid()
      modifies this`sources, this`state
      ensures Valid()
      ensures sources == old(sources) - {id}
      ensures sources == {} ==> state == (if Active() then Listening else Idle)
      ensures sources != {} ==> state == old(state)
    {
      sources := sources - {id};
      if sources == {} {
        state := if Active() then Listening else Idle;
      }
    }

    /** Turn-complete: appends the non-empty trimmed user text, then the ai text, and resets
      * both in-flight buffers. */
    method CompleteTurn()
      requires Valid()
      modifies this`transcript, this`inputBuffer, this`outputBuffer
      ensures Valid()
      ensures transcript == old(transcript) + NewTurns(old(inputBuffer), old(outputBuffer))
      ensures inputBuffer == "" && outputBuffer == ""
    {
      var newTurns := AssembleTurns(inputBuffer, outputBuffer);
      AppendWellFormed(transcript, newTurns);
      transcript := transcript + newTurns;
      inputBuffer := "";
      outputBuffer := "";
    }

    /** `onmessage`: output and input text are appended to their buffers, then turn-complete,
      * audio and interrupted are handled in that order. */
    method HandleMessage(msg: ServerMessage, now: real, decoded: Option<real>) returns (played: Option<Playback>)
      requires Valid() && now >= 0.0
      requires decoded.Some? ==> decoded.value >= 0.0
      modifies this`state, this`nextStartTime, this`sources, this`nextSourceId
      modifies this`transcript, this`inputBuffer, this`outputBuffer
      ensures Valid()
      ensures var input := Absorb(old(inputBuffer), msg.inputTranscription);
              var output := Absorb(old(outputBuffer), msg.outputTranscription);
              (msg.turnComplete ==> transcript == old(transcript) + NewTurns(input, output) &&
                                    inputBuffer == "" && outputBuffer == "") &&
              (!msg.turnComplete ==> transcript == old(transcript) && inputBuffer == input &&
                                     outputBuffer == (if msg.interrupted then "" else output))
      ensures msg.interrupted ==> sources == {} && nextStartTime == 0.0 && state == Listening
      ensures !HasAudio(msg) || !Plays() ==> played == None
      ensures !msg.interrupted && (!HasAudio(msg) || !Plays()) ==>
                state == old(state) && sources == old(sources) && nextStartTime == old(nextStartTime)
      ensures HasAudio(msg) && Plays() ==>
                (played.Some? <==> decoded.Some?) &&
                (played.Some? ==> played.value.start == StartTime(old(nextStartTime), now) &&
                                  played.value.duration == decoded.value &&
                                  played.value.source !in old(sources))
      ensures HasAudio(msg) && Plays() && !msg.interrupted ==>
                state == Speaking &&
                (decoded.None? ==> sources == old(sources) && nextStartTime == StartTime(old(nextStartTime), now)) &&
                (decoded.Some? ==> sources == old(sources) + {played.value.source} &&
                                   nextStartTime == played.value.start + decoded.value)
    {
      ReceiveText(msg);
      played := ReceiveSignals(msg, now, decoded);
    }

    /** The text parts of a message, and its turn-complete marker. */
    method ReceiveText(msg: ServerMessage)
      requires Valid()
      modifies this`transcript, this`inputBuffer, this`outputBuffer
      ensures Valid()
      ensures var input := Absorb(old(inputBuffer), msg.inputTranscription);
              var output := Absorb(old(outputBuffer), msg.outputTranscription);
              (msg.turnComplete ==> transcript == old(transcript) + NewTurns(input, output) &&
                                    inputBuffer == "" && outputBuffer == "") &&
              (!msg.turnComplete ==> transcript == old(transcript) && inputBuffer == input &&
                                     outputBuffer == output)
    {
      outputBuffer := Absorb(outputBuffer, msg.outputTranscription);
      inputBuffer := Absorb(inputBuffer, msg.inputTranscription);
      if msg.turnComplete {
        CompleteTurn();
      }
    }

    /** The audio part of a message, then its interrupted marker. */
    method ReceiveSignals(msg: ServerMessage, now: real, decoded: Option<real>) returns (played: Option<Playback>)
      requires Valid() && now >= 0.0
      requires decoded.Some? ==> decoded.value >= 0.0
      modifies this`state, this`nextStartTime, this`sources, this`nextSourceId, this`outputBuffer
      ensures Valid()
      ensures outputBuffer == (if msg.interrupted then "" else old(outputBuffer))
      ensures msg.interrupted ==> sources == {} && nextStartTime == 0.0 && state == Listening
      ensures !HasAudio(msg) || !Plays() ==> played == None
      ensures !msg.interrupted && (!HasAudio(msg) || !Plays()) ==>
                state == old(state) && sources == old(sources) && nextStartTime == old(nextStartTime)
      ensures HasAudio(msg) && Plays() ==>
                (played.Some? <==> decoded.Some?) &&
                (played.Some? ==> played.value.start == StartTime(old(nextStartTime), now) &&
                                  played.value.duration == decoded.value &&
                                  played.value.source !in old(sources))
      ensures HasAudio(msg) && Plays() && !msg.interrupted ==>
                state == Speaking &&
                (decoded.None? ==> sources == old(sources) && nextStartTime == StartTime(old(nextStartTime), now)) &&
                (decoded.Some? ==> sources == old(sources) + {played.value.source} &&
                                   nextStartTime == played.value.start + decoded.value)
    {
      played := None;
      if HasAudio(msg) {
        played := HandlePlayback(now, decoded);
      }
      if msg.interrupted {
        Interrupt();
      }
    }

    /** The interrupted marker: playback is flushed, the state returns to listening and the
      * partial ai text is discarded. */
    method Interrupt()
      requires Valid()
      modifies this`sources, this`nextStartTime, this`state, this`outputBuffer
      ensures Valid()
      ensures sources == {} && nextStartTime == 0.0 && state == Listening && outputBuffer == ""
    {
      StopPlayback();
      state := Listening;
      outputBuffer := "";
    }

    /** `startRecording`, with `setupSucceeds` standing for the microphone and audio-context
      * setup. ConversationPage.tsx starts whenever a client and a scenario exist;
      * SpeakingPage.tsx also refuses while already recording. */
    method StartRecording(setupSucceeds: bool)
      requires Valid()
      modifies this`error, this`transcript, this`isRecording, this`isSessionActive, this`state
      modifies this`inputBuffer, this`outputBuffer, this`sessionOpen, this`startState, this`startActive
      ensures Valid()
      ensures old(Refuses()) ==>
                error == old(error) && transcript == old(transcript) &&
                isRecording == old(isRecording) && isSessionActive == old(isSessionActive) &&
                state == old(state) && sessionOpen == old(sessionOpen) &&
                inputBuffer == old(inputBuffer) && outputBuffer == old(outputBuffer) &&
                startState == old(startState) && startActive == old(startActive)
      ensures !old(Refuses()) ==>
                transcript == [] && isSessionActive == (variant == ConversationPage || old(isSessionActive))
      ensures !old(Refuses()) && setupSucceeds ==>
                error == None && isRecording && state == Listening && sessionOpen &&
                inputBuffer == "" && outputBuffer == "" &&
                startState == old(state) && startActive == old(Active())
      ensures !old(Refuses()) && !setupSucceeds ==>
                !isRecording && state == Idle && sessionOpen == old(sessionOpen) &&
                inputBuffer == old(inputBuffer) && outputBuffer == old(outputBuffer) &&
                startState == old(startState) && startActive == old(startActive) &&
                error == (if variant == ConversationPage then Some(MicrophoneDenied) else None)
    {
      if Refuses() {
        return;
      }
      var renderState, renderActive := state, Active();
      Begin();
      if setupSucceeds {
        Connect(renderState, renderActive);
      } else {
        SetupFailed();
      }
    }

    /** Whether `startRecording` returns at once: no client, no scenario, or (SpeakingPage.tsx
      * only) already recording. */
    function Refuses(): bool
      reads this
    {
      !hasClient || scenario.None? || (variant == SpeakingPage && isRecording)
    }

    /** The page's flag for a running session: `isSessionActive`, or `isRecording` on
      * SpeakingPage.tsx. */
    function Active(): bool
      reads this
    {
      if variant == ConversationPage then isSessionActive else isRecording
    }

    /** The state updates `startRecording` makes before the microphone setup. */
    method Begin()
      requires Valid()
      modifies this`error, this`transcript, this`isRecording, this`isSessionActive, this`state
      ensures Valid()
      ensures error == None && transcript == [] && isRecording && state == Listening
      ensures isSessionActive == (variant == ConversationPage || old(isSessionActive))
    {
      error := None;
      transcript := [];
      isRecording := true;
      if variant == ConversationPage {
        isSessionActive := true;
      }
      state := Listening;
    }

    /** A successful setup: the buffers are fresh, the session is open, and its callbacks
      * keep the values of the render that started it. */
    method Connect(renderState: AiState, renderActive: bool)
      requires Valid()
      modifies this`startState, this`startActive, this`inputBuffer, this`outputBuffer, this`sessionOpen
      ensures Valid()
      ensures startState == renderState && startActive == renderActive
      ensures inputBuffer == "" && outputBuffer == "" && sessionOpen
    {
      startState := renderState;
      startActive := renderActive;
      inputBuffer := "";
      outputBuffer := "";
      sessionOpen := true;
    }

    /** A failed setup: not recording, idle, and on ConversationPage.tsx the microphone
      * message. */
    method SetupFailed()
      requires Valid()
      modifies this`error, this`isRecording, this`state
      ensures Valid()
      ensures !isRecording && state == Idle
      ensures error == (if variant == ConversationPage then Some(MicrophoneDenied) else old(error))
    {
      if variant == ConversationPage {
        error := Some(MicrophoneDenied);
      }
      isRecording := false;
      state := Idle;
    }

    /** Whether stopping asks for feedback: ConversationPage.tsx needs one turn,
      * SpeakingPage.tsx more than one. */
    function WantsFeedback(shouldGetFeedback: bool): bool
      reads this
    {
      shouldGetFeedback && |transcript| > (if variant == ConversationPage then 0 else 1)
    }

    /** What the feedback step of `stopRecording` leaves behind. When feedback is wanted the
      * transcript goes to the evaluation service; its answer `evaluation` (`None` when it
      * fails) either becomes the page's report, stored (ConversationPage.tsx) or handed to
      * the session-complete callback (SpeakingPage.tsx), or sets the failure message.
      * Without feedback nothing is reported, and the transcript is discarded exactly when
      * feedback was not asked for. */
    twostate predicate FeedbackRecorded(shouldGetFeedback: bool, evaluation: Option<Evaluation>, reportId: string, today: int)
      reads this
    {
      transcript == (if shouldGetFeedback then old(transcript) else []) &&
      if old(WantsFeedback(shouldGetFeedback)) then
        evaluationRequests == old(evaluationRequests) + [old(transcript)] &&
        match evaluation
        case None =>
          error == Some(FeedbackFailed) && feedbackReport == old(feedbackReport) &&
          storedReports == old(storedReports) && completedSessions == old(completedSessions)
        case Some(e) =>
          error == old(error) &&
          if variant == ConversationPage then
            feedbackReport == Some(ConversationReport(reportId, today, e, old(transcript))) &&
            storedReports == old(storedReports) + [feedbackReport.value] &&
            completedSessions == old(completedSessions)
          else
            old(scenario).Some? &&
            feedbackReport == Some(SpeakingReport(old(scenario).value, reportId, today, e, old(transcript))) &&
            completedSessions == old(completedSessions) + [feedbackReport.value] &&
            storedReports == old(storedReports)
      else
        evaluationRequests == old(evaluationRequests) && error == old(error) &&
        feedbackReport == old(feedbackReport) && storedReports == old(storedReports) &&
        completedSessions == old(completedSessions)
    }

    /** The feedback step of `stopRecording`. */
    method RecordFeedback(shouldGetFeedback: bool, evaluation: Option<Evaluation>, reportId: string, today: int)
      requires Valid()
      modifies this`transcript, this`error, this`feedbackReport
      modifies this`evaluationRequests, this`storedReports, this`completedSessions
      ensures Valid()
      ensures FeedbackRecorded(shouldGetFeedback, evaluation, reportId, today)
    {
      if WantsFeedback(shouldGetFeedback) {
        evaluationRequests := evaluationRequests + [transcript];
        match evaluation
        case None =>
          error := Some(FeedbackFailed);
        case Some(feedbackData) =>
          if variant == ConversationPage {
            var newReport := ConversationReport(reportId, today, feedbackData, transcript);
            storedReports := storedReports + [newReport];
            feedbackReport := Some(newReport);
          } else {
            var newReport := SpeakingReport(scenario.value, reportId, today, feedbackData, transcript);
            completedSessions := completedSessions + [newReport];
            feedbackReport := Some(newReport);
          }
      } else if !shouldGetFeedback {
        transcript := [];
      }
    }

    /** The tear-down step of `stopRecording`: not recording, session closed, playback
      * flushed, and the state thinking while feedback is awaited. */
    method Shutdown()
      requires Valid()
      modifies this`isRecording, this`isSessionActive, this`state, this`sessionOpen
      modifies this`sources, this`nextStartTime
      ensures Valid()
      ensures !isRecording && !isSessionActive && !sessionOpen && state == Thinking
      ensures sources == {} && nextStartTime == 0.0
    {
      isRecording := false;
      if variant == ConversationPage {
        isSessionActive := false;
      }
      state := Thinking;
      sessionOpen := false;
      StopPlayback();
    }

    /** `stopRecording`, once closing the live session has succeeded: tears the session down,
      * records the feedback outcome and ends idle. SpeakingPage.tsx ignores the call when
      * not recording. */
    method StopRecording(shouldGetFeedback: bool, evaluation: Option<Evaluation>, reportId: string, today: int)
      requires Valid()
      modifies this`isRecording, this`isSessionActive, this`state, this`sessionOpen
      modifies this`sources, this`nextStartTime, this`transcript, this`error, this`feedbackReport
      modifies this`evaluationRequests, this`storedReports, this`completedSessions
      ensures Valid()
      ensures variant == SpeakingPage && !old(isRecording) ==> unchanged(this)
      ensures variant == ConversationPage || old(isRecording) ==>
                state == Idle && !isRecording && !isSessionActive && !sessionOpen &&
                sources == {} && nextStartTime == 0.0 &&
                FeedbackRecorded(shouldGetFeedback, evaluation, reportId, today)
    {
      if variant == SpeakingPage && !isRecording {
        return;
      }
      Shutdown();
      RecordFeedback(shouldGetFeedback, evaluation, reportId, today);
      state := Idle;
    }

    /** `onerror` as written. ConversationPage.tsx reports the lost connection and stops
      * without feedback. SpeakingPage.tsx calls the `stopRecording` of the render in which
      * the session started, where `isRecording` was still false, so that call returns at
      * once: only the error is set, and recording, the session, playback and the transcript
      * carry on. */
    method OnErrorAsWritten()
      requires Valid()
      modifies this`isRecording, this`isSessionActive, this`state, this`sessionOpen
      modifies this`sources, this`nextStartTime, this`transcript, this`error, this`feedbackReport
      modifies this`evaluationRequests, this`storedReports, this`completedSessions
      ensures Valid()
      ensures error == Some(ConnectionLost)
      ensures evaluationRequests == old(evaluationRequests) && completedSessions == old(completedSessions)
      ensures variant == ConversationPage ==>
                state == Idle && !isRecording && !sessionOpen && sources == {} && transcript == [] &&
                !isSessionActive && nextStartTime == 0.0 &&
                feedbackReport == old(feedbackReport) && storedReports == old(storedReports)
      ensures variant == SpeakingPage ==>
                isRecording == old(isRecording) && sessionOpen == old(sessionOpen) && state == old(state) &&
                sources == old(sources) && nextStartTime == old(nextStartTime) &&
                transcript == old(transcript) && feedbackReport == old(feedbackReport) &&
                storedReports == old(storedReports)
    {
      error := Some(ConnectionLost);
      if variant == ConversationPage {
        StopRecording(false, None, "", 0);
      }
    }

    /** `onerror` as evidently intended: reports the lost connection, then stops without
      * feedback on both pages. */
    method OnError()
      requires Valid()
      modifies this`isRecording, this`isSessionActive, this`state, this`sessionOpen
      modifies this`sources, this`nextStartTime, this`transcript, this`error, this`feedbackReport
      modifies this`evaluationRequests, this`storedReports, this`completedSessions
      ensures Valid()
      ensures error == Some(ConnectionLost)
      ensures evaluationRequests == old(evaluationRequests) && completedSessions == old(completedSessions)
      ensures variant == ConversationPage || old(isRecording) ==>
                state == Idle && !isRecording && !sessionOpen && sources == {} && transcript == [] &&
                !isSessionActive && nextStartTime == 0.0 &&
                feedbackReport == old(feedbackReport) && storedReports == old(storedReports)
    {
      error := Some(ConnectionLost);
      StopRecording(false, None, "", 0);
    }

    /** `onclose`: the state becomes idle. */
    method OnClose()
      requires Valid()
      modifies this`state
      ensures Valid()
      ensures state == Idle
    {
      state := Idle;
    }

    /** `onaudioprocess`: while the session is open, each captured frame is encoded and sent. */
    method CaptureFrame(inputData: seq<real>) returns (sent: Option<Pcm.MediaBlob>)
      ensures !sessionOpen ==> sent == None
      ensures sessionOpen ==> sent.Some? && sent.value.mimeType == Pcm.PcmMimeType &&
                              |sent.value.data| == 2 * |inputData| &&
                              Pcm.DecodePcm16(sent.value.data) == Some(Pcm.Quantize(inputData))
    {
      if !sessionOpen {
        return None;
      }
      if variant == ConversationPage {
        var blob := Pcm.EncodeFrame(inputData);
        sent := Some(blob);
      } else {
        sent := Some(Pcm.Frame(inputData));
      }
    }
  }

  // ----- Sessions end to end -----

  /** A message carrying one audio chunk and nothing else. */
  const ChunkMessage := ServerMessage(None, None, false, Some("UklGRg=="), false)

  /** A message carrying only the interrupted marker (the learner barged in). */
  const InterruptMessage := ServerMessage(None, None, false, None, true)

  /** In a session started on either page, audio is played: the first chunk starts at the
    * clock, the next one at the end of the first unless the clock has passed it, and after
    * a barge-in a new chunk starts at the clock again. */
  method PlaybackInSession(variant: Variant, s: Scenario, now1: real, d1: real, now2: real, d2: real,
                           now3: real, d3: real)
    returns (first: Option<Playback>, second: Option<Playback>, afterBargeIn: Option<Playback>)
    requires now1 >= 0.0 && now2 >= 0.0 && now3 >= 0.0
    requires d1 >= 0.0 && d2 >= 0.0 && d3 >= 0.0
    ensures first.Some? && first.value.start == now1 && first.value.duration == d1
    ensures second.Some? && second.value.start == StartTime(now1 + d1, now2)
    ensures second.value.start >= first.value.start + d1
    ensures afterBargeIn.Some? && afterBargeIn.value.start == now3
  {
    var session := new Session(variant, true, true, Some(s));
    session.StartRecording(true);
    first := session.HandleMessage(ChunkMessage, now1, Some(d1));
    second := session.HandleMessage(ChunkMessage, now2, Some(d2));
    var flushed := session.HandleMessage(InterruptMessage, now2, None);
    afterBargeIn := session.HandleMessage(ChunkMessage, now3, Some(d3));
  }

  /** As written, when the only chunk of a first session has played, the page goes idle
    * although the session is still running. */
  method LastChunkEndsIdle(variant: Variant, s: Scenario, now: real, d: real)
    returns (state: AiState, running: bool)
    requires now >= 0.0 && d >= 0.0
    ensures state == Idle && running
  {
    var session := new Session(variant, true, true, Some(s));
    session.StartRecording(true);
    var played := session.HandleMessage(ChunkMessage, now, Some(d));
    session.SourceEndedAsWritten(played.value.source);
    state, running := session.state, session.Active();
  }

  /** With the listener reading the current flag, the page returns to listening. */
  method LastChunkEndsListening(variant: Variant, s: Scenario, now: real, d: real)
    returns (state: AiState, running: bool)
    requires now >= 0.0 && d >= 0.0
    ensures state == Listening && running
  {
    var session := new Session(variant, true, true, Some(s));
    session.StartRecording(true);
    var played := session.HandleMessage(ChunkMessage, now, Some(d));
    session.SourceEnded(played.value.source);
    state, running := session.state, session.Active();
  }

  /** As written, a lost connection on the speaking page leaves it recording with the
    * session open, showing "Connection lost.". */
  method SpeakingConnectionLossAsWritten(s: Scenario) returns (recording: bool, open: bool, error: Option<string>)
    ensures recording && open && error == Some(ConnectionLost)
  {
    var session := new Session(SpeakingPage, true, true, Some(s));
    session.StartRecording(true);
    session.OnErrorAsWritten();
    recording, open, error := session.isRecording, session.sessionOpen, session.error;
  }

  /** With the intended handler, a lost connection stops the speaking page's session. */
  method SpeakingConnectionLoss(s: Scenario) returns (recording: bool, open: bool, error: Option<string>)
    ensures !recording && !open && error == Some(ConnectionLost)
  {
    var session := new Session(SpeakingPage, true, true, Some(s));
    session.StartRecording(true);
    session.OnError();
    recording, open, error := session.isRecording, session.sessionOpen, session.error;
  }
}
