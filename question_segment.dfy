/** The question-sequence segments of src/app.jsx, `Part1Component` and
    `Part3Component`: the two differ only in their questions, their ledger
    key and the completion handler they call, so one class models both.

    A segment exists while it is mounted, that is while the session's phase
    is its own; every handler requires it. The segment owns its recogniser,
    its speaker and its timer. */
module QuestionSegment {

  import opened Wrappers
  import opened Strings
  import opened TestData
  import opened Ledger
  import opened Session
  import opened Countdown
  import opened SpeechRecognition
  import opened SpeechSynthesis

  function QuestionsOf(part: QuestionPart): (qs: seq<string>)
    ensures |qs| > 0
  {
    match part
    case PartOne => Part1Questions
    case PartThree => Part3Questions
  }

  /** The timer's `seconds` input: `duration - timeSpent` for Part 1, where
      `timeSpent` stays 0, and `duration` for Part 3. */
  function DurationOf(part: QuestionPart): nat {
    match part
    case PartOne => Part1Duration - 0
    case PartThree => Part3Duration
  }

  class QuestionSegment {
    const part: QuestionPart
    const questions: seq<string>
    const session: Session
    const recognition: Recognizer
    const speech: Speaker
    const timer: ExamTimer

    var currentQuestion: nat
    var isRecording: bool
    var autoSpeech: bool
    /** The auto-speak timeout (800 ms) of the current question, if armed,
        with the utterance its closure will hand to `speak`. */
    var armedPrompt: Option<Utterance>

    ghost predicate Valid()
      reads this, session, timer
    {
      && currentQuestion < |questions|
      && timer.Valid()
      && session.Valid()
      && currentQuestion <= |ListOf(session.responses, part)|
    }

    /** The segment is on screen. */
    ghost predicate Mounted()
      reads this, session
    {
      session.phase == PhaseOf(part)
    }

    /** The auto-speak effect keyed on the question and the auto-speak
        switch: it arms a timeout for the current question only when
        auto-speak is on, speech is supported and nothing is speaking. */
    function PromptFor(q: nat): Option<Utterance>
      reads this, speech
      requires q < |questions|
    {
      if autoSpeech && speech.isSupported && !speech.isSpeaking
      then Some(Utterance(questions[q], speech.selectedVoice))
      else None
    }

    /** Mounting in the segment's own phase. The first auto-speak effect
        runs with the speech hook's first render, where support is not yet
        known, so no prompt is armed for the first question. */
    constructor(part: QuestionPart, session: Session, recognitionSupported: bool, speechSupported: bool)
      requires session.Valid() && session.phase == PhaseOf(part)
      ensures Valid() && Mounted()
      ensures this.part == part && this.session == session && questions == QuestionsOf(part)
      ensures fresh(recognition) && fresh(speech) && fresh(timer)
      ensures recognition.isSupported == recognitionSupported && !recognition.isListening && recognition.transcript == ""
      ensures speech.isSupported == speechSupported && !speech.isSpeaking && speech.scheduled == []
      ensures speech.voices == [] && speech.selectedVoice == None
      ensures timer.seconds == DurationOf(part) && timer.timeLeft == DurationOf(part) && !timer.isActive
      ensures currentQuestion == 0 && !isRecording && autoSpeech && armedPrompt == None
    {
      this.part := part;
      this.session := session;
      questions := QuestionsOf(part);
      recognition := new Recognizer(recognitionSupported);
      speech := new Speaker(speechSupported);
      timer := new ExamTimer(DurationOf(part), false);
      currentQuestion := 0;
      isRecording := false;
      autoSpeech := true;
      armedPrompt := None;
    }

    /** `handleNext`: writes the record of the current question (trimmed
        transcript) at its index, overwriting only that index, clears the
        transcript, then moves to the next question, or completes the part
        after the last one. Listening is not stopped. */
    method HandleNext()
      requires Valid() && Mounted()
      modifies this, session, recognition
      ensures Valid()
      ensures session.responses == Record(old(session.responses), part, old(currentQuestion),
                QuestionRecordOf(old(currentQuestion), questions[old(currentQuestion)], old(recognition.transcript)))
      ensures recognition.transcript == "" && recognition.isListening == old(recognition.isListening)
      ensures autoSpeech == old(autoSpeech)
      ensures old(currentQuestion) < |questions| - 1 ==>
                && currentQuestion == old(currentQuestion) + 1 && !isRecording
                && session.phase == old(session.phase)
                && armedPrompt == PromptFor(currentQuestion)
      ensures old(currentQuestion) == |questions| - 1 ==>
                && currentQuestion == old(currentQuestion) && isRecording == old(isRecording)
                && session.phase == NextPhase(old(session.phase))
                && armedPrompt == old(armedPrompt)
    {
      CommitAnswer();
      if currentQuestion < |questions| - 1 {
        currentQuestion := currentQuestion + 1;
        isRecording := false;
        armedPrompt := PromptFor(currentQuestion);
      } else {
        Complete();
      }
    }

    /** The first half of `handleNext`: the record of the current question
        goes into the ledger at its index and the transcript is cleared. */
    method CommitAnswer()
      requires Valid() && Mounted()
      modifies session, recognition
      ensures Valid() && Mounted()
      ensures session.responses == Record(old(session.responses), part, currentQuestion,
                QuestionRecordOf(currentQuestion, questions[currentQuestion], old(recognition.transcript)))
      ensures recognition.transcript == "" && recognition.isListening == old(recognition.isListening)
    {
      var before := session.responses;
      var transcript := recognition.transcript;
      var rec := QuestionRecordOf(currentQuestion, questions[currentQuestion], transcript);
      var updated := Record(before, part, currentQuestion, rec);
      RecordKeepsConsistent(before, part, currentQuestion, rec);
      assert currentQuestion < |ListOf(updated, part)|;
      session.SetResponses(updated);
      recognition.ResetTranscript();
      assert session.responses == updated;
      assert timer.Valid();
    }

    /** `onComplete`: the session handler for this part. */
    method Complete()
      requires session.Valid() && Mounted()
      modifies session
      ensures session.Valid()
      ensures session.phase == NextPhase(old(session.phase)) && session.responses == old(session.responses)
    {
      match part
      case PartOne => session.CompletePart1();
      case PartThree => session.CompletePart3();
    }

    /** `handlePrevious`: only above the first question; moves back one,
        stops the recording flag and clears the transcript. The ledger is
        untouched. */
    method HandlePrevious()
      requires Valid() && Mounted()
      modifies this, recognition
      ensures Valid() && Mounted()
      ensures autoSpeech == old(autoSpeech)
      ensures old(currentQuestion) > 0 ==>
                && currentQuestion == old(currentQuestion) - 1 && !isRecording
                && recognition.transcript == "" && recognition.isListening == old(recognition.isListening)
                && armedPrompt == PromptFor(currentQuestion)
      ensures old(currentQuestion) == 0 ==>
                && currentQuestion == 0 && isRecording == old(isRecording) && armedPrompt == old(armedPrompt)
                && recognition.transcript == old(recognition.transcript) && recognition.isListening == old(recognition.isListening)
    {
      if currentQuestion > 0 {
        currentQuestion := currentQuestion - 1;
        isRecording := false;
        recognition.ResetTranscript();
        armedPrompt := PromptFor(currentQuestion);
      }
    }

    /** `handleToggleRecording`: starting asks the recogniser to listen (which
        clears its transcript when it was not listening) and starts the
        timer if it is not running; stopping only asks the recogniser to
        stop. The timer is never stopped here. */
    method HandleToggleRecording() returns (started: bool, stopped: bool)
      requires Valid() && Mounted()
      modifies this, recognition, timer
      ensures Valid() && Mounted()
      ensures currentQuestion == old(currentQuestion) && autoSpeech == old(autoSpeech) && armedPrompt == old(armedPrompt)
      ensures isRecording == !old(isRecording)
      ensures timer.isActive == (old(timer.isActive) || !old(isRecording))
      ensures timer.timeLeft == old(timer.timeLeft) && timer.seconds == old(timer.seconds)
      ensures recognition.isListening == old(recognition.isListening)
      ensures !old(isRecording) ==>
                && started == (recognition.isSupported && !old(recognition.isListening)) && !stopped
                && recognition.transcript == (if started then "" else old(recognition.transcript))
      ensures old(isRecording) ==>
                && !started && stopped == (recognition.isSupported && recognition.isListening)
                && recognition.transcript == old(recognition.transcript)
    {
      started, stopped := false, false;
      if !isRecording {
        isRecording := true;
        started := recognition.StartListening();
        if !timer.isActive {
          timer.SetActive(true);
        }
      } else {
        isRecording := false;
        stopped := recognition.StopListening();
      }
    }

    /** `handleTimeUp`, scheduled by the timer only when it has run out
        while active: stops the timer and the recording and completes the
        part without recording the answer in progress. */
    method HandleTimeUp() returns (stopped: bool)
      requires Valid() && Mounted() && timer.ExpiryDue()
      modifies this, timer, session
      ensures Valid()
      ensures !timer.isActive && !isRecording
      ensures stopped == (recognition.isSupported && recognition.isListening)
      ensures session.responses == old(session.responses)
      ensures session.phase == NextPhase(old(session.phase))
      ensures currentQuestion == old(currentQuestion)
      ensures autoSpeech == old(autoSpeech) && armedPrompt == old(armedPrompt)
      ensures timer.timeLeft == old(timer.timeLeft) && timer.seconds == old(timer.seconds)
    {
      timer.SetActive(false);
      isRecording := false;
      stopped := recognition.StopListening();
      Complete();
    }

    /** `handleReset`: stops recording and clears the transcript. */
    method HandleReset() returns (stopped: bool)
      requires Valid() && Mounted()
      modifies this, recognition
      ensures Valid() && Mounted()
      ensures !isRecording && currentQuestion == old(currentQuestion)
      ensures autoSpeech == old(autoSpeech) && armedPrompt == old(armedPrompt)
      ensures stopped == (recognition.isSupported && old(recognition.isListening))
      ensures recognition.transcript == "" && recognition.isListening == old(recognition.isListening)
    {
      isRecording := false;
      stopped := recognition.StopListening();
      recognition.ResetTranscript();
    }

    /** `handleSpeakQuestion`: reads the current question aloud. */
    method HandleSpeakQuestion() returns (accepted: bool)
      requires Valid() && Mounted()
      modifies speech
      ensures accepted == SpeakAccepted(speech.isSupported, questions[currentQuestion], old(speech.isSpeaking))
      ensures speech.scheduled == if accepted
        then old(speech.scheduled) + [Utterance(questions[currentQuestion], speech.selectedVoice)]
        else old(speech.scheduled)
      ensures speech.isSpeaking == old(speech.isSpeaking)
      ensures speech.voices == old(speech.voices) && speech.selectedVoice == old(speech.selectedVoice)
    {
      accepted := speech.Speak(questions[currentQuestion]);
    }

    /** The auto-speak checkbox. A change re-runs the auto-speak effect: the
        armed timeout is cleared and a new one armed when the effect's
        condition holds. */
    method SetAutoSpeech(on: bool)
      requires Valid() && Mounted()
      modifies this
      ensures Valid() && Mounted()
      ensures autoSpeech == on && currentQuestion == old(currentQuestion) && isRecording == old(isRecording)
      ensures armedPrompt == if on != old(autoSpeech) then PromptFor(currentQuestion) else old(armedPrompt)
    {
      if on != autoSpeech {
        autoSpeech := on;
        armedPrompt := PromptFor(currentQuestion);
      }
    }

    /** The auto-speak timeout fires. Its closure holds the values of the
        render that armed it, in which auto-speak was on, speech supported
        and nothing speaking; so both its own re-check and `speak`'s guard
        pass, and the utterance is issued whatever is speaking now. */
    method AutoPromptFires()
      requires Valid() && Mounted() && armedPrompt.Some?
      modifies this, speech
      ensures Valid() && Mounted()
      ensures armedPrompt == None && currentQuestion == old(currentQuestion) && isRecording == old(isRecording)
      ensures autoSpeech == old(autoSpeech)
      ensures speech.scheduled == old(speech.scheduled) + [old(armedPrompt).value]
      ensures speech.isSpeaking == old(speech.isSpeaking)
      ensures speech.voices == old(speech.voices) && speech.selectedVoice == old(speech.selectedVoice)
    {
      speech.Issue(armedPrompt.value);
      armedPrompt := None;
    }
  }

  /** The record of a first answer spoken as "hello world". */
  lemma SpokenFirstAnswer()
    ensures QuestionRecordOf(0, Part1Questions[0], "hello world ") == QuestionRecord("01", Part1Questions[0], "hello world")
  {
    TrimOfPadded([], "hello world", " ");
    assert [] + "hello world" + " " == "hello world ";
    assert QuestionNumber(0) == "01";
  }

  /** A first answer, end to end: Part 1 starts, the recording is toggled
      on, which starts the timer, the recogniser delivers "hello world" as
      final after an interim "hello", and Next is pressed while still
      listening. The ledger holds question "01" with the trimmed answer;
      the segment is on the second question with the timer still running. */
  method FirstAnswerScenario() returns (stored: Option<QuestionRecord>, next: nat, timerRunning: bool)
    ensures stored == Some(QuestionRecord("01", Part1Questions[0], "hello world"))
    ensures next == 1 && timerRunning
  {
    var app := new Session();
    app.StartTest();
    var segment := new QuestionSegment(PartOne, app, true, true);
    var started, stopped := segment.HandleToggleRecording();
    segment.recognition.OnStart();
    segment.recognition.OnResult([SpeechResult(false, "hello"), SpeechResult(true, "hello world")], 1);
    assert segment.recognition.transcript == "hello world ";
    segment.HandleNext();
    SpokenFirstAnswer();
    stored := ListOf(app.responses, PartOne)[0];
    next := segment.currentQuestion;
    timerRunning := segment.timer.isActive;
  }
}
