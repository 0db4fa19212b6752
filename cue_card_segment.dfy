/** The cue-card segment of src/app.jsx, `Part2Component`: a preparation
    phase followed by a speaking phase, one timer whose length follows the
    phase, and a single Part 2 record written on completion.

    The segment exists while the session is in Part 2; every handler
    requires it. */
module CueCardSegment {

  import opened Wrappers
  import opened Strings
  import opened TestData
  import opened Ledger
  import opened Session
  import opened Countdown
  import opened SpeechRecognition
  import opened SpeechSynthesis

  /** `"preparation"` and `"speaking"`. */
  datatype CuePhase = Preparation | Speaking

  /** `currentDuration`: the preparation time, then the speaking time. */
  function DurationOf(phase: CuePhase): (seconds: nat)
    ensures seconds > 0
    ensures phase == Preparation <==> seconds == Part2PrepTime
    ensures phase == Speaking ==> seconds == Part2SpeakTime
  {
    match phase
    case Preparation => Part2PrepTime
    case Speaking => Part2SpeakTime
  }

  /** The text read aloud for the cue card: the topic, "You should say:"
      and the points separated by commas. */
  const CueCardText: string := CueCardTopic + ". You should say: " + Join(CueCardPoints, ", ")

  /** What a render sees of the speech hook, as a closure created in that
      render keeps it. */
  datatype SpeechView = SpeechView(isSupported: bool, isSpeaking: bool, selectedVoice: Option<Voice>)

  /** What a closure created in the first render sees: no support yet, nothing speaking, no voice. */
  const FirstRenderView: SpeechView := SpeechView(false, false, None)

  /** The announcement armed by the end of preparation: the memoised
      `handleTimeUp` and the timeout it arms read the speech hook as `view`
      shows it; the announcement is armed only with auto-speak on and
      support seen, and handed over only when nothing was seen speaking. */
  function AnnouncementFor(autoSpeech: bool, view: SpeechView): (u: Option<Utterance>)
    ensures u.Some? <==> autoSpeech && view.isSupported && !view.isSpeaking
    ensures u.Some? ==> u.value.text == SpeakingAnnouncement && u.value.voice == view.selectedVoice
  {
    if autoSpeech && view.isSupported && !view.isSpeaking
    then Some(Utterance(SpeakingAnnouncement, view.selectedVoice))
    else None
  }

  class CueCardSegment {
    const session: Session
    const recognition: Recognizer
    const speech: Speaker
    const timer: ExamTimer

    var phase: CuePhase
    var isRecording: bool
    var autoSpeech: bool
    /** The cue-card reading timeout (1200 ms), if armed. */
    var cueCardPrompt: Option<Utterance>
    /** The announcement timeout (800 ms), if armed; it is never cleared. */
    var announcement: Option<Utterance>
    /** The speech hook as the current memoised `handleTimeUp` saw it. */
    var timeUpView: SpeechView

    ghost predicate Valid()
      reads this, session, timer
    {
      && timer.Valid()
      && session.Valid()
      && timer.seconds == DurationOf(phase)
    }

    ghost predicate Mounted()
      reads this, session
    {
      session.phase == Part2
    }

    /** The speech hook as the current render sees it. */
    function CurrentView(): SpeechView
      reads speech
    {
      SpeechView(speech.isSupported, speech.isSpeaking, speech.selectedVoice)
    }

    /** The cue-card effect, keyed on the auto-speak switch alone. */
    function CueCardPromptNow(): Option<Utterance>
      reads this, speech
    {
      if autoSpeech && speech.isSupported && !speech.isSpeaking
      then Some(Utterance(CueCardText, speech.selectedVoice))
      else None
    }

    /** Mounting in Part 2: preparation, timer stopped at 60 seconds. The
        cue-card effect's first run sees no speech support, so nothing is
        armed, and `handleTimeUp` is the first render's closure. */
    constructor(session: Session, recognitionSupported: bool, speechSupported: bool)
      requires session.Valid() && session.phase == Part2
      ensures Valid() && Mounted()
      ensures this.session == session
      ensures fresh(recognition) && fresh(speech) && fresh(timer)
      ensures recognition.isSupported == recognitionSupported && !recognition.isListening && recognition.transcript == ""
      ensures speech.isSupported == speechSupported && !speech.isSpeaking && speech.scheduled == []
      ensures speech.voices == [] && speech.selectedVoice == None
      ensures timer.timeLeft == Part2PrepTime && !timer.isActive
      ensures phase == Preparation && !isRecording && autoSpeech
      ensures cueCardPrompt == None && announcement == None && timeUpView == FirstRenderView
    {
      this.session := session;
      recognition := new Recognizer(recognitionSupported);
      speech := new Speaker(speechSupported);
      timer := new ExamTimer(DurationOf(Preparation), false);
      phase := Preparation;
      isRecording := false;
      autoSpeech := true;
      cueCardPrompt := None;
      announcement := None;
      timeUpView := FirstRenderView;
    }

    /** `handleStartPreparation`, whose button is shown only during
        preparation while the timer is stopped: starts the timer. */
    method HandleStartPreparation()
      requires Valid() && Mounted() && phase == Preparation && !timer.isActive
      modifies timer
      ensures Valid() && Mounted()
      ensures timer.isActive && timer.timeLeft == old(timer.timeLeft) && timer.seconds == old(timer.seconds)
    {
      timer.SetActive(true);
    }

    /** `handleTimeUp`, scheduled by the timer only when it has run out while
        active. At the end of preparation: the speaking phase with
        the timer stopped and re-seeded to the speaking time, and the
        announcement armed as the closure's view allows. At the end of
        speaking: the Part 2 record is written, the timer and the recording
        are stopped, and the session moves on to Part 3. */
    method HandleTimeUp() returns (stopped: bool)
      requires Valid() && Mounted() && timer.ExpiryDue()
      modifies this, timer, session
      ensures Valid()
      ensures !timer.isActive
      ensures old(phase) == Preparation ==>
                && phase == Speaking && timer.timeLeft == Part2SpeakTime
                && announcement == AnnouncementFor(autoSpeech, timeUpView)
                && isRecording == old(isRecording) && !stopped
                && session.phase == Part2 && session.responses == old(session.responses)
      ensures old(phase) == Speaking ==>
                && phase == Speaking && !isRecording && announcement == old(announcement)
                && stopped == (recognition.isSupported && recognition.isListening)
                && session.responses == old(session.responses).(partTwo := Some(CueCardRecordOf(CueCardTopic, CueCardPoints, recognition.transcript)))
                && session.phase == Part3
      ensures autoSpeech == old(autoSpeech) && cueCardPrompt == old(cueCardPrompt) && timeUpView == old(timeUpView)
    {
      stopped := false;
      if phase == Preparation {
        phase := Speaking;
        timer.SetActive(false);
        timer.SetSeconds(DurationOf(Speaking));
        announcement := AnnouncementFor(autoSpeech, timeUpView);
      } else {
        CommitAnswer();
        timer.SetActive(false);
        isRecording := false;
        stopped := recognition.StopListening();
        session.CompletePart2();
      }
    }

    /** Writes the Part 2 record (topic, cue card and trimmed transcript)
        over whatever was there; the other parts are untouched. */
    method CommitAnswer()
      requires Valid() && Mounted()
      modifies session
      ensures Valid() && Mounted()
      ensures session.responses == old(session.responses).(partTwo := Some(CueCardRecordOf(CueCardTopic, CueCardPoints, recognition.transcript)))
    {
      var updated := session.responses.(partTwo := Some(CueCardRecordOf(CueCardTopic, CueCardPoints, recognition.transcript)));
      assert ListOf(updated, PartOne) == ListOf(session.responses, PartOne);
      assert ListOf(updated, PartThree) == ListOf(session.responses, PartThree);
      session.SetResponses(updated);
    }

    /** `handleToggleRecording`: only while speaking; starting asks the
        recogniser to listen and starts the timer if stopped, stopping only
        asks the recogniser to stop. */
    method HandleToggleRecording() returns (started: bool, stopped: bool)
      requires Valid() && Mounted()
      modifies this, recognition, timer
      ensures Valid() && Mounted()
      ensures phase == old(phase) && autoSpeech == old(autoSpeech) && cueCardPrompt == old(cueCardPrompt)
      ensures announcement == old(announcement) && timeUpView == old(timeUpView)
      ensures timer.timeLeft == old(timer.timeLeft) && recognition.isListening == old(recognition.isListening)
      ensures phase == Preparation ==>
                && isRecording == old(isRecording) && !started && !stopped
                && timer.isActive == old(timer.isActive) && recognition.transcript == old(recognition.transcript)
      ensures phase == Speaking ==>
                && isRecording == !old(isRecording)
                && timer.isActive == (old(timer.isActive) || !old(isRecording))
                && started == (!old(isRecording) && recognition.isSupported && !recognition.isListening)
                && stopped == (old(isRecording) && recognition.isSupported && recognition.isListening)
                && recognition.transcript == (if started then "" else old(recognition.transcript))
    {
      started, stopped := false, false;
      if phase == Speaking {
        if !isRecording {
          isRecording := true;
          started := recognition.StartListening();
          if !timer.isActive {
            timer.SetActive(true);
          }
        } else {
          isRecording := false;
          stopped := recognition.StopListening();
        }
      }
    }

    /** `handleReset`: stops recording and clears the transcript. */
    method HandleReset() returns (stopped: bool)
      requires Valid() && Mounted()
      modifies this, recognition
      ensures Valid() && Mounted()
      ensures !isRecording && phase == old(phase) && autoSpeech == old(autoSpeech)
      ensures cueCardPrompt == old(cueCardPrompt) && announcement == old(announcement) && timeUpView == old(timeUpView)
      ensures stopped == (recognition.isSupported && old(recognition.isListening))
      ensures recognition.transcript == "" && recognition.isListening == old(recognition.isListening)
    {
      isRecording := false;
      stopped := recognition.StopListening();
      recognition.ResetTranscript();
    }

    /** `handleSpeakCueCard`: reads the cue card aloud. */
    method HandleSpeakCueCard() returns (accepted: bool)
      requires Valid() && Mounted()
      modifies speech
      ensures accepted == (speech.isSupported && !old(speech.isSpeaking))
      ensures speech.scheduled == if accepted
        then old(speech.scheduled) + [Utterance(CueCardText, speech.selectedVoice)]
        else old(speech.scheduled)
      ensures speech.isSpeaking == old(speech.isSpeaking)
      ensures speech.voices == old(speech.voices) && speech.selectedVoice == old(speech.selectedVoice)
    {
      assert CueCardText[0] == CueCardTopic[0];
      accepted := speech.Speak(CueCardText);
    }

    /** `handleComplete`, whose button is shown only while speaking: writes
        the Part 2 record, asks the recogniser to stop and moves the session
        on to Part 3. The timer and the recording flag are left as they are. */
    method HandleComplete() returns (stopped: bool)
      requires Valid() && Mounted() && phase == Speaking
      modifies session
      ensures session.Valid() && session.phase == Part3
      ensures session.responses == old(session.responses).(partTwo := Some(CueCardRecordOf(CueCardTopic, CueCardPoints, recognition.transcript)))
      ensures stopped == (recognition.isSupported && recognition.isListening)
    {
      CommitAnswer();
      stopped := recognition.StopListening();
      session.CompletePart2();
    }

    /** The auto-speak checkbox. A change re-runs the cue-card effect, which
        clears the armed reading and arms a new one when its condition holds,
        and re-creates `handleTimeUp`, which then sees the current speech
        hook. */
    method SetAutoSpeech(on: bool)
      requires Valid() && Mounted()
      modifies this
      ensures Valid() && Mounted()
      ensures autoSpeech == on && phase == old(phase) && isRecording == old(isRecording)
      ensures announcement == old(announcement)
      ensures on != old(autoSpeech) ==> cueCardPrompt == CueCardPromptNow() && timeUpView == CurrentView()
      ensures on == old(autoSpeech) ==> cueCardPrompt == old(cueCardPrompt) && timeUpView == old(timeUpView)
    {
      if on != autoSpeech {
        autoSpeech := on;
        cueCardPrompt := CueCardPromptNow();
        timeUpView := CurrentView();
      }
    }

    /** The cue-card reading timeout fires; its own re-check and `speak`'s
        guard read the render that armed it, so the reading is issued. */
    method CueCardPromptFires()
      requires Valid() && Mounted() && cueCardPrompt.Some?
      modifies this, speech
      ensures Valid() && Mounted()
      ensures cueCardPrompt == None && phase == old(phase) && announcement == old(announcement)
      ensures isRecording == old(isRecording) && autoSpeech == old(autoSpeech) && timeUpView == old(timeUpView)
      ensures speech.scheduled == old(speech.scheduled) + [old(cueCardPrompt).value]
      ensures speech.isSpeaking == old(speech.isSpeaking)
      ensures speech.voices == old(speech.voices) && speech.selectedVoice == old(speech.selectedVoice)
    {
      speech.Issue(cueCardPrompt.value);
      cueCardPrompt := None;
    }

    /** The announcement timeout fires and hands its utterance over. The
        timeout is never cleared, so it also fires after the segment has
        been left (by completing Part 2 within its delay); `speak` does not
        depend on the segment being on screen. */
    method AnnouncementFires()
      requires Valid() && announcement.Some?
      modifies this, speech
      ensures Valid() && (Mounted() <==> old(Mounted()))
      ensures session.phase == old(session.phase) && session.responses == old(session.responses)
      ensures announcement == None && phase == old(phase) && cueCardPrompt == old(cueCardPrompt)
      ensures isRecording == old(isRecording) && autoSpeech == old(autoSpeech) && timeUpView == old(timeUpView)
      ensures speech.scheduled == old(speech.scheduled) + [old(announcement).value]
      ensures speech.isSpeaking == old(speech.isSpeaking)
      ensures speech.voices == old(speech.voices) && speech.selectedVoice == old(speech.selectedVoice)
    {
      speech.Issue(announcement.value);
      announcement := None;
    }
  }

  /** Preparation runs out untouched: after the 60 ticks of the started
      timer the expiry is due, and handling it enters the speaking phase
      with 120 seconds on a stopped timer. Although speech is supported, no
      announcement is armed: with the auto-speak switch left alone,
      `handleTimeUp` is still the first render's closure, which saw no
      support. */
  method PreparationScenario() returns (nextPhase: CuePhase, timeLeft: int, running: bool, announced: bool)
    ensures nextPhase == Speaking && timeLeft == Part2SpeakTime && !running && !announced
  {
    var app := new Session();
    app.StartTest();
    app.CompletePart1();
    var segment := new CueCardSegment(app, true, true);
    segment.HandleStartPreparation();
    var ticks := 0;
    while ticks < Part2PrepTime
      invariant 0 <= ticks <= Part2PrepTime
      invariant segment.Valid() && segment.Mounted() && segment.phase == Preparation
      invariant segment.timer.isActive && segment.timer.timeLeft == Part2PrepTime - ticks
      modifies segment.timer
    {
      segment.timer.OnTick();
      ticks := ticks + 1;
    }
    assert segment.timer.ExpiryDue();
    var stopped := segment.HandleTimeUp();
    nextPhase := segment.phase;
    timeLeft := segment.timer.timeLeft;
    running := segment.timer.isActive;
    announced := segment.announcement.Some?;
  }

  /** The interval ticks until the started timer has run out. */
  method RunOut(timer: ExamTimer)
    requires timer.Valid() && timer.isActive
    modifies timer
    ensures timer.ExpiryDue() && timer.seconds == old(timer.seconds)
  {
    while timer.timeLeft > 0
      invariant timer.Valid() && timer.isActive && timer.seconds == old(timer.seconds)
      decreases timer.timeLeft
    {
      timer.OnTick();
    }
  }

  /** The announcement outlives the segment: with auto-speak switched off
      and on again, the time-up handler sees speech support, so the end of
      preparation arms the announcement; completing Part 2 at once moves the
      session to Part 3, and the announcement is still handed to the host
      afterwards. */
  method LateAnnouncementScenario() returns (phaseWhenSpoken: Phase, handed: seq<Utterance>)
    ensures phaseWhenSpoken == Part3
    ensures handed == [Utterance(SpeakingAnnouncement, None)]
  {
    var app := new Session();
    app.StartTest();
    app.CompletePart1();
    var segment := new CueCardSegment(app, true, true);
    segment.SetAutoSpeech(false);
    segment.SetAutoSpeech(true);
    assert segment.timeUpView == SpeechView(true, false, None);
    segment.HandleStartPreparation();
    RunOut(segment.timer);
    var stopped := segment.HandleTimeUp();
    assert segment.announcement == Some(Utterance(SpeakingAnnouncement, None));
    stopped := segment.HandleComplete();
    segment.AnnouncementFires();
    phaseWhenSpoken := app.phase;
    handed := segment.speech.scheduled;
  }
}
