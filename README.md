# IELTS speaking exam simulator: a Dafny model of the exam controller

The application walks a candidate through the three parts of the IELTS
speaking test in the browser. This project models its core:

- Part 1: an interview of eleven questions in five minutes.
- Part 2: a cue card, with one minute of preparation and two minutes of
  speaking.
- Part 3: a discussion of seven questions in five minutes.

The model covers:

- the `App` controller, which moves through welcome, part 1, part 2, part 3
  and results, and holds the response ledger;
- the three segment components with their handlers and timers;
- the speech-to-text and text-to-speech hooks;
- the countdown timer of `app.jsx`;
- the routed test page `pages/TestInterface.jsx` and its own timer
  component `components/Timer.jsx`.

React state that a handler updates is a field of a class. A handler is a
method with a `modifies` clause. Timeouts, intervals and the host's speech
callbacks (`onstart`, `onresult`, `onend`, `onerror`) are methods that the
environment calls, in whatever order it chooses. Requests to the host are
results of those methods:

- `start()` and `stop()` on the recogniser;
- an utterance handed to `speechSynthesis`;
- the test submission.

Pure computations are functions, and their properties are lemmas:

- `trim`, `padStart` and `String(n)`;
- `formatTime`;
- the colour bands;
- the default-voice choice;
- the transcript accumulation;
- the record built for an answer.

## Modules

| file | module | models |
|---|---|---|
| `wrappers.dfy` | `Wrappers` | `Option` |
| `strings.dfy` | `Strings` | the JavaScript string operations the controller uses |
| `test_data.dfy` | `TestData` | the built-in questions, durations and cue card |
| `timer_display.dfy` | `TimerDisplay` | `formatTime`, with a parser as its inverse, and the colour bands of both timers |
| `countdown.dfy` | `Countdown` | the exam `Timer` of `app.jsx` |
| `speech_recognition.dfy` | `SpeechRecognition` | `useSpeechRecognition` |
| `speech_synthesis.dfy` | `SpeechSynthesis` | `useTextToSpeech` |
| `ledger.dfy` | `Ledger` | the `testResponses` records |
| `session.dfy` | `Session` | `App`: its phases and the ledger it hands out |
| `question_segment.dfy` | `QuestionSegment` | `Part1Component` and `Part3Component` |
| `cue_card_segment.dfy` | `CueCardSegment` | `Part2Component` |
| `test_interface.dfy` | `TestInterface` | `pages/TestInterface.jsx` |

## Behaviour of the code as modelled

Where the code does something a reader of its design would not expect, the
model follows the code:

- **Repeated `speak` calls.** The `speak` guard reads `isSpeaking`, which
  only becomes true in the utterance's `onstart`, 100 ms or more after
  `speak` was called. So two `speak` calls in a row are both accepted, and
  both utterances reach the host, in order (`SpeakTwiceBeforeStart`). Once
  an utterance has started, a further `speak` is dropped
  (`SpeakWhileSpeaking`).
- **Auto-speak effects use the values of the render that armed them.** The
  effects that read a question or the cue card aloud are keyed only on the
  question index and the auto-speak switch.
  - On the first render, `isSupported` is still false. So the first
    question of Part 1 and of Part 3, and the cue card, are not read aloud
    automatically on entry. They are read later when the effect runs again:
    after going back to the first question, or after switching auto-speak
    off and on.
  - When an armed timeout fires, its re-check reads the same values it was
    armed with, so it always passes. The utterance is then handed over
    whatever is speaking now (`AutoPromptFires`, `CueCardPromptFires`).
- **The Part 2 end-of-preparation announcement.** Part 2's `handleTimeUp`
  is memoised without the speech hook among its dependencies. It sees
  speech support only if the auto-speak switch has changed since mounting
  (`timeUpView`). When preparation simply runs out, no announcement is
  made (`PreparationScenario`).
  - The announcement's timeout is never cleared. When Part 2 is completed
    within its delay, the announcement is still spoken after Part 3 has
    appeared, and the `cancel()` inside `speak` cuts off whatever is
    playing then (`LateAnnouncementScenario`).
- **`handleNext` does not stop recognition.** It clears the transcript and
  the recording flag, but the recogniser keeps listening.
- **`startListening` clears the transcript** before it asks the host to
  start.
- **Question numbers.** An answer is stored at its question's index. Its
  number is the one-based index padded to two digits, and its answer text
  is the transcript trimmed. Answering a question again replaces its
  record (`ReanswerKeepsLatest`).
- **Question loading on the test page:**
  - `loadQuestions` seeds the countdown by the part that was current when
    the request was issued.
  - Responses may arrive in any order. A late response for an earlier part
    overwrites the questions and the countdown of the part now shown
    (`StaleLoadScenario`).
  - `isPreparation` is set for Part 2 and never cleared.
  - The page timer does nothing when it reaches zero.
  - When Part 3 has no questions, the forward button reads "Next", but
    pressing it submits the test.

## Model

| member | source | states |
|---|---|---|
| Strings.TrimStartSpec | src/app.jsx:461 | stripping leading whitespace leaves a suffix of the input, removes only whitespace, and stops at the first character that is not whitespace |
| Strings.TrimEndSpec | src/app.jsx:461 | stripping trailing whitespace leaves a prefix of the input, removes only whitespace, and stops at the last character that is not whitespace |
| Strings.TrimSpec | src/app.jsx:461 | `trim()` returns a piece of its input with only whitespace around it and no whitespace at its own ends |
| Strings.TrimStartOfPadded | src/app.jsx:461 | leading whitespace followed by a string that starts with a non-space is stripped back to that string |
| Strings.TrimEndOfPadded | src/app.jsx:461 | a string that ends with a non-space followed by whitespace is stripped back to that string |
| Strings.TrimOfPadded | src/app.jsx:461 | `trim()` inverts padding: a trimmed string surrounded by any whitespace trims back to itself |
| Strings.TrimIdempotent | src/app.jsx:461 | trimming twice is the same as trimming once |
| Strings.Contains | src/app.jsx:126 | `includes` holds exactly when the substring occurs at some position |
| Strings.NatToDecimal | src/app.jsx:468 | `String(n)` is a non-empty digit string with no leading zero except for 0, and has one digit exactly below 10 |
| Strings.DecimalRoundTrip | src/app.jsx:468 | reading back the digits of `String(n)` gives `n` |
| Strings.ParseLeadingZeros | src/app.jsx:468 | zeros put in front by `padStart` do not change the value of a digit string |
| Strings.Trim | src/app.jsx:461 | `trim()`; its properties are stated by `TrimSpec`, `TrimOfPadded` and `TrimIdempotent` |
| Strings.Join | src/app.jsx:700 | `points.join(", ")`; `JoinAppend` states how it splits |
| Strings.JoinAppend | src/app.jsx:700 | joining two non-empty lists of parts is joining each, with one separator between them |
| Strings.PadStart | src/app.jsx:468 | `padStart(width, fill)` is as long as the larger of `width` and the length of `s`, with `fill` in front and `s` at the end |
| TimerDisplay.FormatTime | src/app.jsx:351-355 | `formatTime`; its shape and round trip are stated by `FormatTimeShape` and `FormatTimeRoundTrip` |
| TimerDisplay.FormatTimeShape | src/app.jsx:351-355 | the display is the minutes in decimal, a colon and exactly two digits of seconds; it starts with 0 only below one minute |
| TimerDisplay.SecondsField | src/app.jsx:354 | the padded seconds field has two digits and reads back as the seconds |
| TimerDisplay.ParseTimeOf | src/app.jsx:351-355 | a digit string, a colon and two digits below 60 read back as the minutes and seconds they spell |
| TimerDisplay.FormatTimeRoundTrip | src/components/Timer.jsx:16-20 | parsing the `m:ss` display gives back the number of seconds that was formatted |
| TimerDisplay.FormatTimeInjective | src/app.jsx:351-355 | distinct times never show the same text |
| TimerDisplay.ColorClass | src/components/Timer.jsx:22-26 | `getColorClass`; its bands are stated by `ColorClassBands` and `ColorClassMonotonic` |
| TimerDisplay.ColorClassBands | src/components/Timer.jsx:22-26 | the page timer is red up to 30 seconds, orange from 31 to 60 and green above 60; each value has exactly one colour |
| TimerDisplay.ColorClassMonotonic | src/components/Timer.jsx:22-26 | less time left never shows a calmer colour |
| TimerDisplay.TimerColorOf | src/app.jsx:357-361 | `getTimerColor`; its bands are stated by `TimerColorBands` |
| TimerDisplay.TimerColorBands | src/app.jsx:357-361 | the exam timer is red up to 10 seconds, and orange from 11 to 30 only when the warning is shown |
| Countdown.Step | src/app.jsx:326-340 | one tick takes one second off an active timer with time left and never goes below zero; otherwise nothing changes |
| Countdown.RunsDown | src/app.jsx:326-340 | after `n` ticks an active timer seeded with `s` shows `s - n`, and then stays at 0 |
| Countdown.ExpiresAfterExactlySeconds | src/app.jsx:342-349 | expiry (zero while active) is reached after exactly `seconds` ticks and not before |
| Countdown.InactiveStays | src/app.jsx:326-340 | an inactive timer does not move however many ticks arrive |
| Countdown.ExamTimer.constructor | src/app.jsx:319-320 | the countdown starts at its `seconds` input |
| Countdown.ExamTimer.SetSeconds | src/app.jsx:322-324 | a new `seconds` input re-seeds the countdown only when it differs from the last one |
| Countdown.ExamTimer.SetActive | src/app.jsx:319 | changing `isActive` leaves the time left alone |
| Countdown.ExamTimer.OnTick | src/app.jsx:326-340 | the interval tick leaves exactly `Step` of the previous value, and the time left is never negative |
| Countdown.ExamTimer.ExpiryDue | src/app.jsx:342-349 | `onTimeUp` is scheduled exactly when no time is left and the timer is active; both `HandleTimeUp` methods require it, and `ExpiresAfterExactlySeconds` states when it first holds |
| SpeechRecognition.CollectFinal | src/app.jsx:58-64 | the loop collects the finished phrases from `resultIndex` on, each followed by a space, in order; nothing when the index is past the end |
| SpeechRecognition.FinalTextStep | src/app.jsx:60-63 | one more result extends the collected text by its own contribution |
| SpeechRecognition.FinalTextAppend | src/app.jsx:58-68 | the text of a batch is the text of its first part followed by the text of the rest |
| SpeechRecognition.FinalTextIgnoresInterim | src/app.jsx:61 | an interim result, wherever it arrives, changes nothing |
| SpeechRecognition.InterimOnlyIsEmpty | src/app.jsx:65-67 | a batch of interim results only adds nothing to the transcript |
| SpeechRecognition.FinalTextEndsWithSpace | src/app.jsx:62 | every non-empty contribution ends with the separating space |
| SpeechRecognition.Recognizer.constructor | src/app.jsx:36-40 | not listening, with an empty transcript |
| SpeechRecognition.Recognizer.StartListening | src/app.jsx:82-87 | when supported and not listening, clears the transcript and asks the host to start; listening itself begins only at `onstart` |
| SpeechRecognition.Recognizer.StopListening | src/app.jsx:89-93 | asks the host to stop exactly when supported and listening, and changes nothing |
| SpeechRecognition.Recognizer.ResetTranscript | src/app.jsx:95-97 | empties the transcript and leaves listening alone |
| SpeechRecognition.Recognizer.OnStart | src/app.jsx:54-56 | listening begins and the transcript is kept |
| SpeechRecognition.Recognizer.OnResult | src/app.jsx:58-68 | the transcript grows by the finished phrases from `resultIndex` on, and by nothing else |
| SpeechRecognition.Recognizer.OnError | src/app.jsx:70-73 | listening stops and the transcript is kept |
| SpeechRecognition.Recognizer.OnEnd | src/app.jsx:75-77 | listening stops and the transcript is kept |
| SpeechSynthesis.FindFirst | src/app.jsx:126-127 | `find` returns the first position whose voice satisfies the test, or none when no voice does |
| SpeechSynthesis.DefaultVoice | src/app.jsx:125-127 | any chosen voice is one of the host's voices and is English |
| SpeechSynthesis.DefaultVoicePrefersGoogle | src/app.jsx:126 | when an English Google voice exists, the first one is chosen |
| SpeechSynthesis.DefaultVoiceFallsBackToEnglish | src/app.jsx:127 | without an English Google voice, the first English voice is chosen |
| SpeechSynthesis.DefaultVoiceNoneIffNoEnglish | src/app.jsx:125-130 | no voice is chosen exactly when no voice is English |
| SpeechSynthesis.SpeakAccepted | src/app.jsx:139 | the guard of `speak`; `Speaker.Speak` states that it decides acceptance |
| SpeechSynthesis.Speaker.constructor | src/app.jsx:110-114 | not speaking, with no voices, no selection and nothing pending |
| SpeechSynthesis.Speaker.LoadVoices | src/app.jsx:122-131 | stores the host's list and selects the default voice if there is one; otherwise keeps the selection |
| SpeechSynthesis.Speaker.SelectVoice | src/app.jsx:114 | the selection becomes the given voice |
| SpeechSynthesis.Speaker.Speak | src/app.jsx:137-156 | refused when unsupported, for empty text, or while speaking; otherwise the utterance with the selected voice joins the pending settle timeouts; the speaking flag is not raised |
| SpeechSynthesis.Speaker.Issue | src/app.jsx:140-153 | the utterance is appended to the pending settle timeouts |
| SpeechSynthesis.Speaker.SettleElapsed | src/app.jsx:141-153 | the oldest pending utterance is handed to the host |
| SpeechSynthesis.Speaker.OnStart | src/app.jsx:149 | speaking begins |
| SpeechSynthesis.Speaker.OnEnd | src/app.jsx:150 | speaking ends |
| SpeechSynthesis.Speaker.OnError | src/app.jsx:151 | speaking ends |
| SpeechSynthesis.Speaker.Stop | src/app.jsx:158-161 | the flag drops at once; timeouts already armed still fire |
| SpeechSynthesis.SpeakTwiceBeforeStart | src/app.jsx:137-156 | two `speak` calls before the first utterance starts are both accepted and both reach the host, in order |
| SpeechSynthesis.SpeakWhileSpeaking | src/app.jsx:139 | while an utterance is playing `speak` is refused, and the flag drops with that utterance's end |
| Ledger.QuestionNumber | src/app.jsx:468 | `String(index + 1).padStart(2, "0")`; stated by `QuestionNumberShape` and `QuestionNumberRoundTrip` |
| Ledger.QuestionNumberShape | src/app.jsx:468 | a question number is a digit string of at least two characters, and exactly two for the first 99 questions |
| Ledger.QuestionNumberRoundTrip | src/app.jsx:468 | the question number reads back as the one-based position, so distinct questions get distinct numbers |
| Ledger.QuestionRecordOf | src/app.jsx:467-471 | the record `handleNext` builds; stated by `QuestionRecordNumber` and `QuestionRecordAnswer` |
| Ledger.QuestionRecordNumber | src/app.jsx:467-471 | the stored record numbers the question by its one-based position and keeps the question text |
| Ledger.QuestionRecordAnswer | src/app.jsx:461 | the stored answer is the transcript without its surrounding whitespace |
| Ledger.CueCardRecordOf | src/app.jsx:729-732 | the Part 2 record holds the topic, then "You should say:" followed by the points |
| Ledger.CueCardRecordAnswer | src/app.jsx:774 | the stored Part 2 answer is the transcript without its surrounding whitespace |
| Ledger.Put | src/app.jsx:467 | writing at an index sets that index only, keeps every other entry, and leaves holes when written past the end |
| Ledger.PutKeepsNoHoles | src/app.jsx:467 | writing at most at the end leaves no hole |
| Ledger.PutOverwrites | src/app.jsx:467 | two writes at one index leave only the later one |
| Ledger.Record | src/app.jsx:462-467 | only the answered part's list changes, at that index; the list is created when absent; the other parts are untouched |
| Ledger.ReanswerKeepsLatest | src/app.jsx:459-482 | answering the same question again keeps one record, the latest |
| Session.Session.constructor | src/app.jsx:1597-1599 | the welcome screen with an empty ledger |
| Session.Session.StartTest | src/app.jsx:1601-1604 | Part 1 with an empty ledger |
| Session.Session.SetResponses | src/app.jsx:1599 | the ledger is replaced and the phase is kept |
| Session.Session.CompletePart1 | src/app.jsx:1606-1608 | Part 2 follows and the ledger is kept |
| Session.Session.CompletePart2 | src/app.jsx:1610-1612 | Part 3 follows and the ledger is kept |
| Session.Session.CompletePart3 | src/app.jsx:1614-1616 | results follow and the ledger is kept |
| Session.Session.Restart | src/app.jsx:1618-1621 | the welcome screen with an empty ledger |
| Session.NextPhaseStepsForward | src/app.jsx:1606-1616 | every completion moves exactly one phase forward |
| Session.RecordKeepsConsistent | src/app.jsx:462-473 | recording an answer keeps the ledger consistent with the phase: no later part's answer and no holes |
| Session.FullRun | src/app.jsx:1601-1621 | a run visits Part 1, Part 2, Part 3, results and then the welcome screen, and restart empties the ledger |
| QuestionSegment.QuestionsOf | src/app.jsx:274 | each question part has at least one question |
| QuestionSegment.QuestionSegment.PromptFor | src/app.jsx:447-457 | the auto-speak effect's condition and utterance; `HandleNext`, `HandlePrevious` and `SetAutoSpeech` state when it is armed |
| QuestionSegment.QuestionSegment.constructor | src/app.jsx:436-444 | the first question, not recording, auto-speak on, and a stopped timer seeded with the part's duration; no prompt is armed at mount |
| QuestionSegment.QuestionSegment.HandleNext | src/app.jsx:459-482 | records the trimmed transcript at the current index, clears the transcript without stopping the recogniser, then moves to the next question or completes the part after the last one |
| QuestionSegment.QuestionSegment.CommitAnswer | src/app.jsx:460-474 | the ledger gets the record of the current question and the transcript is cleared |
| QuestionSegment.QuestionSegment.Complete | src/app.jsx:480 | the session moves to the phase after this part, with the ledger kept |
| QuestionSegment.QuestionSegment.HandlePrevious | src/app.jsx:484-490 | above the first question, moves back one, stops the recording flag and clears the transcript; on the first question nothing changes |
| QuestionSegment.QuestionSegment.HandleToggleRecording | src/app.jsx:492-503 | starting asks the recogniser to listen and starts the timer; stopping only asks the recogniser to stop; the timer is never stopped here |
| QuestionSegment.QuestionSegment.HandleTimeUp | src/app.jsx:505-510 | runs only once the timer has expired while active; stops the timer and the recording and completes the part, without recording the answer in progress; the question, the switch, the armed prompt and the time left are kept |
| QuestionSegment.QuestionSegment.HandleReset | src/app.jsx:512-516 | stops recording, asks the recogniser to stop and clears the transcript |
| QuestionSegment.QuestionSegment.HandleSpeakQuestion | src/app.jsx:518-521 | the current question is read aloud, with the selected voice, as far as the `speak` guard allows; the speaking flag and the voices are kept |
| QuestionSegment.QuestionSegment.SetAutoSpeech | src/app.jsx:447-457 | a change of the switch re-arms the prompt for the current question when the effect's condition holds |
| QuestionSegment.QuestionSegment.AutoPromptFires | src/app.jsx:450-454 | the armed prompt is handed over whatever is speaking now; the question, the switches and the voices are kept |
| QuestionSegment.SpokenFirstAnswer | src/app.jsx:461-471 | "hello world " spoken for the first question is stored as number "01" with answer "hello world" |
| QuestionSegment.FirstAnswerScenario | src/app.jsx:459-503 | recording, a final phrase after an interim one and Next leave record "01" in the ledger, the second question on screen and the timer running |
| CueCardSegment.DurationOf | src/app.jsx:696 | the timer runs 60 seconds in preparation and 120 seconds when speaking |
| CueCardSegment.AnnouncementFor | src/app.jsx:718-723 | the announcement is made exactly when auto-speak is on and the handler's view saw support and no speech, with that view's voice |
| CueCardSegment.CueCardSegment.CueCardPromptNow | src/app.jsx:698-708 | the cue-card effect's condition and utterance; `SetAutoSpeech` states when it is armed |
| CueCardSegment.CueCardSegment.constructor | src/app.jsx:685-696 | preparation on a stopped 60-second timer; nothing armed, and the time-up handler sees the first render |
| CueCardSegment.CueCardSegment.HandleStartPreparation | src/app.jsx:710-712 | available only in preparation on a stopped timer; the timer starts with its time left unchanged |
| CueCardSegment.CueCardSegment.HandleTimeUp | src/app.jsx:714-740 | runs only once the timer has expired while active; after preparation: speaking on a stopped timer re-seeded to 120 seconds, with the announcement armed as the handler's view allows; after speaking: the Part 2 record is written, the timer and the recording stop and Part 3 follows |
| CueCardSegment.CueCardSegment.CommitAnswer | src/app.jsx:727-733 | the Part 2 record replaces any earlier one; the other parts are untouched |
| CueCardSegment.CueCardSegment.HandleToggleRecording | src/app.jsx:742-755 | nothing happens during preparation; while speaking, it toggles as in the question parts |
| CueCardSegment.CueCardSegment.HandleReset | src/app.jsx:757-761 | stops recording, asks the recogniser to stop and clears the transcript |
| CueCardSegment.CueCardSegment.HandleSpeakCueCard | src/app.jsx:763-766 | the cue card text is read aloud, with the selected voice, as far as the `speak` guard allows; the speaking flag and the voices are kept |
| CueCardSegment.CueCardSegment.HandleComplete | src/app.jsx:768-779 | available only while speaking; writes the Part 2 record, asks the recogniser to stop and moves on to Part 3 |
| CueCardSegment.CueCardSegment.SetAutoSpeech | src/app.jsx:698-708 | a change re-arms the cue-card reading and renews the time-up handler's view |
| CueCardSegment.CueCardSegment.CueCardPromptFires | src/app.jsx:701-705 | the armed reading is handed over whatever is speaking now; the phase, the recording flag, the switch and the voices are kept |
| CueCardSegment.CueCardSegment.AnnouncementFires | src/app.jsx:719-723 | the armed announcement is handed over, whether or not the segment is still on screen; the session, the phase, the recording flag, the switch and the voices are kept |
| CueCardSegment.PreparationScenario | src/app.jsx:714-724 | 60 ticks of preparation make expiry due; handling it gives speaking on a stopped 120-second timer and no announcement, although speech is supported |
| CueCardSegment.RunOut | src/app.jsx:326-349 | ticking an active timer until no time is left makes its expiry due |
| CueCardSegment.LateAnnouncementScenario | src/app.jsx:714-724 | an announcement armed at the end of preparation is still handed to the host after Part 2 has been completed and Part 3 is shown |
| TestInterface.SeedTime | src/pages/TestInterface.jsx:36-43 | a load seeds one minute exactly for Part 2, and five minutes otherwise |
| TestInterface.TestPage.constructor | src/pages/TestInterface.jsx:11-26 | Part 1, first question, nothing loaded; an empty test id counts as none, and a load for Part 1 is issued only when there is a test id |
| TestInterface.TestPage.Arrive | src/pages/TestInterface.jsx:28-47 | a failure only retires the request; a body installs its questions (none when missing), goes back to the first question and seeds the timer for the part the request was issued for |
| TestInterface.TestPage.HandleRecordingComplete | src/pages/TestInterface.jsx:49-57 | appends one recording tagged with the part and question shown; everything else is kept |
| TestInterface.TestPage.FinishLabelShown | src/pages/TestInterface.jsx:162 | the "Finish Test" label; `NextQuestion` states that pressing the button submits exactly when it is shown, whenever the part has questions |
| TestInterface.TestPage.NextQuestion | src/pages/TestInterface.jsx:59-65 | the next question when there is one, otherwise the next part; it submits exactly when the "Finish Test" label is shown if the part has questions, and on any press in a Part 3 without questions |
| TestInterface.TestPage.NextPart | src/pages/TestInterface.jsx:67-73 | the next part, with a load issued for it; after Part 3 the test is submitted instead; everything else is kept |
| TestInterface.TestPage.Previous | src/pages/TestInterface.jsx:151 | one question back, never below the first; everything else is kept |
| TestInterface.TestPage.Tick | src/components/Timer.jsx:7-14 | one second off while time is left, nothing at zero; everything else is kept |
| TestInterface.FinishLabelScenario | src/pages/TestInterface.jsx:162 | on Part 3 the forward button reads "Finish Test" on the last question, and pressing it submits |
| TestInterface.StaleLoadScenario | src/pages/TestInterface.jsx:20-43 | a late response for Part 1 replaces the questions and countdown while Part 2 is shown |

## Left out

- Rendering, CSS classes other than the timer colours, icons, the audio
  settings panel, the Part 2 notepad, the progress bar and the results
  page. They only display state.
- Rate, pitch and volume of speech synthesis. They are floating point
  values that the hook only forwards to the host.
- The delays of the timeouts (100 ms, 800 ms and 1200 ms) and of the
  one-second interval. The environment decides when each timeout fires.
- `speechSynthesis.cancel()` and the host's own utterance queue. The model
  records what is handed to the host, not what the host plays.
- Network access. A question request's outcome is an input of
  `TestPage.Arrive`. The submission in `finishTest` and its navigation are
  reported as the `finished` result.
- Audio capture (`MediaRecorder`, the audio recorder component). The test
  page's `isRecording` is never set by the modelled code. A recording
  arrives as bytes with a timestamp given by the caller.
- Navigation to the home page without a test id. It is represented only by
  no load being issued.
- Error logging (`console.error`).
- `timeSpent` of Part 1. It is never updated, so it is kept as 0.
- The transcript text recognised by the host. It is an input of
  `Recognizer.OnResult`.
- Ledger.Record: `handleNext` writes into the answer list that is shared
  with the previous state, in place. The model builds a new list, so that
  aliasing is not represented.
- QuestionSegment.QuestionSegment.HandleTimeUp: the memoised handler may
  hold a `stopListening` from an earlier render. The model reports the stop
  request with the current listening flag.
- CueCardSegment.CueCardSegment.HandleTimeUp: after speaking, the stop
  request uses the current listening flag, although the memoised handler
  may hold an older `stopListening`.
- The stale closures of the other handlers. Each is modelled with the
  state current when it runs, except the auto-speak prompts and the Part 2
  time-up handler, described above.
