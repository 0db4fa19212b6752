/** The routed test page of src/pages/TestInterface.jsx: the part and
    question being shown, the questions fetched for the part, the audio
    recordings collected so far and the page's own countdown
    (src/components/Timer.jsx).

    The question fetch is asynchronous: the effect keyed on the part issues
    a request for the part it sees, and the response may arrive at any later
    time. Requests in flight are kept in `requests`; `Arrive` delivers one of
    them, in any order. The submission at the end and the navigation calls
    are reported as results. */
module TestInterface {

  import opened Wrappers
  import opened Countdown
  import opened TimerDisplay

  /** One entry of `recordings`. The audio blob is kept as its bytes; the
      timestamp is the ISO text of the host clock, given by the caller. */
  datatype Recording = Recording(part: int, question: int, audio: seq<bv8>, timestamp: string)

  /** How a question request ended: the request or the JSON decoding threw,
      or a body arrived whose `questions` member may be missing. */
  datatype FetchOutcome = FetchFailed | Fetched(questions: Option<seq<string>>)

  /** The countdown a successful load seeds for the part it was issued
      for: five minutes, except one minute of preparation for Part 2. */
  function SeedTime(part: int): (seconds: nat)
    ensures seconds == 60 <==> part == 2
    ensures part != 2 ==> seconds == 300
  {
    if part == 1 then 300 else if part == 2 then 60 else 300
  }

  class TestPage {
    const testId: Option<string>
    var currentPart: int
    var currentQuestion: int
    var questions: seq<string>
    var isRecording: bool
    var recordings: seq<Recording>
    var timeLeft: int
    var isPreparation: bool
    /** The part each question request still in flight was issued for. */
    var requests: seq<int>

    ghost predicate Valid()
      reads this
    {
      && 1 <= currentPart <= 3
      && 0 <= currentQuestion
      && (currentQuestion == 0 || currentQuestion < |questions|)
      && timeLeft >= 0
      && forall k :: 0 <= k < |requests| ==> 1 <= requests[k] <= 3
    }

    /** Mounting with the test id found in the navigation state, if any.
        An empty id is falsy and counts as none (`testId || null`). Without
        an id the page navigates home and issues nothing; with one the
        effect issues the request for Part 1. */
    constructor(testId: Option<string>)
      ensures Valid()
      ensures this.testId == if testId == Some("") then None else testId
      ensures currentPart == 1 && currentQuestion == 0 && questions == []
      ensures !isRecording && recordings == [] && timeLeft == 0 && !isPreparation
      ensures requests == if testId.Some? && testId.value != "" then [1] else []
    {
      this.testId := if testId == Some("") then None else testId;
      currentPart := 1;
      currentQuestion := 0;
      questions := [];
      isRecording := false;
      recordings := [];
      timeLeft := 0;
      isPreparation := false;
      requests := if testId.Some? && testId.value != "" then [1] else [];
    }

    /** The response to request `k` arrives (`loadQuestions` after its
        `await`s). A failure changes nothing but the request list. A body
        installs its questions (none when the member is missing), goes back
        to the first question and seeds the countdown for the part the
        request was issued for, which need not be the part shown now. */
    method Arrive(k: nat, outcome: FetchOutcome)
      requires Valid() && k < |requests|
      modifies this
      ensures Valid()
      ensures requests == old(requests[..k] + requests[k + 1..])
      ensures currentPart == old(currentPart) && recordings == old(recordings) && isRecording == old(isRecording)
      ensures outcome.FetchFailed? ==>
                && questions == old(questions) && currentQuestion == old(currentQuestion)
                && timeLeft == old(timeLeft) && isPreparation == old(isPreparation)
      ensures outcome.Fetched? ==>
                && questions == outcome.questions.GetOr([]) && currentQuestion == 0
                && timeLeft == SeedTime(old(requests[k]))
                && isPreparation == (old(isPreparation) || old(requests[k]) == 2)
    {
      var forPart := requests[k];
      requests := requests[..k] + requests[k + 1..];
      match outcome {
        case FetchFailed =>
        case Fetched(data) =>
          questions := data.GetOr([]);
          currentQuestion := 0;
          if forPart == 1 {
            timeLeft := 300;
          } else if forPart == 2 {
            timeLeft := 60;
            isPreparation := true;
          } else {
            timeLeft := 300;
          }
      }
    }

    /** `handleRecordingComplete`: appends one recording tagged with the
        part and question shown and the given timestamp. */
    method HandleRecordingComplete(audio: seq<bv8>, timestamp: string)
      requires Valid()
      modifies this
      ensures Valid()
      ensures recordings == old(recordings) + [Recording(currentPart, currentQuestion, audio, timestamp)]
      ensures currentPart == old(currentPart) && currentQuestion == old(currentQuestion)
      ensures questions == old(questions) && timeLeft == old(timeLeft) && requests == old(requests)
      ensures isRecording == old(isRecording) && isPreparation == old(isPreparation)
    {
      recordings := recordings + [Recording(currentPart, currentQuestion, audio, timestamp)];
    }

    /** `nextQuestion`: the next question of the part when there is one,
        otherwise `nextPart`. */
    method NextQuestion() returns (finished: bool)
      requires Valid() && testId.Some?
      modifies this
      ensures Valid()
      ensures recordings == old(recordings) && questions == old(questions) && timeLeft == old(timeLeft)
      ensures isRecording == old(isRecording) && isPreparation == old(isPreparation)
      ensures |questions| > 0 ==> (finished <==> old(FinishLabelShown()))
      ensures |questions| == 0 ==> finished == (old(currentPart) == 3) && !old(FinishLabelShown())
      ensures old(currentQuestion) < |questions| - 1 ==>
                && currentQuestion == old(currentQuestion) + 1 && currentPart == old(currentPart)
                && requests == old(requests) && !finished
      ensures old(currentQuestion) >= |questions| - 1 ==>
                && currentQuestion == old(currentQuestion)
                && finished == (old(currentPart) == 3)
                && currentPart == (if finished then 3 else old(currentPart) + 1)
                && requests == (if finished then old(requests) else old(requests) + [currentPart])
    {
      if currentQuestion < |questions| - 1 {
        currentQuestion := currentQuestion + 1;
        finished := false;
      } else {
        finished := NextPart();
      }
    }

    /** `nextPart`: the next part, whose request the effect keyed on the
        part issues at once; after Part 3 the test is submitted instead
        (`finished`). The question index is left to the next load. */
    method NextPart() returns (finished: bool)
      requires Valid() && testId.Some?
      modifies this
      ensures Valid()
      ensures finished == (old(currentPart) == 3)
      ensures currentPart == if finished then 3 else old(currentPart) + 1
      ensures requests == if finished then old(requests) else old(requests) + [currentPart]
      ensures currentQuestion == old(currentQuestion) && questions == old(questions)
      ensures recordings == old(recordings) && timeLeft == old(timeLeft) && isPreparation == old(isPreparation)
      ensures isRecording == old(isRecording)
    {
      if currentPart < 3 {
        currentPart := currentPart + 1;
        requests := requests + [currentPart];
        finished := false;
      } else {
        finished := true;
      }
    }

    /** The Previous button: one question back, never below the first. */
    method Previous()
      requires Valid()
      modifies this
      ensures Valid()
      ensures currentQuestion == if old(currentQuestion) > 0 then old(currentQuestion) - 1 else 0
      ensures currentPart == old(currentPart) && questions == old(questions) && requests == old(requests)
      ensures recordings == old(recordings) && timeLeft == old(timeLeft)
      ensures isRecording == old(isRecording) && isPreparation == old(isPreparation)
    {
      currentQuestion := if currentQuestion - 1 > 0 then currentQuestion - 1 else 0;
    }

    /** The page timer's one-second timeout; it is only armed while time is
        left, and nothing happens when the countdown reaches zero. */
    method Tick()
      requires Valid()
      modifies this
      ensures Valid()
      ensures timeLeft == Step(old(timeLeft), true)
      ensures currentPart == old(currentPart) && currentQuestion == old(currentQuestion)
      ensures questions == old(questions) && recordings == old(recordings) && requests == old(requests)
      ensures isRecording == old(isRecording) && isPreparation == old(isPreparation)
    {
      if timeLeft > 0 {
        timeLeft := timeLeft - 1;
      }
    }

    /** The label of the forward button reads "Finish Test" exactly on the
        last question of Part 3; pressing it then submits. */
    predicate FinishLabelShown()
      reads this
    {
      currentPart == 3 && currentQuestion == |questions| - 1
    }

    /** The page timer's colour band. */
    function TimerColor(): TimerColor
      reads this
    {
      ColorClass(timeLeft)
    }
  }

  /** Walking through a Part 3 that has questions reaches the "Finish
      Test" label, and pressing the button then submits (`NextQuestion`
      states that the two agree in every state where the part has
      questions). */
  method FinishLabelScenario(qs: seq<string>) returns (labelled: bool, finished: bool)
    requires qs != []
    ensures labelled && finished
  {
    var page := new TestPage(Some("t"));
    var f := page.NextPart();
    f := page.NextPart();
    page.Arrive(|page.requests| - 1, Fetched(Some(qs)));
    while page.currentQuestion < |qs| - 1
      invariant page.Valid() && page.testId.Some? && page.currentPart == 3 && page.questions == qs
      invariant 0 <= page.currentQuestion <= |qs| - 1
      decreases |qs| - page.currentQuestion
      modifies page
    {
      f := page.NextQuestion();
    }
    labelled := page.FinishLabelShown();
    finished := page.NextQuestion();
  }

  /** A response that arrives late overwrites the part shown: after moving
      on to Part 2, the answer to the first request installs its questions
      and seeds five minutes, although Part 2 is displayed. */
  method StaleLoadScenario(part1: seq<string>, part2: seq<string>) returns (shownPart: int, shown: seq<string>, seconds: int)
    ensures shownPart == 2 && shown == part1 && seconds == 300
  {
    var page := new TestPage(Some("t"));
    var f := page.NextPart();
    assert page.requests == [1, 2];
    page.Arrive(1, Fetched(Some(part2)));
    assert page.requests == [1];
    page.Arrive(0, Fetched(Some(part1)));
    shownPart := page.currentPart;
    shown := page.questions;
    seconds := page.timeLeft;
  }
}
