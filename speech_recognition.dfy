/** The speech-to-text hook of src/app.jsx (`useSpeechRecognition`): a
    listening flag and a transcript buffer that grows only by finished
    phrases. The host recogniser is foreign; its `onstart`, `onresult`,
    `onerror` and `onend` callbacks are methods the environment calls, and
    the `start()`/`stop()` requests the hook makes are reported as results. */
module SpeechRecognition {

  /** One entry of `event.results`: whether the recogniser has finished it,
      and the transcript of its first alternative (`results[i][0]`), the only
      one the hook reads. */
  datatype SpeechResult = SpeechResult(isFinal: bool, transcript: string)

  /** What one result contributes to the transcript: a finished phrase
      followed by one space, an interim one nothing. */
  function Piece(r: SpeechResult): string {
    if r.isFinal then r.transcript + " " else ""
  }

  /** The finished phrases of `results`, each followed by one space, in order. */
  function FinalText(results: seq<SpeechResult>): string {
    if results == [] then "" else FinalText(results[..|results| - 1]) + Piece(results[|results| - 1])
  }

  /** `event.results` from `event.resultIndex` on (nothing when the index is
      at or past the end). */
  function From(results: seq<SpeechResult>, resultIndex: nat): seq<SpeechResult> {
    if resultIndex < |results| then results[resultIndex..] else []
  }

  /** The loop of `onresult`: collects `finalTranscript` from `resultIndex`
      to the end of `results`. */
  method CollectFinal(results: seq<SpeechResult>, resultIndex: nat) returns (finalTranscript: string)
    ensures finalTranscript == FinalText(From(results, resultIndex))
  {
    finalTranscript := "";
    if resultIndex >= |results| {
      return;
    }
    var i := resultIndex;
    while i < |results|
      invariant resultIndex <= i <= |results|
      invariant finalTranscript == FinalText(results[resultIndex..i])
    {
      FinalTextStep(results, resultIndex, i);
      if results[i].isFinal {
        finalTranscript := finalTranscript + (results[i].transcript + " ");
      }
      i := i + 1;
    }
    assert results[resultIndex..i] == From(results, resultIndex);
  }

  /** One more result extends the collected text by its own piece. */
  lemma FinalTextStep(results: seq<SpeechResult>, lo: nat, i: nat)
    requires lo <= i < |results|
    ensures FinalText(results[lo..i + 1]) == FinalText(results[lo..i]) + Piece(results[i])
  {
    assert results[lo..i + 1][..i - lo] == results[lo..i];
  }

  /** Results are taken in arrival order: the text of a batch is the text of
      its first part followed by the text of the rest. */
  lemma {:induction false} FinalTextAppend(a: seq<SpeechResult>, b: seq<SpeechResult>)
    ensures FinalText(a + b) == FinalText(a) + FinalText(b)
  {
    if b == [] {
      assert a + b == a;
    } else {
      var b' := b[..|b| - 1];
      assert (a + b)[..|a + b| - 1] == a + b';
      FinalTextAppend(a, b');
    }
  }

  /** An interim result, wherever it arrives, changes nothing. */
  lemma FinalTextIgnoresInterim(a: seq<SpeechResult>, x: SpeechResult, b: seq<SpeechResult>)
    requires !x.isFinal
    ensures FinalText(a + [x] + b) == FinalText(a + b)
  {
    FinalTextAppend(a + [x], b);
    FinalTextAppend(a, b);
    assert (a + [x])[..|a + [x]| - 1] == a;
  }

  /** A batch of interim results only contributes nothing at all. */
  lemma {:induction false} InterimOnlyIsEmpty(results: seq<SpeechResult>)
    requires forall k :: 0 <= k < |results| ==> !results[k].isFinal
    ensures FinalText(results) == ""
  {
    if results != [] {
      InterimOnlyIsEmpty(results[..|results| - 1]);
    }
  }

  /** Every non-empty contribution ends with the separating space. */
  lemma {:induction false} FinalTextEndsWithSpace(results: seq<SpeechResult>)
    ensures FinalText(results) == "" || FinalText(results)[|FinalText(results)| - 1] == ' '
  {
    if results != [] {
      FinalTextEndsWithSpace(results[..|results| - 1]);
    }
  }

  class Recognizer {
    /** Whether the host offers `SpeechRecognition`; when it does not, the
        recogniser reference stays null and every request is ignored. */
    const isSupported: bool
    var isListening: bool
    var transcript: string

    constructor(isSupported: bool)
      ensures this.isSupported == isSupported
      ensures !isListening && transcript == ""
    {
      this.isSupported := isSupported;
      isListening := false;
      transcript := "";
    }

    /** `startListening`: when supported and not already listening, clears
        the transcript and asks the host to start (`started`). Listening
        itself only begins with `OnStart`. */
    method StartListening() returns (started: bool)
      modifies this
      ensures started == (isSupported && !old(isListening))
      ensures transcript == if started then "" else old(transcript)
      ensures isListening == old(isListening)
    {
      started := isSupported && !isListening;
      if started {
        transcript := "";
      }
    }

    /** `stopListening`: asks the host to stop (`stopped`) when supported and
        listening; the hook's own state does not change, so calling it twice
        is the same as calling it once. */
    method StopListening() returns (stopped: bool)
      ensures stopped == (isSupported && isListening)
    {
      stopped := isSupported && isListening;
    }

    /** `resetTranscript`. */
    method ResetTranscript()
      modifies this
      ensures transcript == "" && isListening == old(isListening)
    {
      transcript := "";
    }

    /** The host's `onstart`. */
    method OnStart()
      modifies this
      ensures isListening && transcript == old(transcript)
    {
      isListening := true;
    }

    /** The host's `onresult`: the transcript grows by the finished phrases
        from `resultIndex` on, each followed by a space; nothing else. */
    method OnResult(results: seq<SpeechResult>, resultIndex: nat)
      modifies this
      ensures transcript == old(transcript) + FinalText(From(results, resultIndex))
      ensures isListening == old(isListening)
    {
      var finalTranscript := CollectFinal(results, resultIndex);
      if finalTranscript != "" {
        transcript := transcript + finalTranscript;
      }
    }

    /** The host's `onerror`: listening stops, the transcript is kept. */
    method OnError(error: string)
      modifies this
      ensures !isListening && transcript == old(transcript)
    {
      isListening := false;
    }

    /** The host's `onend`: listening stops, the transcript is kept. */
    method OnEnd()
      modifies this
      ensures !isListening && transcript == old(transcript)
    {
      isListening := false;
    }
  }
}
