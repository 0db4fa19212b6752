/** The text-to-speech hook of src/app.jsx (`useTextToSpeech`): a speaking
    flag that guards `speak`, the voice list and the default voice choice.

    The host engine is foreign. `speak` arms a 100 ms settle timeout; the
    utterances whose timeout is running are kept in `scheduled`, in the order
    they were armed, and `SettleElapsed` hands the oldest to the host. The
    utterance's `onstart`, `onend` and `onerror` callbacks are methods the
    environment calls. Rate, pitch and volume are floating point settings
    the hook only forwards; they are not modelled. */
module SpeechSynthesis {

  import opened Wrappers
  import opened Strings

  /** A host voice: its display name and its BCP 47 language tag. */
  datatype Voice = Voice(name: string, lang: string)

  /** What is handed to the host: the text and the voice selected when
      `speak` was called (none means the host's default voice). */
  datatype Utterance = Utterance(text: string, voice: Option<Voice>)

  predicate IsEnglish(v: Voice) {
    StartsWith(v.lang, "en")
  }

  predicate IsGoogleEnglish(v: Voice) {
    IsEnglish(v) && Contains(v.name, "Google")
  }

  /** `voices.find(p)`, as the position of the first voice satisfying `p`. */
  function FindFirst(voices: seq<Voice>, p: Voice -> bool): (r: Option<nat>)
    ensures r.Some? ==> r.value < |voices| && p(voices[r.value])
    ensures r.Some? ==> forall k :: 0 <= k < r.value ==> !p(voices[k])
    ensures r.None? ==> forall k :: 0 <= k < |voices| ==> !p(voices[k])
  {
    if voices == [] then None
    else if p(voices[0]) then Some(0)
    else match FindFirst(voices[1..], p)
      case None => None
      case Some(i) => Some(i + 1)
  }

  /** The voice `loadVoices` selects: the first English voice whose name
      mentions Google, else the first English voice, else none. */
  function DefaultVoice(voices: seq<Voice>): (r: Option<Voice>)
    ensures r.Some? ==> r.value in voices && IsEnglish(r.value)
  {
    match FindFirst(voices, IsGoogleEnglish)
    case Some(i) => Some(voices[i])
    case None =>
      match FindFirst(voices, IsEnglish)
      case Some(j) => Some(voices[j])
      case None => None
  }

  /** When some English Google voice exists, the first one is chosen. */
  lemma DefaultVoicePrefersGoogle(voices: seq<Voice>, i: nat)
    requires i < |voices| && IsGoogleEnglish(voices[i])
    requires forall k :: 0 <= k < i ==> !IsGoogleEnglish(voices[k])
    ensures DefaultVoice(voices) == Some(voices[i])
  {
    var f := FindFirst(voices, IsGoogleEnglish);
    assert f.Some?;
    assert f.value == i;
  }

  /** Without an English Google voice, the first English voice is chosen. */
  lemma DefaultVoiceFallsBackToEnglish(voices: seq<Voice>, i: nat)
    requires forall k :: 0 <= k < |voices| ==> !IsGoogleEnglish(voices[k])
    requires i < |voices| && IsEnglish(voices[i])
    requires forall k :: 0 <= k < i ==> !IsEnglish(voices[k])
    ensures DefaultVoice(voices) == Some(voices[i])
  {
    var f := FindFirst(voices, IsEnglish);
    assert f.Some?;
    assert f.value == i;
  }

  /** No voice is chosen exactly when no voice is English. */
  lemma DefaultVoiceNoneIffNoEnglish(voices: seq<Voice>)
    ensures DefaultVoice(voices).None? <==> forall k :: 0 <= k < |voices| ==> !IsEnglish(voices[k])
  {
    if DefaultVoice(voices).None? {
      assert FindFirst(voices, IsEnglish).None?;
    } else if FindFirst(voices, IsGoogleEnglish).Some? {
      var i := FindFirst(voices, IsGoogleEnglish).value;
      assert IsEnglish(voices[i]);
    }
  }

  /** `speak`'s guard: refused when unsupported, for empty text, and while
      something is speaking. */
  predicate SpeakAccepted(isSupported: bool, text: string, isSpeaking: bool) {
    isSupported && text != "" && !isSpeaking
  }

  class Speaker {
    /** Whether the host offers `speechSynthesis`. */
    const isSupported: bool
    var isSpeaking: bool
    var voices: seq<Voice>
    var selectedVoice: Option<Voice>
    /** Utterances whose settle timeout is armed, oldest first. */
    var scheduled: seq<Utterance>

    constructor(isSupported: bool)
      ensures this.isSupported == isSupported
      ensures !isSpeaking && voices == [] && selectedVoice == None && scheduled == []
    {
      this.isSupported := isSupported;
      isSpeaking := false;
      voices := [];
      selectedVoice := None;
      scheduled := [];
    }

    /** `loadVoices`, run on mount and on every `voiceschanged`: stores the
        host's list and selects the default voice when there is one,
        otherwise keeps the current selection. */
    method LoadVoices(available: seq<Voice>)
      modifies this
      ensures voices == available
      ensures selectedVoice == if DefaultVoice(available).Some? then DefaultVoice(available) else old(selectedVoice)
      ensures isSpeaking == old(isSpeaking) && scheduled == old(scheduled)
    {
      voices := available;
      var englishVoice := DefaultVoice(available);
      if englishVoice.Some? {
        selectedVoice := englishVoice;
      }
    }

    /** `setSelectedVoice`, from the audio settings. */
    method SelectVoice(v: Option<Voice>)
      modifies this
      ensures selectedVoice == v
      ensures voices == old(voices) && isSpeaking == old(isSpeaking) && scheduled == old(scheduled)
    {
      selectedVoice := v;
    }

    /** `speak(text)`: a no-op unless accepted by the guard; otherwise the
        host is cancelled and the utterance, with the selected voice, waits
        for its settle timeout. The flag is not raised here but by `OnStart`. */
    method Speak(text: string) returns (accepted: bool)
      modifies this
      ensures accepted == SpeakAccepted(isSupported, text, old(isSpeaking))
      ensures scheduled == if accepted then old(scheduled) + [Utterance(text, selectedVoice)] else old(scheduled)
      ensures isSpeaking == old(isSpeaking)
      ensures voices == old(voices) && selectedVoice == old(selectedVoice)
    {
      if !isSupported || text == "" || isSpeaking {
        return false;
      }
      Issue(Utterance(text, selectedVoice));
      accepted := true;
    }

    /** What `speak` does once its guard has passed: `speechSynthesis.cancel()`
        and the settle timeout for `u`. */
    method Issue(u: Utterance)
      modifies this
      ensures scheduled == old(scheduled) + [u]
      ensures isSpeaking == old(isSpeaking)
      ensures voices == old(voices) && selectedVoice == old(selectedVoice)
    {
      scheduled := scheduled + [u];
    }

    /** The oldest settle timeout fires and its utterance goes to the host. */
    method SettleElapsed() returns (handed: Option<Utterance>)
      modifies this
      ensures old(scheduled) == [] ==> handed == None && scheduled == []
      ensures old(scheduled) != [] ==> handed == Some(old(scheduled)[0]) && scheduled == old(scheduled)[1..]
      ensures isSpeaking == old(isSpeaking)
      ensures voices == old(voices) && selectedVoice == old(selectedVoice)
    {
      if scheduled == [] {
        handed := None;
      } else {
        handed := Some(scheduled[0]);
        scheduled := scheduled[1..];
      }
    }

    /** An utterance's `onstart`. */
    method OnStart()
      modifies this
      ensures isSpeaking
      ensures scheduled == old(scheduled) && voices == old(voices) && selectedVoice == old(selectedVoice)
    {
      isSpeaking := true;
    }

    /** An utterance's `onend`: the flag is always cleared. */
    method OnEnd()
      modifies this
      ensures !isSpeaking
      ensures scheduled == old(scheduled) && voices == old(voices) && selectedVoice == old(selectedVoice)
    {
      isSpeaking := false;
    }

    /** An utterance's `onerror`: the flag is always cleared. */
    method OnError()
      modifies this
      ensures !isSpeaking
      ensures scheduled == old(scheduled) && voices == old(voices) && selectedVoice == old(selectedVoice)
    {
      isSpeaking := false;
    }

    /** `stop`: cancels the host and clears the flag at once. Settle timeouts
        already armed are not cleared and still fire. */
    method Stop()
      modifies this
      ensures !isSpeaking
      ensures scheduled == old(scheduled) && voices == old(voices) && selectedVoice == old(selectedVoice)
    {
      isSpeaking := false;
    }
  }

  /** Two `speak` calls in a row, before the first utterance has started:
      the flag is still down, so the second is accepted too and both are
      handed to the host, in order. */
  method SpeakTwiceBeforeStart(a: string, b: string) returns (first: bool, second: bool, queued: seq<Utterance>)
    requires a != "" && b != ""
    ensures first && second
    ensures queued == [Utterance(a, None), Utterance(b, None)]
  {
    var speaker := new Speaker(true);
    first := speaker.Speak(a);
    second := speaker.Speak(b);
    queued := speaker.scheduled;
  }

  /** Once an utterance has started, a further `speak` is dropped, and the
      flag comes down with that utterance's end. */
  method SpeakWhileSpeaking(a: string, b: string) returns (second: bool, speakingAfterEnd: bool)
    requires a != "" && b != ""
    ensures !second && !speakingAfterEnd
  {
    var speaker := new Speaker(true);
    var first := speaker.Speak(a);
    var handed := speaker.SettleElapsed();
    speaker.OnStart();
    second := speaker.Speak(b);
    speaker.OnEnd();
    speakingAfterEnd := speaker.isSpeaking;
  }
}
