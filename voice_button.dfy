/** The push-to-talk button: a speech-recognition session driven by engine
    callbacks, a silence timer that submits after a pause, and the start and
    stop handlers that the click handler and the keyboard trigger call.

    Engine callbacks, timer expiry and the microphone-permission outcome are
    method calls and parameters; `onTranscript` calls are recorded in
    `submitted`. */
module VoiceButton {
  import opened JsStrings
  import opened Optional
  import Seqs

  /** Declared with three values; `Processing` is never assigned. */
  datatype VoiceState = Idle | Listening | Processing

  /** One entry of `event.results`: the text of its best alternative and
      whether the engine has finalised it. */
  datatype SpeechResult = SpeechResult(transcript: string, isFinal: bool)

  const UnsupportedMessage := "Voice control requires Chrome or Edge browser"
  const PermissionDeniedMessage := "Microphone permission denied"
  const EngineNoSpeechMessage := "No speech detected. Try again."
  const EngineErrorMessage := "Voice recognition error"
  const EmptyTranscriptMessage := "No speech detected. Please try again."

  /** Final pieces in index order, each followed by one space. */
  function FinalText(rs: seq<SpeechResult>): string
  {
    if rs == [] then ""
    else FinalText(rs[..|rs| - 1]) + (if rs[|rs| - 1].isFinal then rs[|rs| - 1].transcript + " " else "")
  }

  /** Interim pieces in index order, with no separator. */
  function InterimText(rs: seq<SpeechResult>): string
  {
    if rs == [] then ""
    else InterimText(rs[..|rs| - 1]) + (if rs[|rs| - 1].isFinal then "" else rs[|rs| - 1].transcript)
  }

  /** `finalTranscript || interimTranscript`. */
  function CurrentTranscript(rs: seq<SpeechResult>): string
  {
    if FinalText(rs) != "" then FinalText(rs) else InterimText(rs)
  }

  /** The results one `onresult` event visits: from `resultIndex` to the end,
      none when `resultIndex` is past the end. */
  function Window(results: seq<SpeechResult>, resultIndex: nat): (w: seq<SpeechResult>)
    ensures resultIndex <= |results| ==> w == results[resultIndex..]
    ensures |results| < resultIndex ==> w == []
  {
    if resultIndex <= |results| then results[resultIndex..] else []
  }

  /** The loop of `onresult`: it walks the window once, appending each final
      piece and a space to one string and each interim piece to the other. */
  method AssembleTranscript(results: seq<SpeechResult>, resultIndex: nat) returns (finalText: string, interimText: string)
    ensures finalText == FinalText(Window(results, resultIndex))
    ensures interimText == InterimText(Window(results, resultIndex))
    ensures finalText != "" <==> exists k :: resultIndex <= k < |results| && results[k].isFinal
  {
    finalText, interimText := "", "";
    var i := resultIndex;
    while i < |results|
      invariant resultIndex <= i
      invariant i <= |results| ==> finalText == FinalText(results[resultIndex..i])
      invariant i <= |results| ==> interimText == InterimText(results[resultIndex..i])
      invariant |results| < i ==> i == resultIndex && finalText == "" && interimText == ""
    {
      var piece := results[i].transcript;
      assert results[resultIndex..i + 1][..i - resultIndex] == results[resultIndex..i];
      if results[i].isFinal {
        finalText := finalText + piece + " ";
      } else {
        interimText := interimText + piece;
      }
      i := i + 1;
    }
    if resultIndex <= |results| {
      assert results[resultIndex..i] == results[resultIndex..];
      FinalTextNonEmptyIff(results[resultIndex..]);
      if finalText != "" {
        var k :| 0 <= k < |results[resultIndex..]| && results[resultIndex..][k].isFinal;
        assert results[resultIndex + k].isFinal;
      } else {
        forall k | resultIndex <= k < |results| ensures !results[k].isFinal {
          assert results[resultIndex..][k - resultIndex] == results[k];
        }
      }
    }
  }

  /** The final text is non-empty exactly when some result is final: each
      final piece brings at least its space. */
  lemma {:induction false} FinalTextNonEmptyIff(rs: seq<SpeechResult>)
    ensures FinalText(rs) != "" <==> exists k :: 0 <= k < |rs| && rs[k].isFinal
  {
    if rs != [] {
      var init := rs[..|rs| - 1];
      FinalTextNonEmptyIff(init);
      if exists k :: 0 <= k < |init| && init[k].isFinal {
        var k :| 0 <= k < |init| && init[k].isFinal;
        assert rs[k] == init[k];
      }
      if exists k :: 0 <= k < |rs| && rs[k].isFinal {
        var k :| 0 <= k < |rs| && rs[k].isFinal;
        if k < |init| { assert init[k] == rs[k]; }
      }
    }
  }

  /** Pieces are taken in index order: the text of two runs of results is the
      text of the first followed by the text of the second. */
  lemma {:induction false} TextsAppend(a: seq<SpeechResult>, b: seq<SpeechResult>)
    ensures FinalText(a + b) == FinalText(a) + FinalText(b)
    ensures InterimText(a + b) == InterimText(a) + InterimText(b)
  {
    if b == [] {
      assert a + b == a;
    } else {
      assert (a + b)[..|a + b| - 1] == a + b[..|b| - 1];
      assert (a + b)[|a + b| - 1] == b[|b| - 1];
      TextsAppend(a, b[..|b| - 1]);
    }
  }

  predicate IsFinal(r: SpeechResult) { r.isFinal }
  predicate IsInterim(r: SpeechResult) { !r.isFinal }

  /** The final text depends on the final results only, however many interim
      results come between them. */
  lemma {:induction false} FinalTextIgnoresInterim(rs: seq<SpeechResult>)
    ensures FinalText(rs) == FinalText(Seqs.Filter(rs, IsFinal))
  {
    if rs != [] {
      var init, last := rs[..|rs| - 1], rs[|rs| - 1];
      FinalTextIgnoresInterim(init);
      var finals := Seqs.Filter(init, IsFinal);
      if last.isFinal {
        assert Seqs.Filter(rs, IsFinal) == finals + [last];
        TextsAppend(finals, [last]);
        assert [last][..0] == [];
        assert FinalText([last]) == last.transcript + " ";
        assert FinalText(rs) == FinalText(init) + last.transcript + " ";
      } else {
        assert Seqs.Filter(rs, IsFinal) == finals;
        assert FinalText(rs) == FinalText(init) + "";
      }
    }
  }

  /** And the interim text on the interim results only. */
  lemma {:induction false} InterimTextIgnoresFinal(rs: seq<SpeechResult>)
    ensures InterimText(rs) == InterimText(Seqs.Filter(rs, IsInterim))
  {
    if rs != [] {
      var init, last := rs[..|rs| - 1], rs[|rs| - 1];
      InterimTextIgnoresFinal(init);
      var interims := Seqs.Filter(init, IsInterim);
      if !last.isFinal {
        assert Seqs.Filter(rs, IsInterim) == interims + [last];
        TextsAppend(interims, [last]);
        assert [last][..0] == [];
        assert InterimText([last]) == last.transcript;
        assert InterimText(rs) == InterimText(init) + last.transcript;
      } else {
        assert Seqs.Filter(rs, IsInterim) == interims;
        assert InterimText(rs) == InterimText(init) + "";
      }
    }
  }

  /** `finalText || transcript`: a non-empty argument wins. */
  function TextToSubmit(finalText: string, transcript: string): string
  {
    if finalText != "" then finalText else transcript
  }

  /** What `handleStop` hands to `onTranscript`: the chosen text trimmed,
      and nothing when that is empty. */
  function Submission(finalText: string, transcript: string): (r: Option<string>)
    ensures r.Some? <==> !AllWhitespace(TextToSubmit(finalText, transcript))
    ensures r.Some? ==> r.value == Trim(TextToSubmit(finalText, transcript)) && r.value != "" && IsTrimmed(r.value)
  {
    var trimmed := Trim(TextToSubmit(finalText, transcript));
    TrimEmptyIffAllWhitespace(TextToSubmit(finalText, transcript));
    if trimmed != "" then Some(trimmed) else None
  }

  /** A non-empty `finalText` takes precedence over the transcript. */
  lemma SubmissionPrefersFinalText(finalText: string, transcript: string, other: string)
    requires finalText != ""
    ensures Submission(finalText, transcript) == Submission(finalText, other)
  {
  }

  /** The message `onerror` shows for an engine error code other than
      `aborted`. */
  function EngineErrorText(code: string): (m: string)
    ensures code == "no-speech" ==> m == EngineNoSpeechMessage
    ensures code == "not-allowed" ==> m == PermissionDeniedMessage
    ensures code != "no-speech" && code != "not-allowed" ==> m == EngineErrorMessage
  {
    if code == "no-speech" then EngineNoSpeechMessage
    else if code == "not-allowed" then PermissionDeniedMessage
    else EngineErrorMessage
  }

  /** The three engine error messages differ from each other and from the
      empty-transcript message of `handleStop`. */
  lemma ErrorMessagesDistinct()
    ensures EngineNoSpeechMessage != PermissionDeniedMessage && EngineNoSpeechMessage != EngineErrorMessage
    ensures PermissionDeniedMessage != EngineErrorMessage
    ensures EmptyTranscriptMessage !in {EngineNoSpeechMessage, PermissionDeniedMessage, EngineErrorMessage}
  {
  }

  class Component {
    /** `state` */
    var state: VoiceState
    /** `transcript`: the live preview */
    var transcript: string
    /** `error`: the message on show, if any */
    var error: Option<string>
    /** `silenceTimerRef`: the pending silence timer, holding the transcript
        it captured when armed */
    var silenceTimer: Option<string>
    /** whether `recognitionRef` holds an engine (the browser supports it) */
    const hasRecognition: bool
    /** whether the engine has been started and not stopped since */
    var recognizing: bool
    /** the arguments of every `onTranscript` call so far */
    var submitted: seq<string>
    /** 3000 ms timers that will reset `error` to null */
    var errorClearsPending: nat

    ghost predicate Valid()
      reads this
    {
      && state != Processing
      && (recognizing ==> hasRecognition)
      && (state == Listening ==> hasRecognition)
      && (silenceTimer.Some? ==> silenceTimer.value != "")
      && forall k :: 0 <= k < |submitted| ==> submitted[k] != "" && IsTrimmed(submitted[k])
    }

    /** The first run of the effect: without engine support the error is
        set and no engine is created. */
    constructor (supported: bool)
      ensures Valid()
      ensures hasRecognition == supported && state == Idle && transcript == ""
      ensures error == (if supported then None else Some(UnsupportedMessage))
      ensures silenceTimer == None && !recognizing && submitted == [] && errorClearsPending == 0
    {
      hasRecognition := supported;
      state := Idle;
      transcript := "";
      error := if supported then None else Some(UnsupportedMessage);
      silenceTimer := None;
      recognizing := false;
      submitted := [];
      errorClearsPending := 0;
    }

    /** `recognition.onresult`: show the current text, and re-arm the silence
        timer (replacing any pending one) only when a final piece came in. */
    method OnResult(results: seq<SpeechResult>, resultIndex: nat)
      requires Valid()
      modifies this
      ensures Valid()
      ensures transcript == CurrentTranscript(Window(results, resultIndex))
      ensures silenceTimer == if FinalText(Window(results, resultIndex)) != "" then Some(FinalText(Window(results, resultIndex)))
                              else old(silenceTimer)
      ensures state == old(state) && error == old(error) && recognizing == old(recognizing)
      ensures submitted == old(submitted) && errorClearsPending == old(errorClearsPending)
    {
      var finalTranscript, interimTranscript := AssembleTranscript(results, resultIndex);
      var currentTranscript := if finalTranscript != "" then finalTranscript else interimTranscript;
      transcript := currentTranscript;
      if finalTranscript != "" {
        silenceTimer := Some(currentTranscript);
      }
    }

    /** The silence timer runs out: it stops with the text it captured, if
        that text is not blank. */
    method FireSilenceTimer()
      requires Valid()
      modifies this
      ensures Valid()
      ensures silenceTimer == None
      ensures old(silenceTimer).Some? && !AllWhitespace(old(silenceTimer).value) ==>
                state == Idle && transcript == "" && !recognizing
                && submitted == old(submitted) + [Trim(old(silenceTimer).value)]
                && error == old(error) && errorClearsPending == old(errorClearsPending)
      ensures old(silenceTimer).None? || AllWhitespace(old(silenceTimer).value) ==>
                state == old(state) && transcript == old(transcript) && recognizing == old(recognizing)
                && submitted == old(submitted) && error == old(error) && errorClearsPending == old(errorClearsPending)
    {
      if silenceTimer.Some? {
        var captured := silenceTimer.value;
        silenceTimer := None;
        TrimEmptyIffAllWhitespace(captured);
        if Trim(captured) != "" {
          TrimIdempotent(captured);
          HandleStop(Trim(captured));
        }
      }
    }

    /** `recognition.onerror`: `aborted` only returns to idle; any other code
        shows its message, returns to idle and schedules the message's
        removal. */
    method OnError(code: string)
      requires Valid()
      modifies this
      ensures Valid()
      ensures state == Idle
      ensures code == "aborted" ==> error == old(error) && errorClearsPending == old(errorClearsPending)
      ensures code != "aborted" ==> error == Some(EngineErrorText(code)) && errorClearsPending == old(errorClearsPending) + 1
      ensures transcript == old(transcript) && silenceTimer == old(silenceTimer)
      ensures recognizing == old(recognizing) && submitted == old(submitted)
    {
      if code == "aborted" {
        state := Idle;
        return;
      }
      error := Some(EngineErrorText(code));
      state := Idle;
      errorClearsPending := errorClearsPending + 1;
    }

    /** `recognition.onend`: back to idle if still listening. */
    method OnEnd()
      requires Valid()
      modifies this`state, this`recognizing
      ensures Valid()
      ensures state == Idle && !recognizing
    {
      if state == Listening {
        state := Idle;
      }
      recognizing := false;
    }

    /** What `handleStart` leaves behind once the microphone request has
        settled: on a grant with an engine, the old text and error are gone
        and the engine listens; on a grant without one, nothing changes; on a
        refusal, the permission error shows, its removal is scheduled, and
        the session stays where it was. The timer and the submissions are
        never touched. */
    twostate predicate StartOutcome(permissionGranted: bool)
      reads this
    {
      && (permissionGranted && hasRecognition ==>
            state == Listening && recognizing && transcript == "" && error == None
            && errorClearsPending == old(errorClearsPending))
      && (permissionGranted && !hasRecognition ==>
            state == old(state) && recognizing == old(recognizing) && transcript == old(transcript)
            && error == old(error) && errorClearsPending == old(errorClearsPending))
      && (!permissionGranted ==>
            state == old(state) && recognizing == old(recognizing) && transcript == old(transcript)
            && error == Some(PermissionDeniedMessage) && errorClearsPending == old(errorClearsPending) + 1)
      && silenceTimer == old(silenceTimer) && submitted == old(submitted)
    }

    /** `handleStart`, once the microphone request has settled. */
    method HandleStart(permissionGranted: bool)
      requires Valid()
      modifies this
      ensures Valid()
      ensures StartOutcome(permissionGranted)
    {
      if permissionGranted {
        if hasRecognition {
          transcript := "";
          error := None;
          state := Listening;
          recognizing := true;
        }
      } else {
        error := Some(PermissionDeniedMessage);
        errorClearsPending := errorClearsPending + 1;
      }
    }

    /** What `handleStop` leaves behind when called with `finalText`: idle,
        engine stopped, timer slot empty and preview cleared; then either the
        chosen text, trimmed, is appended to the submissions, or, when it is
        blank, the empty-transcript error shows and its removal is
        scheduled. */
    twostate predicate StopOutcome(finalText: string)
      reads this
    {
      && state == Idle && silenceTimer == None && transcript == "" && !recognizing
      && var s := Submission(finalText, old(transcript));
         if s.Some? then
           submitted == old(submitted) + [s.value] && error == old(error)
           && errorClearsPending == old(errorClearsPending)
         else
           submitted == old(submitted) && error == Some(EmptyTranscriptMessage)
           && errorClearsPending == old(errorClearsPending) + 1
    }

    /** `handleStop`: stop the engine, cancel the silence timer, go idle,
        clear the preview, then submit the trimmed text or report that
        nothing was heard. */
    method HandleStop(finalText: string)
      requires Valid()
      modifies this
      ensures Valid()
      ensures StopOutcome(finalText)
    {
      if hasRecognition {
        recognizing := false;
      }
      silenceTimer := None;
      state := Idle;
      var textToSubmit := if finalText != "" then finalText else transcript;
      var trimmedText := Trim(textToSubmit);
      ghost var s := Submission(finalText, transcript);
      assert s.Some? <==> trimmedText != "";
      assert s.Some? ==> s.value == trimmedText;
      transcript := "";
      if trimmedText != "" {
        submitted := submitted + [trimmedText];
      } else {
        error := Some(EmptyTranscriptMessage);
        errorClearsPending := errorClearsPending + 1;
      }
    }

    /** `handleClick`: nothing when disabled, stop with the transcript when
        listening, start otherwise. */
    method HandleClick(disabled: bool, permissionGranted: bool)
      requires Valid()
      modifies this
      ensures Valid()
      ensures disabled ==> unchanged(this)
      ensures !disabled && old(state) == Listening ==> StopOutcome(old(transcript))
      ensures !disabled && old(state) != Listening ==> StartOutcome(permissionGranted)
    {
      if disabled {
        return;
      }
      if state == Listening {
        HandleStop(transcript);
      } else {
        HandleStart(permissionGranted);
      }
    }

    /** A click on the rendered button, which is disabled while the
        `disabled` prop is set or an error is on show; an enabled click is
        `handleClick`. */
    method ButtonClick(disabled: bool, permissionGranted: bool)
      requires Valid()
      modifies this
      ensures Valid()
      ensures disabled || old(error).Some? ==> unchanged(this)
      ensures !disabled && old(error).None? && old(state) == Listening ==> StopOutcome(old(transcript))
      ensures !disabled && old(error).None? && old(state) != Listening ==> StartOutcome(permissionGranted)
    {
      if !(disabled || error.Some?) {
        HandleClick(disabled, permissionGranted);
      }
    }

    /** `handleStop` as the imperative handle exposes it: with the current
        transcript. */
    method HandleStopFromRef()
      requires Valid()
      modifies this
      ensures Valid()
      ensures StopOutcome(old(transcript))
    {
      HandleStop(transcript);
    }

    /** One of the 3000 ms error timers runs out and resets the error,
        whichever error is on show by then. */
    method FireErrorClear()
      requires Valid()
      modifies this`error, this`errorClearsPending
      ensures Valid()
      ensures old(errorClearsPending) > 0 ==> error == None && errorClearsPending == old(errorClearsPending) - 1
      ensures old(errorClearsPending) == 0 ==> error == old(error) && errorClearsPending == 0
    {
      if errorClearsPending > 0 {
        errorClearsPending := errorClearsPending - 1;
        error := None;
      }
    }

    /** The effect's cleanup: stop the engine and cancel the silence timer. */
    method Cleanup()
      requires Valid()
      modifies this`recognizing, this`silenceTimer
      ensures Valid()
      ensures !recognizing && silenceTimer == None
    {
      if hasRecognition {
        recognizing := false;
      }
      silenceTimer := None;
    }
  }
}
