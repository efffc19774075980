/** The input form: the 1000-unit bound on the prompt (typing and speech),
    the Clear button, the microphone's Idle/Listening state machine over a
    platform speech recognizer, the speech error messages, and the
    reference-image picker. The recognizer's callbacks (`onresult`,
    `onerror`, `onend`) and the file reader's `onloadend` are events. */
module ImageGeneratorForm {
  import opened JsText
  import App

  const PROMPT_MAX_LENGTH := 1000

  /** `value.length <= PROMPT_MAX_LENGTH`, in UTF-16 code units. */
  predicate WithinPromptBound(value: Text) {
    |value| <= PROMPT_MAX_LENGTH
  }

  /** The prompt after a proposed replacement: accepted only within the
      bound, otherwise the prompt is unchanged. Typing and speech results
      share this rule. */
  function BoundedPrompt(current: Text, proposed: Text): (next: Text)
    ensures next == proposed || next == current
    ensures next == proposed <==> WithinPromptBound(proposed) || proposed == current
    ensures WithinPromptBound(current) ==> WithinPromptBound(next)
  {
    if WithinPromptBound(proposed) then proposed else current
  }

  /** The textarea's `onChange`. */
  method OnPromptChange(app: App.AppState, value: Text)
    requires app.Valid()
    modifies app
    ensures app.Valid()
    ensures app.Fields() == App.PromptSet(old(app.Fields()), BoundedPrompt(old(app.prompt), value))
    ensures WithinPromptBound(old(app.prompt)) ==> WithinPromptBound(app.prompt)
  {
    if WithinPromptBound(value) {
      app.SetPrompt(value);
    } else {
      assert App.PromptSet(app.Fields(), app.prompt) == app.Fields();
    }
  }

  /** The Clear button: `setPrompt('')`. */
  method ClearPrompt(app: App.AppState)
    requires app.Valid()
    modifies app
    ensures app.Valid() && app.Fields() == App.PromptSet(old(app.Fields()), [])
    ensures app.prompt == [] && WithinPromptBound(app.prompt)
  {
    app.SetPrompt([]);
  }

  // Written in two pieces so that the verifier can index the literals;
  // each constant is the single message of the source.
  const MIC_DENIED_MESSAGE := Lit("Microphone access denied. ") + Lit("Please enable it in your browser settings.")
  const SPEECH_ERROR_PREFIX := Lit("An error occurred ") + Lit("during speech recognition: ")
  const NOT_SUPPORTED_MESSAGE := Lit("Speech recognition is not supported in your browser.")

  /** The codes that mean the microphone may not be used. */
  predicate IsPermissionDenied(code: Text) {
    code == Lit("not-allowed") || code == Lit("service-not-allowed")
  }

  /** The alert shown by `onerror` for an error code. */
  function SpeechErrorMessage(code: Text): (message: Text)
    ensures IsPermissionDenied(code) ==> message == MIC_DENIED_MESSAGE
    ensures !IsPermissionDenied(code) ==>
      |message| == |SPEECH_ERROR_PREFIX| + |code|
      && message[..|SPEECH_ERROR_PREFIX|] == SPEECH_ERROR_PREFIX
      && message[|SPEECH_ERROR_PREFIX|..] == code
  {
    if IsPermissionDenied(code) then MIC_DENIED_MESSAGE else SPEECH_ERROR_PREFIX + code
  }

  /** Permission denial is told apart from every other error: no other code
      yields the microphone-denied message. */
  lemma DeniedMessageIsDistinct(code: Text)
    requires !IsPermissionDenied(code)
    ensures SpeechErrorMessage(code) != MIC_DENIED_MESSAGE
  {
    assert SpeechErrorMessage(code)[0] == SPEECH_ERROR_PREFIX[0];
    assert SPEECH_ERROR_PREFIX[0] as int == 'A' as int;
    assert MIC_DENIED_MESSAGE[0] as int == 'M' as int;
  }

  /** Any other error's message names its code: distinct codes give
      distinct messages. */
  lemma OtherErrorMessageNamesCode(c: Text, d: Text)
    requires !IsPermissionDenied(c) && !IsPermissionDenied(d)
    requires SpeechErrorMessage(c) == SpeechErrorMessage(d)
    ensures c == d
  {
    var m := SpeechErrorMessage(c);
    assert c == m[|SPEECH_ERROR_PREFIX|..] == d;
  }

  /** A call the form makes on the recognizer. */
  datatype RecognizerCall = Start | Stop

  /** The microphone button and the recognizer behind it. `supported` is
      whether a recognizer was created (`recognitionRef.current`);
      `calls` and `alerts` record, in order, the calls made on the
      recognizer and the alerts shown. */
  class Microphone {
    const supported: bool
    var isListening: bool
    var calls: seq<RecognizerCall>
    var alerts: seq<Text>

    /** Without a recognizer the microphone never listens. */
    predicate Valid()
      reads this
    {
      !supported ==> !isListening
    }

    /** Mount: a recognizer exists exactly when the platform offers one. */
    constructor (platformHasRecognizer: bool)
      ensures Valid() && supported == platformHasRecognizer
      ensures !isListening && calls == [] && alerts == []
    {
      supported := platformHasRecognizer;
      isListening := false;
      calls := [];
      alerts := [];
    }

    /** `handleMicClick`; `startThrows` is whether `recognition.start()`
        throws. */
    method MicClick(startThrows: bool)
      requires Valid()
      modifies this
      ensures Valid()
      ensures !supported ==>
        isListening == old(isListening) && calls == old(calls)
        && alerts == old(alerts) + [NOT_SUPPORTED_MESSAGE]
      ensures supported && old(isListening) ==>
        isListening && calls == old(calls) + [Stop] && alerts == old(alerts)
      ensures supported && !old(isListening) ==>
        isListening == !startThrows && calls == old(calls) + [Start] && alerts == old(alerts)
    {
      if !supported {
        alerts := alerts + [NOT_SUPPORTED_MESSAGE];
        return;
      }
      if isListening {
        calls := calls + [Stop];
      } else {
        calls := calls + [Start];
        if startThrows {
          isListening := false;
        } else {
          isListening := true;
        }
      }
    }

    /** `onend`: the only way listening stops. */
    method OnEnd()
      requires Valid() && supported
      modifies this
      ensures Valid() && !isListening && calls == old(calls) && alerts == old(alerts)
    {
      isListening := false;
    }

    /** `onerror`: alert the message for the code; listening is left to
        `onend`. */
    method OnError(code: Text)
      requires Valid() && supported
      modifies this
      ensures Valid() && isListening == old(isListening) && calls == old(calls)
      ensures alerts == old(alerts) + [SpeechErrorMessage(code)]
    {
      alerts := alerts + [SpeechErrorMessage(code)];
    }

    /** `onresult`: the transcript replaces the whole prompt if it is
        within the bound, and is ignored otherwise. */
    method OnResult(app: App.AppState, transcript: Text)
      requires Valid() && supported && app.Valid()
      modifies app
      ensures app.Valid()
      ensures app.Fields() == App.PromptSet(old(app.Fields()), BoundedPrompt(old(app.prompt), transcript))
      ensures WithinPromptBound(old(app.prompt)) ==> WithinPromptBound(app.prompt)
    {
      if WithinPromptBound(transcript) {
        app.SetPrompt(transcript);
      } else {
        assert App.PromptSet(app.Fields(), app.prompt) == app.Fields();
      }
    }

    /** The effect's cleanup on unmount: stop any recognizer. */
    method Teardown()
      requires Valid()
      modifies this
      ensures Valid() && isListening == old(isListening) && alerts == old(alerts)
      ensures calls == old(calls) + (if supported then [Stop] else [])
    {
      if supported {
        calls := calls + [Stop];
      }
    }
  }

  /** `event.target.files?.[0]`: the file whose read is started, if any. */
  function FileToRead<F>(files: Option<seq<F>>): (file: Option<F>)
    ensures file.Some? <==> files.Some? && |files.value| > 0
    ensures file.Some? ==> file.value == files.value[0]
  {
    if files.Some? && |files.value| > 0 then Some(files.value[0]) else None
  }

  /** `reader.onloadend`: the reference image becomes the reader's result
      wholesale, a data URI on success and null when the read failed. */
  method OnFileLoadEnd(app: App.AppState, result: Option<Text>)
    requires app.Valid()
    modifies app
    ensures app.Valid() && app.Fields() == old(app.Fields()).(referenceImage := result)
  {
    app.SetReferenceImage(result);
  }

  /** 'Remove Image': `setReferenceImage(null)`. */
  method RemoveImage(app: App.AppState)
    requires app.Valid()
    modifies app
    ensures app.Valid() && app.Fields() == old(app.Fields()).(referenceImage := None)
    ensures app.referenceImage.None?
  {
    app.SetReferenceImage(None);
  }
}
