/** The top-level component: the form and result state, the initial prompt
    read from storage, the debounced save of the prompt, and the
    generation handler that drives loading, result and error.

    Storage and timers are abstract: a read of the stored prompt is an
    input of the constructor, the armed save timer is the single slot
    `pendingSave`, and its firing is the event `SaveTimerFires`. */
module App {
  import opened JsText
  import opened GeminiService
  import ImageDisplay

  /** What `localStorage.getItem` gave: a string, `null`, or an exception. */
  datatype StorageRead = Stored(value: Text) | Missing | ReadThrows

  const VALIDATION_MESSAGE := Lit("Please provide a prompt or a reference image.")
  const UNKNOWN_ERROR_MESSAGE := Lit("An unknown error occurred.")

  /** `localStorage.getItem(key) || ''`, with '' when reading throws. */
  function InitialPrompt(read: StorageRead): (prompt: Text)
    ensures read.Stored? ==> prompt == read.value
    ensures !read.Stored? ==> prompt == []
  {
    if read.Stored? && read.value != [] then read.value else []
  }

  /** `err instanceof Error ? err.message : 'An unknown error occurred.'` */
  function ErrorMessage(thrown: Thrown): (message: Text)
    ensures thrown.ErrorWith? ==> message == thrown.message
    ensures thrown.NonError? ==> message == UNKNOWN_ERROR_MESSAGE
  {
    match thrown
    case ErrorWith(m) => m
    case NonError => UNKNOWN_ERROR_MESSAGE
  }

  /** All the state of the component, as one value. `pendingSave` is the
      prompt the armed save timer will write (None when no timer is armed);
      `savedPrompts` lists the durable writes made so far, oldest first. */
  datatype State = State(
    prompt: Text,
    aspectRatio: AspectRatio,
    imageStyle: ImageStyle,
    referenceImage: Option<Text>,
    generatedImage: Option<Text>,
    isLoading: bool,
    error: Option<Text>,
    pendingSave: Option<Text>,
    savedPrompts: seq<Text>)

  /** The first render: the initial prompt, "16:9", "Cinematic", nothing
      else set, and the save effect's first timer armed with the prompt. */
  function Initial(read: StorageRead): State {
    var prompt := InitialPrompt(read);
    State(prompt, Wide, Cinematic, None, None, false, None, Some(prompt), [])
  }

  /** `setPrompt(p)`. A different value re-runs the save effect, which
      cancels the armed timer and arms a new one for `p`; the same value
      re-renders nothing and leaves the timer alone. */
  function PromptSet(s: State, p: Text): State {
    if p == s.prompt then s else s.(prompt := p, pendingSave := Some(p))
  }

  /** The armed timer fires: on a successful write the pending prompt is
      appended to the durable writes; a failing write is logged and
      changes nothing. Either way the timer is spent. */
  function SaveFired(s: State, writeSucceeds: bool): State {
    match s.pendingSave
    case None => s
    case Some(p) =>
      s.(pendingSave := None, savedPrompts := if writeSucceeds then s.savedPrompts + [p] else s.savedPrompts)
  }

  /** The guard of `handleGenerate`: `!prompt && !referenceImage`. */
  predicate NothingToGenerate(prompt: Text, referenceImage: Option<Text>) {
    prompt == [] && !Truthy(referenceImage)
  }

  /** The guard's effect: only the error is set. */
  function Guarded(s: State): State {
    s.(error := Some(VALIDATION_MESSAGE))
  }

  /** Before the call: loading, no error, no image. */
  function Begun(s: State): State {
    s.(isLoading := true, error := None, generatedImage := None)
  }

  /** After the call: the returned URI or the error's message, and loading
      ends in either case (`finally`). */
  function Completed(s: State, outcome: Outcome<Text>): State {
    match outcome
    case Ok(uri) => s.(generatedImage := Some(uri), isLoading := false)
    case Fail(thrown) => s.(error := Some(ErrorMessage(thrown)), isLoading := false)
  }

  /** The invariant of the debounce: an armed timer always holds the
      current prompt. */
  predicate PendingIsCurrent(s: State) {
    s.pendingSave.None? || s.pendingSave.value == s.prompt
  }

  /** The state after the prompt is set to each of `ps` in turn. */
  function AfterPromptChanges(s: State, ps: seq<Text>): State
    decreases |ps|
  {
    if ps == [] then s else AfterPromptChanges(PromptSet(s, ps[0]), ps[1..])
  }

  /** Setting the prompt keeps the debounce invariant and touches nothing
      but the prompt and the timer. */
  lemma PromptSetKeepsPendingCurrent(s: State, p: Text)
    requires PendingIsCurrent(s)
    ensures PendingIsCurrent(PromptSet(s, p)) && PromptSet(s, p).prompt == p
    ensures PromptSet(s, p).savedPrompts == s.savedPrompts
    ensures p != s.prompt ==> PromptSet(s, p).pendingSave == Some(p)
    ensures p == s.prompt ==> PromptSet(s, p) == s
  {
  }

  /** A burst of prompt changes leaves at most one timer armed, holding the
      latest prompt; if any change differed from the starting prompt, the
      timer is armed, and otherwise nothing changed at all. No write
      happens during the burst. */
  lemma {:induction false} BurstArmsLatest(s: State, ps: seq<Text>)
    requires PendingIsCurrent(s) && ps != []
    decreases |ps|
    ensures var t := AfterPromptChanges(s, ps);
      t.prompt == ps[|ps| - 1] && PendingIsCurrent(t) && t.savedPrompts == s.savedPrompts
      && ((exists i :: 0 <= i < |ps| && ps[i] != s.prompt) ==> t.pendingSave == Some(ps[|ps| - 1]))
      && ((forall i :: 0 <= i < |ps| ==> ps[i] == s.prompt) ==> t == s)
  {
    var s' := PromptSet(s, ps[0]);
    PromptSetKeepsPendingCurrent(s, ps[0]);
    var rest := ps[1..];
    assert AfterPromptChanges(s, ps) == AfterPromptChanges(s', rest);
    if rest != [] {
      BurstArmsLatest(s', rest);
      assert rest[|rest| - 1] == ps[|ps| - 1];
      assert forall i :: 0 <= i < |rest| ==> rest[i] == ps[i + 1];
      if ps[0] == s.prompt {
        assert s' == s;
      } else if forall i :: 0 <= i < |rest| ==> rest[i] == s'.prompt {
        assert AfterPromptChanges(s', rest) == s';
      }
    }
  }

  /** A burst of prompt changes followed by the timer firing writes exactly
      one value, the latest prompt (or nothing, if the write fails). */
  lemma BurstThenFireWritesLatest(s: State, ps: seq<Text>, writeSucceeds: bool)
    requires PendingIsCurrent(s) && ps != []
    requires exists i :: 0 <= i < |ps| && ps[i] != s.prompt
    ensures SaveFired(AfterPromptChanges(s, ps), writeSucceeds).savedPrompts
      == s.savedPrompts + (if writeSucceeds then [ps[|ps| - 1]] else [])
    ensures SaveFired(AfterPromptChanges(s, ps), writeSucceeds).pendingSave.None?
  {
    BurstArmsLatest(s, ps);
  }

  /** The guard sets only the error: no call, loading and the previous
      image untouched. */
  lemma GuardTouchesOnlyError(s: State)
    ensures Guarded(s).error == Some(VALIDATION_MESSAGE) && Guarded(s).(error := s.error) == s
    ensures Guarded(s).isLoading == s.isLoading && Guarded(s).generatedImage == s.generatedImage
  {
  }

  /** After a generation that passed the guard, loading has ended and the
      error and the image are never both set: success shows the URI with no
      error, failure the message with no image. */
  lemma CompletedIsExclusive(s: State, outcome: Outcome<Text>)
    ensures var t := Completed(Begun(s), outcome);
      !t.isLoading && !(t.error.Some? && t.generatedImage.Some?)
      && (outcome.Ok? ==> t.generatedImage == Some(outcome.value) && t.error.None?)
      && (outcome.Fail? ==> t.error == Some(ErrorMessage(outcome.thrown)) && t.generatedImage.None?)
  {
  }

  /** What the result panel renders after a generation that passed the
      guard: never the spinner; on success the image with its download link
      (the placeholder if the URI is empty); on failure the message (the
      placeholder if the message is empty). */
  lemma DisplayAfterGeneration(s: State, outcome: Outcome<Text>)
    ensures var t := Completed(Begun(s), outcome);
      var v := ImageDisplay.Render(t.generatedImage, t.isLoading, t.error);
      !v.spinner
      && (outcome.Ok? && outcome.value != [] ==>
            v.image == Some(ImageDisplay.DownloadLink(outcome.value, ImageDisplay.DOWNLOAD_FILENAME))
            && v.errorText.None? && !v.placeholder)
      && (outcome.Fail? && ErrorMessage(outcome.thrown) != [] ==>
            v.errorText == Some(ErrorMessage(outcome.thrown)) && v.image.None? && !v.placeholder)
      && (v.placeholder <==> (outcome.Ok? && outcome.value == []) || (outcome.Fail? && ErrorMessage(outcome.thrown) == []))
  {
    CompletedIsExclusive(s, outcome);
  }

  /** An answered call whose first candidate carries an inline image ends
      with that image's data URI as the result and no error. */
  lemma AnsweredImageIsShown(s: State, response: Response, r: Outcome<Text>, parts: seq<Part>, uri: Text)
    requires ResponseYields(response, r)
    requires response.candidates.Some? && |response.candidates.value| > 0
    requires response.candidates.value[0].content == Some(Content(Some(parts)))
    requires IsFirstImageUri(parts, uri)
    ensures Completed(Begun(s), r).generatedImage == Some(uri)
    ensures Completed(Begun(s), r).error.None? && !Completed(Begun(s), r).isLoading
  {
    var k :| 0 <= k < |parts| && parts[k].inlineData.Some?
      && (forall i :: 0 <= i < k ==> parts[i].inlineData.None?)
      && uri == FormatDataUri(parts[k].inlineData.value);
    assert HasInlineImage(parts) by { assert parts[k].inlineData.Some?; }
    FirstImageUriUnique(parts, r.value, uri);
  }

  /** While the call is in flight the panel shows the spinner and nothing
      else. */
  lemma DisplayWhileLoading(s: State)
    ensures var t := Begun(s);
      ImageDisplay.Render(t.generatedImage, t.isLoading, t.error)
      == ImageDisplay.View(true, None, None, false)
  {
  }

  /** A request that passes the guard is never refused for empty input. */
  lemma PassedGuardHasInput(prompt: Text, style: ImageStyle, referenceImage: Option<Text>)
    requires !NothingToGenerate(prompt, referenceImage)
    ensures Truthy(referenceImage) || FullPrompt(style, prompt) != []
  {
  }

  /** The component's state, with the setters and effects of the source as
      methods. */
  class AppState {
    var prompt: Text
    var aspectRatio: AspectRatio
    var imageStyle: ImageStyle
    var referenceImage: Option<Text>
    var generatedImage: Option<Text>
    var isLoading: bool
    var error: Option<Text>
    var pendingSave: Option<Text>
    var savedPrompts: seq<Text>

    function Fields(): State
      reads this
    {
      State(prompt, aspectRatio, imageStyle, referenceImage, generatedImage, isLoading, error, pendingSave, savedPrompts)
    }

    predicate Valid()
      reads this
    {
      PendingIsCurrent(Fields())
    }

    /** Mount, given what reading the stored prompt gave. */
    constructor (read: StorageRead)
      ensures Valid() && Fields() == Initial(read)
    {
      prompt := InitialPrompt(read);
      aspectRatio := Wide;
      imageStyle := Cinematic;
      referenceImage := None;
      generatedImage := None;
      isLoading := false;
      error := None;
      pendingSave := Some(InitialPrompt(read));
      savedPrompts := [];
    }

    /** `setPrompt`, with the save effect it triggers. */
    method SetPrompt(p: Text)
      requires Valid()
      modifies this
      ensures Valid() && Fields() == PromptSet(old(Fields()), p)
    {
      if p != prompt {
        prompt := p;
        pendingSave := Some(p);
      }
    }

    method SetAspectRatio(ratio: AspectRatio)
      requires Valid()
      modifies this
      ensures Valid() && Fields() == old(Fields()).(aspectRatio := ratio)
    {
      aspectRatio := ratio;
    }

    method SetImageStyle(style: ImageStyle)
      requires Valid()
      modifies this
      ensures Valid() && Fields() == old(Fields()).(imageStyle := style)
    {
      imageStyle := style;
    }

    method SetReferenceImage(image: Option<Text>)
      requires Valid()
      modifies this
      ensures Valid() && Fields() == old(Fields()).(referenceImage := image)
    {
      referenceImage := image;
    }

    /** The save timer fires; `writeSucceeds` is whether `setItem` returns. */
    method SaveTimerFires(writeSucceeds: bool)
      requires Valid()
      modifies this
      ensures Valid() && Fields() == SaveFired(old(Fields()), writeSucceeds)
    {
      if pendingSave.Some? {
        if writeSucceeds {
          savedPrompts := savedPrompts + [pendingSave.value];
        }
        pendingSave := None;
      }
    }

    /** The synchronous start of `handleGenerate`: the guard, or the begin
      step. `proceed` tells whether the call is made. */
    method BeginGenerate() returns (proceed: bool)
      requires Valid()
      modifies this
      ensures Valid()
      ensures proceed <==> !NothingToGenerate(old(prompt), old(referenceImage))
      ensures Fields() == if proceed then Begun(old(Fields())) else Guarded(old(Fields()))
    {
      if prompt == [] && !Truthy(referenceImage) {
        error := Some(VALIDATION_MESSAGE);
        return false;
      }
      isLoading := true;
      error := None;
      generatedImage := None;
      return true;
    }

    /** The continuation after the awaited call settles. */
    method CompleteGenerate(outcome: Outcome<Text>)
      requires Valid()
      modifies this
      ensures Valid() && Fields() == Completed(old(Fields()), outcome)
    {
      if outcome.Ok? {
        generatedImage := Some(outcome.value);
      } else {
        error := Some(ErrorMessage(outcome.thrown));
      }
      isLoading := false;
    }

    /** `handleGenerate`, with the API call settling as `reply`. `sent` is
      the request made, if any; `settled` is how `generateImage` settled,
      when it was called. */
    method HandleGenerate(reply: Reply) returns (sent: Option<Request>, settled: Option<Outcome<Text>>)
      requires Valid()
      modifies this
      ensures Valid()
      ensures NothingToGenerate(old(prompt), old(referenceImage)) ==>
        sent.None? && settled.None? && Fields() == Guarded(old(Fields()))
      ensures !NothingToGenerate(old(prompt), old(referenceImage)) ==>
        settled.Some? && Fields() == Completed(Begun(old(Fields())), settled.value)
      ensures settled.Some? && settled.value.Ok? ==> sent.Some? && reply.Answered?
      ensures sent.Some? ==>
        settled.Some? && sent.value.aspectRatio == old(aspectRatio)
        && PartsFor(old(prompt), old(imageStyle), old(referenceImage), sent.value.parts)
      ensures sent.Some? && reply.Rejected? ==> settled == Some(Fail(reply.thrown))
      ensures sent.Some? && reply.Answered? ==> ResponseYields(reply.response, settled.value)
      ensures settled.Some? && sent.None? ==>
        Truthy(old(referenceImage)) && ParseDataUri(old(referenceImage).value).Fail?
        && settled == Some(Fail(ErrorWith(INVALID_IMAGE_MESSAGE)))
      ensures settled.Some? && Truthy(old(referenceImage)) && ParseDataUri(old(referenceImage).value).Ok? ==>
        sent.Some?
    {
      // the values the handler's closure captured
      var p, ratio, style, image := prompt, aspectRatio, imageStyle, referenceImage;
      var proceed := BeginGenerate();
      if !proceed {
        return None, None;
      }
      PassedGuardHasInput(p, style, image);
      var outcome;
      sent, outcome := GenerateImage(p, ratio, style, image, reply);
      CompleteGenerate(outcome);
      settled := Some(outcome);
    }
  }
}
