# One Click Image Ready — a Dafny model of its client-side core

The application is a single-page form over an image-generation API. The
user types a prompt, or dictates it by speech, then picks a style and an
aspect ratio and may attach a reference image. The form sends these to
the API and shows the image that comes back. This project models the logic
behind that and proves what it promises:

- **`GeminiService`** (`gemini_service.dfy`): the request and response
  helpers of the API client. This covers the data-URI parser for the
  reference image (the pattern `^data:(image\/\w+);base64,(.*)$`), the
  style-prefixed effective prompt, the ordered parts list with its error
  cases, and the scan of the response for the first inline image, which it
  re-formats as `data:<mime>;base64,<data>`. The network call is an input
  (`Reply`).
- **`App`** (`app.dfy`): the top-level component as the class `AppState`.
  It holds the initial prompt read from storage, the debounced save of the
  prompt (a single pending-write slot that the timer drains) and the
  generation handler with its guard, begin, success and failure steps. The
  class methods are proved against pure transition functions on the
  value `State` (`PromptSet`, `SaveFired`, `Guarded`, `Begun`,
  `Completed`). The lemmas about the debounce and the result state are
  stated over those functions.
- **`ImageGeneratorForm`** (`image_generator_form.dfy`): the 1000-unit
  prompt bound, which applies to typing and to speech results, and the
  Clear button. It also holds the microphone (class `Microphone`: its
  unsupported, idle and listening behaviour, start failures, `onend`,
  `onerror` and teardown), the speech error messages, and the picking and
  removal of the reference image.
- **`ImageDisplay`** (`image_display.dfy`): which of spinner, error text,
  image (with its download link) and placeholder the result panel renders.
- **`JsText`** (`js_text.dfy`): JavaScript strings as sequences of UTF-16
  code units (`.length` counts these), nullable values and their
  truthiness, thrown values and call outcomes.

Some points of the code that the model reproduces as written:

- The effective prompt is `<style> + " style, " + <prompt>`, with the
  literal " style, " between the style name and the prompt
  (services/geminiService.ts:36).
- A failed file read sets the reference image to null: `onloadend`
  stores `reader.result`, which is null after a failure
  (components/ImageGeneratorForm.tsx:109-113).
- `onerror` only shows an alert; listening ends only at `onend`
  (components/ImageGeneratorForm.tsx:62-73).
- The 1000 bound on the prompt compares `.length`, which counts UTF-16
  code units (components/ImageGeneratorForm.tsx:57, 128).
- An empty `candidates` array does not give the "no image" message:
  reading `candidates[0].content` throws a TypeError, and that error is
  what surfaces (services/geminiService.ts:61-62).

## Model

| member | source | states |
|---|---|---|
| `GeminiService.ParseDataUri` | services/geminiService.ts:13-25 | a successful parse returns a mime type `image/` + one or more `[A-Za-z0-9_]` units and a payload free of line terminators, and formatting them as a data URI gives back the input; every failure throws 'Invalid base64 image data' |
| `GeminiService.FormatDataUri` | services/geminiService.ts:66 | the template `data:${mimeType};base64,${data}`; the reference definition the parser is proved against (`ParseFormatRoundTrip`, `ParseDataUriAccepts`) |
| `GeminiService.WordRunLength` | services/geminiService.ts:14 | the greedy `\w+` reaches exactly to the first non-word unit: every unit before it is a word unit |
| `GeminiService.ParseFormatRoundTrip` | services/geminiService.ts:66 | parsing the URI formatted at line 66 from well-formed inline data returns exactly that mime type and payload |
| `GeminiService.ParseDataUriAccepts` | services/geminiService.ts:14-17 | the parser succeeds on a string if and only if some well-formed inline data formats to it; otherwise the message is 'Invalid base64 image data' |
| `GeminiService.NonWordSubtypeRejected` | services/geminiService.ts:14-17 | a subtype with a non-word unit and no `;` is rejected for every payload |
| `GeminiService.SvgRejected` | services/geminiService.ts:14-17 | `data:image/svg+xml;base64,…` is rejected for every payload |
| `GeminiService.NonImageMimeRejected` | services/geminiService.ts:14-17 | a mime type that does not start with `image/` is rejected for every payload |
| `GeminiService.MissingMarkerRejected` | services/geminiService.ts:14-17 | a word subtype not followed by `;base64,` is rejected, e.g. `data:image/png,…` or `data:image/png` |
| `GeminiService.FullPrompt` | services/geminiService.ts:36 | style "None" leaves the prompt as it is; any other style yields the style name, then the literal " style, ", then the prompt; the prompt is always the suffix |
| `GeminiService.FullPromptEmptyIff` | services/geminiService.ts:36 | the effective prompt is empty iff the style is "None" and the prompt is empty |
| `GeminiService.FullPromptInjective` | services/geminiService.ts:36 | under one style, equal effective prompts come from equal prompts |
| `GeminiService.BuildParts` | services/geminiService.ts:38-49 | the list has one or two parts, one per truthy reference image and one per non-empty effective prompt; the image part (the parsed reference) comes first and the text part last; a malformed reference throws the parser's error, and an empty list throws 'Prompt or reference image must be provided.'; these are the only failures |
| `GeminiService.PartsFor` | services/geminiService.ts:38-46 | the parts list for given inputs: the parsed reference image first when truthy, the effective prompt last when non-empty, nothing else; stated by `BuildParts` and `GenerateImage` |
| `GeminiService.NoInputIff` | services/geminiService.ts:43-49 | the empty-list error happens iff there is no truthy reference image, the style is "None" and the prompt is empty; a non-None style with an empty prompt still yields a text part |
| `GeminiService.FirstImageUri` | services/geminiService.ts:62-68 | returns nothing iff no part has inline data; otherwise the URI formatted from the first such part, with every earlier part lacking inline data |
| `GeminiService.FirstImageUriUnique` | services/geminiService.ts:62-67 | only one URI can be the first-part URI |
| `GeminiService.LaterPartsIgnored` | services/geminiService.ts:62-67 | appending parts after the first inline image does not change the result |
| `GeminiService.ParseResponse` | services/geminiService.ts:61-71 | `ResponseYields`: absent candidates, absent parts or no inline part give 'No image was generated. The prompt may have been blocked.'; an empty candidate list, or a first candidate without content, gives the TypeError of reading a property of undefined; otherwise the first inline part's URI |
| `GeminiService.ResponseYieldsUnique` | services/geminiService.ts:61-71 | every response settles the call in exactly one way |
| `GeminiService.GenerateImage` | services/geminiService.ts:28-71 | no request is sent when the reference image is malformed or there is no input, and these are the only cases; a sent request carries the aspect ratio and exactly the parts list of `BuildParts` (`PartsFor`); a rejected call settles with what it threw, an answered one with what `ParseResponse` gives for the response (`ResponseYields`); success requires an answered request |
| `ImageDisplay.Render` | components/ImageDisplay.tsx:36-57 | spinner iff loading; error text iff the error is truthy, whatever the loading state; image iff not loading, error falsy and image truthy, with the download link's href equal to the image and its filename "one-click-image.png"; placeholder iff not loading, error falsy and image falsy |
| `ImageDisplay.RenderShowsSomething` | components/ImageDisplay.tsx:39-54 | something is always shown; image and placeholder are never both shown, and when neither loading nor an error is showing exactly one of them is |
| `ImageDisplay.ImageShownAlone` | components/ImageDisplay.tsx:41 | the image is never shown beside the spinner, an error or the placeholder |
| `App.InitialPrompt` | App.tsx:11-18 | the initial prompt is the stored value, and '' when nothing is stored or reading throws |
| `App.ErrorMessage` | App.tsx:64 | an Error contributes its message; anything else gives 'An unknown error occurred.' |
| `App.PromptSet` | App.tsx:28-40 | `setPrompt(p)` with the save effect: a different value re-arms the timer with `p`, an equal one changes nothing; the reference definition of `SetPrompt`, with its properties in `PromptSetKeepsPendingCurrent` and `BurstArmsLatest` |
| `App.SaveFired` | App.tsx:29-35 | the armed timer fires: its prompt is written when the write succeeds and the slot is emptied; properties in `BurstThenFireWritesLatest` |
| `App.Guarded` | App.tsx:43-46 | the guard's effect: only the validation message is set; properties in `GuardTouchesOnlyError` |
| `App.Begun` | App.tsx:48-50 | the begin step: loading on, error and image cleared; properties in `DisplayWhileLoading` |
| `App.Completed` | App.tsx:61-67 | the completion: the URI on success or the error's message on failure, loading off; properties in `CompletedIsExclusive` and `DisplayAfterGeneration` |
| `App.PromptSetKeepsPendingCurrent` | App.tsx:28-40 | a prompt change arms the timer with the new prompt, and a repeated value leaves the whole state alone; keeps "an armed timer holds the current prompt" and writes nothing |
| `App.BurstArmsLatest` | App.tsx:28-40 | after a burst of changes the timer, if armed, holds the latest prompt; it is armed if any change differed from the starting prompt, and otherwise nothing changed; no write happens during the burst |
| `App.BurstThenFireWritesLatest` | App.tsx:28-40 | a burst followed by the timer firing writes exactly one value, the latest prompt, or nothing when the write fails, and leaves no timer armed |
| `App.GuardTouchesOnlyError` | App.tsx:43-46 | the guard sets the validation message and changes nothing else; loading and the previous image are untouched |
| `App.CompletedIsExclusive` | App.tsx:48-66 | after a generation that passed the guard, loading is false and error and image are never both set: success gives the URI with no error, failure the message with no image |
| `App.DisplayAfterGeneration` | App.tsx:48-66 | after such a generation the panel shows no spinner; it shows the image and download link on success, the message on failure, and the placeholder exactly when the URI or message is empty |
| `App.AnsweredImageIsShown` | App.tsx:48-66 | an answered call whose first candidate has an inline image ends with that image's data URI as the result, no error and loading off |
| `App.DisplayWhileLoading` | App.tsx:48-50 | while the call is in flight the panel shows the spinner and nothing else |
| `App.PassedGuardHasInput` | App.tsx:43-46 | a request that passes the guard has a truthy reference image or a non-empty effective prompt, so it never meets the empty-parts error |
| `App.AppState.constructor` | App.tsx:11-40 | initial state: the loaded prompt, "16:9", "Cinematic", no reference image, result or error, not loading, and the first save armed with the prompt |
| `App.AppState.SetPrompt` | App.tsx:28-40 | the new state is `PromptSet` of the old: the prompt, and on a change the timer re-armed with it |
| `App.AppState.SetAspectRatio` | App.tsx:19 | only the aspect ratio changes |
| `App.AppState.SetImageStyle` | App.tsx:20 | only the style changes |
| `App.AppState.SetReferenceImage` | App.tsx:21 | only the reference image changes |
| `App.AppState.SaveTimerFires` | App.tsx:29-35 | the pending prompt is appended to the durable writes on success, a failing write changes nothing, and the timer is spent |
| `App.AppState.BeginGenerate` | App.tsx:43-50 | proceeds iff the prompt or the reference image is truthy; otherwise only the validation error is set, and when it proceeds loading becomes true and error and image become null |
| `App.AppState.CompleteGenerate` | App.tsx:61-67 | success sets the image and failure sets the error message, and loading ends false either way |
| `App.AppState.HandleGenerate` | App.tsx:42-68 | guarded: no request and only the error set; otherwise the state is the begin step followed by the completion with how `generateImage` settled; a sent request carries the captured prompt's, style's and image's parts list (`PartsFor`); past the guard a request is sent unless the reference image fails to parse, in which case only 'Invalid base64 image data' surfaces; a rejected call's thrown value surfaces as the error, and an answered call settles as `ParseResponse` gives for the response (`ResponseYields`) |
| `ImageGeneratorForm.BoundedPrompt` | components/ImageGeneratorForm.tsx:57 | a proposed prompt is accepted iff its length is at most 1000 units, otherwise the prompt is unchanged; the bound is preserved |
| `ImageGeneratorForm.OnPromptChange` | components/ImageGeneratorForm.tsx:127-131 | a textarea edit sets the prompt only if its length is at most 1000, and preserves "prompt length is at most 1000" |
| `ImageGeneratorForm.ClearPrompt` | components/ImageGeneratorForm.tsx:138 | the prompt becomes '' through the same setter, within the bound |
| `ImageGeneratorForm.SpeechErrorMessage` | components/ImageGeneratorForm.tsx:62-69 | 'not-allowed' and 'service-not-allowed' give the microphone-denied message; any other code gives the fixed prefix followed by the code |
| `ImageGeneratorForm.DeniedMessageIsDistinct` | components/ImageGeneratorForm.tsx:64-68 | no other code yields the microphone-denied message |
| `ImageGeneratorForm.OtherErrorMessageNamesCode` | components/ImageGeneratorForm.tsx:67 | for other codes the message determines the code |
| `ImageGeneratorForm.Microphone.constructor` | components/ImageGeneratorForm.tsx:43-76 | a recognizer exists exactly when the platform offers one; the microphone starts idle |
| `ImageGeneratorForm.Microphone.MicClick` | components/ImageGeneratorForm.tsx:86-104 | with no recognizer it alerts 'not supported' and leaves listening unchanged; while listening it calls stop and stays listening; while idle it calls start and listens unless start throws |
| `ImageGeneratorForm.Microphone.OnEnd` | components/ImageGeneratorForm.tsx:71-73 | listening becomes false |
| `ImageGeneratorForm.Microphone.OnError` | components/ImageGeneratorForm.tsx:62-69 | alerts the message for the code and leaves listening unchanged |
| `ImageGeneratorForm.Microphone.OnResult` | components/ImageGeneratorForm.tsx:55-60 | a transcript of at most 1000 units replaces the whole prompt; a longer one is ignored; the bound is preserved |
| `ImageGeneratorForm.Microphone.Teardown` | components/ImageGeneratorForm.tsx:78-82 | on unmount the recognizer, if any, is stopped |
| `ImageGeneratorForm.FileToRead` | components/ImageGeneratorForm.tsx:106-108 | a read starts exactly when a file was chosen, and it reads the first file |
| `ImageGeneratorForm.OnFileLoadEnd` | components/ImageGeneratorForm.tsx:109-113 | the reference image is replaced wholesale by the reader's result, and nothing else changes |
| `ImageGeneratorForm.RemoveImage` | components/ImageGeneratorForm.tsx:216 | the reference image becomes null, and nothing else changes |

## Left out

- The API call itself is an input (`Reply`): the client construction, the
  model name and the API key. Its response or thrown value is given, not
  computed. A client constructor that throws, for example on a missing
  key, is not modelled; in the source it throws before the parts are
  built, ahead of both the invalid-image and the no-input errors.
- `App.tsx` passes `negativePrompt` and `seed`, but `generateImage` takes
  only four parameters and drops them. The model neither holds nor sends
  them.
- Timers and `localStorage` are abstract. The 500 ms delay is the
  explicit event `SaveTimerFires`, and whether the write succeeds is its
  input. The storage key and the stored contents are not modelled:
  durable writes are a log, and the read at mount is an input.
- `console.error` logging is not modelled.
- `FileReader` is an event: the conversion of a file to a data URI is not
  modelled; `onloadend` delivers the result, or null.
- The `SpeechRecognition` platform object is events and flags. Its
  configuration (single utterance, final results only, `en-US`) is not
  modelled. The transcript `event.results[0][0].transcript` is an input.
  Whether `start()` throws is an input.
- Concurrency is not modelled: overlapping generations and a stale
  completion overwriting a newer one. `HandleGenerate` runs from click to
  completion as one step, and the button is disabled while loading.
- React mechanics are not modelled: hooks, effect dependency lists,
  closures capturing stale state, JSX, styling and the style descriptions.
  `components/Header.tsx` is static markup.
- Response parts: the SDK types `inlineData.mimeType` and `inlineData.data`
  as optional, and an absent one would be interpolated as "undefined". The
  model assumes both are present.
- The wording of a TypeError belongs to the JavaScript engine; the model
  uses V8's (`ReadOfUndefinedMessage`).
- String literals of the source become code units through `Lit`. All of
  them lie in the Basic Multilingual Plane. Two long messages are written
  as two concatenated literals.
