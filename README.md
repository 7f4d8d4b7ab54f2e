# Audio generation front end: a verified model of its client-side logic

This project models, in Dafny, the logic of a browser front end that sends
music-generation and voice-conversion jobs to a remote API, polls each job
until it is done and plays the result. Four small pieces are modelled:

- **The job-status poller** (`StatusPolling`). Each tick of its timer counts
  itself, gives up with a timeout after 150 ticks, asks the status endpoint of
  its kind (music or voice conversion), and then either downloads the audio and
  calls `onComplete`, calls `onError`, or keeps polling. The class `Poller`
  holds the tick counter, the "interval cleared" flag and the displayed
  status, progress and message. Its `Tick` method follows the callback step
  by step. The API calls it makes and the callbacks it fires are recorded as
  two logs. The status reply and the download outcome of a tick are
  parameters, so the server is abstract. The pure function `AfterTick` states
  one tick. `Run` chains ticks, and the lemmas about it give the bounds of a
  whole run.
- **The music request form** (`MusicGeneratorForm`). It covers the instrumental
  toggle and field edits (`handleChange`), clearing a field's error while it is
  edited, the validation rules (`validateForm`) and the request built by
  `handleSubmit`. The lemmas link the validator to the request: an accepted
  request always has a trimmed, non-empty style and, unless instrumental, a
  vocal gender and 1 to 200 characters of trimmed lyrics.
- **The voice-conversion page** (`VoiceConversionPage`). It covers the rule
  for accepting a file (MIME type, or a case-insensitive extension), the
  submit guard, the fixed upload parameters, the handling of the upload reply,
  and the two poller callbacks.
- **The music creation page** (`MusicCreationPage`). It covers how the
  generate reply is dispatched (a task id, a composition plan, or neither),
  which error message wins, and the completion handler, which raises the
  credits-refresh counter by exactly one. One lemma connects this page with the
  poller: one polled task raises the counter by at most one.

`JsBasics` defines the JavaScript built-ins that the rules depend on:
- `||` defaulting on strings that may be absent;
- the `err.detail || err.message || default` error text;
- `String.prototype.trim`, over ECMAScript's whitespace and line terminators.
  It is proved to be the unique trimming of its input;
- ASCII case folding, which is how the extension regular expression with the
  `i` flag compares letters.

Every page or component is a class whose fields are the source's state
variables. Each method ensures that the new state is a pure function of the
old one. The properties are lemmas about those functions, and several cover any
sequence of events. Awaited calls are parameters of type `Reply`: either the
value the call resolved to, or the error it threw. Each handler runs to
completion with that value.

Four behaviours of the code that are easy to miss, and that the model keeps:

- A failed download reports only the error's `message`, not its `detail`.
- The timeout message speaks of "music generation" for both kinds of job.
- After the duration slider moves, `duration_seconds` holds the slider's text.
  The code parses integers only for inputs of type "number", and the slider
  has type "range" (`Duration.SliderText`).
- The API wrappers can throw a plain string (a network error without a
  response). A string has no `detail` and no `message`, so the handlers then
  show their default text. This is `JsError(None, None)`.

## Model

| member | source | states |
|---|---|---|
| JsBasics.OrElse | src/components/StatusPolling.jsx:31 | `x \|\| fallback` on an optional string gives the string when it is present and non-empty, otherwise the fallback; it is empty only if the fallback is |
| JsBasics.ErrorText | src/pages/MusicCreationPage.jsx:40 | the error text is `detail` when truthy, else `message` when truthy, else the default; never empty when the default is not |
| JsBasics.TrimStart | src/components/MusicGeneratorForm.jsx:40 | removes exactly the longest whitespace prefix: the result is a suffix of the input, what was removed is all whitespace, and the result does not start with whitespace |
| JsBasics.TrimEnd | src/components/MusicGeneratorForm.jsx:40 | removes exactly the longest whitespace suffix: the result is a prefix of the input, what was removed is all whitespace, and the result does not end with whitespace |
| JsBasics.Trim | src/components/MusicGeneratorForm.jsx:69-70 | `s.trim()` is never longer than `s`, and neither its first nor its last character is whitespace |
| JsBasics.TrimIsTrimming | src/components/MusicGeneratorForm.jsx:69-70 | `trim` returns a slice of its input with only whitespace cut from both ends and no whitespace at either end of the result, never longer than the input |
| JsBasics.TrimmingIsUnique | src/components/MusicGeneratorForm.jsx:69-70 | any such trimming of a string equals `Trim` of it, so `Trim` is fully characterised |
| JsBasics.BlankIffAllWhitespace | src/components/MusicGeneratorForm.jsx:48 | `!s.trim()` holds exactly when every character of `s` is whitespace |
| JsBasics.TrimIdempotent | src/components/MusicGeneratorForm.jsx:69-70 | trimming an already trimmed string changes nothing |
| JsBasics.LowerAscii | src/pages/VoiceConversionPage.jsx:25 | an ASCII capital becomes the small letter 32 code points above it, and every other character is left alone |
| JsBasics.LowerAsciiString | src/pages/VoiceConversionPage.jsx:25 | folds each ASCII capital to its small letter and leaves every other character alone, keeping the length |
| StatusPolling.StatusEndpoint | src/components/StatusPolling.jsx:27 | the status call goes to the voice-conversion endpoint iff `type` is 'voice-conversion', and to `checkStatus` otherwise, including the default 'music' |
| StatusPolling.DownloadEndpoint | src/components/StatusPolling.jsx:37 | the download goes to the voice-conversion endpoint iff `type` is 'voice-conversion', and to `downloadMusic` otherwise |
| StatusPolling.Start | src/components/StatusPolling.jsx:4-12 | on mount, status is 'pending', progress null, message empty, the counter 0, nothing has been called, and no interval runs for an empty job id |
| StatusPolling.AfterTick | src/components/StatusPolling.jsx:15-54 | one run of the interval callback: nothing on a stopped poller; otherwise the counter goes up by one, the logs of calls and callbacks only grow, at most one callback fires, and one fires exactly when the tick stops the poller |
| StatusPolling.Run | src/components/StatusPolling.jsx:15-54 | successive ticks only extend the logs of calls and callbacks, and a stopped poller stays stopped |
| StatusPolling.StatusDisplay | src/components/StatusPolling.jsx:59-73 | `getStatusDisplay` always shows a non-empty line, and it starts with "S" exactly when the status is none of the four known ones |
| StatusPolling.Poller.constructor | src/components/StatusPolling.jsx:4-15 | a new poller starts in the `Start` state for its job id and keeps its `type` |
| StatusPolling.Poller.Tick | src/components/StatusPolling.jsx:15-54 | the interval callback changes the state exactly as `AfterTick` says, and a cleared interval does nothing |
| StatusPolling.Poller.Unmount | src/components/StatusPolling.jsx:56 | the effect cleanup clears the interval and changes nothing else |
| StatusPolling.StoppedTickIsInert | src/components/StatusPolling.jsx:20 | once the interval is cleared, a tick makes no call and fires no callback |
| StatusPolling.TimeoutTick | src/components/StatusPolling.jsx:16-23 | the tick after the 150th still adds one to the counter, then stops polling and reports the timeout message without a status call |
| StatusPolling.InBudgetTickAsks | src/components/StatusPolling.jsx:16-28 | a tick within budget adds one to the counter and makes exactly one status call, to the endpoint of its kind, for its job |
| StatusPolling.CompletedTick | src/components/StatusPolling.jsx:29-43 | on 'completed', polling stops and exactly one download is made; `onComplete` gets the URL of the blob, or `onError` gets the download's message or 'Failed to download audio' |
| StatusPolling.FailedTick | src/components/StatusPolling.jsx:44-48 | on 'failed', polling stops with no download, and `onError` gets the reply's message or 'Voice conversion failed' / 'Music generation failed' |
| StatusPolling.PendingTick | src/components/StatusPolling.jsx:29-33 | any other status fires nothing and keeps polling, while status, progress and message (default '') follow the reply |
| StatusPolling.ThrownStatusTick | src/components/StatusPolling.jsx:49-53 | a status call that throws stops polling and reports detail, else message, else 'Failed to check status' |
| StatusPolling.TickFired | src/components/StatusPolling.jsx:19-53 | a tick of a running poller fires at most one callback, only when it stops the poller, and it never stops the poller without firing one |
| StatusPolling.RunKeepsInv | src/components/StatusPolling.jsx:12-53 | every run keeps the budget (status calls at most the counter and at most 150, at most one download, at most one callback, and stopped after either) and sends every call for its own job to the endpoints of its kind |
| StatusPolling.RunIsBounded | src/components/StatusPolling.jsx:12-53 | whatever the server answers, a run makes at most 150 status calls and at most one download, calls only its kind's endpoints, and fires at most one of `onComplete`/`onError`, after which it is stopped |
| StatusPolling.StoppedRunIsInert | src/components/StatusPolling.jsx:20 | after a stop, no number of later ticks changes anything |
| StatusPolling.RunCountsTicks | src/components/StatusPolling.jsx:16 | ticks either stop the run or each add exactly one to the counter |
| StatusPolling.RunStopsAfterMaxPolls | src/components/StatusPolling.jsx:13-23 | more than 150 ticks always leave the poller stopped |
| StatusPolling.StatusDisplayCases | src/components/StatusPolling.jsx:59-73 | the four known statuses have their own text, which differs between music and voice conversion; any other status `s` reads "Status: s" |
| StatusPolling.StatusDisplayInjective | src/components/StatusPolling.jsx:59-73 | two different statuses never show the same status line |
| MusicGeneratorForm.ChangedForm | src/components/MusicGeneratorForm.jsx:14-29 | the instrumental flag changes only through its own checkbox; checking it removes the gender and unchecking always leaves one; lyrics, style and duration change only through their own inputs or, for lyrics, the checkbox |
| MusicGeneratorForm.ClearedErrors | src/components/MusicGeneratorForm.jsx:31-34 | after an edit the same fields have entries, the edited field's error is no longer shown, and every other entry is unchanged |
| MusicGeneratorForm.Errors | src/components/MusicGeneratorForm.jsx:37-53 | only the style, vocal gender and lyrics fields can get an error, and every error it reports is a non-empty message |
| MusicGeneratorForm.Request | src/components/MusicGeneratorForm.jsx:66-72 | the request keeps the instrumental flag and the duration, carries lyrics exactly when not instrumental, and its trimmed lyrics and style are never longer than the form's |
| MusicGeneratorForm.Submitted | src/components/MusicGeneratorForm.jsx:59-75 | nothing is submitted exactly when the error map is not empty, and a submitted request never has an empty style |
| MusicGeneratorForm.InstrumentalToggle | src/components/MusicGeneratorForm.jsx:17-23 | checking instrumental nulls the vocal gender and empties the lyrics; unchecking keeps the lyrics and the gender, or sets 'male' when there is none |
| MusicGeneratorForm.InstrumentalRoundTrip | src/components/MusicGeneratorForm.jsx:17-23 | checking then unchecking instrumental loses the lyrics and resets the gender to 'male'; all else is as before |
| MusicGeneratorForm.FieldEditIsLocal | src/components/MusicGeneratorForm.jsx:24-29 | any other change sets the named field to the event's value and leaves every other field unchanged |
| MusicGeneratorForm.EditClearsOnlyItsError | src/components/MusicGeneratorForm.jsx:31-34 | editing a field blanks that field's shown error and leaves every other error entry unchanged |
| MusicGeneratorForm.StyleRule | src/components/MusicGeneratorForm.jsx:40-42 | there is a style error, 'Music style is required', exactly when the style is all whitespace |
| MusicGeneratorForm.VoiceRules | src/components/MusicGeneratorForm.jsx:44-53 | without instrumental, a missing gender gets the gender error; blank lyrics get 'required', otherwise more than 200 characters get the length error; with instrumental neither applies |
| MusicGeneratorForm.ValidIff | src/components/MusicGeneratorForm.jsx:37-57 | the error map is empty exactly when the style is not blank and, unless instrumental, there is a gender and 1 to 200 characters of lyrics that are not all whitespace |
| MusicGeneratorForm.EmptyLyricsRejected | src/components/MusicGeneratorForm.jsx:62-64 | empty lyrics without instrumental mean nothing is submitted |
| MusicGeneratorForm.SubmittedRequestIsWellFormed | src/components/MusicGeneratorForm.jsx:66-72 | a submitted request has a trimmed non-empty style; when instrumental, null gender and lyrics; otherwise the gender and 1 to 200 characters of trimmed lyrics; the flag and duration pass through |
| MusicGeneratorForm.BuildErrors | src/components/MusicGeneratorForm.jsx:38-53 | the map built entry by entry from the outcome of the tests holds exactly one entry per failing field, with that field's message |
| MusicGeneratorForm.Form.constructor | src/components/MusicGeneratorForm.jsx:4-12 | the form starts not instrumental, gender 'male', empty lyrics and style, 30 seconds, and no errors |
| MusicGeneratorForm.Form.HandleChange | src/components/MusicGeneratorForm.jsx:14-35 | the form data becomes `ChangedForm` of the event and the errors become `ClearedErrors` for the event's field |
| MusicGeneratorForm.Form.ValidateForm | src/components/MusicGeneratorForm.jsx:37-57 | the stored error map is the one the per-field rules give for the form's data, the form data is unchanged, and the result is true iff that map is empty |
| MusicGeneratorForm.Form.HandleSubmit | src/components/MusicGeneratorForm.jsx:59-75 | `onSubmit` receives the built request iff the form is valid, and the errors are those of the form |
| VoiceConversionPage.HasAudioExtension | src/pages/VoiceConversionPage.jsx:25 | `/\.(wav\|mp3\|m4a\|ogg)$/i` on the file name; its meaning is stated by `AudioExtensionMeaning` |
| VoiceConversionPage.IsAcceptedFile | src/pages/VoiceConversionPage.jsx:24-25 | the file test of `handleFileChange`; its meaning is stated by `AcceptedFileIff` |
| VoiceConversionPage.AfterFileChange | src/pages/VoiceConversionPage.jsx:20-33 | a chosen file is selected exactly when it is accepted, the error is cleared exactly then, the selection never becomes a file that was not chosen, and the job, audio and loading state are untouched |
| VoiceConversionPage.UploadFor | src/pages/VoiceConversionPage.jsx:38-59 | an upload is made exactly when a file is selected; it sends that file with method 'rmvpe' and resample rate 0 |
| VoiceConversionPage.AfterSubmit | src/pages/VoiceConversionPage.jsx:35-71 | the submit ends with an error shown or a job polled; without a file the job and loading are untouched; with one the audio is cleared, loading goes on exactly while a job is polled, and a polled job shows no error; the selected file and all four slider values (pitch, index rate, RMS mix rate, protect) never change |
| VoiceConversionPage.AudioExtensionMeaning | src/pages/VoiceConversionPage.jsx:25 | the name test holds exactly when the name ends, ignoring case, with a dot and one of wav, mp3, m4a, ogg |
| VoiceConversionPage.AcceptedFileIff | src/pages/VoiceConversionPage.jsx:24-25 | a file is accepted iff its MIME type is one of the five listed or its name has one of the four extensions in any case |
| VoiceConversionPage.FileExamples | src/pages/VoiceConversionPage.jsx:24-25 | 'take1.WAV' and an 'audio/mpeg' file are accepted; a FLAC file and a bare name 'wav' are refused |
| VoiceConversionPage.FileChangeRule | src/pages/VoiceConversionPage.jsx:20-33 | no file changes nothing; a refused file sets the error and clears the selection; an accepted one is selected and clears the error; nothing else changes |
| VoiceConversionPage.SubmitWithoutFile | src/pages/VoiceConversionPage.jsx:38-41 | submitting with no file only sets 'Please select an audio file' and makes no upload |
| VoiceConversionPage.SubmitWithFile | src/pages/VoiceConversionPage.jsx:43-59 | with a file, loading starts and error, job id and audio are cleared before the upload; the upload carries the file, 'rmvpe', filter radius 3, resample rate 0 and the page's other three values |
| VoiceConversionPage.UploadOutcome | src/pages/VoiceConversionPage.jsx:59-70 | a reply with a job id starts polling it while loading; any other reply, or a thrown upload, shows detail, then message, then the default, and ends loading |
| VoiceConversionPage.PollerCallbacks | src/pages/VoiceConversionPage.jsx:73-83 | completion shows the audio and failure shows the message; both end loading and drop the job id |
| VoiceConversionPage.RunStaysConsistent | src/pages/VoiceConversionPage.jsx:20-83 | after any sequence of handler calls, a polled job implies loading and no audio, and shown audio implies not loading |
| VoiceConversionPage.ReachableIsConsistent | src/pages/VoiceConversionPage.jsx:8-18 | every state reachable from the initial page is consistent in that sense |
| VoiceConversionPage.Page.constructor | src/pages/VoiceConversionPage.jsx:8-18 | the page starts with no job, audio, error or file, not loading, pitch 0 and sliders 0.75, 0.25, 0.33 |
| VoiceConversionPage.Page.HandleFileChange | src/pages/VoiceConversionPage.jsx:20-33 | the page becomes `AfterFileChange` of the chosen file |
| VoiceConversionPage.Page.HandleSubmit | src/pages/VoiceConversionPage.jsx:35-71 | the upload made is `UploadFor` the old page and the page becomes `AfterSubmit` of the reply |
| VoiceConversionPage.Page.HandleConversionComplete | src/pages/VoiceConversionPage.jsx:73-77 | the page becomes `AfterConversionComplete` of the URL |
| VoiceConversionPage.Page.HandleConversionError | src/pages/VoiceConversionPage.jsx:79-83 | the page becomes `AfterConversionError` of the message |
| MusicCreationPage.GenerateSettled | src/pages/MusicCreationPage.jsx:21-43 | the generate outcome never touches the audio or the credits; a throw, or a reply with neither task id nor plan, shows an error and ends loading; loading goes on only with a task id and no new error |
| MusicCreationPage.AfterSubmit | src/pages/MusicCreationPage.jsx:15-44 | after a submit no audio is shown, the credits refresh is unchanged, and the page is consistent whatever it was before |
| MusicCreationPage.AfterGenerationComplete | src/pages/MusicCreationPage.jsx:46-52 | completion shows audio, raises the credits refresh by one, keeps the error, and leaves the page consistent |
| MusicCreationPage.AfterGenerationError | src/pages/MusicCreationPage.jsx:54-58 | an error is shown, audio and credits refresh are kept, and the page is consistent |
| MusicCreationPage.SubmitStartsClean | src/pages/MusicCreationPage.jsx:16-19 | submit first sets loading and clears error, task id and audio |
| MusicCreationPage.GenerateOutcome | src/pages/MusicCreationPage.jsx:21-43 | a task id is polled and loading goes on unless its status is 'completed'; a plan alone ends loading with no task and no error; anything else, or a throw, shows detail, then message, then the default, and ends loading |
| MusicCreationPage.PollerCallbacks | src/pages/MusicCreationPage.jsx:46-58 | completion shows the audio, ends loading, drops the task and raises the credits refresh by exactly one; an error shows its message, ends loading, drops the task and leaves audio and credits refresh alone |
| MusicCreationPage.CreditsCountCompletions | src/pages/MusicCreationPage.jsx:51 | over any sequence of events the credits refresh counter rises by the number of completions and nothing else |
| MusicCreationPage.RunStaysConsistent | src/pages/MusicCreationPage.jsx:15-58 | after any sequence of events, a polled task implies no audio, and a shown error or shown audio implies not loading |
| MusicCreationPage.ReachableIsConsistent | src/pages/MusicCreationPage.jsx:9-13 | every state reachable from the initial page is consistent in that sense |
| MusicCreationPage.OneRefreshPerTask | src/pages/MusicCreationPage.jsx:82-88 | whatever the server answers, and with ticks run one at a time (an overlap is listed under "## Left out"), one polled music task raises the credits refresh counter by at most one |
| MusicCreationPage.Page.constructor | src/pages/MusicCreationPage.jsx:9-13 | the page starts with no task, audio or error, not loading, and credits refresh 0 |
| MusicCreationPage.Page.HandleSubmit | src/pages/MusicCreationPage.jsx:15-44 | the page becomes `AfterSubmit` of the generate reply |
| MusicCreationPage.Page.HandleGenerationComplete | src/pages/MusicCreationPage.jsx:46-52 | the page becomes `AfterGenerationComplete` of the URL |
| MusicCreationPage.Page.HandleGenerationError | src/pages/MusicCreationPage.jsx:54-58 | the page becomes `AfterGenerationError` of the message |

## Left out

- The HTTP layer (`src/services/api.js`) is not part of this model: axios, `FormData`, the base URL and the endpoints' paths. Every call is an abstract `Reply`. Its `||` defaulting of the upload parameters (an index rate of 0 is sent as 0.75) acts on floating-point values and is not modelled.
- `CreditsDisplay`, `MusicPlayer`, `App`, `Navigation` and `Footer` only fetch and render. The credits refresh counter is modelled, but not the fetch it triggers.
- Time is not modelled: the 2000 ms interval, `setInterval` scheduling, and async ticks that overlap when a status call is slower than the interval. A tick is one call of `Tick` that runs to completion.
- The React hook semantics are not modelled. The effect depends on the page's `onComplete`/`onError`, which are new functions on every render of the page. A page re-render during polling would restart the effect, and with it the 150-tick budget. One `Poller` object models one run of the effect.
- A callback that throws is not modelled. If `onComplete` threw, the download's catch would also call `onError`. The page handlers only set state and do not throw.
- `URL.createObjectURL` and blobs are opaque values (`ObjectUrlFor`).
- The pitch and slider setters (`parseInt`/`parseFloat` of slider text) are not modelled. Their values are page state, passed through unchanged into the upload; floats are `real`.
- The progress bar's width, `Math.round` and `toFixed` display formatting are not modelled.
- The markup, CSS classes and `console` logging are not modelled. The `disabled` attributes are not modelled either: the handlers can be called in any order, and the consistency lemmas hold without those guards.
- A status reply without a `status` field is not modelled: the status is always a string.
- MusicGeneratorForm.VoiceRules: counts lyrics in Unicode characters, because strings are sequences of `char`. The source's `length` counts UTF-16 code units, so lyrics with characters outside the Basic Multilingual Plane reach the 200 limit sooner in the source.
- MusicGeneratorForm.ValidIff: its "1 to 200 characters" counts Unicode characters, not UTF-16 code units, for the same reason.
- MusicGeneratorForm.SubmittedRequestIsWellFormed: its 200-character bound on the trimmed lyrics counts Unicode characters, not UTF-16 code units, for the same reason.
- `parseInt` in `handleChange` is not modelled. It applies only to inputs of type "number", and the form's inputs are a checkbox, radios, a textarea, a text input and a range slider (`src/components/MusicGeneratorForm.jsx` lines 85-171), so that branch is never taken and a field edit stores the input's text.
