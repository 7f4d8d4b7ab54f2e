/** The voice-conversion page: choosing an audio file, submitting it with the
    conversion parameters, and taking the result or the error from the poller. */
module VoiceConversionPage {
  import opened JsBasics

  const InvalidFileMessage := "Please select a valid audio file (WAV, MP3, M4A, or OGG)"
  const NoFileMessage := "Please select an audio file"
  const UnexpectedResponseMessage := "Unexpected response format"
  const UploadFailedMessage := "An error occurred while uploading audio"

  /** The MIME types accepted as they are. */
  const ValidTypes := ["audio/wav", "audio/mpeg", "audio/mp3", "audio/m4a", "audio/ogg"]

  /** The file name extensions accepted in any letter case. */
  const AudioExtensions := ["wav", "mp3", "m4a", "ogg"]

  /** A chosen file: its name and the MIME type the browser gives it. */
  datatype AudioFile = AudioFile(name: string, mimeType: string)

  /** The parameters sent along with the file. */
  datatype ConversionParams = ConversionParams(
    f0UpKey: int,
    f0Method: string,
    indexRate: real,
    filterRadius: int,
    rmsMixRate: real,
    protect: real,
    resampleSr: int)

  /** One call of the upload endpoint. */
  datatype UploadCall = UploadCall(file: AudioFile, params: ConversionParams)

  /** The body of the upload reply. */
  datatype UploadResponse = UploadResponse(jobId: Option<string>)

  datatype VoicePage = VoicePage(
    jobId: Option<string>,
    audioUrl: Option<ObjectUrl>,
    isLoading: bool,
    error: Option<string>,
    selectedFile: Option<AudioFile>,
    f0UpKey: int,
    indexRate: real,
    rmsMixRate: real,
    protect: real)

  const InitialPage := VoicePage(None, None, false, None, None, 0, 0.75, 0.25, 0.33)

  // ---------------------------------------------------------------------
  // Which files are accepted

  /** `name.match(/\.(wav|mp3|m4a|ogg)$/i)`: a dot and one of the extensions end the name. */
  predicate HasAudioExtension(name: string) {
    |name| >= 4 && name[|name| - 4] == '.' && LowerAsciiString(name[|name| - 3..]) in AudioExtensions
  }

  predicate IsAcceptedFile(file: AudioFile) {
    file.mimeType in ValidTypes || HasAudioExtension(file.name)
  }

  /** `s` ends with `suffix` when letters are compared without regard to case. */
  predicate EndsWithIgnoringCase(s: string, suffix: string) {
    |suffix| <= |s| && forall i :: 0 <= i < |suffix| ==> LowerAscii(s[|s| - |suffix| + i]) == LowerAscii(suffix[i])
  }

  /** A name has an audio extension exactly when, ignoring case, it ends with
      a dot followed by one of the four extensions. */
  lemma AudioExtensionMeaning(name: string)
    ensures HasAudioExtension(name) <==>
      exists ext :: ext in AudioExtensions && EndsWithIgnoringCase(name, "." + ext)
  {
    if HasAudioExtension(name) {
      var ext := LowerAsciiString(name[|name| - 3..]);
      assert EndsWithIgnoringCase(name, "." + ext) by {
        forall i | 0 <= i < 4 ensures LowerAscii(name[|name| - 4 + i]) == LowerAscii(("." + ext)[i]) {
          if i > 0 {
            assert ("." + ext)[i] == ext[i - 1] == LowerAscii(name[|name| - 3..][i - 1]);
          }
        }
      }
    }
    if ext :| ext in AudioExtensions && EndsWithIgnoringCase(name, "." + ext) {
      var tail := name[|name| - 3..];
      assert |ext| == 3 && ("." + ext)[0] == '.';
      assert LowerAscii(name[|name| - 4]) == '.';
      assert LowerAsciiString(tail) == ext by {
        forall i | 0 <= i < 3 ensures LowerAsciiString(tail)[i] == ext[i] {
          assert ("." + ext)[i + 1] == ext[i];
          assert LowerAscii(ext[i]) == ext[i];
        }
      }
    }
  }

  /** The acceptance rule for a whole file. */
  lemma AcceptedFileIff(file: AudioFile)
    ensures IsAcceptedFile(file) <==>
      file.mimeType in {"audio/wav", "audio/mpeg", "audio/mp3", "audio/m4a", "audio/ogg"}
      || exists ext :: ext in {"wav", "mp3", "m4a", "ogg"} && EndsWithIgnoringCase(file.name, "." + ext)
  {
    AudioExtensionMeaning(file.name);
  }

  /** Upper case extensions are accepted; other extensions with other MIME types are not. */
  lemma FileExamples()
    ensures IsAcceptedFile(AudioFile("take1.WAV", ""))
    ensures IsAcceptedFile(AudioFile("voice", "audio/mpeg"))
    ensures !IsAcceptedFile(AudioFile("take1.flac", "audio/flac"))
    ensures !IsAcceptedFile(AudioFile("wav", ""))
  {
    assert LowerAsciiString("WAV") == "wav";
    assert LowerAsciiString("lac") == "lac";
  }

  // ---------------------------------------------------------------------
  // The handlers

  /** `handleFileChange`: no file changes nothing; a refused file sets the
      error and unselects; an accepted one is selected and clears the error. */
  function AfterFileChange(p: VoicePage, file: Option<AudioFile>): (q: VoicePage)
    ensures file.Some? ==> (q.selectedFile == file <==> IsAcceptedFile(file.value))
    ensures file.Some? ==> (q.error.None? <==> IsAcceptedFile(file.value))
    ensures q.selectedFile.Some? ==> q.selectedFile == file || q.selectedFile == p.selectedFile
    ensures q.jobId == p.jobId && q.audioUrl == p.audioUrl && q.isLoading == p.isLoading
  {
    match file
    case None => p
    case Some(f) =>
      if !IsAcceptedFile(f) then p.(error := Some(InvalidFileMessage), selectedFile := None)
      else p.(selectedFile := Some(f), error := None)
  }

  /** The parameters `handleSubmit` sends: three fixed, the rest from the sliders. */
  function Params(p: VoicePage): ConversionParams {
    ConversionParams(p.f0UpKey, "rmvpe", p.indexRate, 3, p.rmsMixRate, p.protect, 0)
  }

  /** The upload `handleSubmit` makes, if any. */
  function UploadFor(p: VoicePage): (call: Option<UploadCall>)
    ensures call.Some? <==> p.selectedFile.Some?
    ensures call.Some? ==> call.value.file == p.selectedFile.value
    ensures call.Some? ==> call.value.params.f0Method == "rmvpe" && call.value.params.resampleSr == 0
  {
    if p.selectedFile.None? then None else Some(UploadCall(p.selectedFile.value, Params(p)))
  }

  /** The state set before the upload starts. */
  function SubmitStarted(p: VoicePage): VoicePage {
    p.(isLoading := true, error := None, jobId := None, audioUrl := None)
  }

  /** What the upload's outcome does: a job id starts polling; anything else
      (including a reply without a job id, which is thrown as an error) shows
      the error and ends loading. */
  function UploadSettled(p: VoicePage, reply: Reply<UploadResponse>): VoicePage {
    var thrown := match reply
      case Returned(r) => if Truthy(r.jobId) then None else Some(JsError(None, Some(UnexpectedResponseMessage)))
      case Threw(e) => Some(e);
    match thrown
    case None => p.(jobId := reply.value.jobId)
    case Some(e) => p.(error := Some(ErrorText(e, UploadFailedMessage)), isLoading := false)
  }

  /** `handleSubmit`, run to completion with the upload's outcome. */
  function AfterSubmit(p: VoicePage, reply: Reply<UploadResponse>): (q: VoicePage)
    ensures q.selectedFile == p.selectedFile && q.f0UpKey == p.f0UpKey && q.indexRate == p.indexRate
    ensures q.rmsMixRate == p.rmsMixRate && q.protect == p.protect
    ensures q.error.Some? || q.jobId.Some?
    ensures p.selectedFile.None? ==> q.jobId == p.jobId && q.isLoading == p.isLoading
    ensures p.selectedFile.Some? ==> q.audioUrl.None? && (q.jobId.Some? <==> q.isLoading)
    ensures p.selectedFile.Some? && q.jobId.Some? ==> q.error.None?
  {
    if p.selectedFile.None? then p.(error := Some(NoFileMessage))
    else UploadSettled(SubmitStarted(p), reply)
  }

  function AfterConversionComplete(p: VoicePage, url: ObjectUrl): VoicePage {
    p.(audioUrl := Some(url), isLoading := false, jobId := None)
  }

  function AfterConversionError(p: VoicePage, message: string): VoicePage {
    p.(error := Some(message), isLoading := false, jobId := None)
  }

  // ---------------------------------------------------------------------
  // Properties of the handlers

  /** No file leaves the page alone; a refused file shows the error and clears
      the selection; an accepted file is selected and clears the error. */
  lemma FileChangeRule(p: VoicePage, file: Option<AudioFile>)
    ensures file.None? ==> AfterFileChange(p, file) == p
    ensures file.Some? && !IsAcceptedFile(file.value) ==>
      AfterFileChange(p, file).error == Some(InvalidFileMessage) && AfterFileChange(p, file).selectedFile == None
    ensures file.Some? && IsAcceptedFile(file.value) ==>
      AfterFileChange(p, file).error == None && AfterFileChange(p, file).selectedFile == file
    ensures AfterFileChange(p, file).(error := p.error, selectedFile := p.selectedFile) == p
  {
  }

  /** Without a selected file, submit only shows "Please select an audio file" and uploads nothing. */
  lemma SubmitWithoutFile(p: VoicePage, reply: Reply<UploadResponse>)
    requires p.selectedFile == None
    ensures UploadFor(p) == None
    ensures AfterSubmit(p, reply) == p.(error := Some("Please select an audio file"))
  {
  }

  /** With a file, submit uploads that file with f0_method "rmvpe", filter
      radius 3, resample rate 0 and the page's pitch, index rate, volume mix
      and protection; before it does, loading is on and error, job id and
      audio are cleared. */
  lemma SubmitWithFile(p: VoicePage)
    requires p.selectedFile.Some?
    ensures UploadFor(p).Some?
    ensures var c := UploadFor(p).value;
      c.file == p.selectedFile.value
      && c.params.f0Method == "rmvpe" && c.params.filterRadius == 3 && c.params.resampleSr == 0
      && c.params.f0UpKey == p.f0UpKey && c.params.indexRate == p.indexRate
      && c.params.rmsMixRate == p.rmsMixRate && c.params.protect == p.protect
    ensures var q := SubmitStarted(p);
      q.isLoading && q.error == None && q.jobId == None && q.audioUrl == None
      && q.selectedFile == p.selectedFile
  {
  }

  /** A reply with a job id starts polling it, still loading; any other reply,
      or a thrown upload, shows detail, then message, then the default, and
      stops loading. */
  lemma UploadOutcome(p: VoicePage, reply: Reply<UploadResponse>)
    requires p.selectedFile.Some?
    ensures var q := AfterSubmit(p, reply);
      if reply.Returned? && Truthy(reply.value.jobId) then
        q.jobId == reply.value.jobId && q.isLoading && q.error == None
      else
        q.jobId == None && !q.isLoading && q.error.Some? && q.error.value != ""
        && (reply.Returned? ==> q.error == Some("Unexpected response format"))
        && (reply.Threw? ==> q.error == Some(ErrorText(reply.error, "An error occurred while uploading audio")))
  {
  }

  /** Both poller callbacks end loading and drop the job id; completion shows
      the audio, failure shows the message. */
  lemma PollerCallbacks(p: VoicePage, url: ObjectUrl, message: string)
    ensures var q := AfterConversionComplete(p, url);
      q.audioUrl == Some(url) && !q.isLoading && q.jobId == None && q.error == p.error
    ensures var q := AfterConversionError(p, message);
      q.error == Some(message) && !q.isLoading && q.jobId == None && q.audioUrl == p.audioUrl
  {
  }

  // ---------------------------------------------------------------------
  // Any sequence of events

  datatype VoiceEvent =
    | FileChosen(file: Option<AudioFile>)
    | Submit(reply: Reply<UploadResponse>)
    | ConversionComplete(url: ObjectUrl)
    | ConversionError(message: string)

  function Step(p: VoicePage, ev: VoiceEvent): VoicePage {
    match ev
    case FileChosen(file) => AfterFileChange(p, file)
    case Submit(reply) => AfterSubmit(p, reply)
    case ConversionComplete(url) => AfterConversionComplete(p, url)
    case ConversionError(message) => AfterConversionError(p, message)
  }

  function Run(p: VoicePage, events: seq<VoiceEvent>): VoicePage
    decreases |events|
  {
    if events == [] then p else Run(Step(p, events[0]), events[1..])
  }

  /** While a job is polled the page is loading and shows no audio; audio is
      only shown once loading is over. */
  predicate Consistent(p: VoicePage) {
    (p.jobId.Some? ==> p.isLoading && p.audioUrl.None?)
    && (p.audioUrl.Some? ==> !p.isLoading)
  }

  lemma {:induction false} RunStaysConsistent(p: VoicePage, events: seq<VoiceEvent>)
    requires Consistent(p)
    ensures Consistent(Run(p, events))
    decreases |events|
  {
    if events != [] {
      assert Consistent(Step(p, events[0]));
      RunStaysConsistent(Step(p, events[0]), events[1..]);
    }
  }

  /** The page as it first renders is consistent, and so is every page reachable from it. */
  lemma ReachableIsConsistent(events: seq<VoiceEvent>)
    ensures Consistent(Run(InitialPage, events))
  {
    RunStaysConsistent(InitialPage, events);
  }

  // ---------------------------------------------------------------------
  // The component

  class Page {
    var jobId: Option<string>
    var audioUrl: Option<ObjectUrl>
    var isLoading: bool
    var error: Option<string>
    var selectedFile: Option<AudioFile>
    var f0UpKey: int
    var indexRate: real
    var rmsMixRate: real
    var protect: real

    function State(): VoicePage
      reads this
    {
      VoicePage(jobId, audioUrl, isLoading, error, selectedFile, f0UpKey, indexRate, rmsMixRate, protect)
    }

    constructor ()
      ensures State() == InitialPage
    {
      jobId, audioUrl, isLoading, error, selectedFile := None, None, false, None, None;
      f0UpKey, indexRate, rmsMixRate, protect := 0, 0.75, 0.25, 0.33;
    }

    method HandleFileChange(file: Option<AudioFile>)
      modifies this
      ensures State() == AfterFileChange(old(State()), file)
    {
      if file.Some? {
        var f := file.value;
        if !(f.mimeType in ValidTypes) && !HasAudioExtension(f.name) {
          error := Some(InvalidFileMessage);
          selectedFile := None;
          return;
        }
        selectedFile := Some(f);
        error := None;
      }
    }

    /** The submit handler, run to completion with the upload's outcome; returns the upload made. */
    method HandleSubmit(reply: Reply<UploadResponse>) returns (upload: Option<UploadCall>)
      modifies this
      ensures upload == UploadFor(old(State()))
      ensures State() == AfterSubmit(old(State()), reply)
    {
      if selectedFile.None? {
        error := Some(NoFileMessage);
        return None;
      }
      isLoading := true;
      error := None;
      jobId := None;
      audioUrl := None;
      var params := ConversionParams(f0UpKey, "rmvpe", indexRate, 3, rmsMixRate, protect, 0);
      upload := Some(UploadCall(selectedFile.value, params));
      var thrown: Option<JsError> := None;
      match reply {
        case Returned(response) =>
          if Truthy(response.jobId) {
            jobId := response.jobId;
          } else {
            thrown := Some(JsError(None, Some(UnexpectedResponseMessage)));
          }
        case Threw(e) =>
          thrown := Some(e);
      }
      if thrown.Some? {
        error := Some(ErrorText(thrown.value, UploadFailedMessage));
        isLoading := false;
      }
    }

    method HandleConversionComplete(url: ObjectUrl)
      modifies this
      ensures State() == AfterConversionComplete(old(State()), url)
    {
      audioUrl := Some(url);
      isLoading := false;
      jobId := None;
    }

    method HandleConversionError(message: string)
      modifies this
      ensures State() == AfterConversionError(old(State()), message)
    {
      error := Some(message);
      isLoading := false;
      jobId := None;
    }
  }
}
