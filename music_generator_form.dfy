/** The music request form: its fields, how a change event updates them and
    their error messages, the validation rules, and the request that a valid
    form submits. */
module MusicGeneratorForm {
  import opened JsBasics

  const MaxLyricsLength: nat := 200
  const DefaultGender := "male"
  const StyleRequiredMessage := "Music style is required"
  const GenderRequiredMessage := "Vocal gender is required when not instrumental"
  const LyricsRequiredMessage := "Lyrics are required when not instrumental"
  const LyricsTooLongMessage := "Lyrics must be 200 characters or less"

  /** The `name` attributes of the form's inputs. */
  datatype Field = IsInstrumental | VocalGender | Lyrics | Style | DurationSeconds

  /** `duration_seconds` starts as the number 30; a change of the range slider
      stores the slider's value, which is text, since the input's type is not "number". */
  datatype Duration = Seconds(n: int) | SliderText(text: string)

  datatype FormData = FormData(
    isInstrumental: bool,
    vocalGender: Option<string>,
    lyrics: string,
    style: string,
    duration: Duration)

  const InitialForm := FormData(false, Some(DefaultGender), "", "", Seconds(30))

  /** A change event: the input's name, its value and, for the checkbox, whether it is checked. */
  datatype ChangeEvent = ChangeEvent(name: Field, value: string, checked: bool)

  /** The request body sent to the generate endpoint. */
  datatype MusicRequest = MusicRequest(
    isInstrumental: bool,
    vocalGender: Option<string>,
    lyrics: Option<string>,
    style: string,
    duration: Duration)

  /** The form after `handleChange`. */
  function ChangedForm(f: FormData, e: ChangeEvent): (g: FormData)
    ensures g.isInstrumental == (if e.name == IsInstrumental then e.checked else f.isInstrumental)
    ensures e.name == IsInstrumental ==> (g.vocalGender.None? <==> e.checked)
    ensures e.name !in {IsInstrumental, Lyrics} ==> g.lyrics == f.lyrics
    ensures e.name != Style ==> g.style == f.style
    ensures e.name != DurationSeconds ==> g.duration == f.duration
  {
    match e.name
    case IsInstrumental =>
      f.(isInstrumental := e.checked,
         vocalGender := if e.checked then None else Some(OrElse(f.vocalGender, DefaultGender)),
         lyrics := if e.checked then "" else f.lyrics)
    case VocalGender => f.(vocalGender := Some(e.value))
    case Lyrics => f.(lyrics := e.value)
    case Style => f.(style := e.value)
    case DurationSeconds => f.(duration := SliderText(e.value))
  }

  /** An error is shown for a field when its entry is present and not empty. */
  predicate Shown(errors: map<Field, string>, name: Field) {
    name in errors && errors[name] != ""
  }

  /** The errors after `handleChange`: a shown error of the edited field is blanked. */
  function ClearedErrors(errors: map<Field, string>, name: Field): (r: map<Field, string>)
    ensures r.Keys == errors.Keys
    ensures !Shown(r, name)
    ensures forall k :: k in r && k != name ==> r[k] == errors[k]
  {
    if Shown(errors, name) then errors[name := ""] else errors
  }

  /** The outcome of the tests `validateForm` makes on the form's data. */
  datatype Checks = Checks(
    styleBlank: bool,
    instrumental: bool,
    hasGender: bool,
    lyricsBlank: bool,
    lyricsTooLong: bool)

  function ChecksOf(f: FormData): Checks {
    Checks(IsBlank(f.style), f.isInstrumental, Truthy(f.vocalGender), IsBlank(f.lyrics), |f.lyrics| > MaxLyricsLength)
  }

  /** The error `validateForm` reports for one field, if any, given the tests' outcome. */
  function FieldError(c: Checks, name: Field): Option<string> {
    match name
    case Style =>
      if c.styleBlank then Some(StyleRequiredMessage) else None
    case VocalGender =>
      if !c.instrumental && !c.hasGender then Some(GenderRequiredMessage) else None
    case Lyrics =>
      if c.instrumental then None
      else if c.lyricsBlank then Some(LyricsRequiredMessage)
      else if c.lyricsTooLong then Some(LyricsTooLongMessage)
      else None
    case _ => None
  }

  const AllFields := {IsInstrumental, VocalGender, Lyrics, Style, DurationSeconds}

  /** One entry per field that has an error. */
  function ErrorMap(c: Checks): (errors: map<Field, string>)
    ensures errors.Keys <= {Style, VocalGender, Lyrics}
    ensures forall k :: k in errors ==> errors[k] != ""
  {
    map name | name in AllFields && FieldError(c, name).Some? :: FieldError(c, name).value
  }

  /** The error map `validateForm` builds. */
  function Errors(f: FormData): (errors: map<Field, string>)
    ensures errors.Keys <= {Style, VocalGender, Lyrics}
    ensures forall k :: k in errors ==> errors[k] != ""
  {
    ErrorMap(ChecksOf(f))
  }

  /** The request `handleSubmit` builds from the form's data. */
  function Request(f: FormData): (req: MusicRequest)
    ensures req.isInstrumental == f.isInstrumental && req.duration == f.duration
    ensures req.lyrics.None? <==> req.isInstrumental
    ensures req.lyrics.Some? ==> |req.lyrics.value| <= |f.lyrics|
    ensures |req.style| <= |f.style|
  {
    MusicRequest(
      f.isInstrumental,
      if f.isInstrumental then None else f.vocalGender,
      if f.isInstrumental then None else Some(Trim(f.lyrics)),
      Trim(f.style),
      f.duration)
  }

  /** What `handleSubmit` passes to onSubmit: nothing unless the form is valid. */
  function Submitted(f: FormData): (sent: Option<MusicRequest>)
    ensures sent.None? <==> Errors(f) != map[]
    ensures sent.Some? ==> sent.value.style != ""
  {
    if Errors(f) == map[] then
      ErrorsAt(ChecksOf(f), Style);
      Some(Request(f))
    else None
  }

  // ---------------------------------------------------------------------
  // handleChange

  /** The value of one field of the form. */
  datatype FieldValue = Flag(b: bool) | Gender(g: Option<string>) | Text(s: string) | Length(d: Duration)

  function Get(f: FormData, name: Field): FieldValue {
    match name
    case IsInstrumental => Flag(f.isInstrumental)
    case VocalGender => Gender(f.vocalGender)
    case Lyrics => Text(f.lyrics)
    case Style => Text(f.style)
    case DurationSeconds => Length(f.duration)
  }

  /** Checking "instrumental" nulls the vocal gender and empties the lyrics;
      unchecking keeps the lyrics and keeps the gender, or sets "male" when
      there is none. Style and duration stay as they are. */
  lemma InstrumentalToggle(f: FormData, e: ChangeEvent)
    requires e.name == IsInstrumental
    ensures var g := ChangedForm(f, e);
      g.isInstrumental == e.checked
      && (e.checked ==> g.vocalGender == None && g.lyrics == "")
      && (!e.checked ==> g.lyrics == f.lyrics
                         && g.vocalGender == Some(if Truthy(f.vocalGender) then f.vocalGender.value else "male"))
      && g.style == f.style && g.duration == f.duration
  {
  }

  /** Checking then unchecking "instrumental" loses the lyrics and resets the gender to "male". */
  lemma InstrumentalRoundTrip(f: FormData, v1: string, v2: string)
    ensures var g := ChangedForm(ChangedForm(f, ChangeEvent(IsInstrumental, v1, true)),
                                 ChangeEvent(IsInstrumental, v2, false));
      g == f.(isInstrumental := false, vocalGender := Some("male"), lyrics := "")
  {
  }

  /** Any other change sets that field to the event's value and no other field. */
  lemma FieldEditIsLocal(f: FormData, e: ChangeEvent, other: Field)
    requires e.name != IsInstrumental
    ensures Get(ChangedForm(f, e), e.name)
            == match e.name
               case VocalGender => Gender(Some(e.value))
               case DurationSeconds => Length(SliderText(e.value))
               case _ => Text(e.value)
    ensures other != e.name ==> Get(ChangedForm(f, e), other) == Get(f, other)
  {
  }

  /** Editing a field hides that field's error and leaves every other entry as it was. */
  lemma EditClearsOnlyItsError(errors: map<Field, string>, name: Field)
    ensures var r := ClearedErrors(errors, name);
      !Shown(r, name)
      && (name in r <==> name in errors)
      && (forall k :: k != name ==> (k in r <==> k in errors) && (k in r ==> r[k] == errors[k]))
  {
  }

  // ---------------------------------------------------------------------
  // validateForm

  lemma ErrorsAt(c: Checks, name: Field)
    ensures name in ErrorMap(c) <==> FieldError(c, name).Some?
    ensures name in ErrorMap(c) ==> ErrorMap(c)[name] == FieldError(c, name).value
  {
    assert name in AllFields;
  }

  /** A map with exactly the entries FieldError gives is the error map. */
  lemma ErrorsFromEntries(c: Checks, m: map<Field, string>)
    requires forall k :: k in m <==> FieldError(c, k).Some?
    requires forall k :: k in m ==> m[k] == FieldError(c, k).value
    ensures m == ErrorMap(c)
  {
    forall k ensures k in m <==> k in ErrorMap(c) {
      ErrorsAt(c, k);
    }
  }

  /** A style that is blank once trimmed always gets the style error, and only then. */
  lemma StyleRule(f: FormData)
    ensures Style in Errors(f) <==> AllWhitespace(f.style)
    ensures Style in Errors(f) ==> Errors(f)[Style] == StyleRequiredMessage
  {
    ErrorsAt(ChecksOf(f), Style);
    BlankIffAllWhitespace(f.style);
  }

  /** Without instrumental, a missing vocal gender gets the gender error; lyrics
      that are blank get "required", and otherwise more than 200 characters
      (counted before trimming) get the length error. With instrumental
      neither check applies. */
  lemma VoiceRules(f: FormData)
    ensures VocalGender in Errors(f) <==> !f.isInstrumental && !Truthy(f.vocalGender)
    ensures VocalGender in Errors(f) ==> Errors(f)[VocalGender] == GenderRequiredMessage
    ensures Lyrics in Errors(f) <==> !f.isInstrumental && (AllWhitespace(f.lyrics) || |f.lyrics| > MaxLyricsLength)
    ensures Lyrics in Errors(f) ==>
      Errors(f)[Lyrics] == if AllWhitespace(f.lyrics) then LyricsRequiredMessage else LyricsTooLongMessage
  {
    ErrorsAt(ChecksOf(f), VocalGender);
    ErrorsAt(ChecksOf(f), Lyrics);
    BlankIffAllWhitespace(f.lyrics);
  }

  /** The error map is empty exactly when none of the three checked fields has an error. */
  lemma NoErrorsIff(c: Checks)
    ensures ErrorMap(c) == map[] <==>
      FieldError(c, Style).None? && FieldError(c, VocalGender).None? && FieldError(c, Lyrics).None?
  {
    ErrorsAt(c, Style);
    ErrorsAt(c, VocalGender);
    ErrorsAt(c, Lyrics);
    if FieldError(c, Style).None? && FieldError(c, VocalGender).None? && FieldError(c, Lyrics).None? {
      forall k ensures k !in ErrorMap(c) {
        ErrorsAt(c, k);
      }
    }
  }

  /** The form is valid exactly when the error map is empty, that is when the
      style is not blank and, unless instrumental, there is a vocal gender and
      1 to 200 characters of lyrics that are not all whitespace. */
  lemma ValidIff(f: FormData)
    ensures Errors(f) == map[] <==>
      !AllWhitespace(f.style)
      && (f.isInstrumental
          || (Truthy(f.vocalGender) && !AllWhitespace(f.lyrics) && |f.lyrics| <= MaxLyricsLength))
  {
    NoErrorsIff(ChecksOf(f));
    BlankIffAllWhitespace(f.style);
    BlankIffAllWhitespace(f.lyrics);
  }

  /** Empty lyrics without instrumental are refused before any request is built. */
  lemma EmptyLyricsRejected(f: FormData)
    requires !f.isInstrumental && f.lyrics == ""
    ensures Submitted(f) == None
  {
    VoiceRules(f);
  }

  /** A submitted request has a trimmed, non-empty style; when instrumental, no
      gender and no lyrics; otherwise the gender and 1 to 200 characters of
      trimmed lyrics. The instrumental flag and the duration pass through. */
  lemma SubmittedRequestIsWellFormed(f: FormData)
    requires Submitted(f).Some?
    ensures var req := Submitted(f).value;
      req.isInstrumental == f.isInstrumental && req.duration == f.duration
      && req.style == Trim(f.style) && req.style != ""
      && !IsJsWhitespace(req.style[0]) && !IsJsWhitespace(req.style[|req.style| - 1])
      && (req.isInstrumental ==> req.vocalGender == None && req.lyrics == None)
      && (!req.isInstrumental ==>
            req.vocalGender == f.vocalGender && Truthy(req.vocalGender)
            && req.lyrics == Some(Trim(f.lyrics))
            && 1 <= |req.lyrics.value| <= MaxLyricsLength)
  {
    assert Submitted(f).value == Request(f) && Errors(f) == map[];
    ValidIff(f);
    if !f.isInstrumental {
      TrimmedLyricsFit(f.lyrics);
    }
  }

  /** Lyrics that are not all whitespace and fit the limit keep 1 to 200 characters once trimmed. */
  lemma TrimmedLyricsFit(lyrics: string)
    requires !AllWhitespace(lyrics) && |lyrics| <= MaxLyricsLength
    ensures 1 <= |Trim(lyrics)| <= MaxLyricsLength
  {
    BlankIffAllWhitespace(lyrics);
  }

  /** The error map of `validateForm`, built entry by entry from the tests' outcome. */
  method BuildErrors(c: Checks) returns (newErrors: map<Field, string>)
    ensures newErrors == ErrorMap(c)
  {
    newErrors := map[];
    if c.styleBlank {
      newErrors := newErrors[Style := StyleRequiredMessage];
    }
    if !c.instrumental {
      if !c.hasGender {
        newErrors := newErrors[VocalGender := GenderRequiredMessage];
      }
      if c.lyricsBlank {
        newErrors := newErrors[Lyrics := LyricsRequiredMessage];
      } else if c.lyricsTooLong {
        newErrors := newErrors[Lyrics := LyricsTooLongMessage];
      }
    }
    forall k: Field
      ensures k in newErrors <==> FieldError(c, k).Some?
      ensures k in newErrors ==> newErrors[k] == FieldError(c, k).value
    {
      match k {
        case Style =>
        case VocalGender =>
        case Lyrics =>
        case IsInstrumental =>
        case DurationSeconds =>
      }
    }
    ErrorsFromEntries(c, newErrors);
  }

  // ---------------------------------------------------------------------
  // The component

  class Form {
    var formData: FormData
    var errors: map<Field, string>

    constructor ()
      ensures formData == InitialForm && errors == map[]
    {
      formData := InitialForm;
      errors := map[];
    }

    method HandleChange(e: ChangeEvent)
      modifies this
      ensures formData == ChangedForm(old(formData), e)
      ensures errors == ClearedErrors(old(errors), e.name)
    {
      if e.name == IsInstrumental {
        var gender := if e.checked then None else Some(OrElse(formData.vocalGender, DefaultGender));
        var lyrics := if e.checked then "" else formData.lyrics;
        formData := formData.(isInstrumental := e.checked, vocalGender := gender, lyrics := lyrics);
      } else {
        match e.name {
          case VocalGender => formData := formData.(vocalGender := Some(e.value));
          case Lyrics => formData := formData.(lyrics := e.value);
          case Style => formData := formData.(style := e.value);
          case DurationSeconds => formData := formData.(duration := SliderText(e.value));
        }
      }
      if e.name in errors && errors[e.name] != "" {
        errors := errors[e.name := ""];
      }
    }

    /** Runs the tests on the form's data, stores the error map and reports whether it is empty. */
    method ValidateForm() returns (valid: bool)
      modifies this
      ensures formData == old(formData)
      ensures errors == Errors(formData)
      ensures valid <==> errors == map[]
    {
      var newErrors := BuildErrors(ChecksOf(formData));
      errors := newErrors;
      valid := |newErrors| == 0;
    }

    /** Validates, then hands the request to onSubmit when the form is valid. */
    method HandleSubmit() returns (submitted: Option<MusicRequest>)
      modifies this
      ensures formData == old(formData)
      ensures errors == Errors(formData)
      ensures submitted == Submitted(formData)
    {
      var valid := ValidateForm();
      if !valid {
        return None;
      }
      submitted := Some(Request(formData));
    }
  }
}
