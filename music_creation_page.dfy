/** The music creation page: it sends the form's request to the generate
    endpoint, polls the job it gets back, and takes the result or the error
    from the poller, refreshing the credits display after each completion. */
module MusicCreationPage {
  import opened JsBasics
  import StatusPolling

  const UnexpectedResponseMessage := "Unexpected response format"
  const GenerateFailedMessage := "An error occurred while generating music"

  /** The body of the generate reply: a task id and its status (asynchronous
      flow), or a composition plan (direct flow). */
  datatype GenerateResponse = GenerateResponse(taskId: Option<string>, status: Option<string>, hasCompositionPlan: bool)

  datatype MusicPage = MusicPage(
    taskId: Option<string>,
    audioUrl: Option<ObjectUrl>,
    isLoading: bool,
    error: Option<string>,
    creditsRefresh: nat)

  const InitialPage := MusicPage(None, None, false, None, 0)

  /** The state set before the request goes out. */
  function SubmitStarted(p: MusicPage): MusicPage {
    p.(isLoading := true, error := None, taskId := None, audioUrl := None)
  }

  /** What the generate call's outcome does. A reply without task id and
      without composition plan is thrown as an error. */
  function GenerateSettled(p: MusicPage, reply: Reply<GenerateResponse>): (q: MusicPage)
    ensures q.audioUrl == p.audioUrl && q.creditsRefresh == p.creditsRefresh
    ensures reply.Threw? || (!Truthy(reply.value.taskId) && !reply.value.hasCompositionPlan) ==>
      q.error.Some? && !q.isLoading && q.taskId == p.taskId
    ensures q.isLoading ==> q.taskId.Some? && q.error == p.error
  {
    var thrown := match reply
      case Returned(r) =>
        if Truthy(r.taskId) || r.hasCompositionPlan then None
        else Some(JsError(None, Some(UnexpectedResponseMessage)))
      case Threw(e) => Some(e);
    match thrown
    case Some(e) => p.(error := Some(ErrorText(e, GenerateFailedMessage)), isLoading := false)
    case None =>
      var r := reply.value;
      if Truthy(r.taskId) then
        p.(taskId := r.taskId, isLoading := if r.status == Some("completed") then false else p.isLoading)
      else
        p.(isLoading := false)
  }

  /** `handleSubmit`, run to completion with the generate call's outcome. */
  function AfterSubmit(p: MusicPage, reply: Reply<GenerateResponse>): (q: MusicPage)
    ensures q.audioUrl == None && q.creditsRefresh == p.creditsRefresh
    ensures Consistent(q)
  {
    GenerateSettled(SubmitStarted(p), reply)
  }

  function AfterGenerationComplete(p: MusicPage, url: ObjectUrl): (q: MusicPage)
    ensures q.creditsRefresh == p.creditsRefresh + 1 && q.error == p.error
    ensures q.audioUrl.Some? && Consistent(q)
  {
    p.(audioUrl := Some(url), isLoading := false, taskId := None, creditsRefresh := p.creditsRefresh + 1)
  }

  function AfterGenerationError(p: MusicPage, message: string): (q: MusicPage)
    ensures q.error.Some? && q.audioUrl == p.audioUrl && q.creditsRefresh == p.creditsRefresh
    ensures Consistent(q)
  {
    p.(error := Some(message), isLoading := false, taskId := None)
  }

  // ---------------------------------------------------------------------
  // Properties of the handlers

  /** Before the request goes out, loading is on and error, task id and audio are cleared. */
  lemma SubmitStartsClean(p: MusicPage)
    ensures var q := SubmitStarted(p);
      q.isLoading && q.error == None && q.taskId == None && q.audioUrl == None
      && q.creditsRefresh == p.creditsRefresh
  {
  }

  /** A task id is polled, and loading goes on unless the reply says the task
      is already completed; a composition plan alone ends loading with no task
      and no error; anything else shows detail, then message, then the
      default, and ends loading. */
  lemma GenerateOutcome(p: MusicPage, reply: Reply<GenerateResponse>)
    ensures var q := AfterSubmit(p, reply);
      q.audioUrl == None && q.creditsRefresh == p.creditsRefresh
      && (reply.Returned? && Truthy(reply.value.taskId) ==>
            q.taskId == reply.value.taskId && q.error == None
            && (q.isLoading <==> reply.value.status != Some("completed")))
      && (reply.Returned? && !Truthy(reply.value.taskId) && reply.value.hasCompositionPlan ==>
            q.taskId == None && q.error == None && !q.isLoading)
      && (reply.Returned? && !Truthy(reply.value.taskId) && !reply.value.hasCompositionPlan ==>
            q.taskId == None && q.error == Some("Unexpected response format") && !q.isLoading)
      && (reply.Threw? ==>
            q.taskId == None && !q.isLoading
            && q.error == Some(ErrorText(reply.error, "An error occurred while generating music")))
  {
  }

  /** Completion shows the audio, ends loading, drops the task and bumps the
      credits refresh by exactly one; an error shows its message, ends loading
      and drops the task, leaving the audio and the credits refresh alone. */
  lemma PollerCallbacks(p: MusicPage, url: ObjectUrl, message: string)
    ensures var q := AfterGenerationComplete(p, url);
      q.audioUrl == Some(url) && !q.isLoading && q.taskId == None
      && q.creditsRefresh == p.creditsRefresh + 1 && q.error == p.error
    ensures var q := AfterGenerationError(p, message);
      q.error == Some(message) && !q.isLoading && q.taskId == None
      && q.creditsRefresh == p.creditsRefresh && q.audioUrl == p.audioUrl
  {
  }

  // ---------------------------------------------------------------------
  // Any sequence of events

  datatype MusicEvent =
    | Submit(reply: Reply<GenerateResponse>)
    | GenerationComplete(url: ObjectUrl)
    | GenerationError(message: string)

  function Step(p: MusicPage, ev: MusicEvent): MusicPage {
    match ev
    case Submit(reply) => AfterSubmit(p, reply)
    case GenerationComplete(url) => AfterGenerationComplete(p, url)
    case GenerationError(message) => AfterGenerationError(p, message)
  }

  function Run(p: MusicPage, events: seq<MusicEvent>): MusicPage
    decreases |events|
  {
    if events == [] then p else Run(Step(p, events[0]), events[1..])
  }

  function Completions(events: seq<MusicEvent>): nat
    decreases |events|
  {
    if events == [] then 0
    else (if events[0].GenerationComplete? then 1 else 0) + Completions(events[1..])
  }

  /** The credits refresh counter counts completions and nothing else. */
  lemma {:induction false} CreditsCountCompletions(p: MusicPage, events: seq<MusicEvent>)
    ensures Run(p, events).creditsRefresh == p.creditsRefresh + Completions(events)
    decreases |events|
  {
    if events != [] {
      CreditsCountCompletions(Step(p, events[0]), events[1..]);
    }
  }

  /** A polled task never sits beside shown audio, an error is never shown
      while loading, and audio is only shown once loading is over. */
  predicate Consistent(p: MusicPage) {
    (p.taskId.Some? ==> p.audioUrl.None?)
    && (p.error.Some? ==> !p.isLoading)
    && (p.audioUrl.Some? ==> !p.isLoading)
  }

  lemma {:induction false} RunStaysConsistent(p: MusicPage, events: seq<MusicEvent>)
    requires Consistent(p)
    ensures Consistent(Run(p, events))
    decreases |events|
  {
    if events != [] {
      assert Consistent(Step(p, events[0]));
      RunStaysConsistent(Step(p, events[0]), events[1..]);
    }
  }

  lemma ReachableIsConsistent(events: seq<MusicEvent>)
    ensures Consistent(Run(InitialPage, events))
  {
    RunStaysConsistent(InitialPage, events);
  }

  // ---------------------------------------------------------------------
  // The page with its poller

  /** The page events a poller's callbacks deliver. */
  function Delivered(fired: seq<StatusPolling.Callback>): seq<MusicEvent>
    decreases |fired|
  {
    if fired == [] then []
    else
      var ev := match fired[0]
        case Completed(url) => GenerationComplete(url)
        case Errored(message) => GenerationError(message);
      [ev] + Delivered(fired[1..])
  }

  lemma {:induction false} DeliveredCompletions(fired: seq<StatusPolling.Callback>)
    ensures |Delivered(fired)| == |fired|
    ensures Completions(Delivered(fired)) <= |fired|
    decreases |fired|
  {
    if fired != [] {
      DeliveredCompletions(fired[1..]);
    }
  }

  /** Whatever the server answers, one polled task raises the credits refresh
      counter by at most one. */
  lemma OneRefreshPerTask(p: MusicPage, taskId: string, inputs: seq<StatusPolling.TickInput>)
    ensures var t := StatusPolling.Run(taskId, StatusPolling.DefaultType, StatusPolling.Start(taskId), inputs);
      Run(p, Delivered(t.fired)).creditsRefresh <= p.creditsRefresh + 1
  {
    var t := StatusPolling.Run(taskId, StatusPolling.DefaultType, StatusPolling.Start(taskId), inputs);
    StatusPolling.RunIsBounded(taskId, StatusPolling.DefaultType, inputs);
    DeliveredCompletions(t.fired);
    CreditsCountCompletions(p, Delivered(t.fired));
  }

  // ---------------------------------------------------------------------
  // The component

  class Page {
    var taskId: Option<string>
    var audioUrl: Option<ObjectUrl>
    var isLoading: bool
    var error: Option<string>
    var creditsRefresh: nat

    function State(): MusicPage
      reads this
    {
      MusicPage(taskId, audioUrl, isLoading, error, creditsRefresh)
    }

    constructor ()
      ensures State() == InitialPage
    {
      taskId, audioUrl, isLoading, error, creditsRefresh := None, None, false, None, 0;
    }

    /** The submit handler, run to completion with the generate call's outcome. */
    method HandleSubmit(reply: Reply<GenerateResponse>)
      modifies this
      ensures State() == AfterSubmit(old(State()), reply)
    {
      isLoading := true;
      error := None;
      taskId := None;
      audioUrl := None;
      var thrown: Option<JsError> := None;
      match reply {
        case Returned(response) =>
          if Truthy(response.taskId) {
            taskId := response.taskId;
            if response.status == Some("completed") {
              isLoading := false;
            }
          } else if response.hasCompositionPlan {
            isLoading := false;
          } else {
            thrown := Some(JsError(None, Some(UnexpectedResponseMessage)));
          }
        case Threw(e) =>
          thrown := Some(e);
      }
      if thrown.Some? {
        error := Some(ErrorText(thrown.value, GenerateFailedMessage));
        isLoading := false;
      }
    }

    method HandleGenerationComplete(url: ObjectUrl)
      modifies this
      ensures State() == AfterGenerationComplete(old(State()), url)
    {
      audioUrl := Some(url);
      isLoading := false;
      taskId := None;
      creditsRefresh := creditsRefresh + 1;
    }

    method HandleGenerationError(message: string)
      modifies this
      ensures State() == AfterGenerationError(old(State()), message)
    {
      error := Some(message);
      isLoading := false;
      taskId := None;
    }
  }
}
