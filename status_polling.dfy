/** The job-status poller: every tick of its interval timer asks the status
    endpoint about one job, until the job completes (then the audio is
    downloaded and handed to onComplete), fails, errs, or the tick budget of
    150 runs out (then onError is told why). */
module StatusPolling {
  import opened JsBasics

  const MaxPolls: nat := 150
  const VoiceConversionType := "voice-conversion"
  const DefaultType := "music"
  const TimeoutMessage := "Polling timeout - music generation is taking longer than expected"
  const DownloadFailedMessage := "Failed to download audio"
  const StatusFailedMessage := "Failed to check status"
  const VoiceConversionFailedMessage := "Voice conversion failed"
  const MusicGenerationFailedMessage := "Music generation failed"

  /** The four API functions the poller can call. */
  datatype Endpoint = CheckStatus | DownloadMusic | GetVoiceConversionStatus | DownloadVoiceConversion

  /** A call the poller made, in the order it made them. */
  datatype ApiCall = StatusCall(endpoint: Endpoint, jobId: string) | DownloadCall(endpoint: Endpoint, jobId: string)

  /** A call the poller made to the page that owns it. */
  datatype Callback = Completed(url: ObjectUrl) | Errored(message: string)

  /** The body of a status reply. */
  datatype StatusResponse = StatusResponse(status: string, progress: Option<real>, message: Option<string>)

  /** What the outside world answers during one tick: the status call's settled
      outcome and, if the tick gets as far, the download's. */
  datatype TickInput = TickInput(status: Reply<StatusResponse>, download: Reply<AudioBlob>)

  function StatusEndpoint(kind: string): (e: Endpoint)
    ensures e == GetVoiceConversionStatus <==> kind == VoiceConversionType
    ensures e == CheckStatus <==> kind != VoiceConversionType
  {
    if kind == VoiceConversionType then GetVoiceConversionStatus else CheckStatus
  }

  function DownloadEndpoint(kind: string): (e: Endpoint)
    ensures e == DownloadVoiceConversion <==> kind == VoiceConversionType
    ensures e == DownloadMusic <==> kind != VoiceConversionType
  {
    if kind == VoiceConversionType then DownloadVoiceConversion else DownloadMusic
  }

  /** The message reported for a failed job whose reply carries none. */
  function FailureDefault(kind: string): string {
    if kind == VoiceConversionType then VoiceConversionFailedMessage else MusicGenerationFailedMessage
  }

  /** Everything one poller run has: the tick counter, whether its interval
      is cleared, the displayed status, progress and message, and the log of
      API calls made and callbacks fired. */
  datatype PollState = PollState(
    pollCount: nat,
    stopped: bool,
    status: string,
    progress: Option<real>,
    message: string,
    calls: seq<ApiCall>,
    fired: seq<Callback>)

  /** The state when the component mounts; no interval is set up for an empty job id. */
  function Start(taskId: string): (s: PollState)
    ensures s.status == "pending" && s.progress == None && s.message == ""
    ensures s.pollCount == 0 && s.calls == [] && s.fired == []
    ensures s.stopped <==> taskId == ""
  {
    PollState(0, taskId == "", "pending", None, "", [], [])
  }

  /** One tick of the interval callback. A cleared interval delivers no
      tick, so a stopped poller is left as it is. */
  function AfterTick(taskId: string, kind: string, s: PollState, input: TickInput): (t: PollState)
    ensures s.stopped ==> t == s
    ensures !s.stopped ==> t.pollCount == s.pollCount + 1
    ensures s.calls <= t.calls && s.fired <= t.fired
    ensures |t.fired| <= |s.fired| + 1
    ensures t.fired != s.fired <==> !s.stopped && t.stopped
  {
    if s.stopped then s
    else
      var n := s.pollCount + 1;
      if n > MaxPolls then
        s.(pollCount := n, stopped := true, fired := s.fired + [Errored(TimeoutMessage)])
      else
        var asked := s.(pollCount := n, calls := s.calls + [StatusCall(StatusEndpoint(kind), taskId)]);
        match input.status
        case Threw(e) =>
          asked.(stopped := true, fired := s.fired + [Errored(ErrorText(e, StatusFailedMessage))])
        case Returned(r) =>
          var shown := asked.(status := r.status, progress := r.progress, message := OrElse(r.message, ""));
          if r.status == "completed" then
            var fetched := shown.(stopped := true, calls := shown.calls + [DownloadCall(DownloadEndpoint(kind), taskId)]);
            match input.download
            case Returned(blob) => fetched.(fired := s.fired + [Completed(ObjectUrlFor(blob))])
            case Threw(e) => fetched.(fired := s.fired + [Errored(OrElse(e.message, DownloadFailedMessage))])
          else if r.status == "failed" then
            shown.(stopped := true, fired := s.fired + [Errored(OrElse(r.message, FailureDefault(kind)))])
          else
            shown
  }

  /** The ticks of a run, in order. */
  function Run(taskId: string, kind: string, s: PollState, inputs: seq<TickInput>): (t: PollState)
    ensures s.calls <= t.calls && s.fired <= t.fired
    ensures s.stopped ==> t.stopped
    decreases |inputs|
  {
    if inputs == [] then s
    else Run(taskId, kind, AfterTick(taskId, kind, s, inputs[0]), inputs[1..])
  }

  /** `getStatusDisplay`: the status line shown above the progress bar. */
  function StatusDisplay(kind: string, status: string): (line: string)
    ensures |line| > 0
    ensures line[0] == 'S' <==> status !in {"pending", "processing", "completed", "failed"}
  {
    var voice := kind == VoiceConversionType;
    match status
    case "pending" =>
      if voice then "\U{23F3} Starting voice conversion..." else "\U{23F3} Starting music generation..."
    case "processing" =>
      if voice then "\U{1F3A4} Converting voice..." else "\U{1F3B5} Generating your music..."
    case "completed" =>
      if voice then "\U{2705} Voice conversion completed!" else "\U{2705} Music generation completed!"
    case "failed" =>
      if voice then "\U{274C} Voice conversion failed" else "\U{274C} Generation failed"
    case _ => "Status: " + status
  }

  // ---------------------------------------------------------------------
  // Counting what a run did

  function StatusCalls(calls: seq<ApiCall>): nat {
    if calls == [] then 0
    else StatusCalls(calls[..|calls| - 1]) + (if calls[|calls| - 1].StatusCall? then 1 else 0)
  }

  function DownloadCalls(calls: seq<ApiCall>): nat {
    if calls == [] then 0
    else DownloadCalls(calls[..|calls| - 1]) + (if calls[|calls| - 1].DownloadCall? then 1 else 0)
  }

  lemma CountAppend(calls: seq<ApiCall>, c: ApiCall)
    ensures StatusCalls(calls + [c]) == StatusCalls(calls) + (if c.StatusCall? then 1 else 0)
    ensures DownloadCalls(calls + [c]) == DownloadCalls(calls) + (if c.DownloadCall? then 1 else 0)
  {
    assert (calls + [c])[..|calls|] == calls;
  }

  /** What holds of every state a run of `taskId` of kind `kind` can reach. */
  ghost predicate Inv(taskId: string, kind: string, s: PollState) {
    CountsInv(s) && CallsInv(taskId, kind, s.calls)
  }

  /** The budget: calls and callbacks made so far, against the tick counter. */
  ghost predicate CountsInv(s: PollState) {
    && StatusCalls(s.calls) <= s.pollCount
    && StatusCalls(s.calls) <= MaxPolls
    && (!s.stopped ==> s.pollCount <= MaxPolls)
    && DownloadCalls(s.calls) <= 1
    && (DownloadCalls(s.calls) == 1 ==> s.stopped)
    && |s.fired| <= 1
    && (|s.fired| == 1 ==> s.stopped)
  }

  /** Every call is about the run's job and goes to an endpoint of the run's kind. */
  ghost predicate CallsInv(taskId: string, kind: string, calls: seq<ApiCall>) {
    forall c :: c in calls ==>
      c.jobId == taskId
      && (c.StatusCall? ==> c.endpoint == StatusEndpoint(kind))
      && (c.DownloadCall? ==> c.endpoint == DownloadEndpoint(kind))
  }

  // ---------------------------------------------------------------------
  // One tick

  /** Once stopped, a tick makes no call and fires no callback. */
  lemma StoppedTickIsInert(taskId: string, kind: string, s: PollState, input: TickInput)
    requires s.stopped
    ensures AfterTick(taskId, kind, s, input) == s
  {
  }

  /** The tick after the 150th: the counter still goes up by one, no status
      call is made, polling stops and onError gets the timeout message. */
  lemma TimeoutTick(taskId: string, kind: string, s: PollState, input: TickInput)
    requires !s.stopped && s.pollCount >= MaxPolls
    ensures var t := AfterTick(taskId, kind, s, input);
      t.pollCount == s.pollCount + 1 && t.stopped && t.calls == s.calls
      && t.fired == s.fired + [Errored(TimeoutMessage)]
      && t.status == s.status && t.message == s.message
  {
  }

  /** A tick within budget makes exactly one status call, to the endpoint of its kind. */
  lemma InBudgetTickAsks(taskId: string, kind: string, s: PollState, input: TickInput)
    requires !s.stopped && s.pollCount < MaxPolls
    ensures var t := AfterTick(taskId, kind, s, input);
      t.pollCount == s.pollCount + 1
      && |t.calls| >= |s.calls| + 1
      && t.calls[..|s.calls| + 1] == s.calls + [StatusCall(StatusEndpoint(kind), taskId)]
    ensures StatusCalls(AfterTick(taskId, kind, s, input).calls) == StatusCalls(s.calls) + 1
  {
    var c0 := StatusCall(StatusEndpoint(kind), taskId);
    var c1 := DownloadCall(DownloadEndpoint(kind), taskId);
    TickCalls(taskId, kind, s, input);
    CountAppend(s.calls, c0);
    CountAppend(s.calls + [c0], c1);
  }

  /** A `completed` reply: polling stops, exactly one download is made, and the
      run ends in onComplete with the audio's URL or onError with the download's
      message (or the default). */
  lemma CompletedTick(taskId: string, kind: string, s: PollState, r: StatusResponse, d: Reply<AudioBlob>)
    requires !s.stopped && s.pollCount < MaxPolls && r.status == "completed"
    ensures var t := AfterTick(taskId, kind, s, TickInput(Returned(r), d));
      t.stopped
      && t.calls == s.calls + [StatusCall(StatusEndpoint(kind), taskId), DownloadCall(DownloadEndpoint(kind), taskId)]
      && t.fired == s.fired + [match d
                               case Returned(blob) => Completed(ObjectUrlFor(blob))
                               case Threw(e) => Errored(OrElse(e.message, DownloadFailedMessage))]
      && t.status == "completed" && t.progress == r.progress && t.message == OrElse(r.message, "")
  {
  }

  /** A `failed` reply: polling stops without a download and onError gets the
      reply's message or the default of the kind. */
  lemma FailedTick(taskId: string, kind: string, s: PollState, r: StatusResponse, d: Reply<AudioBlob>)
    requires !s.stopped && s.pollCount < MaxPolls && r.status == "failed"
    ensures var t := AfterTick(taskId, kind, s, TickInput(Returned(r), d));
      t.stopped
      && t.calls == s.calls + [StatusCall(StatusEndpoint(kind), taskId)]
      && t.fired == s.fired + [Errored(OrElse(r.message, FailureDefault(kind)))]
      && (r.message == None ==> t.fired[|s.fired|].message
                                 == if kind == VoiceConversionType then "Voice conversion failed"
                                    else "Music generation failed")
  {
  }

  /** Any other reply: the display follows the reply, nothing fires and polling goes on. */
  lemma PendingTick(taskId: string, kind: string, s: PollState, r: StatusResponse, d: Reply<AudioBlob>)
    requires !s.stopped && s.pollCount < MaxPolls && r.status != "completed" && r.status != "failed"
    ensures var t := AfterTick(taskId, kind, s, TickInput(Returned(r), d));
      !t.stopped && t.fired == s.fired
      && t.calls == s.calls + [StatusCall(StatusEndpoint(kind), taskId)]
      && t.status == r.status && t.progress == r.progress
      && t.message == (if r.message.Some? then r.message.value else "")
  {
  }

  /** A status call that throws: polling stops and onError gets the error's
      detail, else its message, else the default. */
  lemma ThrownStatusTick(taskId: string, kind: string, s: PollState, e: JsError, d: Reply<AudioBlob>)
    requires !s.stopped && s.pollCount < MaxPolls
    ensures var t := AfterTick(taskId, kind, s, TickInput(Threw(e), d));
      t.stopped
      && t.calls == s.calls + [StatusCall(StatusEndpoint(kind), taskId)]
      && t.fired == s.fired + [Errored(ErrorText(e, StatusFailedMessage))]
      && t.status == s.status && t.message == s.message
  {
  }

  /** What one tick adds to the log of calls. */
  lemma TickCalls(taskId: string, kind: string, s: PollState, input: TickInput)
    ensures var t := AfterTick(taskId, kind, s, input);
      var c0 := StatusCall(StatusEndpoint(kind), taskId);
      var c1 := DownloadCall(DownloadEndpoint(kind), taskId);
      || (t.calls == s.calls && (t.stopped || t.pollCount == s.pollCount))
      || (t.calls == s.calls + [c0] && t.pollCount == s.pollCount + 1 <= MaxPolls)
      || (t.calls == s.calls + [c0] + [c1] && t.pollCount == s.pollCount + 1 <= MaxPolls && t.stopped)
  {
  }

  /** What one tick adds to the callbacks fired: at most one, and only when it stops. */
  lemma TickFired(taskId: string, kind: string, s: PollState, input: TickInput)
    requires !s.stopped
    ensures var t := AfterTick(taskId, kind, s, input);
      t.fired == s.fired || (t.stopped && |t.fired| == |s.fired| + 1)
    ensures var t := AfterTick(taskId, kind, s, input);
      t.stopped ==> |t.fired| == |s.fired| + 1
  {
  }

  /** A tick of a running poller keeps the budget. */
  lemma TickKeepsCounts(taskId: string, kind: string, s: PollState, input: TickInput)
    requires CountsInv(s) && !s.stopped
    ensures CountsInv(AfterTick(taskId, kind, s, input))
  {
    var c0 := StatusCall(StatusEndpoint(kind), taskId);
    var c1 := DownloadCall(DownloadEndpoint(kind), taskId);
    TickCalls(taskId, kind, s, input);
    TickFired(taskId, kind, s, input);
    CountAppend(s.calls, c0);
    CountAppend(s.calls + [c0], c1);
  }

  /** A tick only logs calls for its own job to the endpoints of its kind. */
  lemma TickKeepsCalls(taskId: string, kind: string, s: PollState, input: TickInput)
    requires CallsInv(taskId, kind, s.calls)
    ensures CallsInv(taskId, kind, AfterTick(taskId, kind, s, input).calls)
  {
    TickCalls(taskId, kind, s, input);
  }

  /** Every tick keeps the run invariant. */
  lemma TickKeepsInv(taskId: string, kind: string, s: PollState, input: TickInput)
    requires Inv(taskId, kind, s)
    ensures Inv(taskId, kind, AfterTick(taskId, kind, s, input))
  {
    if !s.stopped {
      TickKeepsCounts(taskId, kind, s, input);
    }
    TickKeepsCalls(taskId, kind, s, input);
  }

  // ---------------------------------------------------------------------
  // Whole runs

  lemma {:induction false} RunKeepsInv(taskId: string, kind: string, s: PollState, inputs: seq<TickInput>)
    requires Inv(taskId, kind, s)
    ensures Inv(taskId, kind, Run(taskId, kind, s, inputs))
    decreases |inputs|
  {
    if inputs != [] {
      TickKeepsInv(taskId, kind, s, inputs[0]);
      RunKeepsInv(taskId, kind, AfterTick(taskId, kind, s, inputs[0]), inputs[1..]);
    }
  }

  /** Whatever the server answers, one poller run makes at most 150 status
      calls and at most one download, uses only the endpoints of its kind for
      its own job, and fires at most one of onComplete and onError, after which
      it is stopped. */
  lemma RunIsBounded(taskId: string, kind: string, inputs: seq<TickInput>)
    ensures var t := Run(taskId, kind, Start(taskId), inputs);
      StatusCalls(t.calls) <= MaxPolls
      && DownloadCalls(t.calls) <= 1
      && |t.fired| <= 1 && (|t.fired| == 1 ==> t.stopped)
      && (forall c :: c in t.calls ==> c.jobId == taskId)
      && (forall c :: c in t.calls && c.StatusCall? ==>
            (c.endpoint == GetVoiceConversionStatus <==> kind == VoiceConversionType))
      && (forall c :: c in t.calls && c.DownloadCall? ==>
            (c.endpoint == DownloadVoiceConversion <==> kind == VoiceConversionType))
  {
    RunKeepsInv(taskId, kind, Start(taskId), inputs);
  }

  /** After a stop, no later tick changes anything. */
  lemma {:induction false} StoppedRunIsInert(taskId: string, kind: string, s: PollState, inputs: seq<TickInput>)
    requires s.stopped
    ensures Run(taskId, kind, s, inputs) == s
    decreases |inputs|
  {
    if inputs != [] {
      StoppedRunIsInert(taskId, kind, s, inputs[1..]);
    }
  }

  /** Ticks either stop the run or each add one to the counter. */
  lemma {:induction false} RunCountsTicks(taskId: string, kind: string, s: PollState, inputs: seq<TickInput>)
    ensures var t := Run(taskId, kind, s, inputs);
      t.stopped || t.pollCount == s.pollCount + |inputs|
    decreases |inputs|
  {
    if inputs != [] {
      var s' := AfterTick(taskId, kind, s, inputs[0]);
      RunCountsTicks(taskId, kind, s', inputs[1..]);
      if s'.stopped {
        StoppedRunIsInert(taskId, kind, s', inputs[1..]);
      }
    }
  }

  /** More than 150 ticks always leave the poller stopped. */
  lemma RunStopsAfterMaxPolls(taskId: string, kind: string, inputs: seq<TickInput>)
    requires |inputs| > MaxPolls
    ensures Run(taskId, kind, Start(taskId), inputs).stopped
  {
    RunCountsTicks(taskId, kind, Start(taskId), inputs);
    RunKeepsInv(taskId, kind, Start(taskId), inputs);
  }

  // ---------------------------------------------------------------------
  // The status line

  /** The four known statuses get their own text, which differs between the
      two kinds; any other status `s` is shown as "Status: s". */
  lemma StatusDisplayCases(status: string)
    ensures status !in {"pending", "processing", "completed", "failed"} ==>
      StatusDisplay(DefaultType, status) == "Status: " + status
      && StatusDisplay(VoiceConversionType, status) == "Status: " + status
    ensures status in {"pending", "processing", "completed", "failed"} ==>
      StatusDisplay(DefaultType, status) != StatusDisplay(VoiceConversionType, status)
  {
  }

  /** Different statuses never show the same line. */
  lemma StatusDisplayInjective(kind: string, a: string, b: string)
    requires StatusDisplay(kind, a) == StatusDisplay(kind, b)
    ensures a == b
  {
    var known := {"pending", "processing", "completed", "failed"};
    if a !in known && b !in known {
      assert ("Status: " + a)[8..] == a;
      assert ("Status: " + b)[8..] == b;
    }
  }

  // ---------------------------------------------------------------------
  // The component

  /** One mounted poller: its props, its interval's tick counter, and the state it renders. */
  class Poller {
    const taskId: string
    const kind: string
    var pollCount: nat
    var stopped: bool
    var status: string
    var progress: Option<real>
    var message: string
    var calls: seq<ApiCall>
    var fired: seq<Callback>

    function State(): PollState
      reads this
    {
      PollState(pollCount, stopped, status, progress, message, calls, fired)
    }

    /** Mounting with the default `type = 'music'` is `new Poller(taskId, DefaultType)`. */
    constructor (taskId: string, kind: string)
      ensures this.taskId == taskId && this.kind == kind
      ensures State() == Start(taskId)
    {
      this.taskId := taskId;
      this.kind := kind;
      pollCount := 0;
      stopped := taskId == "";
      status := "pending";
      progress := None;
      message := "";
      calls := [];
      fired := [];
    }

    /** The interval callback, run to completion with the replies in `input`. */
    method Tick(input: TickInput)
      modifies this
      ensures State() == AfterTick(taskId, kind, old(State()), input)
    {
      if stopped {
        return;
      }
      pollCount := pollCount + 1;
      if pollCount > MaxPolls {
        stopped := true;
        fired := fired + [Errored(TimeoutMessage)];
        return;
      }
      var statusFn := StatusEndpoint(kind);
      calls := calls + [StatusCall(statusFn, taskId)];
      match input.status {
        case Threw(e) =>
          stopped := true;
          fired := fired + [Errored(ErrorText(e, StatusFailedMessage))];
        case Returned(response) =>
          status := response.status;
          progress := response.progress;
          message := OrElse(response.message, "");
          if response.status == "completed" {
            stopped := true;
            var downloadFn := DownloadEndpoint(kind);
            calls := calls + [DownloadCall(downloadFn, taskId)];
            match input.download {
              case Returned(blob) => fired := fired + [Completed(ObjectUrlFor(blob))];
              case Threw(e) => fired := fired + [Errored(OrElse(e.message, DownloadFailedMessage))];
            }
          } else if response.status == "failed" {
            stopped := true;
            fired := fired + [Errored(OrElse(response.message, FailureDefault(kind)))];
          }
      }
    }

    /** The effect's cleanup on unmount clears the interval. */
    method Unmount()
      modifies this
      ensures State() == old(State()).(stopped := true)
    {
      stopped := true;
    }
  }
}
