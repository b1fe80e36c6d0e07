/**
 * The log side of a run: the `awslogs` options of the selected container
 * (src/main.rs:58-72), the get-log-events request (`fetch_logs`,
 * src/main.rs:130-144) and the loop that prints the messages
 * (src/main.rs:117-122).
 */
module LogOutput {
  import opened Wrappers
  import opened EcsTypes

  /** Where a container's logs go. */
  datatype LogSettings = LogSettings(group: string, region: string, streamPrefix: string)

  const GroupOption := "awslogs-group"
  const RegionOption := "awslogs-region"
  const PrefixOption := "awslogs-stream-prefix"

  const NoGroupMessage := "No log group configured"
  const NoRegionMessage := "No log region configured"
  const NoPrefixMessage := "No log stream prefix configured"

  /**
   * `log_configuration.unwrap().options.unwrap()`, then the group, region and
   * prefix options, each `expect`ed in that order.
   */
  function LogSettingsOf(container: ContainerDefinition): (r: Result<LogSettings, PanicReason>)
    ensures r.Ok? <==>
      && container.logConfiguration.Some?
      && container.logConfiguration.value.options.Some?
      && var options := container.logConfiguration.value.options.value;
      GroupOption in options && RegionOption in options && PrefixOption in options
    ensures r.Ok? ==>
      var options := container.logConfiguration.value.options.value;
      r.value == LogSettings(options[GroupOption], options[RegionOption], options[PrefixOption])
    ensures container.logConfiguration.None? ==> r == Err(UnwrapNone("log_configuration"))
    ensures container.logConfiguration.Some? && container.logConfiguration.value.options.None? ==>
      r == Err(UnwrapNone("options"))
    ensures container.logConfiguration.Some? && container.logConfiguration.value.options.Some? ==>
      var options := container.logConfiguration.value.options.value;
      && (GroupOption !in options ==> r == Err(Expect(NoGroupMessage)))
      && (GroupOption in options && RegionOption !in options ==> r == Err(Expect(NoRegionMessage)))
      && (GroupOption in options && RegionOption in options && PrefixOption !in options ==> r == Err(Expect(NoPrefixMessage)))
  {
    match container.logConfiguration
    case None => Err(UnwrapNone("log_configuration"))
    case Some(configuration) =>
      match configuration.options
      case None => Err(UnwrapNone("options"))
      case Some(options) =>
        if GroupOption !in options then Err(Expect(NoGroupMessage))
        else if RegionOption !in options then Err(Expect(NoRegionMessage))
        else if PrefixOption !in options then Err(Expect(NoPrefixMessage))
        else Ok(LogSettings(options[GroupOption], options[RegionOption], options[PrefixOption]))
  }

  /** The get-log-events request: group and stream only, so the first page of events. */
  function LogEventsQuery(settings: LogSettings, streamName: string): (request: GetLogEventsRequest)
    ensures request.logGroupName == settings.group && request.logStreamName == streamName
    ensures request.nextToken.None? && request.startFromHead.None? && request.limit.None?
    ensures request.startTime.None? && request.endTime.None?
  {
    GetLogEventsRequest(settings.group, streamName, None, None, None, None, None)
  }

  /** `result.unwrap()` in `fetch_logs`, then `events.unwrap()`. */
  function EventsOf(answer: CallResult<GetLogEventsResponse>): (r: Result<seq<OutputLogEvent>, PanicReason>)
    ensures r.Ok? <==> answer.Ok? && answer.value.events.Some?
    ensures r.Ok? ==> r.value == answer.value.events.value
    ensures answer.Err? ==> r == Err(UnwrapErr(answer.error))
  {
    match answer
    case Err(e) => Err(UnwrapErr(e))
    case Ok(response) =>
      match response.events
      case None => Err(UnwrapNone("events"))
      case Some(events) => Ok(events)
  }

  /** The message of one event, as a list of zero or one lines. */
  function MessageOf(event: OutputLogEvent): seq<string> {
    match event.message
    case Some(message) => [message]
    case None => []
  }

  /** The lines printed for the events: their messages in order, skipping absent ones. */
  function Messages(events: seq<OutputLogEvent>): seq<string>
    decreases |events|
  {
    if events == [] then []
    else Messages(events[..|events| - 1]) + MessageOf(events[|events| - 1])
  }

  /** The printing loop: one line per event that has a message, in event order. */
  method PrintMessages(events: seq<OutputLogEvent>) returns (printed: seq<string>)
    ensures printed == Messages(events)
  {
    printed := [];
    for i := 0 to |events|
      invariant printed == Messages(events[..i])
    {
      assert events[..i + 1][..i] == events[..i];
      match events[i].message
      case Some(message) =>
        printed := printed + [message];
      case None =>
    }
    assert events[..|events|] == events;
  }

  /** Printing two batches of events prints the lines of one, then of the other. */
  lemma {:induction false} MessagesAppend(a: seq<OutputLogEvent>, b: seq<OutputLogEvent>)
    ensures Messages(a + b) == Messages(a) + Messages(b)
    decreases |b|
  {
    if b == [] {
      assert a + b == a;
    } else {
      var init := b[..|b| - 1];
      assert (a + b)[..|a + b| - 1] == a + init;
      MessagesAppend(a, init);
    }
  }

  /**
   * The positions of the events whose message is printed: increasing, each
   * carrying the line printed at its rank, and covering every event that has
   * a message. Together these say the output is exactly the present messages,
   * in order.
   */
  function MessageIndices(events: seq<OutputLogEvent>): (indices: seq<nat>)
    ensures |indices| == |Messages(events)|
    ensures forall k :: 0 <= k < |indices| ==>
      indices[k] < |events| && events[indices[k]].message == Some(Messages(events)[k])
    ensures forall k, l :: 0 <= k < l < |indices| ==> indices[k] < indices[l]
    ensures forall i :: 0 <= i < |events| && events[i].message.Some? ==> i in indices
    decreases |events|
  {
    if events == [] then []
    else
      var rest := MessageIndices(events[..|events| - 1]);
      if events[|events| - 1].message.Some? then rest + [|events| - 1] else rest
  }

  /** No line is printed for a run of events that carry no message. */
  lemma {:induction false} NoMessagesPrintNothing(events: seq<OutputLogEvent>)
    requires forall i :: 0 <= i < |events| ==> events[i].message.None?
    ensures Messages(events) == []
    decreases |events|
  {
    if events != [] {
      NoMessagesPrintNothing(events[..|events| - 1]);
    }
  }
}
