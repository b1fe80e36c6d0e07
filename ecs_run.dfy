/**
 * One invocation of the program (`main`, src/main.rs:45-128): look up the
 * service and its task definition, pick the container and its log options,
 * launch the task, poll it until it stops, then print its logs. Every remote
 * call is a function of the request sent (or, for the repeated describe-tasks
 * call, the sequence of its answers), and printing is the list of lines
 * produced.
 */
module EcsRun {
  import opened Wrappers
  import opened EcsTypes
  import ServiceLookup
  import ContainerSelect
  import TaskLaunch
  import TaskIds
  import Poller
  import LogOutput

  /** The parsed command line: cluster, service, `-n` container name and the command. */
  datatype Args = Args(cluster: string, service: string, containerName: Option<string>, command: seq<string>)

  /** What the ECS and CloudWatch Logs backends answer. */
  datatype Backend = Backend(
    describeServices: DescribeServicesRequest -> CallResult<DescribeServicesResponse>,
    describeTaskDefinition: DescribeTaskDefinitionRequest -> CallResult<DescribeTaskDefinitionResponse>,
    runTask: RunTaskRequest -> CallResult<RunTaskResponse>,
    taskAnswers: seq<CallResult<DescribeTasksResponse>>,
    getLogEvents: (string, GetLogEventsRequest) -> CallResult<GetLogEventsResponse>)

  /** A line printed on standard output. */
  datatype Line =
    | Started(taskId: string)
    | Status(status: string)
    | Finished
    | LogMessage(message: string)
    | ErrorReport(message: string)

  /** How the process ended: `main` returned, a panic, or still polling when the answers ran out. */
  datatype End = Exited | Panicked(reason: PanicReason) | StillPolling

  /** A get-log-events request and the region of the client that sends it. */
  datatype LogQuery = LogQuery(region: string, request: GetLogEventsRequest)

  /** The lines printed, how the run ended, and the requests it sent that carry its decisions. */
  datatype RunResult = RunResult(
    lines: seq<Line>,
    end: End,
    launchRequest: Option<RunTaskRequest>,
    taskQuery: Option<DescribeTasksRequest>,
    logQuery: Option<LogQuery>)

  /** What `main` has worked out before it launches the task. */
  datatype Plan = Plan(container: ContainerDefinition, settings: LogOutput.LogSettings, request: RunTaskRequest)

  /**
   * Everything before the launch, in the source's order: the task
   * definition, the container, its log options, then the request.
   */
  function PlanRun(args: Args, service: Service,
                   describeTaskDefinition: DescribeTaskDefinitionRequest -> CallResult<DescribeTaskDefinitionResponse>): (r: Result<Plan, PanicReason>)
    ensures r.Ok? <==>
      && ServiceLookup.ResolveTaskDefinition(service, describeTaskDefinition).Ok?
      && var td := ServiceLookup.ResolveTaskDefinition(service, describeTaskDefinition).value;
      && ContainerSelect.SelectContainer(td, args.containerName).Ok?
      && LogOutput.LogSettingsOf(ContainerSelect.SelectContainer(td, args.containerName).value).Ok?
    ensures r.Ok? ==>
      && var td := ServiceLookup.ResolveTaskDefinition(service, describeTaskDefinition).value;
      && r.value.container == ContainerSelect.SelectContainer(td, args.containerName).value
      && r.value.settings == LogOutput.LogSettingsOf(r.value.container).value
      && TaskLaunch.ClonesService(r.value.request, service)
      && TaskLaunch.OverridesOnlyCommand(r.value.request, r.value.container, args.command)
      && r.value.request.count == Some(1) && r.value.request.startedBy == Some(TaskLaunch.StartedBy)
  {
    var td :- ServiceLookup.ResolveTaskDefinition(service, describeTaskDefinition);
    var container :- ContainerSelect.SelectContainer(td, args.containerName);
    var settings :- LogOutput.LogSettingsOf(container);
    // The task definition was found through `service.taskDefinition`, so the
    // request's own `expect` on it cannot fail here.
    match TaskLaunch.RunTaskRequestFor(args.cluster, service, args.command, container)
    case Err(reason) => Err(reason)
    case Ok(request) => Ok(Plan(container, settings, request))
  }

  function StatusLines(statuses: seq<string>): (lines: seq<Line>)
    ensures |lines| == |statuses|
    ensures forall i :: 0 <= i < |lines| ==> lines[i] == Status(statuses[i])
  {
    seq(|statuses|, i requires 0 <= i < |statuses| => Status(statuses[i]))
  }

  function MessageLines(messages: seq<string>): (lines: seq<Line>)
    ensures |lines| == |messages|
    ensures forall i :: 0 <= i < |lines| ==> lines[i] == LogMessage(messages[i])
  {
    seq(|messages|, i requires 0 <= i < |messages| => LogMessage(messages[i]))
  }

  /** After the task stopped: its log stream, the get-log-events call, the messages. */
  function FetchLogs(b: Backend, plan: Plan, taskId: string, lines: seq<Line>, launch: RunResult): RunResult {
    match plan.container.name
    case None => launch.(lines := lines, end := Panicked(UnwrapNone("name")))
    case Some(containerName) =>
      var stream := TaskIds.LogStreamName(plan.settings.streamPrefix, containerName, taskId);
      var query := LogQuery(plan.settings.region, LogOutput.LogEventsQuery(plan.settings, stream));
      match LogOutput.EventsOf(b.getLogEvents(query.region, query.request))
      case Err(reason) => launch.(lines := lines, end := Panicked(reason), logQuery := Some(query))
      case Ok(events) =>
        launch.(lines := lines + MessageLines(LogOutput.Messages(events)), end := Exited, logQuery := Some(query))
  }

  /** From the launch on: run-task, the task id, the poll loop, then the logs. */
  function LaunchAndWait(args: Args, b: Backend, plan: Plan): RunResult {
    var launch := RunResult([], StillPolling, Some(plan.request), None, None);
    match TaskLaunch.LaunchedTask(b.runTask(plan.request))
    case Err(reason) => launch.(end := Panicked(reason))
    case Ok(task) =>
      match TaskIds.TaskIdOf(task)
      case Err(reason) => launch.(end := Panicked(reason))
      case Ok(taskId) =>
        var launch := launch.(taskQuery := Some(Poller.TasksQuery(args.cluster, task.taskArn.value)));
        var poll := Poller.Poll(task, b.taskAnswers);
        var lines := [Started(taskId)] + StatusLines(poll.statusLines);
        match poll.outcome
        case Aborted(reason) => launch.(lines := lines, end := Panicked(reason))
        case StillPolling => launch.(lines := lines, end := StillPolling)
        case Stopped(_) => FetchLogs(b, plan, taskId, lines + [Finished], launch)
  }

  /** The whole invocation as a function of the arguments and the backend's answers. */
  function Run(args: Args, b: Backend): RunResult {
    match ServiceLookup.FetchService(b.describeServices, args.cluster, args.service)
    case Err(Reported(message)) => RunResult([ErrorReport(message)], Exited, None, None, None)
    case Err(Panic(reason)) => RunResult([], Panicked(reason), None, None, None)
    case Ok(service) =>
      match PlanRun(args, service, b.describeTaskDefinition)
      case Err(reason) => RunResult([], Panicked(reason), None, None, None)
      case Ok(plan) => LaunchAndWait(args, b, plan)
  }

  /** `main`, statement by statement, with the poll and print loops as loops. */
  method EcsRun(args: Args, b: Backend) returns (result: RunResult)
    ensures result == Run(args, b)
  {
    var fetched := ServiceLookup.FetchService(b.describeServices, args.cluster, args.service);
    if fetched.Err? {
      return match fetched.error
        case Reported(message) => RunResult([ErrorReport(message)], Exited, None, None, None)
        case Panic(reason) => RunResult([], Panicked(reason), None, None, None);
    }
    var service := fetched.value;
    var planned := PlanRun(args, service, b.describeTaskDefinition);
    if planned.Err? {
      return RunResult([], Panicked(planned.error), None, None, None);
    }
    var plan := planned.value;
    result := RunResult([], StillPolling, Some(plan.request), None, None);
    var launched := TaskLaunch.LaunchedTask(b.runTask(plan.request));
    if launched.Err? {
      return result.(end := Panicked(launched.error));
    }
    var task := launched.value;
    var taskId := TaskIds.TaskIdOf(task);
    if taskId.Err? {
      return result.(end := Panicked(taskId.error));
    }
    result := result.(taskQuery := Some(Poller.TasksQuery(args.cluster, task.taskArn.value)));
    var lines := [Started(taskId.value)];
    var poll := Poller.PollUntilStopped(task, b.taskAnswers);
    lines := lines + StatusLines(poll.statusLines);
    match poll.outcome {
      case Aborted(reason) =>
        return result.(lines := lines, end := Panicked(reason));
      case StillPolling =>
        return result.(lines := lines, end := StillPolling);
      case Stopped(_) =>
    }
    lines := lines + [Finished];
    if plan.container.name.None? {
      return result.(lines := lines, end := Panicked(UnwrapNone("name")));
    }
    var stream := TaskIds.LogStreamName(plan.settings.streamPrefix, plan.container.name.value, taskId.value);
    var query := LogQuery(plan.settings.region, LogOutput.LogEventsQuery(plan.settings, stream));
    result := result.(logQuery := Some(query));
    var events := LogOutput.EventsOf(b.getLogEvents(query.region, query.request));
    if events.Err? {
      return result.(lines := lines, end := Panicked(events.error));
    }
    var printed := LogOutput.PrintMessages(events.value);
    return result.(lines := lines + MessageLines(printed), end := Exited);
  }

  // ---------------------------------------------------------------------------
  // Properties of a run
  // ---------------------------------------------------------------------------

  /**
   * An "Error:" line is printed exactly when `fetch_service` reports an
   * error, and then it is the only line, nothing is launched and `main`
   * returns normally.
   */
  lemma ErrorLineOnlyForServiceLookup(args: Args, b: Backend, message: string)
    ensures var r := Run(args, b);
      ErrorReport(message) in r.lines <==>
      ServiceLookup.FetchService(b.describeServices, args.cluster, args.service) == Err(Reported(message))
    ensures var r := Run(args, b);
      ServiceLookup.FetchService(b.describeServices, args.cluster, args.service) == Err(Reported(message)) ==>
      r.lines == [ErrorReport(message)] && r.end == Exited && r.launchRequest.None?
  {
    var fetched := ServiceLookup.FetchService(b.describeServices, args.cluster, args.service);
    if fetched.Ok? {
      var planned := PlanRun(args, fetched.value, b.describeTaskDefinition);
      if planned.Ok? {
        NoErrorLineAfterLaunch(args, b, planned.value, message);
      }
    }
  }

  /** Once a launch is attempted, no line printed is an error report. */
  lemma NoErrorLineAfterLaunch(args: Args, b: Backend, plan: Plan, message: string)
    ensures ErrorReport(message) !in LaunchAndWait(args, b, plan).lines
  {
    var launched := TaskLaunch.LaunchedTask(b.runTask(plan.request));
    if launched.Ok? && TaskIds.TaskIdOf(launched.value).Ok? {
      var poll := Poller.Poll(launched.value, b.taskAnswers);
      var lines := [Started(TaskIds.TaskIdOf(launched.value).value)] + StatusLines(poll.statusLines) + [Finished];
      assert ErrorReport(message) !in lines;
      if poll.outcome.Stopped? && plan.container.name.Some? {
        var stream := TaskIds.LogStreamName(plan.settings.streamPrefix, plan.container.name.value, TaskIds.TaskIdOf(launched.value).value);
        var query := LogQuery(plan.settings.region, LogOutput.LogEventsQuery(plan.settings, stream));
        var events := LogOutput.EventsOf(b.getLogEvents(query.region, query.request));
        if events.Ok? {
          assert ErrorReport(message) !in lines + MessageLines(LogOutput.Messages(events.value));
        }
      }
    }
  }

  /**
   * A task is launched exactly when the service, its task definition, the
   * container and the container's log options were all found; the request
   * clones the service, asks for one task tagged "ecs-run" and overrides only
   * the command of the selected container.
   */
  lemma LaunchOnlyAfterSelection(args: Args, b: Backend)
    ensures var r := Run(args, b);
      var fetched := ServiceLookup.FetchService(b.describeServices, args.cluster, args.service);
      r.launchRequest.Some? <==> fetched.Ok? && PlanRun(args, fetched.value, b.describeTaskDefinition).Ok?
    ensures var r := Run(args, b);
      var fetched := ServiceLookup.FetchService(b.describeServices, args.cluster, args.service);
      r.launchRequest.Some? ==>
        var plan := PlanRun(args, fetched.value, b.describeTaskDefinition).value;
        && r.launchRequest.value == plan.request
        && TaskLaunch.ClonesService(plan.request, fetched.value)
        && TaskLaunch.OverridesOnlyCommand(plan.request, plan.container, args.command)
        && plan.request.count == Some(1)
        && plan.request.startedBy == Some(TaskLaunch.StartedBy)
        && LogOutput.LogSettingsOf(plan.container).Ok?
  {
    var fetched := ServiceLookup.FetchService(b.describeServices, args.cluster, args.service);
    if fetched.Ok? && PlanRun(args, fetched.value, b.describeTaskDefinition).Ok? {
      LaunchSendsPlannedRequest(args, b, PlanRun(args, fetched.value, b.describeTaskDefinition).value);
    }
  }

  /** From the launch on, the request sent is the planned one, whatever the backend answers. */
  lemma LaunchSendsPlannedRequest(args: Args, b: Backend, plan: Plan)
    ensures LaunchAndWait(args, b, plan).launchRequest == Some(plan.request)
  {
    var launched := TaskLaunch.LaunchedTask(b.runTask(plan.request));
    if launched.Ok? && TaskIds.TaskIdOf(launched.value).Ok? {
      var poll := Poller.Poll(launched.value, b.taskAnswers);
      if poll.outcome.Stopped? {
        var taskId := TaskIds.TaskIdOf(launched.value).value;
        var launch := RunResult([], StillPolling, Some(plan.request),
                                Some(Poller.TasksQuery(args.cluster, launched.value.taskArn.value)), None);
        var lines := [Started(taskId)] + StatusLines(poll.statusLines) + [Finished];
        assert LaunchAndWait(args, b, plan) == FetchLogs(b, plan, taskId, lines, launch);
      }
    }
  }

  /** With `-n name`, the launched request overrides the container of that name. */
  lemma LaunchTargetsNamedContainer(args: Args, b: Backend)
    requires args.containerName.Some?
    ensures var r := Run(args, b);
      r.launchRequest.Some? ==>
        r.launchRequest.value.overrides.value.containerOverrides.value[0].name == args.containerName
  {
    LaunchOnlyAfterSelection(args, b);
  }

  /** Without `-n`, a task is launched only from a task definition with exactly one container. */
  lemma LaunchWithoutNameNeedsSingleContainer(args: Args, b: Backend)
    requires args.containerName.None?
    ensures var r := Run(args, b);
      var fetched := ServiceLookup.FetchService(b.describeServices, args.cluster, args.service);
      r.launchRequest.Some? ==>
        var td := ServiceLookup.ResolveTaskDefinition(fetched.value, b.describeTaskDefinition).value;
        |ContainerSelect.Containers(td)| == 1
  {
    LaunchOnlyAfterSelection(args, b);
  }

  /**
   * The logs are asked for only after the poll saw the task stop, from the
   * container's log group and region, for the stream
   * `prefix/containerName/taskId`, whose last segment is the printed task id.
   */
  lemma LogsOnlyAfterStop(args: Args, b: Backend)
    ensures var r := Run(args, b);
      r.logQuery.Some? ==>
        && r.launchRequest.Some?
        && |r.lines| >= 2 && r.lines[0].Started?
        && Finished in r.lines
        && var fetched := ServiceLookup.FetchService(b.describeServices, args.cluster, args.service);
        && var plan := PlanRun(args, fetched.value, b.describeTaskDefinition).value;
        && plan.container.name.Some?
        && r.logQuery.value.region == plan.settings.region
        && r.logQuery.value.request.logGroupName == plan.settings.group
        && r.logQuery.value.request.logStreamName
           == plan.settings.streamPrefix + "/" + plan.container.name.value + "/" + r.lines[0].taskId
        && TaskIds.TaskShortId(r.logQuery.value.request.logStreamName) == r.lines[0].taskId
  {
    var r := Run(args, b);
    if r.logQuery.Some? {
      var fetched := ServiceLookup.FetchService(b.describeServices, args.cluster, args.service);
      var planned := PlanRun(args, fetched.value, b.describeTaskDefinition);
      assert fetched.Ok? && planned.Ok?;
      assert r == LaunchAndWait(args, b, planned.value);
      LaunchLogsQuery(args, b, planned.value);
    }
  }

  /** LogsOnlyAfterStop for the part of the run from the launch on. */
  lemma LaunchLogsQuery(args: Args, b: Backend, plan: Plan)
    ensures var r := LaunchAndWait(args, b, plan);
      r.logQuery.Some? ==>
        && r.launchRequest == Some(plan.request)
        && |r.lines| >= 2 && r.lines[0].Started?
        && Finished in r.lines
        && plan.container.name.Some?
        && r.logQuery.value.region == plan.settings.region
        && r.logQuery.value.request.logGroupName == plan.settings.group
        && r.logQuery.value.request.logStreamName
           == plan.settings.streamPrefix + "/" + plan.container.name.value + "/" + r.lines[0].taskId
        && TaskIds.TaskShortId(r.logQuery.value.request.logStreamName) == r.lines[0].taskId
  {
    var r := LaunchAndWait(args, b, plan);
    if r.logQuery.Some? {
      var task := TaskLaunch.LaunchedTask(b.runTask(plan.request)).value;
      var taskId := TaskIds.TaskIdOf(task).value;
      var poll := Poller.Poll(task, b.taskAnswers);
      assert poll.outcome.Stopped?;
      var lines := [Started(taskId)] + StatusLines(poll.statusLines) + [Finished];
      var launch := RunResult([], StillPolling, Some(plan.request),
                              Some(Poller.TasksQuery(args.cluster, task.taskArn.value)), None);
      assert r == FetchLogs(b, plan, taskId, lines, launch);
      FetchLogsQuery(b, plan, taskId, lines, launch);
      assert r.lines[0] == lines[0];
      assert Finished in r.lines[..|lines|];
    }
  }

  /** The query FetchLogs sends names the plan's group and region and a stream ending in the task id. */
  lemma FetchLogsQuery(b: Backend, plan: Plan, taskId: string, lines: seq<Line>, launch: RunResult)
    requires '/' !in taskId
    requires launch.logQuery.None?
    ensures var r := FetchLogs(b, plan, taskId, lines, launch);
      && r.launchRequest == launch.launchRequest
      && r.lines[..|lines|] == lines
      && (r.logQuery.Some? ==>
        && plan.container.name.Some?
        && r.logQuery.value.region == plan.settings.region
        && r.logQuery.value.request.logGroupName == plan.settings.group
        && r.logQuery.value.request.logStreamName
           == plan.settings.streamPrefix + "/" + plan.container.name.value + "/" + taskId
        && TaskIds.TaskShortId(r.logQuery.value.request.logStreamName) == taskId)
  {
    var r := FetchLogs(b, plan, taskId, lines, launch);
    assert r.lines[..|lines|] == lines;
    if plan.container.name.Some? {
      var stream := TaskIds.LogStreamName(plan.settings.streamPrefix, plan.container.name.value, taskId);
      TaskIds.ShortIdAfterLastSlash(plan.settings.streamPrefix + "/" + plan.container.name.value, taskId);
      assert stream == (plan.settings.streamPrefix + "/" + plan.container.name.value) + "/" + taskId;
    }
  }

  /** Status and log lines are never "Task finished", so the line framing them occurs once. */
  lemma FinishedOnce(taskId: string, statuses: seq<string>, messages: seq<string>)
    ensures multiset([Started(taskId)] + StatusLines(statuses) + [Finished] + MessageLines(messages))[Finished] == 1
  {
    assert Finished !in StatusLines(statuses);
    assert Finished !in MessageLines(messages);
    assert multiset(StatusLines(statuses))[Finished] == 0;
    assert multiset(MessageLines(messages))[Finished] == 0;
  }

  /**
   * A run that launched a task and returned normally printed, in order: the
   * task id, the status lines of the poll, "Task finished", and the log
   * messages; "Task finished" is printed once.
   */
  lemma CompletedRunOutput(args: Args, b: Backend)
    ensures var r := Run(args, b);
      r.launchRequest.Some? && r.end == Exited ==>
        && r.logQuery.Some?
        && var task := TaskLaunch.LaunchedTask(b.runTask(r.launchRequest.value)).value;
        && var poll := Poller.Poll(task, b.taskAnswers);
        && poll.outcome.Stopped?
        && var events := LogOutput.EventsOf(b.getLogEvents(r.logQuery.value.region, r.logQuery.value.request)).value;
        && r.lines == [Started(TaskIds.TaskIdOf(task).value)] + StatusLines(poll.statusLines) + [Finished]
                      + MessageLines(LogOutput.Messages(events))
        && multiset(r.lines)[Finished] == 1
  {
    var r := Run(args, b);
    if r.launchRequest.Some? && r.end == Exited {
      var fetched := ServiceLookup.FetchService(b.describeServices, args.cluster, args.service);
      var planned := PlanRun(args, fetched.value, b.describeTaskDefinition);
      assert fetched.Ok? && planned.Ok?;
      var plan := planned.value;
      assert r == LaunchAndWait(args, b, plan);
      var task := TaskLaunch.LaunchedTask(b.runTask(plan.request)).value;
      var taskId := TaskIds.TaskIdOf(task).value;
      var poll := Poller.Poll(task, b.taskAnswers);
      var lines := [Started(taskId)] + StatusLines(poll.statusLines) + [Finished];
      assert poll.outcome.Stopped?;
      var launch := RunResult([], StillPolling, Some(plan.request),
                              Some(Poller.TasksQuery(args.cluster, task.taskArn.value)), None);
      assert r == FetchLogs(b, plan, taskId, lines, launch);
      var events := LogOutput.EventsOf(b.getLogEvents(r.logQuery.value.region, r.logQuery.value.request)).value;
      assert r.lines == lines + MessageLines(LogOutput.Messages(events));
      FinishedOnce(taskId, poll.statusLines, LogOutput.Messages(events));
    }
  }

  /**
   * The `expect("No task definition in service")` of `run_task` never fires
   * within `main`: the task definition was already fetched through the same
   * reference.
   */
  lemma RequestBuildCannotFailAfterResolution(args: Args, service: Service,
      describeTaskDefinition: DescribeTaskDefinitionRequest -> CallResult<DescribeTaskDefinitionResponse>,
      container: ContainerDefinition)
    requires ServiceLookup.ResolveTaskDefinition(service, describeTaskDefinition).Ok?
    ensures TaskLaunch.RunTaskRequestFor(args.cluster, service, args.command, container).Ok?
  {
  }
}
