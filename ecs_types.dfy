/**
 * The records of the ECS and CloudWatch Logs APIs that the program reads or
 * builds, reduced to the fields it touches, and the ways the program can fail.
 * Records the program builds keep the fields it sets and, beside them, the
 * defaulted fields that could change what a request asks for (the environment,
 * cpu and memory overrides, the roles, the paging and time range of a log
 * query), so that those can be stated to stay unset.
 */
module EcsTypes {
  import opened Wrappers

  // ---------------------------------------------------------------------------
  // Failures
  // ---------------------------------------------------------------------------

  /** The text of an error a remote call returned (the `{:?}` form of rusoto's error). */
  type CallError = string

  /** What a remote `.sync()` call returns. */
  type CallResult<T> = Result<T, CallError>

  /** Why the program panicked. */
  datatype PanicReason =
    | UnwrapNone(field: string)       // `Option::unwrap` on `None`; `field` names what was absent
    | UnwrapErr(error: CallError)     // `Result::unwrap` on an `Err`
    | IndexOutOfBounds(what: string)  // `v[0]` on an empty vector
    | Expect(message: string)         // `Option::expect(message)` on `None`
    | Explicit(message: string)       // `panic!(message)`

  /** How a stage can fail: an error the program reports, or a panic. */
  datatype Failure =
    | Reported(message: string)
    | Panic(reason: PanicReason)

  // ---------------------------------------------------------------------------
  // ECS: services
  // ---------------------------------------------------------------------------

  datatype AwsVpcConfiguration = AwsVpcConfiguration(
    assignPublicIp: Option<string>,
    securityGroups: Option<seq<string>>,
    subnets: seq<string>)

  datatype NetworkConfiguration = NetworkConfiguration(awsvpcConfiguration: Option<AwsVpcConfiguration>)

  datatype PlacementConstraint = PlacementConstraint(expression: Option<string>, kind: Option<string>)

  datatype PlacementStrategy = PlacementStrategy(field: Option<string>, kind: Option<string>)

  /** A deployed service: its scheduling parameters and its task definition reference. */
  datatype Service = Service(
    serviceName: Option<string>,
    launchType: Option<string>,
    networkConfiguration: Option<NetworkConfiguration>,
    placementConstraints: Option<seq<PlacementConstraint>>,
    placementStrategy: Option<seq<PlacementStrategy>>,
    platformVersion: Option<string>,
    taskDefinition: Option<string>)

  datatype DescribeServicesRequest = DescribeServicesRequest(cluster: Option<string>, services: seq<string>)

  datatype DescribeServicesResponse = DescribeServicesResponse(services: Option<seq<Service>>)

  // ---------------------------------------------------------------------------
  // ECS: task definitions
  // ---------------------------------------------------------------------------

  datatype LogConfiguration = LogConfiguration(logDriver: string, options: Option<map<string, string>>)

  datatype ContainerDefinition = ContainerDefinition(
    name: Option<string>,
    command: Option<seq<string>>,
    logConfiguration: Option<LogConfiguration>)

  datatype TaskDefinition = TaskDefinition(
    family: Option<string>,
    containerDefinitions: Option<seq<ContainerDefinition>>)

  datatype DescribeTaskDefinitionRequest = DescribeTaskDefinitionRequest(taskDefinition: string)

  datatype DescribeTaskDefinitionResponse = DescribeTaskDefinitionResponse(taskDefinition: Option<TaskDefinition>)

  // ---------------------------------------------------------------------------
  // ECS: running and describing tasks
  // ---------------------------------------------------------------------------

  datatype KeyValuePair = KeyValuePair(name: Option<string>, value: Option<string>)

  datatype ContainerOverride = ContainerOverride(
    name: Option<string>,
    command: Option<seq<string>>,
    environment: Option<seq<KeyValuePair>>,
    cpu: Option<int>,
    memory: Option<int>,
    memoryReservation: Option<int>)

  datatype TaskOverride = TaskOverride(
    containerOverrides: Option<seq<ContainerOverride>>,
    executionRoleArn: Option<string>,
    taskRoleArn: Option<string>)

  datatype RunTaskRequest = RunTaskRequest(
    cluster: Option<string>,
    count: Option<int>,
    group: Option<string>,
    launchType: Option<string>,
    networkConfiguration: Option<NetworkConfiguration>,
    overrides: Option<TaskOverride>,
    placementConstraints: Option<seq<PlacementConstraint>>,
    placementStrategy: Option<seq<PlacementStrategy>>,
    platformVersion: Option<string>,
    startedBy: Option<string>,
    taskDefinition: string)

  /** One snapshot of a task. `stoppedAt` is a timestamp; only its presence matters here. */
  datatype Task = Task(
    taskArn: Option<string>,
    lastStatus: Option<string>,
    stoppedAt: Option<real>)

  datatype RunTaskResponse = RunTaskResponse(tasks: Option<seq<Task>>)

  datatype DescribeTasksRequest = DescribeTasksRequest(cluster: Option<string>, tasks: seq<string>)

  datatype DescribeTasksResponse = DescribeTasksResponse(tasks: Option<seq<Task>>)

  // ---------------------------------------------------------------------------
  // CloudWatch Logs
  // ---------------------------------------------------------------------------

  datatype GetLogEventsRequest = GetLogEventsRequest(
    logGroupName: string,
    logStreamName: string,
    startFromHead: Option<bool>,
    nextToken: Option<string>,
    limit: Option<int>,
    startTime: Option<int>,
    endTime: Option<int>)

  datatype OutputLogEvent = OutputLogEvent(message: Option<string>, timestamp: Option<int>)

  datatype GetLogEventsResponse = GetLogEventsResponse(
    events: Option<seq<OutputLogEvent>>,
    nextForwardToken: Option<string>)

  /** The first task of a task list, as `tasks.unwrap()[0]` takes it. */
  function FirstTask(call: CallResult<Option<seq<Task>>>): (r: Result<Task, PanicReason>)
    ensures r.Ok? <==> call.Ok? && call.value.Some? && |call.value.value| > 0
    ensures r.Ok? ==> r.value == call.value.value[0]
    ensures call.Err? ==> r == Err(UnwrapErr(call.error))
  {
    match call
    case Err(e) => Err(UnwrapErr(e))
    case Ok(None) => Err(UnwrapNone("tasks"))
    case Ok(Some(ts)) => if |ts| == 0 then Err(IndexOutOfBounds("tasks")) else Ok(ts[0])
  }
}
