/**
 * Building the run-task request from the service and the selected container,
 * and taking the launched task from the answer (`run_task`,
 * src/main.rs:182-215).
 */
module TaskLaunch {
  import opened Wrappers
  import opened EcsTypes
  import ContainerSelect

  /** The marker the request carries as its originator. */
  const StartedBy := "ecs-run"

  /** The panic message when the service names no task definition. */
  const NoTaskDefinitionMessage := "No task definition in service"

  /** The request copies every scheduling parameter of the service unchanged. */
  predicate ClonesService(request: RunTaskRequest, service: Service) {
    && request.launchType == service.launchType
    && request.networkConfiguration == service.networkConfiguration
    && request.placementConstraints == service.placementConstraints
    && request.placementStrategy == service.placementStrategy
    && request.platformVersion == service.platformVersion
    && Some(request.taskDefinition) == service.taskDefinition
  }

  /**
   * The request overrides exactly one container, the selected one, replacing
   * only its command; no environment, cpu, memory or role is set.
   */
  predicate OverridesOnlyCommand(request: RunTaskRequest, container: ContainerDefinition, command: seq<string>) {
    && request.overrides.Some?
    && request.overrides.value.executionRoleArn.None?
    && request.overrides.value.taskRoleArn.None?
    && request.overrides.value.containerOverrides.Some?
    && |request.overrides.value.containerOverrides.value| == 1
    && var o := request.overrides.value.containerOverrides.value[0];
    && o.name == container.name
    && o.command == Some(command)
    && o.environment.None? && o.cpu.None? && o.memory.None? && o.memoryReservation.None?
  }

  /** The request literal of `run_task`. */
  function RunTaskRequestFor(cluster: string, service: Service, command: seq<string>, container: ContainerDefinition): (r: Result<RunTaskRequest, PanicReason>)
    ensures r.Ok? <==> service.taskDefinition.Some?
    ensures r.Err? ==> r.error == Expect(NoTaskDefinitionMessage)
    ensures r.Ok? ==> ClonesService(r.value, service) && OverridesOnlyCommand(r.value, container, command)
    ensures r.Ok? ==>
      && r.value.cluster == Some(cluster)
      && r.value.count == Some(1)
      && r.value.startedBy == Some(StartedBy)
      && r.value.group.None?
  {
    match service.taskDefinition
    case None => Err(Expect(NoTaskDefinitionMessage))
    case Some(reference) =>
      var containerOverride := ContainerOverride(container.name, Some(command), None, None, None, None);
      Ok(RunTaskRequest(
        cluster := Some(cluster),
        count := Some(1),
        group := None,
        launchType := service.launchType,
        networkConfiguration := service.networkConfiguration,
        overrides := Some(TaskOverride(Some([containerOverride]), None, None)),
        placementConstraints := service.placementConstraints,
        placementStrategy := service.placementStrategy,
        platformVersion := service.platformVersion,
        startedBy := Some(StartedBy),
        taskDefinition := reference))
  }

  /** ClonesService and OverridesOnlyCommand pin the request down completely. */
  lemma RequestIsDetermined(cluster: string, service: Service, command: seq<string>, container: ContainerDefinition, request: RunTaskRequest)
    requires ClonesService(request, service) && OverridesOnlyCommand(request, container, command)
    requires request.cluster == Some(cluster) && request.count == Some(1)
    requires request.startedBy == Some(StartedBy) && request.group.None?
    ensures RunTaskRequestFor(cluster, service, command, container) == Ok(request)
  {
    var o := request.overrides.value.containerOverrides.value[0];
    assert o == ContainerOverride(container.name, Some(command), None, None, None, None);
    assert request.overrides.value.containerOverrides.value == [o];
  }

  /**
   * A container chosen by name is the one the request overrides: the
   * override carries exactly the name the caller asked for.
   */
  lemma OverrideTargetsRequestedName(cluster: string, service: Service, command: seq<string>, td: TaskDefinition, name: string)
    requires ContainerSelect.SelectContainer(td, Some(name)).Ok?
    requires service.taskDefinition.Some?
    ensures var request := RunTaskRequestFor(cluster, service, command, ContainerSelect.SelectContainer(td, Some(name)).value);
      request.Ok? && request.value.overrides.value.containerOverrides.value == [ContainerOverride(Some(name), Some(command), None, None, None, None)]
  {
  }

  /** `result.unwrap().tasks.unwrap()[0]`: the first task the run-task call returned (see FirstTask). */
  function LaunchedTask(answer: CallResult<RunTaskResponse>): Result<Task, PanicReason> {
    match answer
    case Err(e) => FirstTask(Err(e))
    case Ok(response) => FirstTask(Ok(response.tasks))
  }
}
