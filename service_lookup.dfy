/**
 * Looking up the service a task is modelled on (`fetch_service`,
 * src/main.rs:228-246) and its task definition (`fetch_task_definition`,
 * src/main.rs:217-226, unwrapped at src/main.rs:52-55).
 */
module ServiceLookup {
  import opened Wrappers
  import opened EcsTypes

  /** The describe-services request: the one named service in the cluster. */
  function ServicesQuery(cluster: string, service: string): DescribeServicesRequest {
    DescribeServicesRequest(Some(cluster), [service])
  }

  /** The error reported when the response carries no service list. */
  function NotFoundMessage(service: string): string {
    "Could not find service " + service
  }

  /** The error reported when the describe-services call itself failed. */
  function CallFailedMessage(error: CallError): string {
    "Error: " + error
  }

  /**
   * The answer to describe-services mapped to the program's `Result`: the
   * first service of a present list; a reported error for an absent list or a
   * failed call; a panic for a present but empty list (`services[0]`).
   */
  function PickService(service: string, answer: CallResult<DescribeServicesResponse>): (r: Result<Service, Failure>)
    ensures r.Ok? <==> answer.Ok? && answer.value.services.Some? && |answer.value.services.value| > 0
    ensures r.Ok? ==> r.value == answer.value.services.value[0]
    ensures answer.Ok? && answer.value.services.None? ==> r == Err(Reported(NotFoundMessage(service)))
    ensures answer.Err? ==> r == Err(Reported(CallFailedMessage(answer.error)))
    ensures answer == Ok(DescribeServicesResponse(Some([]))) ==> r == Err(Panic(IndexOutOfBounds("services")))
  {
    match answer
    case Err(e) => Err(Reported(CallFailedMessage(e)))
    case Ok(response) =>
      match response.services
      case Some(services) =>
        if |services| == 0 then Err(Panic(IndexOutOfBounds("services"))) else Ok(services[0])
      case None => Err(Reported(NotFoundMessage(service)))
  }

  /** `fetch_service`: ask the backend for the service, then pick it from the answer. */
  function FetchService(
    describeServices: DescribeServicesRequest -> CallResult<DescribeServicesResponse>,
    cluster: string, service: string): Result<Service, Failure>
  {
    PickService(service, describeServices(ServicesQuery(cluster, service)))
  }

  /** The only errors `fetch_service` reports name the service or quote the backend. */
  lemma ReportedServiceErrors(service: string, answer: CallResult<DescribeServicesResponse>, m: string)
    requires PickService(service, answer) == Err(Reported(m))
    ensures m == NotFoundMessage(service) || (answer.Err? && m == CallFailedMessage(answer.error))
    ensures m == NotFoundMessage(service) <==> answer.Ok?
  {
    if answer.Err? {
      assert m == "Error: " + answer.error;
      assert m[..2] == "Er";
      assert NotFoundMessage(service)[..2] == "Co";
    }
  }

  /**
   * The task definition of the service: `service.task_definition.unwrap()`
   * names it, describe-task-definition fetches it, and both the call result
   * and its `task_definition` field are unwrapped.
   */
  function ResolveTaskDefinition(
    service: Service,
    describeTaskDefinition: DescribeTaskDefinitionRequest -> CallResult<DescribeTaskDefinitionResponse>): (r: Result<TaskDefinition, PanicReason>)
    ensures service.taskDefinition.None? ==> r == Err(UnwrapNone("task_definition"))
    ensures r.Ok? <==>
      && service.taskDefinition.Some?
      && var answer := describeTaskDefinition(DescribeTaskDefinitionRequest(service.taskDefinition.value));
      answer.Ok? && answer.value.taskDefinition.Some?
    ensures r.Ok? ==>
      describeTaskDefinition(DescribeTaskDefinitionRequest(service.taskDefinition.value))
      == Ok(DescribeTaskDefinitionResponse(Some(r.value)))
  {
    match service.taskDefinition
    case None => Err(UnwrapNone("task_definition"))
    case Some(reference) =>
      match describeTaskDefinition(DescribeTaskDefinitionRequest(reference))
      case Err(e) => Err(UnwrapErr(e))
      case Ok(response) =>
        match response.taskDefinition
        case None => Err(UnwrapNone("task_definition"))
        case Some(td) => Ok(td)
  }
}
