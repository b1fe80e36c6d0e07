/**
 * Choosing the container a one-off task runs its command in
 * (`get_container`, src/main.rs:157-180).
 */
module ContainerSelect {
  import opened Wrappers
  import opened EcsTypes

  /** `container_definitions.unwrap_or_default()`: an absent list counts as empty. */
  function Containers(td: TaskDefinition): seq<ContainerDefinition> {
    td.containerDefinitions.GetOr([])
  }

  /** The panic message when no container carries the requested name. */
  function NotFoundMessage(name: string): string {
    "No container called " + name + " found in task"
  }

  /** The panic message when no name is given and the list is not a singleton. */
  const AmbiguousMessage := "Task has more than one container and which one to run in was not specified with the -n flag."

  /** `iter().find(|c| c.name == Some(name))`, as the index of the container found. */
  function FindNamed(cs: seq<ContainerDefinition>, name: string): (r: Option<nat>)
    ensures r.Some? ==> r.value < |cs| && cs[r.value].name == Some(name)
    ensures r.Some? ==> forall j :: 0 <= j < r.value ==> cs[j].name != Some(name)
    ensures r.None? <==> forall j :: 0 <= j < |cs| ==> cs[j].name != Some(name)
  {
    if cs == [] then None
    else if cs[0].name == Some(name) then Some(0)
    else
      match FindNamed(cs[1..], name)
      case None => None
      case Some(k) => Some(k + 1)
  }

  /**
   * With a name: the first container of that name, or a panic naming it.
   * Without one: the only container, or a panic when there are zero or several.
   */
  function SelectContainer(td: TaskDefinition, name: Option<string>): (r: Result<ContainerDefinition, PanicReason>)
    ensures name.Some? ==>
      (r.Ok? <==> exists i :: 0 <= i < |Containers(td)| && Containers(td)[i].name == name)
    ensures name.Some? && r.Ok? ==> r.value.name == name && r.value in Containers(td)
    ensures name.Some? && r.Err? ==> r.error == Expect(NotFoundMessage(name.value))
    ensures name.None? ==> (r.Ok? <==> |Containers(td)| == 1)
    ensures name.None? && r.Ok? ==> r.value == Containers(td)[0]
    ensures name.None? && r.Err? ==> r.error == Explicit(AmbiguousMessage)
  {
    var cs := Containers(td);
    match name
    case Some(n) =>
      (match FindNamed(cs, n)
       case Some(i) => Ok(cs[i])
       case None => Err(Expect(NotFoundMessage(n))))
    case None =>
      if |cs| != 1 then Err(Explicit(AmbiguousMessage)) else Ok(cs[0])
  }

  /** A name selects the FIRST container carrying it, even when several do. */
  lemma SelectByNameIsFirstMatch(td: TaskDefinition, name: string, i: nat)
    requires i < |Containers(td)| && Containers(td)[i].name == Some(name)
    requires forall j :: 0 <= j < i ==> Containers(td)[j].name != Some(name)
    ensures SelectContainer(td, Some(name)) == Ok(Containers(td)[i])
  {
  }

  /** A task definition whose list is absent selects nothing; without a name it gives the explicit panic. */
  lemma AbsentListSelectsNothing(td: TaskDefinition, name: Option<string>)
    requires td.containerDefinitions.None?
    ensures SelectContainer(td, name).Err?
    ensures name.None? ==> SelectContainer(td, name) == Err(Explicit(AmbiguousMessage))
  {
  }
}
