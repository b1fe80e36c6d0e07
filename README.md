# ecs-run, modelled in Dafny

`ecs-run` starts a one-off ECS task that copies an existing service: it looks up the service in
the cluster, fetches the service's task definition, picks the container to run the command in,
reads that container's `awslogs` options, sends a run-task request that copies the service's
launch type, network configuration, placement rules and platform version and overrides that
container's command, polls describe-tasks until the task has a stop time (printing status
changes along the way), then prints the messages of the task's CloudWatch log stream
`prefix/containerName/taskId`.

This project models that orchestration core as it is written in `src/main.rs`. Every remote call
is replaced by its answer. For one-shot calls the backend is a function from the request sent to
the call's result, so the model can say which request was sent. For the repeated describe-tasks
call it is the sequence of successive answers. Every `unwrap`, `expect`, `v[0]` and `panic!` of
the source is a `PanicReason` value, so a panic is an ordinary result.

Modules (one per part of `main.rs`):

- `Wrappers`: `Option` and `Result`.
- `EcsTypes`: the ECS and CloudWatch Logs records the program reads or builds, reduced to the
  fields it touches. It also holds `Failure` (an error `fetch_service` reports, or a panic) and
  `PanicReason`.
- `ContainerSelect`: `get_container`.
- `ServiceLookup`: `fetch_service` and `fetch_task_definition`.
- `TaskLaunch`: the request built by `run_task`, and the task taken from its answer.
- `TaskIds`: the short task id taken from the ARN, and the log stream name.
- `Poller`: `fetch_task` and the poll loop of `main`. `Poll` is the specification function and
  `PollUntilStopped` is the loop. `Transitions` is an independent reference definition of the
  status lines over the whole run of snapshots.
- `LogOutput`: the `awslogs` options, the get-log-events request, and the message-printing loop.
- `EcsRun`: `main` as one function `Run`, and as a method `EcsRun` that calls the two loops.
  It also holds lemmas about whole runs.

The code has no retry for a task that describe-tasks does not yet return. It does not skip the
log step when there is no log configuration. It sets no environment or memory override and maps
no exit code. In each case the model follows the code.

Behaviour worth knowing, all modelled as written:

- A status line carries the status of the PREVIOUS snapshot, not the new one. The match at
  src/main.rs:99-102 binds the current snapshot's status to `old` and the previous one to `new`,
  then prints `new`. So PROVISIONING → PENDING → RUNNING → stopped prints "PROVISIONING" and
  "PENDING" (`Poller.PollExample`).
- The container's log options are read before the task is launched, and any of them missing is
  a panic. So a container without `awslogs` configuration is never launched
  (`EcsRun.LaunchOnlyAfterSelection`). Skipping the log step is not what this code does.
- A describe-tasks answer with an empty task list panics on `tasks[0]`. The code has no
  "not yet visible, retry" state (`Poller.InvisibleTaskAborts`).
- `fetch_service` reports "Could not find service <name>" when the response has no service
  list. A present but empty list panics on `services[0]`. A failed call is reported as the
  backend's error text after "Error: ". `main` prints the report after another "Error: " and
  returns normally, never launching anything.
- Without `-n`, selection fails both for zero containers and for several. Both cases give the
  same panic message, the one about "more than one container".
- The run request sets no environment, memory or cpu override. The source has no environment
  or memory options and no exit-code mapping.

## Model

| member | source | states |
|---|---|---|
| `EcsTypes.FirstTask` | src/main.rs:213-214 | `result.unwrap().tasks.unwrap()[0]`, which both `TaskLaunch.LaunchedTask` (in `run_task`) and `Poller.FetchedTask` (in `fetch_task`) apply, succeeds exactly when the call succeeded with a present, non-empty list, and then gives its first task; a failed call panics with its error |
| `ContainerSelect.FindNamed` | src/main.rs:167-171 | the index found holds a container of that name and no earlier one does; nothing is found exactly when no container has the name |
| `ContainerSelect.SelectContainer` | src/main.rs:157-180 | with a name: succeeds iff some container (absent list = empty) has that name, returns one of that name, else panics "No container called n found in task"; without: succeeds iff there is exactly one container and returns it, else the explicit panic |
| `ContainerSelect.SelectByNameIsFirstMatch` | src/main.rs:166-171 | the container returned for a name is the FIRST one carrying it |
| `ContainerSelect.AbsentListSelectsNothing` | src/main.rs:161-174 | an absent container list selects nothing, and without a name gives the explicit panic |
| `ServiceLookup.PickService` | src/main.rs:240-245 | the first service when the list is present and non-empty; "Could not find service <name>" when absent; "Error: <error>" when the call failed; a panic for a present empty list |
| `ServiceLookup.ReportedServiceErrors` | src/main.rs:240-245 | a reported error is either the not-found message (exactly when the call succeeded) or the call's own error |
| `ServiceLookup.ResolveTaskDefinition` | src/main.rs:217-226 | succeeds iff the service names a task definition and describe-task-definition, asked for that reference, returns one; the result is that definition |
| `TaskLaunch.RunTaskRequestFor` | src/main.rs:189-212 | fails (expect "No task definition in service") iff the service has no task definition; otherwise the request copies the service's scheduling parameters and task definition, asks for count 1, is started by "ecs-run", and overrides only the command of the selected container |
| `TaskLaunch.RequestIsDetermined` | src/main.rs:191-212 | any request meeting those properties is the built request, so they leave nothing else open |
| `TaskLaunch.OverrideTargetsRequestedName` | src/main.rs:202-207 | with a container chosen by name, the single override names exactly that container and sets only the command |
| `TaskIds.TaskShortId` | src/main.rs:81-87 | the id has no `/`, ends the ARN, and is preceded in the ARN by a `/` unless it is the whole ARN |
| `TaskIds.ShortIdIsUnique` | src/main.rs:84-86 | those three properties determine the id: any string having them is the id |
| `TaskIds.ShortIdAfterLastSlash` | src/main.rs:84-86 | the id of `head/id` is `id` when `id` has no `/` |
| `TaskIds.ShortIdWithoutSlash` | src/main.rs:84-86 | an ARN without `/` is its own id |
| `TaskIds.TaskIdOf` | src/main.rs:81-87 | the task id exists iff the task has an ARN (otherwise the unwrap panics), and is then the ARN's short id, which `TaskIds.TaskShortId` and `TaskIds.ShortIdIsUnique` characterise as the segment after the last `/` (the whole ARN when it has none) |
| `TaskIds.LogStreamNameParts` | src/main.rs:112-113 | the stream is `prefix/containerName/taskId`; it starts with the prefix and `/`, and its last two segments read back as the task id and the container name |
| `TaskIds.LogStreamNameRecoversTaskId` | src/main.rs:112-113 | the short id of the stream name is the task's short id |
| `TaskIds.LogStreamNameExample` | src/main.rs:112-113 | prefix "app", container "web", ARN ending "/abc123" give "app/web/abc123" |
| `Poller.FetchedTask` | src/main.rs:146-154 | a describe-tasks answer gives a snapshot iff it succeeded with a non-empty list, and the snapshot is the list's first task |
| `Poller.StatusLine` | src/main.rs:99-106 | a line is printed iff both snapshots have a status and they differ, and it is the previous snapshot's status, which differs from the current one |
| `Poller.Poll` | src/main.rs:89-109 | the poll consumes at most all answers; all answers before the last consumed gave running snapshots; a stop is a snapshot with a stop time from the last consumed answer; an abort is that answer's panic; still waiting only when all answers were running |
| `Poller.PollUntilStopped` | src/main.rs:89-109 | the loop, with `previous_status` reassigned each tick and the exits at a stop or a panic, computes `Poll` of the launched task and the answers |
| `Poller.TransitionsSnoc` | src/main.rs:99-108 | one more snapshot adds its status line after all earlier ones |
| `Poller.TransitionsMembership` | src/main.rs:99-106 | a line is printed iff some consecutive pair of snapshots changed status, and it is the earlier snapshot's status |
| `Poller.PollTick` | src/main.rs:99-108 | a tick with a running snapshot prints its status line and continues with that snapshot as the previous one |
| `Poller.PollAfterRunningPrefix` | src/main.rs:89-109 | after k running ticks the poll has printed the transitions of the launched task followed by those k snapshots |
| `Poller.PollStopsAtFirstStop` | src/main.rs:91-96 | the poll stops at the first stopped snapshot, after exactly k+1 answers, having printed the transitions before it |
| `Poller.PollAbortsAtFirstBadAnswer` | src/main.rs:92-96 | an answer `fetch_task` cannot unwrap, before any stop, ends the poll with that panic |
| `Poller.PollKeepsWaiting` | src/main.rs:91-109 | when no answer reports a stop, every answer is consumed and every transition printed |
| `Poller.PollIgnoresLaterAnswers` | src/main.rs:94-96 | once the poll has ended, appending more answers changes nothing |
| `Poller.InvisibleTaskAborts` | src/main.rs:153 | a describe-tasks answer with no task panics instead of being retried |
| `Poller.PollExample` | src/main.rs:89-108 | PROVISIONING, PENDING, RUNNING, stopped prints "PROVISIONING" then "PENDING" and stops after three answers |
| `LogOutput.LogSettingsOf` | src/main.rs:58-72 | the settings exist iff the log configuration, its options and the group, region and prefix options are all present; they are those three values; each missing piece panics with its own message, in the source's order |
| `LogOutput.LogEventsQuery` | src/main.rs:136-141 | the request names the group and the stream and no paging token, start-from-head flag, limit or time range, so only the first page is asked for |
| `LogOutput.EventsOf` | src/main.rs:115-117 | the events exist iff the call succeeded with a present list, and are that list |
| `LogOutput.PrintMessages` | src/main.rs:117-122 | the printing loop prints `Messages(events)` |
| `LogOutput.MessagesAppend` | src/main.rs:117-122 | printing two batches of events prints the first's lines, then the second's |
| `LogOutput.MessageIndices` | src/main.rs:117-122 | the printed lines are the present messages in event order: their positions increase, carry the line printed at each rank, and cover every event with a message |
| `LogOutput.NoMessagesPrintNothing` | src/main.rs:117-122 | events without messages print nothing |
| `EcsRun.PlanRun` | src/main.rs:52-80 | the pre-launch work succeeds iff the task definition, the container and its log settings are found; the request then clones the service and overrides the selected container's command only |
| `EcsRun.EcsRun` | src/main.rs:45-128 | `main`, with its two loops as method calls, computes `Run` of the arguments and the backend |
| `EcsRun.ErrorLineOnlyForServiceLookup` | src/main.rs:124-126 | an "Error:" line is printed iff `fetch_service` reported that error; then it is the only line, nothing is launched and `main` returns |
| `EcsRun.NoErrorLineAfterLaunch` | src/main.rs:74-122 | once a launch is attempted, no line printed is an "Error:" report |
| `EcsRun.LaunchOnlyAfterSelection` | src/main.rs:52-80 | a task is launched iff service, task definition, container and log settings were all found; the request clones the service, asks for one task started by "ecs-run", overrides only the selected command |
| `EcsRun.LaunchTargetsNamedContainer` | src/main.rs:56-80 | with `-n name`, the launched request overrides the container of that name |
| `EcsRun.LaunchWithoutNameNeedsSingleContainer` | src/main.rs:56 | without `-n`, a launch happens only for a task definition with exactly one container |
| `EcsRun.LogsOnlyAfterStop` | src/main.rs:110-115 | logs are requested only after a launch and "Task finished", in the container's log region and group, for stream `prefix/name/taskId`, whose last segment is the printed id |
| `EcsRun.CompletedRunOutput` | src/main.rs:89-122 | a launched run that returns prints the task id, the poll's status lines, "Task finished" once, then the log messages |
| `EcsRun.FinishedOnce` | src/main.rs:110 | "Task finished" occurs once in a completed run's output, between the status lines and the log lines |
| `EcsRun.RequestBuildCannotFailAfterResolution` | src/main.rs:199-201 | inside `main` the request's `expect` on the task definition never fires, because the definition was already fetched through it |

## Left out

- Command-line parsing with clap (src/main.rs:14-47). This is library configuration; the parsed
  arguments are the `Args` input.
- Client construction, `Region::default()` and `Region::from_str(..).unwrap()`
  (src/main.rs:49, 114). These are foreign calls. The log region is passed on as a string with the
  log request, and a region string that does not parse (a panic in the source) is not modelled.
- The network side of every `.sync()` call. Each answer is an input value.
- `thread::sleep` (src/main.rs:107). The interval cannot be observed in the model.
- The exact text of `println!`. Output is a list of `Line` values. The `{:?}` text of a rusoto
  error is an opaque string.
- Polling forever. The source loops until a stop time appears, but the model's answers are a
  finite sequence. If they run out first, the model ends in `StillPolling`, standing for a
  process that is still waiting.
- Panic payloads beyond their message. For `unwrap` panics the model records which field was
  absent, not Rust's stock message text.
- `stopped_at` is a floating-point timestamp. Only whether it is present is used, so it is a
  `real` here.
- Fields of the rusoto records that the program neither reads nor sets.
- Log pagination. The source fetches only the first page (src/main.rs:130), and the model shows
  that the request carries no paging token.
