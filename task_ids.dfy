/**
 * The short task id printed and used for the log stream
 * (`rsplitn(2, '/').next()` on the task ARN, src/main.rs:81-87) and the log
 * stream name (src/main.rs:112-113).
 */
module TaskIds {
  import opened Wrappers
  import opened EcsTypes

  /** `s` ends with `suffix`. */
  predicate EndsWith(s: string, suffix: string) {
    |suffix| <= |s| && s[|s| - |suffix|..] == suffix
  }

  /**
   * The first item of `rsplitn(2, '/')`: everything after the last `/`, or
   * the whole ARN when it has none.
   */
  function TaskShortId(arn: string): (id: string)
    ensures '/' !in id
    ensures EndsWith(arn, id)
    ensures |id| < |arn| ==> arn[|arn| - |id| - 1] == '/'
    decreases |arn|
  {
    if arn == [] then []
    else if arn[|arn| - 1] == '/' then []
    else TaskShortId(arn[..|arn| - 1]) + [arn[|arn| - 1]]
  }

  /** The three properties of TaskShortId single it out: no other string has them. */
  lemma ShortIdIsUnique(arn: string, id: string)
    requires '/' !in id
    requires EndsWith(arn, id)
    requires |id| < |arn| ==> arn[|arn| - |id| - 1] == '/'
    ensures id == TaskShortId(arn)
  {
  }

  /** The id of `<anything>/<id>` is `id` when `id` has no `/`. */
  lemma ShortIdAfterLastSlash(head: string, id: string)
    requires '/' !in id
    ensures TaskShortId(head + "/" + id) == id
  {
    var arn := head + "/" + id;
    assert arn[|arn| - |id|..] == id;
    assert arn[|arn| - |id| - 1] == '/';
    ShortIdIsUnique(arn, id);
  }

  /** An ARN without `/` is its own id. */
  lemma ShortIdWithoutSlash(arn: string)
    requires '/' !in arn
    ensures TaskShortId(arn) == arn
  {
    assert arn[|arn| - |arn|..] == arn;
    ShortIdIsUnique(arn, arn);
  }

  /** The task id of a launched task: `task_arn.unwrap()`, then its short id. */
  function TaskIdOf(task: Task): (r: Result<string, PanicReason>)
    ensures task.taskArn.None? <==> r.Err?
    ensures r.Err? ==> r.error == UnwrapNone("task_arn")
    ensures r.Ok? ==> r.value == TaskShortId(task.taskArn.value)
  {
    match task.taskArn
    case None => Err(UnwrapNone("task_arn"))
    case Some(arn) => Ok(TaskShortId(arn))
  }

  /** `format!("{}/{}/{}", prefix, container_name, task_id)`. */
  function LogStreamName(prefix: string, containerName: string, taskId: string): string {
    prefix + "/" + containerName + "/" + taskId
  }

  /**
   * The stream name reads back into its parts: it starts with the prefix and
   * a `/`, its last segment is the task id and the segment before it the
   * container name (when neither of these two contains a `/`).
   */
  lemma LogStreamNameParts(prefix: string, containerName: string, taskId: string)
    requires '/' !in containerName && '/' !in taskId
    ensures var s := LogStreamName(prefix, containerName, taskId);
      && s == prefix + "/" + containerName + "/" + taskId
      && s[..|prefix| + 1] == prefix + "/"
      && TaskShortId(s) == taskId
      && |taskId| < |s|
      && TaskShortId(s[..|s| - |taskId| - 1]) == containerName
  {
    var s := LogStreamName(prefix, containerName, taskId);
    assert s == (prefix + "/" + containerName) + "/" + taskId;
    ShortIdAfterLastSlash(prefix + "/" + containerName, taskId);
    assert s[..|s| - |taskId| - 1] == prefix + "/" + containerName;
    ShortIdAfterLastSlash(prefix, containerName);
  }

  /** The stream of a task is found again from the stream name alone. */
  lemma LogStreamNameRecoversTaskId(prefix: string, containerName: string, arn: string)
    ensures TaskShortId(LogStreamName(prefix, containerName, TaskShortId(arn))) == TaskShortId(arn)
  {
    ShortIdAfterLastSlash(prefix + "/" + containerName, TaskShortId(arn));
    assert LogStreamName(prefix, containerName, TaskShortId(arn))
      == (prefix + "/" + containerName) + "/" + TaskShortId(arn);
  }

  /** Prefix "app", container "web", task ARN ending in "/abc123": stream "app/web/abc123". */
  lemma LogStreamNameExample()
    ensures LogStreamName("app", "web", TaskShortId("arn:aws:ecs:us-east-1:123456789012:task/abc123")) == "app/web/abc123"
  {
    ShortIdAfterLastSlash("arn:aws:ecs:us-east-1:123456789012:task", "abc123");
    assert "arn:aws:ecs:us-east-1:123456789012:task" + "/" + "abc123" == "arn:aws:ecs:us-east-1:123456789012:task/abc123";
  }
}
