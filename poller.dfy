/**
 * Waiting for the launched task to stop (the `loop` of src/main.rs:89-109 and
 * `fetch_task`, src/main.rs:146-154). The backend's successive answers to
 * describe-tasks are an input sequence; a finite sequence that never reports
 * a stop leaves the poll still waiting.
 */
module Poller {
  import opened Wrappers
  import opened EcsTypes

  /** The describe-tasks request each tick sends: the launched task in the cluster. */
  function TasksQuery(cluster: string, arn: string): DescribeTasksRequest {
    DescribeTasksRequest(Some(cluster), [arn])
  }

  /** `result.unwrap().tasks.unwrap()[0]`: the snapshot one describe-tasks answer gives. */
  function FetchedTask(answer: CallResult<DescribeTasksResponse>): (r: Result<Task, PanicReason>)
    ensures r.Ok? <==> answer.Ok? && answer.value.tasks.Some? && |answer.value.tasks.value| > 0
    ensures r.Ok? ==> r.value == answer.value.tasks.value[0]
  {
    match answer
    case Err(e) => FirstTask(Err(e))
    case Ok(response) => FirstTask(Ok(response.tasks))
  }

  /** Both snapshots report a status and the two differ. */
  predicate StatusChanged(previous: Task, current: Task) {
    current.lastStatus.Some? && previous.lastStatus.Some? && current.lastStatus != previous.lastStatus
  }

  /**
   * The status line one tick prints for a snapshot that has not stopped.
   * The bindings of the source's match put the PREVIOUS snapshot's status in
   * the printed line, so that is what is printed here.
   */
  function StatusLine(previous: Task, current: Task): (line: seq<string>)
    ensures |line| <= 1
    ensures line != [] <==> StatusChanged(previous, current)
    ensures line != [] ==> line[0] == previous.lastStatus.value && Some(line[0]) != current.lastStatus
  {
    match (current.lastStatus, previous.lastStatus)
    case (Some(currentStatus), Some(previousStatus)) =>
      if currentStatus != previousStatus then [previousStatus] else []
    case _ => []
  }

  /** How waiting ended: a stopped snapshot, a panic in `fetch_task`, or still waiting. */
  datatype PollOutcome =
    | Stopped(task: Task)
    | Aborted(reason: PanicReason)
    | StillPolling

  /** The outcome, the status lines printed, and how many answers were consumed. */
  datatype PollResult = PollResult(outcome: PollOutcome, statusLines: seq<string>, consulted: nat)

  /** The first `k` answers each give a snapshot that has not stopped. */
  predicate RunningFor(answers: seq<CallResult<DescribeTasksResponse>>, k: nat) {
    k <= |answers| &&
    forall j :: 0 <= j < k ==> FetchedTask(answers[j]).Ok? && FetchedTask(answers[j]).value.stoppedAt.None?
  }

  /**
   * The poll loop as a function of the previous snapshot and the answers
   * still to come: stop at the first stopped snapshot, abort at the first
   * answer `fetch_task` panics on, otherwise print the tick's status line and
   * go on with this snapshot as the previous one.
   */
  function Poll(previous: Task, answers: seq<CallResult<DescribeTasksResponse>>): (r: PollResult)
    ensures r.consulted <= |answers| && |r.statusLines| <= r.consulted
    ensures r.outcome.StillPolling? ==> r.consulted == |answers| && RunningFor(answers, |answers|)
    ensures !r.outcome.StillPolling? ==> 0 < r.consulted && RunningFor(answers, r.consulted - 1)
    ensures r.outcome.Stopped? ==>
      r.outcome.task.stoppedAt.Some? && FetchedTask(answers[r.consulted - 1]) == Ok(r.outcome.task)
    ensures r.outcome.Aborted? ==> FetchedTask(answers[r.consulted - 1]) == Err(r.outcome.reason)
    decreases |answers|
  {
    if answers == [] then PollResult(StillPolling, [], 0)
    else
      match FetchedTask(answers[0])
      case Err(reason) => PollResult(Aborted(reason), [], 1)
      case Ok(taskStatus) =>
        if taskStatus.stoppedAt.Some? then PollResult(Stopped(taskStatus), [], 1)
        else
          var rest := Poll(taskStatus, answers[1..]);
          PollResult(rest.outcome, StatusLine(previous, taskStatus) + rest.statusLines, rest.consulted + 1)
  }

  /** The result of a poll preceded by `ticks` ticks that printed `lines`. */
  function Extend(lines: seq<string>, ticks: nat, rest: PollResult): PollResult {
    PollResult(rest.outcome, lines + rest.statusLines, ticks + rest.consulted)
  }

  /**
   * The poll loop of the program: `previous_status` starts as the launched
   * task and becomes each non-terminal snapshot in turn.
   */
  method PollUntilStopped(launched: Task, answers: seq<CallResult<DescribeTasksResponse>>) returns (result: PollResult)
    ensures result == Poll(launched, answers)
  {
    var previous := launched;
    var statusLines: seq<string> := [];
    var i := 0;
    while i < |answers|
      invariant 0 <= i <= |answers|
      invariant Poll(launched, answers) == Extend(statusLines, i, Poll(previous, answers[i..]))
    {
      assert answers[i..][1..] == answers[i + 1..];
      match FetchedTask(answers[i])
      case Err(reason) =>
        return PollResult(Aborted(reason), statusLines, i + 1);
      case Ok(taskStatus) =>
        if taskStatus.stoppedAt.Some? {
          return PollResult(Stopped(taskStatus), statusLines, i + 1);
        }
        ghost var rest := Poll(taskStatus, answers[i + 1..]);
        assert (statusLines + StatusLine(previous, taskStatus)) + rest.statusLines
            == statusLines + (StatusLine(previous, taskStatus) + rest.statusLines);
        statusLines := statusLines + StatusLine(previous, taskStatus);
        previous := taskStatus;
        i := i + 1;
    }
    return PollResult(StillPolling, statusLines, i);
  }

  // ---------------------------------------------------------------------------
  // A reference definition: status lines over the whole run of snapshots
  // ---------------------------------------------------------------------------

  /** The snapshots the first `k` answers give. */
  function Snapshots(answers: seq<CallResult<DescribeTasksResponse>>, k: nat): (s: seq<Task>)
    requires RunningFor(answers, k)
    ensures |s| == k
    ensures forall j :: 0 <= j < k ==> s[j] == FetchedTask(answers[j]).value
    decreases k
  {
    if k == 0 then [] else Snapshots(answers, k - 1) + [FetchedTask(answers[k - 1]).value]
  }

  /** The status lines of a run of snapshots: one per consecutive pair that changed status. */
  function Transitions(s: seq<Task>): seq<string>
    decreases |s|
  {
    if |s| < 2 then [] else StatusLine(s[0], s[1]) + Transitions(s[1..])
  }

  /** A snapshot appended to a run adds its own status line at the end. */
  lemma {:induction false} TransitionsSnoc(s: seq<Task>, t: Task)
    requires |s| > 0
    ensures Transitions(s + [t]) == Transitions(s) + StatusLine(s[|s| - 1], t)
    decreases |s|
  {
    if |s| == 1 {
      assert (s + [t])[1..] == [t];
    } else {
      assert (s + [t])[1..] == s[1..] + [t];
      TransitionsSnoc(s[1..], t);
    }
  }

  /**
   * A line is printed exactly for each consecutive pair whose statuses are
   * both present and differ, and it is the earlier snapshot's status.
   */
  lemma {:induction false} TransitionsMembership(s: seq<Task>, line: string)
    ensures line in Transitions(s) <==>
      exists i :: 1 <= i < |s| && StatusChanged(s[i - 1], s[i]) && line == s[i - 1].lastStatus.value
    decreases |s|
  {
    if |s| >= 2 {
      TransitionsMembership(s[1..], line);
      if line in Transitions(s) && line !in StatusLine(s[0], s[1]) {
        var i :| 1 <= i < |s[1..]| && StatusChanged(s[1..][i - 1], s[1..][i]) && line == s[1..][i - 1].lastStatus.value;
        assert StatusChanged(s[i], s[i + 1]);
      }
      if exists i :: 1 <= i < |s| && StatusChanged(s[i - 1], s[i]) && line == s[i - 1].lastStatus.value {
        var i :| 1 <= i < |s| && StatusChanged(s[i - 1], s[i]) && line == s[i - 1].lastStatus.value;
        if i > 1 {
          assert StatusChanged(s[1..][i - 2], s[1..][i - 1]);
        }
      }
    }
  }

  /** One tick on a snapshot that has not stopped prints its line and moves on. */
  lemma PollTick(previous: Task, answers: seq<CallResult<DescribeTasksResponse>>)
    requires answers != [] && FetchedTask(answers[0]).Ok? && FetchedTask(answers[0]).value.stoppedAt.None?
    ensures var t := FetchedTask(answers[0]).value;
      Poll(previous, answers) == Extend(StatusLine(previous, t), 1, Poll(t, answers[1..]))
  {
  }

  /** Two stretches of ticks compose. */
  lemma ExtendTwice(lines: seq<string>, ticks: nat, more: seq<string>, moreTicks: nat, rest: PollResult)
    ensures Extend(lines, ticks, Extend(more, moreTicks, rest)) == Extend(lines + more, ticks + moreTicks, rest)
  {
    assert lines + (more + rest.statusLines) == (lines + more) + rest.statusLines;
  }

  /**
   * After `k` ticks on snapshots that had not stopped, the poll has printed
   * the transitions of the launched task followed by those snapshots, and the
   * last of them is the previous snapshot for what follows.
   */
  lemma {:induction false} PollAfterRunningPrefix(previous: Task, answers: seq<CallResult<DescribeTasksResponse>>, k: nat)
    requires RunningFor(answers, k)
    ensures var seen := [previous] + Snapshots(answers, k);
      Poll(previous, answers) == Extend(Transitions(seen), k, Poll(seen[k], answers[k..]))
    decreases k
  {
    if k == 0 {
      assert answers[0..] == answers;
    } else {
      assert RunningFor(answers, k - 1);
      PollAfterRunningPrefix(previous, answers, k - 1);
      var before := [previous] + Snapshots(answers, k - 1);
      var t := FetchedTask(answers[k - 1]).value;
      assert [previous] + Snapshots(answers, k) == before + [t];
      TransitionsSnoc(before, t);
      assert answers[k - 1..][0] == answers[k - 1];
      assert answers[k - 1..][1..] == answers[k..];
      PollTick(before[k - 1], answers[k - 1..]);
      ExtendTwice(Transitions(before), k - 1, StatusLine(before[k - 1], t), 1, Poll(t, answers[k..]));
    }
  }

  /** The poll stops at the first stopped snapshot, having printed the transitions before it. */
  lemma PollStopsAtFirstStop(previous: Task, answers: seq<CallResult<DescribeTasksResponse>>, k: nat)
    requires RunningFor(answers, k) && k < |answers|
    requires FetchedTask(answers[k]).Ok? && FetchedTask(answers[k]).value.stoppedAt.Some?
    ensures Poll(previous, answers)
      == PollResult(Stopped(FetchedTask(answers[k]).value), Transitions([previous] + Snapshots(answers, k)), k + 1)
  {
    PollAfterRunningPrefix(previous, answers, k);
  }

  /** The poll aborts at the first answer `fetch_task` cannot unwrap, if that comes before any stop. */
  lemma PollAbortsAtFirstBadAnswer(previous: Task, answers: seq<CallResult<DescribeTasksResponse>>, k: nat)
    requires RunningFor(answers, k) && k < |answers| && FetchedTask(answers[k]).Err?
    ensures Poll(previous, answers)
      == PollResult(Aborted(FetchedTask(answers[k]).error), Transitions([previous] + Snapshots(answers, k)), k + 1)
  {
    PollAfterRunningPrefix(previous, answers, k);
  }

  /** While no answer reports a stop, the poll keeps waiting and prints every transition. */
  lemma PollKeepsWaiting(previous: Task, answers: seq<CallResult<DescribeTasksResponse>>)
    requires RunningFor(answers, |answers|)
    ensures Poll(previous, answers)
      == PollResult(StillPolling, Transitions([previous] + Snapshots(answers, |answers|)), |answers|)
  {
    PollAfterRunningPrefix(previous, answers, |answers|);
  }

  /** Once the poll has ended, answers after the last one it consumed change nothing. */
  lemma {:induction false} PollIgnoresLaterAnswers(previous: Task, answers: seq<CallResult<DescribeTasksResponse>>, later: seq<CallResult<DescribeTasksResponse>>)
    requires !Poll(previous, answers).outcome.StillPolling?
    ensures Poll(previous, answers + later) == Poll(previous, answers)
    decreases |answers|
  {
    assert (answers + later)[0] == answers[0];
    match FetchedTask(answers[0])
    case Err(_) =>
    case Ok(t) =>
      if t.stoppedAt.None? {
        assert (answers + later)[1..] == answers[1..] + later;
        PollIgnoresLaterAnswers(t, answers[1..], later);
      }
  }

  /**
   * A task not yet visible to describe-tasks (an empty task list) is not
   * waited for: indexing the list panics and the poll ends there.
   */
  lemma InvisibleTaskAborts(previous: Task, answers: seq<CallResult<DescribeTasksResponse>>)
    requires answers != [] && answers[0] == Ok(DescribeTasksResponse(Some([])))
    ensures Poll(previous, answers) == PollResult(Aborted(IndexOutOfBounds("tasks")), [], 1)
  {
  }

  /**
   * PROVISIONING, then PENDING, RUNNING and a stopped snapshot: two lines are
   * printed, each naming the status being left.
   */
  lemma PollExample(arn: string)
    ensures var answers := [
        Ok(DescribeTasksResponse(Some([Task(Some(arn), Some("PENDING"), None)]))),
        Ok(DescribeTasksResponse(Some([Task(Some(arn), Some("RUNNING"), None)]))),
        Ok(DescribeTasksResponse(Some([Task(Some(arn), Some("STOPPED"), Some(1.5))])))];
      Poll(Task(Some(arn), Some("PROVISIONING"), None), answers)
      == PollResult(Stopped(Task(Some(arn), Some("STOPPED"), Some(1.5))), ["PROVISIONING", "PENDING"], 3)
  {
    var answers := [
        Ok(DescribeTasksResponse(Some([Task(Some(arn), Some("PENDING"), None)]))),
        Ok(DescribeTasksResponse(Some([Task(Some(arn), Some("RUNNING"), None)]))),
        Ok(DescribeTasksResponse(Some([Task(Some(arn), Some("STOPPED"), Some(1.5))])))];
    assert answers[1..][1..] == answers[2..];
    assert Poll(Task(Some(arn), Some("RUNNING"), None), answers[2..])
      == PollResult(Stopped(Task(Some(arn), Some("STOPPED"), Some(1.5))), [], 1);
    assert StatusLine(Task(Some(arn), Some("PROVISIONING"), None), Task(Some(arn), Some("PENDING"), None)) == ["PROVISIONING"];
    assert StatusLine(Task(Some(arn), Some("PENDING"), None), Task(Some(arn), Some("RUNNING"), None)) == ["PENDING"];
  }
}
