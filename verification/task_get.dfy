/**
 * `task get <task-id>` (cmd/taskGet.go): one GET of a task, printed in the
 * detail view.
 */
module TaskGet {
  import opened Wrappers
  import opened Types
  import opened Commands
  import Client
  import Format
  import Decimal

  /** The custom-ID parameters when --custom is set, and include_subtasks when --subtasks is. */
  function TaskGetParams(custom: bool, subtasks: bool, teamId: string): (r: map<string, string>)
    ensures r.Keys <= {"custom_task_ids", "team_id", "include_subtasks"}
    ensures ("custom_task_ids" in r <==> custom) && ("team_id" in r <==> custom)
    ensures custom ==> r["custom_task_ids"] == "true" && r["team_id"] == teamId
    ensures ("include_subtasks" in r <==> subtasks) && (subtasks ==> r["include_subtasks"] == "true")
  {
    var p := CustomIdParams(custom, teamId);
    if subtasks then p["include_subtasks" := "true"] else p
  }

  /**
   * The request carries two parameters for --custom and one for --subtasks,
   * independently of each other: with both flags unset it carries none.
   */
  lemma TaskGetParamsCount(custom: bool, subtasks: bool, teamId: string)
    ensures |TaskGetParams(custom, subtasks, teamId)| == 2 * Format.Count(custom) + Format.Count(subtasks)
  {
    var p := CustomIdParams(custom, teamId);
    if custom {
      assert |p.Keys| == |{"custom_task_ids", "team_id"}| == 2;
    }
    assert "include_subtasks" !in p;
  }

  function TaskRequest(taskId: string, custom: bool, subtasks: bool, teamId: string): Client.Request {
    Client.Request(Client.Get, "/task/" + taskId, TaskGetParams(custom, subtasks, teamId), None)
  }

  /**
   * The whole command: exactly one request, a failure returned as "getting
   * task: ..." with nothing printed, and otherwise the task's detail view.
   */
  function RunTaskGet(taskId: string, custom: bool, subtasks: bool, teamId: string, reply: Result<Task>,
                      stamp: int -> string): (r: Run)
    ensures r.requests == [TaskRequest(taskId, custom, subtasks, teamId)]
    ensures reply.Err? ==> r.outcome == Err(Wrap("getting task", reply.msg))
    ensures reply.Ok? ==> r.outcome == Ok(Format.DetailLines(reply.value, stamp))
  {
    match reply
    case Err(e) => Run([TaskRequest(taskId, custom, subtasks, teamId)], Err(Wrap("getting task", e)))
    case Ok(t) => Run([TaskRequest(taskId, custom, subtasks, teamId)], Ok(Format.DetailLines(t, stamp)))
  }

  /**
   * What a successful `task get` prints, for any task: the name first, the
   * URL at its fixed offset, and the subtask header after the fixed body
   * exactly when the task came back with subtasks.
   */
  lemma TaskGetShowsTask(taskId: string, custom: bool, subtasks: bool, teamId: string, t: Task, stamp: int -> string)
    ensures var out := RunTaskGet(taskId, custom, subtasks, teamId, Ok(t), stamp).outcome.value;
              var k := 17 + Format.Count(t.dueDate.Some?) + 3 * Format.Count(t.description != "");
              && |out| >= k + 4
              && out[0] == t.name
              && out[k] == "URL: " + t.url
              && (|t.subtasks| > 0 ==> |out| > k + 5 && out[k + 5] == "Subtasks (" + Decimal.IntToString(|t.subtasks|) + "):")
              && (|t.subtasks| == 0 && |t.dependencies| == 0 && |t.linkedTasks| == 0 ==> |out| == k + 4)
  {
    Format.DetailNameFirst(t, stamp);
    Format.DetailUrlAt(t, stamp);
    Format.DetailLength(t, stamp);
    if |t.subtasks| > 0 {
      Format.DetailSubtaskHeader(t, stamp);
    }
  }
}
