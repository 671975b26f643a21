/**
 * `task update <task-id>` (cmd/taskUpdate.go): one PUT whose JSON body holds
 * exactly the fields given on the command line, then a short report naming
 * them.
 */
module TaskUpdate {
  import opened Wrappers
  import opened Strings
  import opened Types
  import opened Commands
  import Client
  import Format

  const NothingToUpdate := "at least one of --title, --description, or --status must be provided"

  /** The body key that carries each updatable field. */
  function FieldKey(field: string): string {
    if field == "title" then "name"
    else if field == "description" then "markdown_description"
    else "status"
  }

  /** The JSON body: one key per non-empty flag. */
  function UpdateBody(title: string, description: string, status: string): (r: map<string, string>)
    ensures r.Keys <= {"name", "markdown_description", "status"}
    ensures ("name" in r <==> title != "") && (title != "" ==> r["name"] == title)
    ensures ("markdown_description" in r <==> description != "") && (description != "" ==> r["markdown_description"] == description)
    ensures ("status" in r <==> status != "") && (status != "" ==> r["status"] == status)
    ensures |r| == Given(title, description, status)
  {
    var m0: map<string, string> := map[];
    var m1 := if title != "" then m0["name" := title] else m0;
    assert |m1| == Format.Count(title != "");
    var m2 := if description != "" then m1["markdown_description" := description] else m1;
    assert "markdown_description" !in m1;
    assert |m2| == |m1| + Format.Count(description != "");
    assert "status" !in m2;
    if status != "" then m2["status" := status] else m2
  }

  /** How many of the three flags were given. */
  function Given(title: string, description: string, status: string): nat {
    Format.Count(title != "") + Format.Count(description != "") + Format.Count(status != "")
  }

  /** The names of the updated fields, in the fixed order title, description, status. */
  function UpdatedFields(title: string, description: string, status: string): (r: seq<string>)
    ensures |r| == Given(title, description, status)
    ensures ("title" in r <==> title != "") && ("description" in r <==> description != "") && ("status" in r <==> status != "")
    ensures forall i, j | 0 <= i < j < |r| :: r[i] != r[j]
    ensures |r| > 0 && title != "" ==> r[0] == "title"
    ensures |r| > 0 && status != "" ==> r[|r| - 1] == "status"
  {
    (if title != "" then ["title"] else [])
    + (if description != "" then ["description"] else [])
    + (if status != "" then ["status"] else [])
  }

  /**
   * The report names exactly the fields the body carries: every reported
   * field's key is in the body, and there are as many keys as reported
   * fields, so no key goes unreported.
   */
  lemma ReportMatchesBody(title: string, description: string, status: string)
    ensures var body := UpdateBody(title, description, status);
            var fields := UpdatedFields(title, description, status);
            && (forall i | 0 <= i < |fields| :: FieldKey(fields[i]) in body)
            && |body| == |fields|
  {
  }

  /** fmt's %v of a []string: the elements separated by spaces, in brackets. */
  function GoStrings(xs: seq<string>): (r: string)
    ensures |r| >= 2 && r[0] == '[' && r[|r| - 1] == ']'
    ensures r[1..|r| - 1] == Join(xs, " ")
  {
    "[" + Join(xs, " ") + "]"
  }

  function UpdateReport(task: Task, fields: seq<string>): (r: seq<string>)
    ensures |r| == 4
    ensures r[0] == "Task updated: " + Format.PreferredId(task) + " " + task.name
    ensures r[1] == "Updated fields: " + GoStrings(fields)
    ensures r[2] == "Status: " + task.status.status && r[3] == "URL: " + task.url
  {
    ["Task updated: " + Format.PreferredId(task) + " " + task.name,
     "Updated fields: " + GoStrings(fields),
     "Status: " + task.status.status,
     "URL: " + task.url]
  }

  function UpdateRequest(taskId: string, custom: bool, teamId: string, title: string, description: string, status: string): Client.Request {
    Client.Request(Client.Put, "/task/" + taskId, CustomIdParams(custom, teamId), Some(UpdateBody(title, description, status)))
  }

  /**
   * The whole command: with no field to change it fails before any request;
   * otherwise exactly one PUT, whose failure is returned as "updating task:
   * ...", and whose reply is reported.
   */
  function RunTaskUpdate(taskId: string, custom: bool, title: string, description: string, status: string,
                         teamId: string, reply: Result<Task>): (r: Run)
    ensures (title == "" && description == "" && status == "") <==> r.requests == []
    ensures r.requests == [] ==> r.outcome == Err(NothingToUpdate)
    ensures r.requests != [] ==> r.requests == [UpdateRequest(taskId, custom, teamId, title, description, status)]
    ensures r.requests != [] && reply.Err? ==> r.outcome == Err(Wrap("updating task", reply.msg))
    ensures r.requests != [] && reply.Ok? ==>
              r.outcome == Ok(UpdateReport(reply.value, UpdatedFields(title, description, status)))
  {
    if title == "" && description == "" && status == "" then Run([], Err(NothingToUpdate))
    else
      var req := UpdateRequest(taskId, custom, teamId, title, description, status);
      match reply
      case Err(e) => Run([req], Err(Wrap("updating task", e)))
      case Ok(task) => Run([req], Ok(UpdateReport(task, UpdatedFields(title, description, status))))
  }

  /** A request that is sent always carries a non-empty body. */
  lemma SentBodyIsNonEmpty(taskId: string, custom: bool, title: string, description: string, status: string,
                           teamId: string, reply: Result<Task>)
    requires RunTaskUpdate(taskId, custom, title, description, status, teamId, reply).requests != []
    ensures var req := RunTaskUpdate(taskId, custom, title, description, status, teamId, reply).requests[0];
            req.body.Some? && |req.body.value| > 0
  {
    ReportMatchesBody(title, description, status);
  }
}
