/**
 * `task subtask <parent-task-id> <name>` (cmd/taskSubtask.go): the parent is
 * fetched first to learn its internal ID and its list; the subtask is then
 * created in the list given by --list, or else in the parent's list.
 */
module TaskSubtask {
  import opened Wrappers
  import opened Types
  import opened Commands
  import Client
  import Format

  const NoTargetList := "could not determine list ID for subtask creation"

  /** The list the subtask goes into: the flag when given, the parent's list otherwise. */
  function TargetList(listFlag: string, parent: Task): (r: string)
    ensures listFlag != "" ==> r == listFlag
    ensures listFlag == "" ==> r == parent.list.id
    ensures r == "" <==> listFlag == "" && parent.list.id == ""
  {
    Format.Or(listFlag, parent.list.id)
  }

  /**
   * The creation body: the name, the parent's internal ID (never the ID typed
   * on the command line, which may be a custom ID), and the description only
   * when one was given.
   */
  function SubtaskBody(name: string, parent: Task, description: string): (r: map<string, string>)
    ensures r.Keys <= {"name", "parent", "markdown_description"}
    ensures "name" in r && r["name"] == name
    ensures "parent" in r && r["parent"] == parent.id
    ensures ("markdown_description" in r <==> description != "") &&
            (description != "" ==> r["markdown_description"] == description)
  {
    var m := map["name" := name, "parent" := parent.id];
    if description != "" then m["markdown_description" := description] else m
  }

  function ParentRequest(parentId: string, custom: bool, teamId: string): Client.Request {
    Client.Request(Client.Get, "/task/" + parentId, CustomIdParams(custom, teamId), None)
  }

  function CreateRequest(target: string, custom: bool, teamId: string, body: map<string, string>): Client.Request {
    Client.Request(Client.Post, "/list/" + target + "/task", CustomIdParams(custom, teamId), Some(body))
  }

  function SubtaskReport(subtask: Task, parent: Task, parentId: string): (r: seq<string>)
    ensures |r| == 5
    ensures r[0] == "Subtask created: " + Format.PreferredId(subtask) + " " + subtask.name
    ensures r[1] == "Parent: " + parent.name + " (" + parentId + ")"
    ensures r[2] == "List: " + parent.list.name
    ensures r[3] == "Status: " + subtask.status.status && r[4] == "URL: " + subtask.url
  {
    ["Subtask created: " + Format.PreferredId(subtask) + " " + subtask.name,
     "Parent: " + parent.name + " (" + parentId + ")",
     "List: " + parent.list.name,
     "Status: " + subtask.status.status,
     "URL: " + subtask.url]
  }

  /**
   * The whole command. The parent is always fetched; a failure there, or no
   * list to create in, ends the command after that one request. Otherwise the
   * subtask is created with one POST, whose failure is returned as "creating
   * subtask: ...".
   */
  function RunTaskSubtask(parentId: string, name: string, custom: bool, description: string, listFlag: string,
                          teamId: string, parentReply: Result<Task>, createReply: Result<Task>): (r: Run)
    ensures |r.requests| >= 1 && r.requests[0] == ParentRequest(parentId, custom, teamId)
    ensures parentReply.Err? ==> r == Run([ParentRequest(parentId, custom, teamId)], Err(Wrap("fetching parent task", parentReply.msg)))
    ensures parentReply.Ok? && TargetList(listFlag, parentReply.value) == "" ==>
              r == Run([ParentRequest(parentId, custom, teamId)], Err(NoTargetList))
    ensures parentReply.Ok? && TargetList(listFlag, parentReply.value) != "" ==>
              var parent := parentReply.value;
              && r.requests == [ParentRequest(parentId, custom, teamId),
                                CreateRequest(TargetList(listFlag, parent), custom, teamId, SubtaskBody(name, parent, description))]
              && (createReply.Err? ==> r.outcome == Err(Wrap("creating subtask", createReply.msg)))
              && (createReply.Ok? ==> r.outcome == Ok(SubtaskReport(createReply.value, parent, parentId)))
  {
    var fetch := ParentRequest(parentId, custom, teamId);
    match parentReply
    case Err(e) => Run([fetch], Err(Wrap("fetching parent task", e)))
    case Ok(parent) =>
      var target := TargetList(listFlag, parent);
      if target == "" then Run([fetch], Err(NoTargetList))
      else
        var create := CreateRequest(target, custom, teamId, SubtaskBody(name, parent, description));
        match createReply
        case Err(e) => Run([fetch, create], Err(Wrap("creating subtask", e)))
        case Ok(subtask) => Run([fetch, create], Ok(SubtaskReport(subtask, parent, parentId)))
  }

  /**
   * Both requests read IDs the same way, and the subtask is created under the
   * parent the first request found: the POST names the fetched task's own ID
   * as the parent and goes to the flag's list or, without the flag, to the
   * parent's list.
   */
  lemma CreateFollowsFetchedParent(parentId: string, name: string, custom: bool, description: string, listFlag: string,
                                   teamId: string, parent: Task, createReply: Result<Task>)
    requires |RunTaskSubtask(parentId, name, custom, description, listFlag, teamId, Ok(parent), createReply).requests| == 2
    ensures var reqs := RunTaskSubtask(parentId, name, custom, description, listFlag, teamId, Ok(parent), createReply).requests;
            && reqs[1].params == reqs[0].params
            && reqs[1].body.Some? && reqs[1].body.value["parent"] == parent.id
            && (listFlag == "" ==> reqs[1].endpoint == "/list/" + parent.list.id + "/task")
            && (listFlag != "" ==> reqs[1].endpoint == "/list/" + listFlag + "/task")
  {
  }
}
