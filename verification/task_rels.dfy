/**
 * `task rels <task-id>` (cmd/taskRels.go): one GET of the task, then its
 * dependencies and linked tasks, each kind under a header counting it, and
 * the total.
 */
module TaskRels {
  import opened Wrappers
  import opened Types
  import opened Commands
  import Client
  import Format
  import Decimal
  import Seqs

  function DependencyEntry(d: Dependency, stamp: int -> string): string {
    "  - Task " + d.dependsOn + " (type: " + Decimal.IntToString(d.kind) + ", created: "
      + Format.FormatTimestamp(d.dateCreated, stamp) + ")"
  }

  function LinkEntry(l: LinkedTask, stamp: int -> string): string {
    "  - Task " + l.linkId + " (created: " + Format.FormatTimestamp(l.dateCreated, stamp) + ", by user: " + l.userId + ")"
  }

  /** A non-empty group: its header with the count, one line per entry, and an empty line. */
  function Group(header: string, entries: seq<string>): (r: seq<string>)
    ensures |entries| == 0 <==> r == []
    ensures |entries| > 0 ==> |r| == |entries| + 2 && r[0] == header && r[1..|r| - 1] == entries && r[|r| - 1] == ""
  {
    if |entries| == 0 then [] else [header] + entries + [""]
  }

  function DependencyGroup(deps: seq<Dependency>, stamp: int -> string): (r: seq<string>)
    ensures |deps| == 0 <==> r == []
    ensures |deps| > 0 ==>
              && |r| == |deps| + 2
              && r[0] == "Dependencies (" + Decimal.IntToString(|deps|) + "):"
              && (forall i | 0 <= i < |deps| :: r[1 + i] == DependencyEntry(deps[i], stamp))
  {
    Group("Dependencies (" + Decimal.IntToString(|deps|) + "):",
          seq(|deps|, i requires 0 <= i < |deps| => DependencyEntry(deps[i], stamp)))
  }

  function LinkGroup(links: seq<LinkedTask>, stamp: int -> string): (r: seq<string>)
    ensures |links| == 0 <==> r == []
    ensures |links| > 0 ==>
              && |r| == |links| + 2
              && r[0] == "Linked Tasks (" + Decimal.IntToString(|links|) + "):"
              && (forall i | 0 <= i < |links| :: r[1 + i] == LinkEntry(links[i], stamp))
  {
    Group("Linked Tasks (" + Decimal.IntToString(|links|) + "):",
          seq(|links|, i requires 0 <= i < |links| => LinkEntry(links[i], stamp)))
  }

  /** The number of relationships the task has. */
  function Total(t: Task): nat {
    |t.dependencies| + |t.linkedTasks|
  }

  /**
   * What is printed for the fetched task: one line when it has no
   * relationships; otherwise the title line, an empty line, the dependency
   * group, the link group, and the total.
   */
  function RelsOutput(t: Task, taskId: string, stamp: int -> string): (r: seq<string>)
    ensures Total(t) == 0 ==> r == ["No relationships found for task: " + t.name]
    ensures Total(t) > 0 ==>
              var deps := DependencyGroup(t.dependencies, stamp);
              var links := LinkGroup(t.linkedTasks, stamp);
              && |r| == 3 + |deps| + |links|
              && r[0] == "Relationships for: " + t.name + " (" + taskId + ")"
              && r[1] == ""
              && r[2..2 + |deps|] == deps
              && r[2 + |deps|..2 + |deps| + |links|] == links
              && r[|r| - 1] == "Total: " + Decimal.IntToString(Total(t)) + " relationship(s)"
  {
    if Total(t) == 0 then ["No relationships found for task: " + t.name]
    else
      var deps := DependencyGroup(t.dependencies, stamp);
      var links := LinkGroup(t.linkedTasks, stamp);
      var head := ["Relationships for: " + t.name + " (" + taskId + ")", ""];
      var total := ["Total: " + Decimal.IntToString(Total(t)) + " relationship(s)"];
      Seqs.ConcatParts(head, deps, links + total);
      Seqs.ConcatParts(head + deps, links, total);
      head + deps + links + total
  }

  /**
   * The total agrees with the groups: the number of entry lines printed
   * under the two headers, which is the output's length less the title, the
   * blank after it, the group headers and blanks, and the total line.
   */
  lemma TotalCountsEntries(t: Task, taskId: string, stamp: int -> string)
    requires Total(t) > 0
    ensures var groups := Format.Count(|t.dependencies| > 0) + Format.Count(|t.linkedTasks| > 0);
            |RelsOutput(t, taskId, stamp)| == 3 + 2 * groups + Total(t)
  {
  }

  function TaskRequest(taskId: string, custom: bool, teamId: string): Client.Request {
    Client.Request(Client.Get, "/task/" + taskId, CustomIdParams(custom, teamId), None)
  }

  /**
   * The whole command: exactly one request, a failure returned as "getting
   * task: ..." with nothing printed, and otherwise the output for the task.
   */
  function RunTaskRels(taskId: string, custom: bool, teamId: string, reply: Result<Task>, stamp: int -> string): (r: Run)
    ensures r.requests == [TaskRequest(taskId, custom, teamId)]
    ensures reply.Err? ==> r.outcome == Err(Wrap("getting task", reply.msg))
    ensures reply.Ok? ==> r.outcome == Ok(RelsOutput(reply.value, taskId, stamp))
  {
    match reply
    case Err(e) => Run([TaskRequest(taskId, custom, teamId)], Err(Wrap("getting task", e)))
    case Ok(t) => Run([TaskRequest(taskId, custom, teamId)], Ok(RelsOutput(t, taskId, stamp)))
  }
}
