/**
 * `list tasks <list-id>` (cmd/listTasks.go): one GET of a list's tasks. The
 * comma-separated assignee IDs are trimmed and appended to the endpoint as a
 * repeated `assignees[]` query key; --archived becomes a query parameter.
 */
module ListTasks {
  import opened Wrappers
  import opened Strings
  import opened Types
  import opened Commands
  import Client
  import Format
  import Decimal

  /** The assignee flag cut at each comma, every piece trimmed of surrounding whitespace. */
  function AssigneeIds(flag: string): (r: seq<string>)
    ensures |r| == |Split(flag, ',')|
    ensures forall i | 0 <= i < |r| :: r[i] == TrimSpace(Split(flag, ',')[i])
    ensures IsByteString(flag) ==> forall i | 0 <= i < |r| :: IsByteString(r[i])
  {
    var pieces := Split(flag, ',');
    forall i | 0 <= i < |pieces| && IsByteString(flag)
      ensures IsByteString(TrimSpace(pieces[i]))
    {
      TrimSpaceBytes(pieces[i]);
    }
    seq(|pieces|, i requires 0 <= i < |pieces| => TrimSpace(pieces[i]))
  }

  /**
   * An assignee flag with no whitespace in it is cut into IDs that, joined
   * again with commas, give back the flag: nothing is lost or reordered.
   */
  lemma AssigneeIdsRejoin(flag: string)
    requires forall i | 0 <= i < |flag| :: !IsSpace(flag[i])
    ensures AssigneeIds(flag) == Split(flag, ',')
    ensures Join(AssigneeIds(flag), ",") == flag
  {
    var pieces := Split(flag, ',');
    forall i | 0 <= i < |pieces|
      ensures TrimSpace(pieces[i]) == pieces[i]
    {
      SplitPiecesFrom(flag, ',', i);
      TrimSpaceNoSpace(pieces[i]);
    }
    JoinSplit(flag, ',');
  }

  /** Every character of a piece of `s` is a character of `s`. */
  lemma {:induction false} SplitPiecesFrom(s: string, c: char, i: int)
    requires 0 <= i < |Split(s, c)|
    ensures forall k | 0 <= k < |Split(s, c)[i]| :: Split(s, c)[i][k] in s
    decreases |s|
  {
    if |s| > 0 {
      var rest := Split(s[1..], c);
      if s[0] == c {
        if i > 0 {
          SplitPiecesFrom(s[1..], c, i - 1);
        }
      } else if i == 0 {
        SplitPiecesFrom(s[1..], c, 0);
        forall k | 0 <= k < |Split(s, c)[0]|
          ensures Split(s, c)[0][k] in s
        {
          if k > 0 {
            assert Split(s, c)[0][k] == rest[0][k - 1];
            assert rest[0][k - 1] in s[1..];
          }
        }
      } else {
        SplitPiecesFrom(s[1..], c, i);
        assert Split(s, c)[i] == rest[i];
      }
    }
  }

  function TasksBase(listId: string): string {
    "/list/" + listId + "/task"
  }

  /** The endpoint: the list's task path, with one `assignees[]` pair per ID when the flag is given. */
  function ListTasksEndpoint(listId: string, assignees: string): (r: string)
    requires IsByteString(assignees)
    ensures assignees == "" ==> r == TasksBase(listId)
    ensures assignees != "" ==> r == Client.SetQueryArray(TasksBase(listId), "assignees[]", AssigneeIds(assignees))
  {
    if assignees == "" then TasksBase(listId)
    else Client.SetQueryArray(TasksBase(listId), "assignees[]", AssigneeIds(assignees))
  }

  /**
   * The query appended to the endpoint reads back as one ("assignees[]", id)
   * pair per comma-separated ID, in the order given.
   */
  lemma AssigneeQueryReadsBack(listId: string, assignees: string)
    requires IsByteString(assignees) && assignees != ""
    ensures var r := ListTasksEndpoint(listId, assignees);
            var base := TasksBase(listId);
            && |r| > |base| && r[..|base|] == base
            && Client.ParseQuery(r[|base| + 1..]) == Some(Client.KeyedValues("assignees[]", AssigneeIds(assignees)))
  {
    Client.SetQueryArrayRoundTrip(TasksBase(listId), "assignees[]", AssigneeIds(assignees));
  }

  /** Query parameters: `archived=true` only when the flag is set. */
  function ListTasksParams(archived: bool): (r: map<string, string>)
    ensures archived ==> r.Keys == {"archived"} && r["archived"] == "true"
    ensures !archived ==> |r| == 0
  {
    if archived then map["archived" := "true"] else map[]
  }

  /**
   * What is printed: a fixed line for an empty list; otherwise the count of
   * all tasks, an empty line and the listing, whose last line is the blank
   * after the last summary.
   */
  function ListTasksOutput(tasks: seq<Task>, stamp: int -> string): (r: seq<string>)
    ensures |tasks| == 0 ==> r == ["No tasks found in this list."]
    ensures |tasks| > 0 ==>
              && |r| > 2
              && r[0] == "Found " + Decimal.IntToString(|tasks|) + " task(s) in list:"
              && r[1] == ""
              && r[2..] == Listing(tasks, stamp)
              && r[|r| - 1] == ""
  {
    if |tasks| == 0 then ["No tasks found in this list."]
    else
      var head := ["Found " + Decimal.IntToString(|tasks|) + " task(s) in list:", ""];
      assert (head + Listing(tasks, stamp))[2..] == Listing(tasks, stamp);
      head + Listing(tasks, stamp)
  }

  /**
   * Every task of the list is printed, in the order received: after the two
   * header lines, task `i`'s whole summary block follows the blocks of the
   * tasks before it.
   */
  lemma ListTasksShowsEach(tasks: seq<Task>, stamp: int -> string, i: int)
    requires 0 <= i < |tasks|
    ensures ListTasksOutput(tasks, stamp)[2..]
            == Listing(tasks[..i], stamp) + SummaryBlock(tasks[i], stamp) + Listing(tasks[i + 1..], stamp)
  {
    ListingAt(tasks, stamp, i);
  }

  /** Unlike the search, nothing is cut: the output holds one summary per task in the list. */
  lemma ListTasksShowsAll(tasks: seq<Task>, stamp: int -> string)
    requires |tasks| > 0
    ensures CountBlank(ListTasksOutput(tasks, stamp)) == 1 + |tasks|
  {
    var head := ["Found " + Decimal.IntToString(|tasks|) + " task(s) in list:", ""];
    ListingBlanks(tasks, stamp);
    CountBlankAppend(head, Listing(tasks, stamp));
    TitleBlank(head[0]);
  }

  /**
   * The whole command: exactly one request, a failure returned as "getting
   * tasks: ..." with nothing printed, and otherwise the output for the tasks
   * received.
   */
  function RunListTasks(listId: string, archived: bool, assignees: string, reply: Result<seq<Task>>,
                        stamp: int -> string): (r: Run)
    requires IsByteString(assignees)
    ensures r.requests == [Client.Request(Client.Get, ListTasksEndpoint(listId, assignees), ListTasksParams(archived), None)]
    ensures reply.Err? ==> r.outcome == Err(Wrap("getting tasks", reply.msg))
    ensures reply.Ok? ==> r.outcome == Ok(ListTasksOutput(reply.value, stamp))
  {
    var req := Client.Request(Client.Get, ListTasksEndpoint(listId, assignees), ListTasksParams(archived), None);
    match reply
    case Err(e) => Run([req], Err(Wrap("getting tasks", e)))
    case Ok(tasks) => Run([req], Ok(ListTasksOutput(tasks, stamp)))
  }
}
