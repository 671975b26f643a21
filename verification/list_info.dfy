/**
 * `list info <list-id>` (cmd/listInfo.go): one GET of a list, printed as a
 * fixed block of labelled lines followed by the list's statuses.
 */
module ListInfoCmd {
  import opened Wrappers
  import opened Types
  import opened Commands
  import Client
  import Format
  import Decimal
  import Seqs

  /** fmt's %t. */
  function BoolText(b: bool): (r: string)
    ensures r == "true" <==> b
    ensures r == "false" <==> !b
  {
    if b then "true" else "false"
  }

  /** The list's own status, or "None" when it has none. */
  function StatusText(s: Option<Status>): (r: string)
    ensures s.None? ==> r == "None"
    ensures s.Some? ==> r == s.value.status
  {
    if s.Some? then s.value.status else "None"
  }

  function StatusEntry(s: Status): string {
    "  - " + s.status + " (" + s.kind + ")"
  }

  /** The statuses block: absent without statuses; otherwise a header and one line per status, in order. */
  function StatusesSection(statuses: seq<Status>): (r: seq<string>)
    ensures |statuses| == 0 <==> r == []
    ensures |statuses| > 0 ==>
              && |r| == 1 + |statuses|
              && r[0] == "Statuses:"
              && forall i | 0 <= i < |statuses| :: r[1 + i] == StatusEntry(statuses[i])
  {
    Format.Section("Statuses:", seq(|statuses|, i requires 0 <= i < |statuses| => StatusEntry(statuses[i])))
  }

  /** The name over a rule, and the identity group closed by an empty line. */
  function IdentityLines(l: ListInfo): (r: seq<string>)
    ensures |r| == 8
    ensures r[0] == l.name && r[1] == Format.Rule && r[2] == ""
    ensures r[3] == "ID:               " + l.id
    ensures r[4] == "Status:           " + StatusText(l.status)
    ensures r[5] == "Task Count:       " + Decimal.IntToString(l.taskCount)
    ensures r[6] == "Permission Level: " + l.permissionLevel && r[7] == ""
  {
    [l.name, Format.Rule, "",
     "ID:               " + l.id,
     "Status:           " + StatusText(l.status),
     "Task Count:       " + Decimal.IntToString(l.taskCount),
     "Permission Level: " + l.permissionLevel,
     ""]
  }

  /** Where the list lives, with "No folder" for a folderless list, closed by an empty line. */
  function LocationLines(l: ListInfo): (r: seq<string>)
    ensures |r| == 3
    ensures r[0] == "Space:  " + l.space.name
    ensures r[1] == "Folder: " + Format.Or(l.folder.name, "No folder") && r[2] == ""
  {
    ["Space:  " + l.space.name, "Folder: " + Format.Or(l.folder.name, "No folder"), ""]
  }

  /** The three feature switches, closed by an empty line. */
  function SettingsLines(l: ListInfo): (r: seq<string>)
    ensures |r| == 4
    ensures r[0] == "Due Dates:          " + BoolText(l.dueDateTime)
    ensures r[1] == "Multiple Assignees: " + BoolText(l.multipleAssignees)
    ensures r[2] == "Time Tracking:      " + BoolText(l.timeTracking) && r[3] == ""
  {
    ["Due Dates:          " + BoolText(l.dueDateTime),
     "Multiple Assignees: " + BoolText(l.multipleAssignees),
     "Time Tracking:      " + BoolText(l.timeTracking),
     ""]
  }

  /** What is printed: the identity, location and settings groups, then the statuses. */
  function ListInfoLines(l: ListInfo): (r: seq<string>)
    ensures |r| == 15 + |StatusesSection(l.statuses)|
    ensures r[..8] == IdentityLines(l) && r[8..11] == LocationLines(l) && r[11..15] == SettingsLines(l)
    ensures r[15..] == StatusesSection(l.statuses)
  {
    var head := IdentityLines(l) + LocationLines(l) + SettingsLines(l);
    Seqs.ConcatParts(IdentityLines(l), LocationLines(l), SettingsLines(l));
    Seqs.ConcatParts(head, StatusesSection(l.statuses), []);
    head + StatusesSection(l.statuses)
  }

  /**
   * The task count line shows the count the API sent whether it came as a
   * JSON number or as a string of the same digits.
   */
  lemma TaskCountFromEitherEncoding(l: ListInfo, n: int, v: JsonValue)
    requires Decimal.MinInt64 <= n <= Decimal.MaxInt64
    requires v == JNumber(Decimal.IntToString(n)) || v == JString(Decimal.IntToString(n))
    ensures IdentityLines(l.(taskCount := ApplyFlex(l.taskCount, DecodeFlexInt(v))))[5]
              == "Task Count:       " + Decimal.IntToString(n)
  {
    FlexIntReadsPrintedInt(n);
  }

  function ListRequest(listId: string): Client.Request {
    Client.Request(Client.Get, "/list/" + listId, map[], None)
  }

  /**
   * The whole command: exactly one request, a failure returned as "getting
   * list info: ..." with nothing printed, and otherwise the list's block.
   */
  function RunListInfo(listId: string, reply: Result<ListInfo>): (r: Run)
    ensures r.requests == [ListRequest(listId)]
    ensures reply.Err? ==> r.outcome == Err(Wrap("getting list info", reply.msg))
    ensures reply.Ok? ==> r.outcome == Ok(ListInfoLines(reply.value))
  {
    match reply
    case Err(e) => Run([ListRequest(listId)], Err(Wrap("getting list info", e)))
    case Ok(l) => Run([ListRequest(listId)], Ok(ListInfoLines(l)))
  }
}
