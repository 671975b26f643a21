/**
 * The response formatters of internal/api/format.go. A rendering is a
 * sequence of lines without their terminators; the Go string is those lines
 * each followed by "\n".
 *
 * `stamp` stands for time.UnixMilli(n).Format("2006-01-02 15:04"), which
 * depends on the process's time zone and is not modelled.
 */
module Format {
  import opened Wrappers
  import opened Strings
  import opened Types
  import Decimal
  import Seqs

  // ---------------------------------------------------------------------------
  // Timestamps and durations

  /**
   * FormatTimestamp: an empty string stays empty, a string ParseInt rejects
   * comes back unchanged, and a millisecond count is handed to the clock
   * formatter.
   */
  function FormatTimestamp(ms: string, stamp: int -> string): (r: string)
    ensures ms == "" ==> r == ""
    ensures ms != "" && !Decimal.ParseInt(ms).Parsed? ==> r == ms
    ensures Decimal.ParseInt(ms).Parsed? ==> r == stamp(Decimal.ParseInt(ms).value)
  {
    if ms == "" then ""
    else
      match Decimal.ParseInt(ms)
      case Parsed(n) => stamp(n)
      case _ => ms
  }

  /** A millisecond count the API printed in decimal is formatted as that instant. */
  lemma TimestampOfPrintedInt(n: int, stamp: int -> string)
    requires Decimal.MinInt64 <= n <= Decimal.MaxInt64
    ensures FormatTimestamp(Decimal.IntToString(n), stamp) == stamp(n)
  {
    Decimal.ParseIntRoundTrip(n);
  }

  /** Go's integer division, which truncates toward zero. */
  function Quot(a: int, b: int): (q: int)
    requires b > 0
    ensures a >= 0 ==> q == a / b
    ensures a < 0 ==> q <= 0
  {
    if a >= 0 then a / b else -((-a) / b)
  }

  /** The whole minutes in `ms`, as `ms / 1000 / 60` computes them. */
  function Minutes(ms: int): int {
    Quot(Quot(ms, 1000), 60)
  }

  lemma MinutesOfNonNegative(ms: int)
    requires ms >= 0
    ensures Minutes(ms) == ms / 60000
  {
    var q := ms / 1000;
    var a := q / 60;
    assert ms == 1000 * q + ms % 1000;
    assert q == 60 * a + q % 60;
    assert ms == 60000 * a + (1000 * (q % 60) + ms % 1000);
  }

  /**
   * FormatDurationMs: under an hour it is "{m}m"; whole hours are "{h}h";
   * otherwise "{h}h {m}m" with the minute part between 1 and 59.
   */
  function FormatDurationMs(ms: int): (r: string)
    ensures Minutes(ms) < 60 ==> r == Decimal.IntToString(Minutes(ms)) + "m"
    ensures Minutes(ms) >= 60 && Minutes(ms) % 60 == 0 ==> r == Decimal.NatToString(Minutes(ms) / 60) + "h"
    ensures Minutes(ms) >= 60 && Minutes(ms) % 60 != 0 ==>
              1 <= Minutes(ms) % 60 <= 59 &&
              r == Decimal.NatToString(Minutes(ms) / 60) + "h " + Decimal.NatToString(Minutes(ms) % 60) + "m"
  {
    var minutes := Minutes(ms);
    if minutes < 60 then Decimal.IntToString(minutes) + "m"
    else
      var hours := minutes / 60;
      var remaining := minutes % 60;
      if remaining == 0 then Decimal.NatToString(hours) + "h"
      else Decimal.NatToString(hours) + "h " + Decimal.NatToString(remaining) + "m"
  }

  /** Read a "{n}{unit}" amount. */
  function ParseAmount(s: string, unit: char): Option<nat> {
    if |s| >= 2 && s[|s| - 1] == unit && Decimal.AllDigits(s[..|s| - 1])
    then Some(Decimal.DigitsValue(s[..|s| - 1]))
    else None
  }

  /** Read a rendered duration back into whole minutes. */
  function ParseDuration(s: string): Option<nat> {
    var parts := Split(s, ' ');
    if |parts| == 1 then
      match (ParseAmount(parts[0], 'm'), ParseAmount(parts[0], 'h'))
      case (Some(m), _) => Some(m)
      case (None, Some(h)) => Some(h * 60)
      case _ => None
    else if |parts| == 2 then
      match (ParseAmount(parts[0], 'h'), ParseAmount(parts[1], 'm'))
      case (Some(h), Some(m)) => Some(h * 60 + m)
      case _ => None
    else None
  }

  lemma ParseAmountOf(n: nat, unit: char)
    requires !Decimal.IsDigit(unit) && unit != ' '
    ensures ParseAmount(Decimal.NatToString(n) + [unit], unit) == Some(n)
    ensures ' ' !in Decimal.NatToString(n) + [unit]
  {
    var s := Decimal.NatToString(n) + [unit];
    assert s[..|s| - 1] == Decimal.NatToString(n);
    Decimal.NatToStringValue(n);
    forall i | 0 <= i < |s|
      ensures s[i] != ' '
    {
      if i < |s| - 1 {
        assert Decimal.IsDigit(Decimal.NatToString(n)[i]);
      }
    }
  }

  /** A non-negative duration renders to text that reads back as its whole minutes. */
  lemma DurationRoundTrip(ms: int)
    requires ms >= 0
    ensures ParseDuration(FormatDurationMs(ms)) == Some(ms / 60000)
  {
    MinutesOfNonNegative(ms);
    var m := ms / 60000;
    if m < 60 {
      ReadMinutes(m);
    } else if m % 60 == 0 {
      ReadHours(m / 60);
    } else {
      ReadHoursMinutes(m / 60, m % 60);
    }
  }

  lemma ReadMinutes(m: nat)
    ensures ParseDuration(Decimal.IntToString(m) + "m") == Some(m)
  {
    ParseAmountOf(m, 'm');
    SplitNoSeparator(Decimal.NatToString(m) + "m", ' ');
  }

  lemma ReadHours(h: nat)
    ensures ParseDuration(Decimal.NatToString(h) + "h") == Some(h * 60)
  {
    ParseAmountOf(h, 'h');
    SplitNoSeparator(Decimal.NatToString(h) + "h", ' ');
  }

  lemma SplitPair(a: string, b: string)
    requires ' ' !in a && ' ' !in b
    ensures Split(a + " " + b, ' ') == [a, b]
  {
    JoinCons(a, [b], " ");
    SplitJoin([a, b], ' ');
  }

  lemma ReadHoursMinutes(h: nat, m: nat)
    ensures ParseDuration(Decimal.NatToString(h) + "h " + Decimal.NatToString(m) + "m") == Some(h * 60 + m)
  {
    var x := Decimal.NatToString(h);
    var y := Decimal.NatToString(m);
    Regroup(x, y);
    ParseAmountOf(h, 'h');
    ParseAmountOf(m, 'm');
    SplitPair(x + "h", y + "m");
    ReadTwoParts((x + "h") + " " + (y + "m"), x + "h", y + "m");
  }

  lemma Regroup(x: string, y: string)
    ensures x + "h " + y + "m" == (x + "h") + " " + (y + "m")
  {
  }

  lemma ReadTwoParts(t: string, a: string, b: string)
    requires Split(t, ' ') == [a, b]
    requires ParseAmount(a, 'h').Some? && ParseAmount(b, 'm').Some?
    ensures ParseDuration(t) == Some(ParseAmount(a, 'h').value * 60 + ParseAmount(b, 'm').value)
  {
  }

  // ---------------------------------------------------------------------------
  // Fallbacks and identifiers

  /** Or: the fallback exactly when the string is empty. */
  function Or(s: string, fallback: string): (r: string)
    ensures s == "" ==> r == fallback
    ensures s != "" ==> r == s
    ensures r == "" <==> s == "" && fallback == ""
  {
    if s == "" then fallback else s
  }

  /** Applying the same fallback twice changes nothing. */
  lemma OrIdempotent(s: string, fallback: string)
    ensures Or(Or(s, fallback), fallback) == Or(s, fallback)
  {
  }

  /** The task has a custom ID worth showing. */
  predicate HasCustomId(t: Task) {
    t.customId.Some? && t.customId.value != ""
  }

  /** The ID the summary view shows: a non-empty custom ID, else the internal ID. */
  function PreferredId(t: Task): (r: string)
    ensures HasCustomId(t) ==> r == t.customId.value
    ensures !HasCustomId(t) ==> r == t.id
  {
    match t.customId
    case Some(c) => if c != "" then c else t.id
    case None => t.id
  }

  /** The ID the detail view shows: "custom (internal)" when there is a custom ID, else the internal ID. */
  function DetailId(t: Task): (r: string)
    ensures HasCustomId(t) ==> r == t.customId.value + " (" + t.id + ")"
    ensures !HasCustomId(t) ==> r == t.id
  {
    if HasCustomId(t) then t.customId.value + " (" + t.id + ")" else t.id
  }

  /** The detail ID starts with the summary ID, and differs from it exactly when a custom ID is shown. */
  lemma DetailIdExtendsPreferredId(t: Task)
    ensures |PreferredId(t)| <= |DetailId(t)| && DetailId(t)[..|PreferredId(t)|] == PreferredId(t)
    ensures DetailId(t) == PreferredId(t) <==> !HasCustomId(t)
  {
    if HasCustomId(t) {
      assert |DetailId(t)| > |PreferredId(t)|;
    }
  }

  const DescriptionLimit := 200

  /**
   * The summary's description: unchanged up to 200 bytes, otherwise its
   * first 200 bytes followed by "...".
   */
  function TruncateDescription(d: string): (r: string)
    ensures |d| <= DescriptionLimit ==> r == d
    ensures |d| > DescriptionLimit ==> |r| == DescriptionLimit + 3 && r[..DescriptionLimit] == d[..DescriptionLimit] && r[DescriptionLimit..] == "..."
    ensures r == "" <==> d == ""
  {
    if |d| > DescriptionLimit then d[..DescriptionLimit] + "..." else d
  }

  function Usernames(users: seq<User>): (r: seq<string>)
    ensures |r| == |users|
    ensures forall i | 0 <= i < |r| :: r[i] == users[i].username
  {
    seq(|users|, i requires 0 <= i < |users| => users[i].username)
  }

  function TagNames(tags: seq<Tag>): (r: seq<string>)
    ensures |r| == |tags|
    ensures forall i | 0 <= i < |r| :: r[i] == tags[i].name
  {
    seq(|tags|, i requires 0 <= i < |tags| => tags[i].name)
  }

  /**
   * Names joined by ", ", or the fallback when there are none. The fallback
   * also stands in for a single empty name, the only other way the join is
   * empty.
   */
  function NamesOr(names: seq<string>, fallback: string): (r: string)
    ensures |names| == 0 ==> r == fallback
    ensures |names| == 1 && names[0] == "" ==> r == fallback
    ensures |names| > 1 || (|names| == 1 && names[0] != "") ==> r == Join(names, ", ")
  {
    Or(Join(names, ", "), fallback)
  }

  // ---------------------------------------------------------------------------
  // Task summary

  function SummaryHead(t: Task): string {
    PreferredId(t) + "  " + t.name + "  [" + t.status.status + "]"
  }

  function Count(b: bool): nat {
    if b then 1 else 0
  }

  /**
   * FormatTaskSummary. The first line is "id  name  [status]" and the last is
   * the URL; in between, in this order, come the Assignees line exactly when
   * there is an assignee, the Due line exactly when there is a due date, and
   * the (truncated) description exactly when it is non-empty.
   */
  function SummaryLines(t: Task, stamp: int -> string): (r: seq<string>)
    ensures var a := Count(|t.assignees| > 0); var d := Count(t.dueDate.Some?);
              && |r| == 2 + a + d + Count(t.description != "")
              && r[0] == SummaryHead(t)
              && r[|r| - 1] == "  " + t.url
              && (a == 1 ==> r[1] == "  Assignees: " + Join(Usernames(t.assignees), ", "))
              && (d == 1 ==> r[1 + a] == "  Due: " + FormatTimestamp(t.dueDate.value, stamp))
              && (t.description != "" ==> r[1 + a + d] == "  " + TruncateDescription(t.description))
  {
    var assignees := if |t.assignees| > 0 then ["  Assignees: " + Join(Usernames(t.assignees), ", ")] else [];
    var due := if t.dueDate.Some? then ["  Due: " + FormatTimestamp(t.dueDate.value, stamp)] else [];
    var desc := TruncateDescription(t.description);
    var description := if desc != "" then ["  " + desc] else [];
    [SummaryHead(t)] + assignees + due + description + ["  " + t.url]
  }

  // ---------------------------------------------------------------------------
  // Task detail

  const Rule := "========================================"

  /** The priority, or "None" when there is none. */
  function PriorityText(p: Option<Priority>): (r: string)
    ensures p.None? ==> r == "None"
    ensures p.Some? ==> r == p.value.priority
  {
    match p
    case Some(v) => v.priority
    case None => "None"
  }

  /** The parent, or "None (top-level task)" when it is missing or empty. */
  function ParentText(p: Option<string>): (r: string)
    ensures (p.None? || p.value == "") ==> r == "None (top-level task)"
    ensures (p.Some? && p.value != "") ==> r == p.value
  {
    match p
    case Some(v) => if v != "" then v else "None (top-level task)"
    case None => "None (top-level task)"
  }

  /** A time field, with a nil pointer read as 0 ms. */
  function MsOrZero(ms: Option<int>): (r: int)
    ensures ms.None? ==> r == 0
    ensures ms.Some? ==> r == ms.value
  {
    ms.GetOr(0)
  }

  /** A missing estimate or spent time renders as "0m". */
  lemma MissingTimeIsZeroMinutes()
    ensures FormatDurationMs(MsOrZero(None)) == "0m"
  {
  }

  /** A titled block: nothing when there are no items, else the header followed by the items. */
  function Section(header: string, items: seq<string>): (r: seq<string>)
    ensures |items| == 0 <==> r == []
    ensures |items| > 0 ==> |r| == |items| + 1 && r[0] == header && r[1..] == items
  {
    if |items| == 0 then [] else [header] + items
  }

  function SubtaskLine(st: Task): string {
    "  - " + PreferredId(st) + " [" + st.status.status + "] " + st.name
      + " (" + NamesOr(Usernames(st.assignees), "Unassigned") + ")"
  }

  /**
   * The subtask block: absent without subtasks; otherwise a blank line, the
   * "Subtasks (n):" header and one line per subtask, in order, each led by
   * that subtask's preferred ID.
   */
  function SubtaskSection(subtasks: seq<Task>): (r: seq<string>)
    ensures |subtasks| == 0 <==> r == []
    ensures |subtasks| > 0 ==>
              && |r| == |subtasks| + 2
              && r[0] == "" && r[1] == "Subtasks (" + Decimal.IntToString(|subtasks|) + "):"
              && forall i | 0 <= i < |subtasks| :: r[i + 2] == SubtaskLine(subtasks[i])
  {
    var lines := seq(|subtasks|, i requires 0 <= i < |subtasks| => SubtaskLine(subtasks[i]));
    if |subtasks| == 0 then [] else [""] + Section("Subtasks (" + Decimal.IntToString(|subtasks|) + "):", lines)
  }

  function DependencyLine(d: Dependency): string {
    "    - " + d.dependsOn + " (type: " + Decimal.IntToString(d.kind) + ")"
  }

  function LinkLine(l: LinkedTask, stamp: int -> string): string {
    "    - " + l.linkId + " (created: " + FormatTimestamp(l.dateCreated, stamp) + ")"
  }

  /** Lines taken by a section of `n` items under one header. */
  function SectionSize(n: nat): nat {
    if n == 0 then 0 else n + 1
  }

  /**
   * The relationship block: absent when there are neither dependencies nor
   * linked tasks; otherwise "Relationships:" after a blank line, then each
   * non-empty sub-block with a header counting its entries and one line per
   * entry.
   */
  function RelationSection(deps: seq<Dependency>, links: seq<LinkedTask>, stamp: int -> string): (r: seq<string>)
    ensures (|deps| == 0 && |links| == 0) <==> r == []
    ensures r != [] ==>
              && |r| == 2 + SectionSize(|deps|) + SectionSize(|links|)
              && r[0] == "" && r[1] == "Relationships:"
    ensures |deps| > 0 ==>
              && r[2] == "  Dependencies (" + Decimal.IntToString(|deps|) + "):"
              && forall i | 0 <= i < |deps| :: r[3 + i] == DependencyLine(deps[i])
    ensures |links| > 0 ==>
              var at := 2 + SectionSize(|deps|);
              && r[at] == "  Linked Tasks (" + Decimal.IntToString(|links|) + "):"
              && forall i | 0 <= i < |links| :: r[at + 1 + i] == LinkLine(links[i], stamp)
  {
    if |deps| == 0 && |links| == 0 then []
    else
      var depLines := seq(|deps|, i requires 0 <= i < |deps| => DependencyLine(deps[i]));
      var linkLines := seq(|links|, i requires 0 <= i < |links| => LinkLine(links[i], stamp));
      var head := ["", "Relationships:"];
      var depSection := Section("  Dependencies (" + Decimal.IntToString(|deps|) + "):", depLines);
      var linkSection := Section("  Linked Tasks (" + Decimal.IntToString(|links|) + "):", linkLines);
      Seqs.ConcatParts(head, depSection, linkSection);
      head + depSection + linkSection
  }

  /** Name, rule, and the identity lines; the Due line only when there is a due date. */
  function DetailHeader(t: Task, stamp: int -> string): (r: seq<string>)
    ensures |r| == 7 + Count(t.dueDate.Some?)
    ensures r[0] == t.name && r[1] == Rule && r[2] == ""
    ensures r[3] == "ID:       " + DetailId(t)
    ensures r[4] == "Status:   " + t.status.status
    ensures r[5] == "Priority: " + PriorityText(t.priority)
    ensures r[6] == "Created:  " + FormatTimestamp(t.dateCreated, stamp)
    ensures t.dueDate.Some? ==> r[7] == "Due:      " + FormatTimestamp(t.dueDate.value, stamp)
  {
    var due := if t.dueDate.Some? then ["Due:      " + FormatTimestamp(t.dueDate.value, stamp)] else [];
    [ t.name, Rule, ""
    , "ID:       " + DetailId(t)
    , "Status:   " + t.status.status
    , "Priority: " + PriorityText(t.priority)
    , "Created:  " + FormatTimestamp(t.dateCreated, stamp) ]
    + due
  }

  /** People and placement, with the "Unassigned" / "None" fallbacks. */
  function DetailPeople(t: Task): (r: seq<string>)
    ensures |r| == 10
    ensures r[0] == "" && r[4] == "" && r[9] == ""
    ensures r[1] == "Assignees: " + NamesOr(Usernames(t.assignees), "Unassigned")
    ensures r[2] == "Watchers:  " + NamesOr(Usernames(t.watchers), "None")
    ensures r[3] == "Creator:   " + t.creator.username
    ensures r[5] == "List:   " + t.list.name + " (ID: " + t.list.id + ")"
    ensures r[6] == "Space:  " + t.space.name
    ensures r[7] == "Tags:   " + NamesOr(TagNames(t.tags), "None")
    ensures r[8] == "Parent: " + ParentText(t.parent)
  {
    [ ""
    , "Assignees: " + NamesOr(Usernames(t.assignees), "Unassigned")
    , "Watchers:  " + NamesOr(Usernames(t.watchers), "None")
    , "Creator:   " + t.creator.username
    , ""
    , "List:   " + t.list.name + " (ID: " + t.list.id + ")"
    , "Space:  " + t.space.name
    , "Tags:   " + NamesOr(TagNames(t.tags), "None")
    , "Parent: " + ParentText(t.parent)
    , "" ]
  }

  /** URL and time tracking, with nil times read as 0 ms. */
  function DetailTracking(t: Task): (r: seq<string>)
    ensures |r| == 4
    ensures r[0] == "URL: " + t.url && r[1] == ""
    ensures r[2] == "Time Estimated: " + FormatDurationMs(MsOrZero(t.timeEstimate))
    ensures r[3] == "Time Spent:     " + FormatDurationMs(MsOrZero(t.timeSpent))
  {
    [ "URL: " + t.url
    , ""
    , "Time Estimated: " + FormatDurationMs(MsOrZero(t.timeEstimate))
    , "Time Spent:     " + FormatDurationMs(MsOrZero(t.timeSpent)) ]
  }

  /** The description block: absent for an empty description, otherwise a header, the text, and an empty line. */
  function DescriptionLines(description: string): (r: seq<string>)
    ensures description == "" <==> r == []
    ensures description != "" ==> r == ["Description:", description, ""]
  {
    if description != "" then ["Description:", description, ""] else []
  }

  /**
   * The lines of the detail view before its subtask and relationship blocks:
   * the header (with the Due line only for a due date), the people and
   * placement lines, the description block only for a non-empty
   * description, and the URL and time tracking lines.
   */
  function DetailBody(t: Task, stamp: int -> string): (r: seq<string>)
    ensures var d := Count(t.dueDate.Some?); var e := 3 * Count(t.description != "");
              && |r| == 21 + d + e
              && r[..7 + d] == DetailHeader(t, stamp)
              && r[7 + d..17 + d] == DetailPeople(t)
              && r[17 + d..17 + d + e] == DescriptionLines(t.description)
              && r[17 + d + e..] == DetailTracking(t)
  {
    var head := DetailHeader(t, stamp);
    var people := DetailPeople(t);
    var description := DescriptionLines(t.description);
    var tracking := DetailTracking(t);
    Seqs.ConcatParts(head, people, description + tracking);
    Seqs.ConcatParts(head + people, description, tracking);
    head + people + description + tracking
  }

  /**
   * FormatTaskDetail: the fixed body, then the subtask block, then the
   * relationship block; each block present exactly under its condition.
   */
  function DetailLines(t: Task, stamp: int -> string): (r: seq<string>)
    ensures var body := DetailBody(t, stamp);
              var subs := SubtaskSection(t.subtasks);
              var rels := RelationSection(t.dependencies, t.linkedTasks, stamp);
              && |r| == |body| + |subs| + |rels|
              && r[..|body|] == body
              && r[|body|..|body| + |subs|] == subs
              && r[|body| + |subs|..] == rels
  {
    var body := DetailBody(t, stamp);
    var subs := SubtaskSection(t.subtasks);
    var rels := RelationSection(t.dependencies, t.linkedTasks, stamp);
    Seqs.ConcatParts(body, subs, rels);
    body + subs + rels
  }

  /**
   * The length of FormatTaskDetail's output in closed form, for any task:
   * twenty-one fixed lines, the Due line, the description block, the subtask
   * block with its blank line and header, and the relationship block.
   */
  lemma DetailLength(t: Task, stamp: int -> string)
    ensures |DetailLines(t, stamp)|
              == 21 + Count(t.dueDate.Some?) + 3 * Count(t.description != "")
                 + (if |t.subtasks| > 0 then |t.subtasks| + 2 else 0)
                 + (if |t.dependencies| > 0 || |t.linkedTasks| > 0
                    then 2 + SectionSize(|t.dependencies|) + SectionSize(|t.linkedTasks|) else 0)
  {
  }

  /** The fixed body opens with the task's name and has its URL four lines before its end. */
  lemma BodyEnds(t: Task, stamp: int -> string)
    ensures var body := DetailBody(t, stamp);
              var k := 17 + Count(t.dueDate.Some?) + 3 * Count(t.description != "");
              && |body| == k + 4
              && body[0] == t.name
              && body[k] == "URL: " + t.url
  {
    var body := DetailBody(t, stamp);
    var k := 17 + Count(t.dueDate.Some?) + 3 * Count(t.description != "");
    Seqs.PartAt(body, 0, DetailHeader(t, stamp), 0);
    assert body[k..][0] == DetailTracking(t)[0];
  }

  /** FormatTaskDetail opens with the task's name, whatever the task. */
  lemma DetailNameFirst(t: Task, stamp: int -> string)
    ensures |DetailLines(t, stamp)| > 0 && DetailLines(t, stamp)[0] == t.name
  {
    BodyEnds(t, stamp);
    Seqs.PartAt(DetailLines(t, stamp), 0, DetailBody(t, stamp), 0);
  }

  /**
   * Where FormatTaskDetail puts the URL, for any task: right after the
   * people lines and the description block, so at a fixed offset from the
   * start that only the Due line and the description shift.
   */
  lemma DetailUrlAt(t: Task, stamp: int -> string)
    ensures var k := 17 + Count(t.dueDate.Some?) + 3 * Count(t.description != "");
              |DetailLines(t, stamp)| > k && DetailLines(t, stamp)[k] == "URL: " + t.url
  {
    var k := 17 + Count(t.dueDate.Some?) + 3 * Count(t.description != "");
    BodyEnds(t, stamp);
    Seqs.PartAt(DetailLines(t, stamp), 0, DetailBody(t, stamp), k);
  }

  /**
   * Where FormatTaskDetail puts the subtask block, for any task with
   * subtasks: right after the fixed body, a blank line and then the header
   * counting them.
   */
  lemma DetailSubtaskHeader(t: Task, stamp: int -> string)
    requires |t.subtasks| > 0
    ensures var r := DetailLines(t, stamp);
              var k := 21 + Count(t.dueDate.Some?) + 3 * Count(t.description != "");
              && |r| >= k + 2 && r[k] == "" && r[k + 1] == "Subtasks (" + Decimal.IntToString(|t.subtasks|) + "):"
  {
    var r := DetailLines(t, stamp);
    var body := DetailBody(t, stamp);
    var subs := SubtaskSection(t.subtasks);
    Seqs.PartAt(r, |body|, subs, 0);
    Seqs.PartAt(r, |body|, subs, 1);
  }

  /**
   * Where FormatTaskDetail puts the relationship block, for any task with a
   * dependency or a linked task: after the fixed body and the subtask block,
   * a blank line and then "Relationships:".
   */
  lemma DetailRelationHeader(t: Task, stamp: int -> string)
    requires |t.dependencies| > 0 || |t.linkedTasks| > 0
    ensures var r := DetailLines(t, stamp);
              var k := 21 + Count(t.dueDate.Some?) + 3 * Count(t.description != "");
              var s := if |t.subtasks| > 0 then |t.subtasks| + 2 else 0;
              && |r| >= k + s + 2 && r[k + s] == "" && r[k + s + 1] == "Relationships:"
  {
    var r := DetailLines(t, stamp);
    var body := DetailBody(t, stamp);
    var subs := SubtaskSection(t.subtasks);
    var rels := RelationSection(t.dependencies, t.linkedTasks, stamp);
    assert |body| + |subs| == 21 + Count(t.dueDate.Some?) + 3 * Count(t.description != "")
                              + (if |t.subtasks| > 0 then |t.subtasks| + 2 else 0);
    assert r[|body| + |subs|..][0] == rels[0] && r[|body| + |subs|..][1] == rels[1];
  }
}
