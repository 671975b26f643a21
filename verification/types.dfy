/**
 * The decoded API records (internal/api/types.go) and the lenient decoder for
 * count fields that arrive either as a JSON number or as a JSON string.
 * Go pointer fields are `Option`s; Go `int`/`int64` fields are `int`.
 */
module Types {
  import opened Wrappers
  import Decimal

  datatype Status = Status(status: string, kind: string)

  datatype Priority = Priority(priority: string)

  datatype User = User(id: int, username: string)

  datatype Tag = Tag(name: string)

  datatype ListRef = ListRef(id: string, name: string)

  datatype SpaceRef = SpaceRef(id: string, name: string)

  datatype Dependency = Dependency(taskId: string, dependsOn: string, kind: int, dateCreated: string, userId: string)

  datatype LinkedTask = LinkedTask(linkId: string, dateCreated: string, userId: string, workspaceId: string)

  datatype Task = Task(
    id: string,
    customId: Option<string>,
    name: string,
    description: string,
    status: Status,
    priority: Option<Priority>,
    assignees: seq<User>,
    watchers: seq<User>,
    creator: User,
    list: ListRef,
    space: SpaceRef,
    tags: seq<Tag>,
    parent: Option<string>,
    dueDate: Option<string>,
    dateCreated: string,
    timeEstimate: Option<int>,
    timeSpent: Option<int>,
    url: string,
    subtasks: seq<Task>,
    dependencies: seq<Dependency>,
    linkedTasks: seq<LinkedTask>)

  datatype Space = Space(id: string, name: string, isPrivate: bool, statuses: seq<Status>)

  datatype ListInfo = ListInfo(
    id: string,
    name: string,
    status: Option<Status>,
    taskCount: int,
    permissionLevel: string,
    space: SpaceRef,
    folder: ListRef,
    dueDateTime: bool,
    multipleAssignees: bool,
    timeTracking: bool,
    statuses: seq<Status>)

  datatype Folder = Folder(id: string, name: string, hidden: bool, lists: seq<ListInfo>)

  datatype TimeEntry = TimeEntry(id: string, user: User, duration: string, start: string, description: string)

  datatype Document = Document(id: string, name: string, content: string, dateCreated: string, creator: User)

  /** The zero values Go leaves in a destination that was never decoded into. */
  const NoUser := User(0, "")
  const NoTask := Task("", None, "", "", Status("", ""), None, [], [], NoUser, ListRef("", ""), SpaceRef("", ""),
                       [], None, None, "", None, None, "", [], [], [])
  const NoList := ListInfo("", "", None, 0, "", SpaceRef("", ""), ListRef("", ""), false, false, false, [])

  /**
   * The shape of the JSON value handed to FlexInt.UnmarshalJSON: a number
   * (kept as its literal text), a string (its decoded contents), null, or
   * anything else (true/false, an array, an object).
   */
  datatype JsonValue = JNumber(literal: string) | JString(text: string) | JNull | JOther

  /**
   * What UnmarshalJSON does to the FlexInt: store a value, return an error
   * (leaving the field as it was), or return no error and leave it as it was.
   */
  datatype FlexDecode = Assign(value: int) | Reject | Keep

  /**
   * FlexInt.UnmarshalJSON. The number rule is tried first: a literal that
   * decodes into a Go int wins and the string rule is never consulted; a
   * null decodes into an untouched int and so stores 0. A number that is not
   * an int (a fraction, an exponent, out of range) also fails the string rule
   * and is ignored. A string stores 0 when empty, its value when strconv.Atoi
   * accepts it, and is an error otherwise. Every other value is ignored
   * without an error.
   */
  function DecodeFlexInt(v: JsonValue): (r: FlexDecode)
    ensures v.JNumber? ==> (r.Assign? <==> Decimal.ParseInt(v.literal).Parsed?)
    ensures v.JNumber? ==> !r.Reject?
    ensures v.JNumber? && Decimal.ParseInt(v.literal).Parsed? ==> r == Assign(Decimal.ParseInt(v.literal).value)
    ensures v.JString? && v.text == "" ==> r == Assign(0)
    ensures v.JString? && v.text != "" ==> (r.Reject? <==> !Decimal.ParseInt(v.text).Parsed?)
    ensures v.JString? && Decimal.ParseInt(v.text).Parsed? ==> r == Assign(Decimal.ParseInt(v.text).value)
    ensures v.JNull? ==> r == Assign(0)
    ensures v.JOther? ==> r == Keep
  {
    match v
    case JNumber(lit) =>
      (match Decimal.ParseInt(lit)
       case Parsed(n) => Assign(n)
       case _ => Keep)
    case JNull => Assign(0)
    case JString(s) =>
      if s == "" then Assign(0)
      else
        (match Decimal.ParseInt(s)
         case Parsed(n) => Assign(n)
         case _ => Reject)
    case JOther => Keep
  }

  /** The field's value after decoding, starting from `current`. */
  function ApplyFlex(current: int, d: FlexDecode): (r: int)
    ensures d.Assign? ==> r == d.value
    ensures !d.Assign? ==> r == current
  {
    if d.Assign? then d.value else current
  }

  /**
   * A count written by the API as a number or as a string of the same digits
   * decodes to the same value.
   */
  lemma FlexIntReadsPrintedInt(n: int)
    requires Decimal.MinInt64 <= n <= Decimal.MaxInt64
    ensures DecodeFlexInt(JNumber(Decimal.IntToString(n))) == Assign(n)
    ensures DecodeFlexInt(JString(Decimal.IntToString(n))) == Assign(n)
  {
    Decimal.ParseIntRoundTrip(n);
  }

  /**
   * Whatever arrives, a decode that does not fail leaves the field holding an
   * int64 value when it held one before: an int64 value, from the number or
   * string rule, or 0.
   */
  lemma FlexIntStaysInRange(current: int, v: JsonValue)
    requires Decimal.MinInt64 <= current <= Decimal.MaxInt64
    ensures Decimal.MinInt64 <= ApplyFlex(current, DecodeFlexInt(v)) <= Decimal.MaxInt64
  {
  }
}
