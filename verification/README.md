# clickup-cli core, modelled in Dafny

A model of the data-to-text and request-building logic of clickup-cli, a
command-line client for the ClickUp REST API. This logic sits between the
decoded API response and what the program prints. The modelled parts are:

- **Formatting helpers** (`internal/api/format.go`):
  - timestamp pass-through;
  - millisecond durations as "Xm", "Xh" or "Xh Ym";
  - the empty-string fallback `Or`;
  - the compact task summary and the full task detail view.
- **The lenient count decoder** `FlexInt.UnmarshalJSON` (`internal/api/types.go`). It accepts a JSON number, a numeric string, `""` or `null`. A string that is not a base-10 integer is an error (`strconv.Atoi`'s), and any other JSON value leaves the field unchanged.
- **The query helper `SetQueryArray` and the response decision in `request`** (`internal/api/client.go`). The response decision covers the 2xx test, when the body is decoded, and what a failure carries.
- **Every subcommand handler** under `cmd/`:
  - `task search`, `task get`, `task update`, `task subtask`, `task rels`
  - `space search`, `space structure`
  - `list tasks`, `list info`
  - `time get`
  - `doc search`

Each handler is a pure function returning a `Commands.Run`: the API requests it issues, in order, and either the lines it prints or the error it returns. Its inputs are:

- its arguments and flags;
- the configured team ID;
- the client's delivered reply for each request: an `Ok` value, or an `Err` carrying the client's message;
- `stamp`, which stands for `time.UnixMilli(n).Format("2006-01-02 15:04")` in the local time zone.

How Go values are represented:

- Go strings are byte strings, written here as `seq<char>` with one char per byte (`Strings.IsByteString`).
- Printed output is a sequence of lines without their terminators. A `Println` after a `FormatTaskSummary` result, which already ends in a newline, shows up as an extra empty line. A field that itself holds newlines, such as a description, stays one element.
- Go's `/` truncates toward zero and `%d` prints a sign, and both are written out explicitly.
- `strconv.ParseInt(s, 10, 64)` (and `strconv.Atoi`, which is the same on 64-bit targets) is modelled digit by digit, including its overflow rule: a range error is reported as soon as the unsigned accumulator passes 2^64−1, and the int64 bound of the input's sign is returned.

Modules follow the program's structure:

| module | file | what it holds |
|---|---|---|
| `Wrappers` | wrappers.dfy | `Option` and `Result` |
| `Strings` | strings.dfy | `strings.Join`/`Split`/`Contains`/`ToLower`/`TrimSpace` on ASCII |
| `Decimal` | decimal.dfy | `%d` printing and `strconv.ParseInt` |
| `Seqs` | seqs.dfy | order-preserving filtering, one block of output per element, counting |
| `Types` | types.dfy | the API's records and `FlexInt` decoding |
| `Client` | client.dfy | query escaping, `SetQueryArray`, the response decision |
| `Format` | format.dfy | format.go |
| `Commands` | commands.dfy | what the handlers share |
| one module per handler | task_search.dfy … doc_search.dfy | one file under `cmd/` each |

Three behaviours of the code that are easy to misread, and that the model keeps:

- **JSON `null` for a `FlexInt`.** It decodes to 0 without error. `json.Unmarshal` of `null` into an `int` succeeds and leaves the fresh zero in place.
- **A JSON number that does not fit an `int`, or has a fraction or exponent.** It is not taken by the number branch. It then fails the string branch too, so it leaves the field unchanged.
- **`FormatDurationMs` on negative input.** It truncates toward zero: `-90000` ms is "-1m", not "-2m".

## Model

| member | source | states |
|---|---|---|
| Decimal.IntToString | internal/api/format.go:26 | `%d` of an int: the sign exactly when negative, then the decimal digits of the magnitude with no leading zero |
| Decimal.NatToStringValue | internal/api/format.go:31 | the digits printed for n read back as n |
| Decimal.ParseInt | internal/api/format.go:15 | `strconv.ParseInt(s, 10, 64)`: the empty string is a syntax error, a parsed value is within int64, a range error carries the int64 bound of the input's sign |
| Decimal.ParseIntAccepts | internal/api/format.go:15-18 | a string parses exactly when it is an optional sign and one or more digits whose value fits int64, and then yields that value |
| Decimal.ParseIntRoundTrip | internal/api/types.go:25-29 | every int64 printed with `%d` parses back to itself |
| Decimal.ScanUintDigits | internal/api/types.go:25 | the unsigned scan of a digit string succeeds exactly when its value stays within 2^64−1 |
| Decimal.ScanUintOkDigits | internal/api/types.go:25-28 | a string the unsigned scan accepts holds only digits |
| Format.FormatTimestamp | internal/api/format.go:11-20 | "" stays "", a string that is not a base-10 int64 is returned unchanged, a parsed one is rendered from its millisecond value |
| Format.TimestampOfPrintedInt | internal/api/format.go:15-19 | a timestamp written as an int64 is rendered from exactly that instant |
| Format.Quot | internal/api/format.go:24 | Go's truncating division: Euclidean division for a non-negative dividend, never positive for a negative one |
| Format.MinutesOfNonNegative | internal/api/format.go:24 | for ms ≥ 0, `ms/1000/60` equals ms/60000 |
| Format.FormatDurationMs | internal/api/format.go:23-34 | under 60 minutes gives "{m}m"; whole hours give "{h}h"; otherwise "{h}h {m%60}m" |
| Format.DurationRoundTrip | internal/api/format.go:23-34 | reading the rendered duration back gives ms/60000 minutes, so no minute is lost or duplicated between the hour and minute parts |
| Format.ParseAmountOf | internal/api/format.go:26-33 | a rendered amount with its unit reads back as that amount and contains no space |
| Format.ReadMinutes | internal/api/format.go:25-26 | the "{m}m" form reads back as m minutes |
| Format.ReadHours | internal/api/format.go:30-31 | the "{h}h" form reads back as 60·h minutes |
| Format.ReadHoursMinutes | internal/api/format.go:33 | the "{h}h {m}m" form reads back as 60·h + m minutes |
| Format.Or | internal/api/format.go:37-42 | the fallback exactly when the string is empty, the string unchanged otherwise; empty only when both are empty |
| Format.OrIdempotent | internal/api/format.go:37-42 | applying the same fallback twice changes nothing |
| Format.PreferredId | internal/api/format.go:48-51 | the custom ID when it is present and non-empty, else the internal ID |
| Format.DetailId | internal/api/format.go:82-85 | "custom (internal)" when a non-empty custom ID is present, else the internal ID |
| Format.DetailIdExtendsPreferredId | internal/api/format.go:48-85 | the detail ID begins with the summary ID, and the two are equal exactly when there is no custom ID |
| Format.TruncateDescription | internal/api/format.go:58-61 | at most 200 bytes is unchanged; longer becomes its first 200 bytes then "..."; empty exactly when the description is |
| Format.Usernames | internal/api/format.go:53-56 | one username per assignee, in order |
| Format.TagNames | internal/api/format.go:95-98 | one name per tag, in order |
| Format.NamesOr | internal/api/format.go:121-128 | the names joined by ", ", or the fallback when there are none or the single name is empty |
| Format.SummaryLines | internal/api/format.go:45-76 | first line "id  name  [status]", last line the URL; the Assignees, Due and description lines present exactly under their conditions, in that order, with their contents |
| Format.PriorityText | internal/api/format.go:100-103 | "None" without a priority, its name otherwise |
| Format.ParentText | internal/api/format.go:104-107 | "None (top-level task)" for a missing or empty parent, the parent ID otherwise |
| Format.MsOrZero | internal/api/format.go:140-146 | a missing estimate or spent time counts as 0 ms |
| Format.MissingTimeIsZeroMinutes | internal/api/format.go:140-148 | a missing time renders as "0m" |
| Format.Section | internal/api/format.go:151-152 | a section exists exactly when it has items: its header, then the items |
| Format.SubtaskSection | internal/api/format.go:150-164 | present exactly when there are subtasks: an empty line, "Subtasks (n):", then one line per subtask with its preferred ID, in order |
| Format.RelationSection | internal/api/format.go:166-181 | present exactly when there are dependencies or links; each subsection present exactly when non-empty, its header count equal to its number of lines |
| Format.DetailHeader | internal/api/format.go:109-119 | name, rule, blank, ID, status, priority, created, the Due line only with a due date |
| Format.DetailPeople | internal/api/format.go:119-130 | a blank line, then assignees ("Unassigned"), watchers ("None") and creator, a blank line, then list, space, tags ("None") and parent, and a closing blank line |
| Format.DetailTracking | internal/api/format.go:136-148 | the URL line, a blank line, then estimated and spent time, each "0m" when missing |
| Format.DescriptionLines | internal/api/format.go:132-134 | the description block exactly when the description is non-empty |
| Format.DetailBody | internal/api/format.go:109-148 | the header, people, description block and tracking lines in order, at their positions |
| Format.DetailLines | internal/api/format.go:79-184 | `FormatTaskDetail`: the body, then the subtask section, then the relationship section |
| Format.DetailLength | internal/api/format.go:79-184 | the number of detail lines in closed form: 21 fixed lines, plus the Due line, the 3-line description block, the subtask block (n + 2 lines) and the relationship block, each only when present |
| Format.DetailNameFirst | internal/api/format.go:109 | the detail view opens with the task's name |
| Format.DetailUrlAt | internal/api/format.go:109-136 | the URL line sits at index 17 (counting from 0), shifted only by the Due line and the description block |
| Format.DetailSubtaskHeader | internal/api/format.go:150-152 | with subtasks, a blank line then "Subtasks ({n}):" follow the fixed body directly |
| Format.DetailRelationHeader | internal/api/format.go:166-168 | with dependencies or links, a blank line then "Relationships:" follow the subtask block directly |
| Types.DecodeFlexInt | internal/api/types.go:11-33 | a number literal that parses as an int is assigned exactly that value and never rejected; "" gives 0; a numeric string gives its value; any other string is an error; null gives 0; anything else leaves the field unchanged |
| Types.ApplyFlex | internal/api/types.go:13-32 | only an assignment changes the stored count |
| Types.FlexIntReadsPrintedInt | internal/api/types.go:11-31 | a count sent as a number or as a numeric string decodes to the same integer |
| Types.FlexIntStaysInRange | internal/api/types.go:11-33 | decoding never moves an int64 count out of the int64 range |
| Client.EscapeByte | internal/api/client.go:108 | the escape of a byte contains no '&', '=' or '?' |
| Client.QueryEscape | internal/api/client.go:108 | `url.QueryEscape` on bytes: the result contains no '&', '=' or '?' |
| Client.QueryEscapeRoundTrip | internal/api/client.go:108 | unescaping the escape of any byte string gives the string back |
| Client.HexDigitRoundTrip | internal/api/client.go:108 | a hex digit written by the escape reads back as its value |
| Client.QuerySeparator | internal/api/client.go:102-105 | '?' exactly when the endpoint has no '?', '&' exactly when it has one |
| Client.QueryPairs | internal/api/client.go:106-109 | one escaped key=value pair per value, in input order |
| Client.SetQueryArray | internal/api/client.go:98-111 | no values leaves the endpoint unchanged; the endpoint is always a prefix; with values the separator follows it |
| Client.ParseQueryPairRoundTrip | internal/api/client.go:108 | one written pair reads back as its key and value |
| Client.ParsePairsRoundTrip | internal/api/client.go:106-110 | the written pairs read back as the key paired with each value, in order |
| Client.SetQueryArrayRoundTrip | internal/api/client.go:98-111 | the text after the endpoint and separator reads back as exactly (key, v) for each value, in order |
| Client.KeyedValues | internal/api/client.go:106-109 | the key paired with each value, in order |
| Client.Finish | internal/api/client.go:71-81 | outside 200..299 fails with "HTTP {status}: {body}"; an empty body or no destination succeeds without decoding; otherwise the decoder's verdict |
| Client.Deliver | internal/api/client.go:75-81 | a decoded value, the destination's zero value when nothing was decoded, or the failure message |
| Client.DeliverOkIff | internal/api/client.go:71-81 | the caller gets a value exactly when the status is 2xx and either nothing needed decoding or the decoder accepted the body; that value is the decoded one, or the zero value when nothing was decoded |
| Client.FailureReadsBack | internal/api/client.go:71-73 | a failure message is "HTTP " followed by text whose first ": " ends a number that parses back to the status, with the raw body after it |
| Strings.Join | cmd/taskSearch.go:21 | `strings.Join`: nothing gives "", one part gives itself |
| Strings.Split | cmd/listTasks.go:30 | `strings.Split` on one byte: at least one piece, none containing the separator |
| Strings.SplitJoin | cmd/taskSearch.go:21 | splitting a join of separator-free parts gives the parts back |
| Strings.JoinSplit | cmd/listTasks.go:30 | joining the pieces of a split gives the string back |
| Strings.ContainsIffOccurs | cmd/taskSearch.go:55-56 | `strings.Contains` holds exactly when the needle occurs at some position |
| Strings.Lower | cmd/taskSearch.go:52 | `strings.ToLower` on ASCII: same length, each letter lower-cased, other bytes kept |
| Strings.LowerIdempotent | cmd/taskSearch.go:52 | lower-casing twice is lower-casing once |
| Strings.TrimSpace | cmd/listTasks.go:32 | `strings.TrimSpace` on ASCII: the slice between the first and the last non-space byte, with only spaces cut |
| Strings.TrimSpaceNoSpace | cmd/listTasks.go:32 | a string without whitespace is unchanged |
| Seqs.Filter | cmd/taskSearch.go:53-60 | an order-preserving subsequence of exactly the elements that satisfy the predicate |
| Seqs.FilterAll | cmd/spaceSearch.go:34 | a predicate that holds everywhere keeps everything |
| Seqs.FilterKeeps | cmd/taskSearch.go:55-57 | an element that satisfies the predicate is kept |
| Commands.CustomIdParams | cmd/taskRels.go:19-23 | exactly `custom_task_ids=true` and `team_id` in custom mode, nothing otherwise |
| Commands.SearchQuery | cmd/taskSearch.go:19-22 | the arguments joined by one space; empty exactly with no arguments or one empty argument |
| Commands.SearchQuerySplits | cmd/taskSearch.go:19-22 | arguments without spaces are recovered from the query |
| Commands.Wrap | cmd/taskSearch.go:45 | the error text is the context, ": ", then the cause |
| Commands.SummaryBlock | cmd/listTasks.go:49 | one task's summary lines followed by the empty line `Println` adds |
| Commands.Listing | cmd/listTasks.go:48-50 | the lines of a run of tasks: empty exactly for no tasks, and ending in the empty line of the last summary |
| Commands.ListingOne | cmd/listTasks.go:48-50 | the listing of one task is its summary block |
| Commands.ListingAppend | cmd/listTasks.go:48-50 | the listing of two runs of tasks is the first's listing followed by the second's |
| Commands.ListingAt | cmd/listTasks.go:48-50 | task i's summary block sits between the listings of the tasks before and after it |
| Commands.ListingBlanks | cmd/listTasks.go:48-50 | a listing of n tasks holds exactly n empty lines, one closing each summary |
| TaskSearch.SearchParams | cmd/taskSearch.go:29-41 | each of `list_ids[]`, `space_ids[]`, `assignees[]`, `statuses[]` present exactly when its flag is non-empty, with that value |
| TaskSearch.FilterTasks | cmd/taskSearch.go:50-61 | no query keeps all; otherwise an order-preserving subsequence of exactly the tasks whose lower-cased name or description contains the lower-cased query |
| TaskSearch.EmptyQueryFiltersNothing | cmd/taskSearch.go:51 | the empty query matches every task |
| TaskSearch.NameMatchIsKept | cmd/taskSearch.go:55-57 | a task whose name contains the query, ignoring ASCII case, is kept |
| TaskSearch.SearchIgnoresQueryCase | cmd/taskSearch.go:52 | the filter keeps the same tasks for a query and its lower-cased form |
| TaskSearch.SearchOutput | cmd/taskSearch.go:63-79 | "No tasks found matching your criteria." alone when empty; else the full count, the first min(10, n) summaries, and "... and {n−10} more tasks" exactly when n > 10 |
| TaskSearch.MoreLine | cmd/taskSearch.go:77-79 | the "more" line exists exactly when there are more than 10 tasks |
| TaskSearch.SearchShowsAtMostTen | cmd/taskSearch.go:68-76 | the output holds exactly 1 + min(10, n) empty lines: one summary block per shown task |
| TaskSearch.RunTaskSearch | cmd/taskSearch.go:18-79 | one GET with the flag params; a failure wrapped "searching tasks"; otherwise the output for the filtered tasks |
| SpaceStructure.ItemPrefix | cmd/spaceStructure.go:56-60 | "└──" exactly for the last item, "├──" for every other |
| SpaceStructure.FolderPrefix | cmd/spaceStructure.go:39-43 | "└──" exactly for the last folder when there are no folderless lists, "├──" otherwise |
| SpaceStructure.TreeColumn | cmd/spaceStructure.go:50-53 | " " exactly when the folder's prefix is "└──", "│" exactly when it is "├──" |
| SpaceStructure.TopLevelIsOneTree | cmd/spaceStructure.go:39-84 | the folders and the folderless lists are drawn as one sequence of siblings: only the overall last gets "└──" |
| SpaceStructure.NestedLists | cmd/spaceStructure.go:55-66 | "(no lists)" for an empty folder; otherwise one line per list under the folder's column with its own prefix |
| SpaceStructure.FolderBlock | cmd/spaceStructure.go:38-70 | the folder line with " [hidden]" exactly when hidden, its lists, and a "│" line exactly when it is not the last folder |
| SpaceStructure.FolderBlocks | cmd/spaceStructure.go:37-72 | no folders give nothing; otherwise the first line is the first folder's line and the folder part never ends in a "│" separator |
| SpaceStructure.BlockStems | cmd/spaceStructure.go:38-70 | a folder's block holds one "│" line when another folder follows it and none otherwise |
| SpaceStructure.FolderStems | cmd/spaceStructure.go:37-72 | the folder part holds exactly one "│" separator line fewer than there are folders |
| SpaceStructure.FolderlessSection | cmd/spaceStructure.go:75-88 | present exactly with folderless lists: an empty line after folders, "Folderless Lists (n):", one prefixed line per list |
| SpaceStructure.StructureOutput | cmd/spaceStructure.go:29-88 | only the "No folders or lists found" line for an empty space; otherwise the title, an empty line, the folder blocks and the folderless section |
| SpaceStructure.EmptySpaceIffSingleLine | cmd/spaceStructure.go:29-34 | the single "No folders or lists found" line is printed exactly when the space is empty |
| SpaceStructure.RunSpaceStructure | cmd/spaceStructure.go:15-27 | folders first, wrapped "getting folders" on failure with no second request; then the lists, wrapped "getting folderless lists" |
| TaskUpdate.UpdateBody | cmd/taskUpdate.go:34-47 | `name`, `markdown_description`, `status` present exactly when the flag is non-empty, with its value; as many keys as flags given |
| TaskUpdate.UpdatedFields | cmd/taskUpdate.go:35-47 | the given fields, each once, title first and status last, as many as flags given |
| TaskUpdate.ReportMatchesBody | cmd/taskUpdate.go:34-47 | the reported field list and the body have the same size |
| TaskUpdate.GoStrings | cmd/taskUpdate.go:65 | `%v` of a string slice: brackets around the items joined by single spaces |
| TaskUpdate.UpdateReport | cmd/taskUpdate.go:59-67 | the preferred ID and name, the updated fields, the status and the URL |
| TaskUpdate.RunTaskUpdate | cmd/taskUpdate.go:17-69 | no request exactly when every flag is empty, with the "at least one of" error; otherwise one PUT with the body and custom params; failure wrapped "updating task" |
| TaskUpdate.SentBodyIsNonEmpty | cmd/taskUpdate.go:24-47 | a PUT that is sent always carries at least one field |
| TaskSubtask.TargetList | cmd/taskSubtask.go:36-39 | the `--list` flag when given, else the parent's list; empty exactly when both are |
| TaskSubtask.SubtaskBody | cmd/taskSubtask.go:44-50 | `name` always, `parent` the fetched task's internal ID, `markdown_description` exactly when a description is given |
| TaskSubtask.SubtaskReport | cmd/taskSubtask.go:68-77 | the subtask's preferred ID and name, the parent, the list, status and URL |
| TaskSubtask.RunTaskSubtask | cmd/taskSubtask.go:17-79 | the parent is always fetched first; a failed fetch or no target list stops after it; otherwise one POST, whose failure is wrapped "creating subtask" |
| TaskSubtask.CreateFollowsFetchedParent | cmd/taskSubtask.go:25-64 | the create request has the fetch's params, names the fetched task's ID as parent, and goes to the flag's list or else the parent's |
| ListTasks.AssigneeIds | cmd/listTasks.go:30-33 | one ID per comma-separated piece, in order, each trimmed of surrounding whitespace |
| ListTasks.AssigneeIdsRejoin | cmd/listTasks.go:30-33 | for a flag without whitespace the IDs are the pieces, and joined with "," they give the flag back |
| ListTasks.ListTasksEndpoint | cmd/listTasks.go:28-35 | "/list/{id}/task" without the flag, else that path with one `assignees[]` pair per ID |
| ListTasks.AssigneeQueryReadsBack | cmd/listTasks.go:28-35 | the appended query reads back as ("assignees[]", id) for each ID, in order |
| ListTasks.ListTasksParams | cmd/listTasks.go:22-25 | `archived=true` exactly when the flag is set |
| ListTasks.ListTasksOutput | cmd/listTasks.go:42-50 | "No tasks found in this list." for none; otherwise "Found {n} task(s) in list:", an empty line, then the listing of the tasks, ending in an empty line |
| ListTasks.ListTasksShowsEach | cmd/listTasks.go:47-50 | after the two header lines, each task's summary block sits between those of the tasks before and after it |
| ListTasks.ListTasksShowsAll | cmd/listTasks.go:47-50 | unlike the search, one summary block for every task |
| ListTasks.RunListTasks | cmd/listTasks.go:17-52 | one GET of the endpoint with the archived param; failure wrapped "getting tasks" |
| SpaceSearch.SpaceLine | cmd/spaceSearch.go:38-42 | "{id}  {name}", then " [private]" exactly for a private space, then "  ({n} statuses)" with the number of statuses |
| SpaceSearch.SpaceLineReadsBack | cmd/spaceSearch.go:38-42 | after the ID and name, the " [private]" marker is there exactly for a private space, and the number before " statuses)" parses back to the number of statuses |
| SpaceSearch.SpaceSearchOutput | cmd/spaceSearch.go:26-47 | "No spaces found." for none; otherwise one line per matching space in order, and the no-match line exactly when none matched |
| SpaceSearch.EmptyQueryListsAll | cmd/spaceSearch.go:34 | without a query every space is listed |
| SpaceSearch.NamedSpaceIsListed | cmd/spaceSearch.go:31-36 | a space whose name contains the query, ignoring ASCII case, is listed |
| SpaceSearch.RunSpaceSearch | cmd/spaceSearch.go:15-49 | one GET of the team's spaces; failure wrapped "searching spaces" |
| TaskRels.Group | cmd/taskRels.go:37-53 | a group exists exactly when non-empty: header, entries, empty line |
| TaskRels.DependencyGroup | cmd/taskRels.go:37-44 | present exactly when there are dependencies, with their count in the header and one line per dependency |
| TaskRels.LinkGroup | cmd/taskRels.go:46-53 | present exactly when there are linked tasks, with their count in the header and one line per link |
| TaskRels.RelsOutput | cmd/taskRels.go:30-56 | the "No relationships found" line alone when there are none; otherwise title, blank, the two groups and "Total: n relationship(s)" |
| TaskRels.TotalCountsEntries | cmd/taskRels.go:55-56 | the total is the number of entry lines the groups print |
| TaskRels.RunTaskRels | cmd/taskRels.go:15-58 | one GET with the custom params; failure wrapped "getting task" |
| TimeGet.TimeTarget | cmd/timeGet.go:22-36 | a task argument selects its time path and "task {id}"; otherwise the `--team` flag, or the configured team when it is empty |
| TimeGet.DurationMs | cmd/timeGet.go:46 | the parsed value; 0 on a syntax error; the int64 bound of the sign on a range error |
| TimeGet.DurationReadsPrintedInt | cmd/timeGet.go:46 | a duration written as an int64 reads back exactly |
| TimeGet.NonNumericDurationIsZero | cmd/timeGet.go:46-47 | a duration with no leading digit is 0 ms and renders as "0m" |
| TimeGet.EntryLines | cmd/timeGet.go:47-51 | start, duration and user; the description line exactly when non-empty; then one empty line |
| TimeGet.EntryBlank | cmd/timeGet.go:47-51 | an entry's block holds exactly one empty line, the one `Println` adds |
| TimeGet.EntriesLines | cmd/timeGet.go:45-52 | the lines of a run of entries: empty exactly for no entries, and ending in an empty line |
| TimeGet.EntriesOne | cmd/timeGet.go:45-52 | the lines of one entry are its block |
| TimeGet.EntriesAppend | cmd/timeGet.go:45-52 | the lines of two runs of entries are the first's followed by the second's |
| TimeGet.EntriesAt | cmd/timeGet.go:45-52 | entry i's block sits between the lines of the entries before and after it |
| TimeGet.EntriesBlanks | cmd/timeGet.go:45-52 | every entry is printed: exactly one empty line per entry |
| TimeGet.TimeOutput | cmd/timeGet.go:39-52 | "No time entries found for {context}." for none; otherwise "Found {n} time entry/entries for {context}:", an empty line, then every entry's block, ending in an empty line |
| TimeGet.TimeShowsEach | cmd/timeGet.go:44-52 | after the two header lines, each entry's block sits between those of the entries before and after it |
| TimeGet.RunTimeGet | cmd/timeGet.go:18-54 | one GET of the selected endpoint; failure wrapped "getting time entries" |
| ListInfoCmd.BoolText | cmd/listInfo.go:37-39 | `%t`: "true" exactly when true |
| ListInfoCmd.StatusText | cmd/listInfo.go:25-28 | "None" without a status, its name otherwise |
| ListInfoCmd.StatusesSection | cmd/listInfo.go:42-47 | present exactly when there are statuses: "Statuses:", then one "  - status (type)" line each, in order |
| ListInfoCmd.IdentityLines | cmd/listInfo.go:23-33 | name, rule, blank, ID, status fallback, task count, permission level |
| ListInfoCmd.LocationLines | cmd/listInfo.go:34-36 | space, then the folder or "No folder" |
| ListInfoCmd.SettingsLines | cmd/listInfo.go:37-40 | the three settings as `%t` |
| ListInfoCmd.ListInfoLines | cmd/listInfo.go:23-47 | the identity, location and settings groups at fixed positions, then the statuses section |
| ListInfoCmd.TaskCountFromEitherEncoding | cmd/listInfo.go:31 | a task count sent as a number or as a string is printed the same |
| ListInfoCmd.RunListInfo | cmd/listInfo.go:15-49 | one GET of the list; failure wrapped "getting list info" |
| TaskGet.TaskGetParams | cmd/taskGet.go:23-30 | the custom-ID pair exactly in custom mode, `include_subtasks=true` exactly with `--subtasks`, nothing else |
| TaskGet.TaskGetParamsCount | cmd/taskGet.go:23-30 | two parameters for `--custom` and one for `--subtasks`, independently; none with neither flag |
| TaskGet.RunTaskGet | cmd/taskGet.go:18-38 | one GET; failure wrapped "getting task"; otherwise exactly the detail view |
| TaskGet.TaskGetShowsTask | cmd/taskGet.go:32-37 | a fetched task is printed name first, with its URL at the fixed offset and its subtask header after the fixed body when it has subtasks; a task without subtasks or relationships gives just the fixed lines |
| DocSearch.DocParams | cmd/docSearch.go:21-24 | `query` present exactly when the query is non-empty, with that value |
| DocSearch.DocSearchOutput | cmd/docSearch.go:31-40 | "No documents found." for none; otherwise the count, an empty line and one line per document, in order |
| DocSearch.RunDocSearch | cmd/docSearch.go:15-42 | one GET with the joined query; failure wrapped "searching documents" |
| DocSearch.DocQueryCarriesArgs | cmd/docSearch.go:16-24 | a query parameter is sent exactly when the arguments join to a non-empty string, and arguments without spaces are recovered by splitting it at the spaces |

## Left out

- HTTP transport is not modelled: building the URL, the request, its headers, the 30-second timeout, `Do` and `ReadAll` (`internal/api/client.go:38-69`). These are network I/O. A handler receives each reply already delivered, as `Ok` or `Err`.
- Request parameters are kept as a map. Their encoding by `url.Values.Encode` and the `nil` versus empty map distinction are library behaviour.
- JSON decoding of responses and encoding of request bodies are not modelled. Records and bodies are Dafny datatypes and maps. The "encoding request" error branches of `cmd/taskUpdate.go:49-52` and `cmd/taskSubtask.go:52-55` are left out: `json.Marshal` of a string map cannot fail.
- Within `FlexInt` decoding, Go's JSON number grammar is simplified: the number branch accepts exactly the literals `strconv.ParseInt` accepts.
- `time.UnixMilli(n).Format` is the parameter `stamp`, because it depends on the local time zone.
- `strings.ToLower`, `strings.TrimSpace` and `url.QueryEscape` act on ASCII and bytes only. Unicode case mapping and Unicode white space are library internals.
- Configuration (`internal/config/config.go`) is not modelled: it reads the environment. The team ID is a parameter.
- Cobra wiring and argument-count checks are not modelled. Each handler receives its arguments and flags already parsed.
- `cmd/docRead.go`, `cmd/commentGet.go` and the `Comment` record are not part of this model. They only print fields with one fallback.
- Format.FormatDurationMs: int64 wrap-around is not modelled. Integers are unbounded, and the division only shrinks the value.
- Client.QueryEscape: requires a byte string (every char below 256), because Go strings are bytes. Multi-byte characters are outside the model.
