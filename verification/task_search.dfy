/**
 * `task search [query]` (cmd/taskSearch.go): one GET of the team's tasks with
 * the filter flags as query parameters, then a case-insensitive substring
 * filter on name and description done locally, then at most ten summaries.
 */
module TaskSearch {
  import opened Wrappers
  import opened Strings
  import opened Seqs
  import opened Types
  import opened Commands
  import Client
  import Format
  import Decimal

  /** Each non-empty filter flag becomes one query parameter; empty flags are not sent. */
  function SearchParams(list: string, space: string, assignee: string, status: string): (r: map<string, string>)
    ensures r.Keys <= {"list_ids[]", "space_ids[]", "assignees[]", "statuses[]"}
    ensures ("list_ids[]" in r <==> list != "") && (list != "" ==> r["list_ids[]"] == list)
    ensures ("space_ids[]" in r <==> space != "") && (space != "" ==> r["space_ids[]"] == space)
    ensures ("assignees[]" in r <==> assignee != "") && (assignee != "" ==> r["assignees[]"] == assignee)
    ensures ("statuses[]" in r <==> status != "") && (status != "" ==> r["statuses[]"] == status)
  {
    var m0: map<string, string> := map[];
    var m1 := if list != "" then m0["list_ids[]" := list] else m0;
    var m2 := if space != "" then m1["space_ids[]" := space] else m1;
    var m3 := if assignee != "" then m2["assignees[]" := assignee] else m2;
    if status != "" then m3["statuses[]" := status] else m3
  }

  /** A task matches when its lower-cased name or description contains the lower-cased query. */
  predicate TaskMatches(t: Task, queryLower: string) {
    Contains(Lower(t.name), queryLower) || Contains(Lower(t.description), queryLower)
  }

  function Matcher(query: string): Task -> bool {
    (t: Task) => TaskMatches(t, Lower(query))
  }

  /**
   * The local filter: an empty query keeps every task; otherwise the tasks
   * that match, in their original order, none dropped.
   */
  function FilterTasks(tasks: seq<Task>, query: string): (r: seq<Task>)
    ensures query == "" ==> r == tasks
    ensures IsSubsequence(r, tasks)
    ensures forall i | 0 <= i < |r| :: TaskMatches(r[i], Lower(query))
    ensures query != "" ==> |r| == CountWhere(tasks, Matcher(query))
  {
    if query == "" then
      forall i | 0 <= i < |tasks|
        ensures TaskMatches(tasks[i], Lower(query))
      {
        ContainsEmpty(Lower(tasks[i].name));
      }
      assert IsSubsequence(tasks, tasks) by { SubsequenceRefl(tasks); }
      tasks
    else
      var r := Filter(tasks, Matcher(query));
      assert forall i | 0 <= i < |r| :: Matcher(query)(r[i]);
      r
  }

  lemma {:induction false} SubsequenceRefl(xs: seq<Task>)
    ensures IsSubsequence(xs, xs)
    decreases |xs|
  {
    if |xs| > 0 {
      SubsequenceRefl(xs[1..]);
    }
  }

  /**
   * The empty-query shortcut changes nothing: filtering with the empty query
   * would keep every task, since every string contains the empty string.
   */
  lemma EmptyQueryFiltersNothing(tasks: seq<Task>)
    ensures Filter(tasks, Matcher("")) == FilterTasks(tasks, "")
  {
    forall i | 0 <= i < |tasks|
      ensures Matcher("")(tasks[i])
    {
      ContainsEmpty(Lower(tasks[i].name));
    }
    FilterAll(tasks, Matcher(""));
  }

  /** A task whose name contains the query, ignoring ASCII case, survives the filter. */
  lemma NameMatchIsKept(tasks: seq<Task>, query: string, i: int)
    requires 0 <= i < |tasks|
    requires Contains(Lower(tasks[i].name), Lower(query))
    ensures tasks[i] in FilterTasks(tasks, query)
  {
    if query != "" {
      FilterKeeps(tasks, Matcher(query), i);
    }
  }

  /** The search ignores the case of the query: searching for its lower-case form finds the same tasks. */
  lemma SearchIgnoresQueryCase(tasks: seq<Task>, query: string)
    ensures FilterTasks(tasks, query) == FilterTasks(tasks, Lower(query))
  {
    LowerIdempotent(query);
    if query != "" {
      FilterAgree(tasks, Matcher(query), Matcher(Lower(query)));
    }
  }

  /** The most summaries printed. */
  const SearchLimit := 10

  /**
   * What is printed for the filtered tasks: a fixed message when there are
   * none; otherwise the count, an empty line, the summaries of the first ten
   * tasks, and a closing "... and N more tasks" line exactly when more than
   * ten were found.
   */
  function SearchOutput(tasks: seq<Task>, stamp: int -> string): (r: seq<string>)
    ensures |tasks| == 0 ==> r == ["No tasks found matching your criteria."]
    ensures |tasks| > 0 ==>
              var shown := Listing(tasks[..Min(SearchLimit, |tasks|)], stamp);
              && |r| == 2 + |shown| + Format.Count(|tasks| > SearchLimit)
              && r[0] == "Found " + Decimal.IntToString(|tasks|) + " task(s):"
              && r[1] == ""
              && r[2..2 + |shown|] == shown
              && (|tasks| > SearchLimit <==>
                    r[|r| - 1] == "... and " + Decimal.IntToString(|tasks| - SearchLimit) + " more tasks")
  {
    if |tasks| == 0 then ["No tasks found matching your criteria."]
    else
      var head := ["Found " + Decimal.IntToString(|tasks|) + " task(s):", ""];
      var shown := Listing(tasks[..Min(SearchLimit, |tasks|)], stamp);
      var more := MoreLine(|tasks|);
      ConcatParts(head, shown, more);
      assert |tasks| <= SearchLimit ==> (head + shown + more)[|head| + |shown| - 1] == shown[|shown| - 1];
      head + shown + more
  }

  /** The closing line, present exactly when tasks were left out. */
  function MoreLine(n: int): (r: seq<string>)
    ensures |r| == Format.Count(n > SearchLimit)
    ensures forall i | 0 <= i < |r| :: r[i] != ""
  {
    if n > SearchLimit then ["... and " + Decimal.IntToString(n - SearchLimit) + " more tasks"] else []
  }

  /**
   * At most ten summaries are printed, and all of them when there are at most
   * ten: past the blank after the count line, the output holds one blank
   * line, hence one summary, per shown task.
   */
  lemma SearchShowsAtMostTen(tasks: seq<Task>, stamp: int -> string)
    requires |tasks| > 0
    ensures CountBlank(SearchOutput(tasks, stamp)) == 1 + Min(SearchLimit, |tasks|)
  {
    var limit := Min(SearchLimit, |tasks|);
    var shown := Listing(tasks[..limit], stamp);
    ListingBlanks(tasks[..limit], stamp);
    BlankBetween("Found " + Decimal.IntToString(|tasks|) + " task(s):", shown, MoreLine(|tasks|));
  }

  lemma BlankBetween(first: string, middle: seq<string>, more: seq<string>)
    requires first != ""
    requires forall i | 0 <= i < |more| :: more[i] != ""
    ensures CountBlank([first, ""] + middle + more) == 1 + CountBlank(middle)
  {
    CountBlankAppend([first, ""] + middle, more);
    CountBlankAppend([first, ""], middle);
    NoBlank(more);
    TitleBlank(first);
  }

  function SearchRequest(teamId: string, list: string, space: string, assignee: string, status: string): Client.Request {
    Client.Request(Client.Get, "/team/" + teamId + "/task", SearchParams(list, space, assignee, status), None)
  }

  /**
   * The whole command: exactly one request; a failed request is returned as
   * "searching tasks: ..." and prints nothing; otherwise the output for the
   * tasks that pass the filter built from the joined arguments.
   */
  function RunTaskSearch(args: seq<string>, list: string, space: string, assignee: string, status: string,
                         teamId: string, reply: Result<seq<Task>>, stamp: int -> string): (r: Run)
    ensures r.requests == [SearchRequest(teamId, list, space, assignee, status)]
    ensures reply.Err? ==> r.outcome == Err(Wrap("searching tasks", reply.msg))
    ensures reply.Ok? ==> r.outcome == Ok(SearchOutput(FilterTasks(reply.value, SearchQuery(args)), stamp))
  {
    var req := SearchRequest(teamId, list, space, assignee, status);
    match reply
    case Err(e) => Run([req], Err(Wrap("searching tasks", e)))
    case Ok(tasks) => Run([req], Ok(SearchOutput(FilterTasks(tasks, SearchQuery(args)), stamp)))
  }
}
