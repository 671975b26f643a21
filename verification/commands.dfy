/**
 * What the subcommands under cmd/ share: the record of one invocation, the
 * custom-ID query parameters, the joined search query, and the listing of task
 * summaries that `task search` and `list tasks` print.
 */
module Commands {
  import opened Wrappers
  import opened Strings
  import opened Types
  import Format
  import Client
  import Seqs

  /**
   * One invocation of a subcommand: the API requests it issues, in order, and
   * either the lines it prints (without their terminators) or the error it
   * returns.
   */
  datatype Run = Run(requests: seq<Client.Request>, outcome: Result<seq<string>>)

  /**
   * The query parameters that make the API read a task ID as a custom ID:
   * both keys exactly when the flag is set, and nothing otherwise.
   */
  function CustomIdParams(custom: bool, teamId: string): (r: map<string, string>)
    ensures custom ==> r.Keys == {"custom_task_ids", "team_id"} && r["custom_task_ids"] == "true" && r["team_id"] == teamId
    ensures !custom ==> |r| == 0
  {
    if custom then map["custom_task_ids" := "true", "team_id" := teamId] else map[]
  }

  /** The positional arguments joined by single spaces; no arguments give the empty query. */
  function SearchQuery(args: seq<string>): (r: string)
    ensures r == "" <==> |args| == 0 || (|args| == 1 && args[0] == "")
    ensures |args| == 1 ==> r == args[0]
  {
    if |args| > 0 then Join(args, " ") else ""
  }

  /** Arguments without spaces can be recovered from the joined query. */
  lemma SearchQuerySplits(args: seq<string>)
    requires |args| > 0
    requires forall i | 0 <= i < |args| :: ' ' !in args[i]
    ensures Split(SearchQuery(args), ' ') == args
  {
    SplitJoin(args, ' ');
  }

  /** The error a handler returns when a step fails: its context, a colon, then the cause. */
  function Wrap(context: string, cause: string): (r: string)
    ensures |r| == |context| + 2 + |cause|
    ensures r[..|context|] == context && r[|r| - |cause|..] == cause
  {
    context + ": " + cause
  }

  // ---------------------------------------------------------------------------
  // Task listings

  /** FormatTaskSummary printed with Println: the summary's lines, then an empty line. */
  function SummaryBlock(t: Task, stamp: int -> string): (r: seq<string>)
    ensures |r| >= 3 && r[|r| - 1] == ""
    ensures r[..|r| - 1] == Format.SummaryLines(t, stamp)
  {
    Format.SummaryLines(t, stamp) + [""]
  }

  /** The summaries of `ts`, one block per task, in order. */
  function Listing(ts: seq<Task>, stamp: int -> string): (r: seq<string>)
    ensures |ts| == 0 <==> r == []
    ensures |ts| > 0 ==> r[|r| - 1] == ""
  {
    var block := t => SummaryBlock(t, stamp);
    if |ts| == 0 then []
    else
      Seqs.FlatMapAt(ts, block, |ts| - 1);
      assert ts[|ts|..] == [];
      Seqs.FlatMap(ts, block)
  }

  /** A single task is listed as exactly its own summary block. */
  lemma ListingOne(t: Task, stamp: int -> string)
    ensures Listing([t], stamp) == SummaryBlock(t, stamp)
  {
    Seqs.FlatMapOne(t, t => SummaryBlock(t, stamp));
  }

  /** Listing two runs of tasks is listing the first, then the second: nothing is dropped or reordered. */
  lemma ListingAppend(a: seq<Task>, b: seq<Task>, stamp: int -> string)
    ensures Listing(a + b, stamp) == Listing(a, stamp) + Listing(b, stamp)
  {
    Seqs.FlatMapAppend(a, b, t => SummaryBlock(t, stamp));
  }

  /**
   * Task `i`'s summary block appears whole in the listing, after the blocks
   * of the tasks before it and before those of the tasks after it.
   */
  lemma ListingAt(ts: seq<Task>, stamp: int -> string, i: int)
    requires 0 <= i < |ts|
    ensures Listing(ts, stamp) == Listing(ts[..i], stamp) + SummaryBlock(ts[i], stamp) + Listing(ts[i + 1..], stamp)
  {
    Seqs.FlatMapAt(ts, t => SummaryBlock(t, stamp), i);
  }

  /** The number of empty lines. */
  function CountBlank(lines: seq<string>): nat {
    Seqs.CountOf(lines, "")
  }

  lemma CountBlankAppend(a: seq<string>, b: seq<string>)
    ensures CountBlank(a + b) == CountBlank(a) + CountBlank(b)
  {
    Seqs.CountOfAppend(a, b, "");
  }

  /** No line of a task summary is empty: the only blank in a block is the one that ends it. */
  lemma SummaryBlockBlank(t: Task, stamp: int -> string)
    ensures CountBlank(SummaryBlock(t, stamp)) == 1
  {
    var s := Format.SummaryLines(t, stamp);
    forall i | 0 <= i < |s|
      ensures s[i] != ""
    {
      if i == 0 {
        assert |Format.SummaryHead(t)| >= 5;
      } else {
        assert s[i][..2] == "  ";
      }
    }
    NoBlank(s);
    CountBlankAppend(s, [""]);
  }

  /** A title line followed by the empty line that sets it off holds one blank. */
  lemma TitleBlank(title: string)
    requires title != ""
    ensures CountBlank([title, ""]) == 1
  {
    assert [title, ""][1..] == [""];
    assert [""][1..] == [];
    assert Seqs.CountOf([""], "") == 1;
  }

  lemma NoBlank(lines: seq<string>)
    requires forall i | 0 <= i < |lines| :: lines[i] != ""
    ensures CountBlank(lines) == 0
  {
    Seqs.CountOfAbsent(lines, "");
  }

  /**
   * A listing holds exactly one summary per task: it has one empty line per
   * task, the separator Println adds after each summary.
   */
  lemma {:induction false} ListingBlanks(ts: seq<Task>, stamp: int -> string)
    ensures CountBlank(Listing(ts, stamp)) == |ts|
    decreases |ts|
  {
    if |ts| > 0 {
      ListingAt(ts, stamp, 0);
      assert ts[..0] == [];
      ListingBlanks(ts[1..], stamp);
      SummaryBlockBlank(ts[0], stamp);
      CountBlankAppend(SummaryBlock(ts[0], stamp), Listing(ts[1..], stamp));
    }
  }
}
