/**
 * `time get [task-id]` (cmd/timeGet.go): one GET of the time entries of a
 * task, or of a team when no task is named, then one block per entry. The
 * entry's duration arrives as a decimal string and is read with
 * strconv.ParseInt, its error ignored.
 */
module TimeGet {
  import opened Wrappers
  import opened Types
  import opened Commands
  import Client
  import Format
  import Decimal
  import Seqs

  /** Where the entries are fetched from, and how the output names that place. */
  datatype Target = Target(endpoint: string, context: string)

  /**
   * A task argument selects that task's entries; otherwise the team from
   * --team, or the configured team when the flag is empty.
   */
  function TimeTarget(args: seq<string>, teamFlag: string, teamId: string): (r: Target)
    ensures |args| > 0 ==> r == Target("/task/" + args[0] + "/time", "task " + args[0])
    ensures |args| == 0 && teamFlag != "" ==> r == Target("/team/" + teamFlag + "/time_entries", "team " + teamFlag)
    ensures |args| == 0 && teamFlag == "" ==> r == Target("/team/" + teamId + "/time_entries", "team " + teamId)
  {
    if |args| > 0 then Target("/task/" + args[0] + "/time", "task " + args[0])
    else
      var team := Format.Or(teamFlag, teamId);
      Target("/team/" + team + "/time_entries", "team " + team)
  }

  /**
   * The duration as `strconv.ParseInt(d, 10, 64)` leaves it when its error is
   * ignored: the value when it parses, 0 on a syntax error, and the int64
   * bound of the input's sign on a range error.
   */
  function DurationMs(d: string): (r: int)
    ensures Decimal.MinInt64 <= r <= Decimal.MaxInt64
    ensures Decimal.ParseInt(d).Parsed? ==> r == Decimal.ParseInt(d).value
    ensures Decimal.ParseInt(d).SyntaxError? ==> r == 0
    ensures Decimal.ParseInt(d).RangeError? ==> r == (if Decimal.IsNegative(d) then Decimal.MinInt64 else Decimal.MaxInt64)
  {
    match Decimal.ParseInt(d)
    case Parsed(n) => n
    case SyntaxError => 0
    case RangeError(c) => c
  }

  /** A duration the API wrote as `%d` of an int64 is read back exactly. */
  lemma DurationReadsPrintedInt(n: int)
    requires Decimal.MinInt64 <= n <= Decimal.MaxInt64
    ensures DurationMs(Decimal.IntToString(n)) == n
  {
    Decimal.ParseIntRoundTrip(n);
  }

  /**
   * A duration with no digit where its number should start (empty, only a
   * sign, or text) is shown as zero minutes.
   */
  lemma NonNumericDurationIsZero(d: string)
    requires var u := Decimal.Unsigned(d); |u| == 0 || !Decimal.IsDigit(u[0])
    ensures DurationMs(d) == 0
    ensures Format.FormatDurationMs(DurationMs(d)) == "0m"
  {
    assert Format.Minutes(0) == 0;
  }

  /** One entry: start, duration and user; the description when there is one; then an empty line. */
  function EntryLines(e: TimeEntry, stamp: int -> string): (r: seq<string>)
    ensures |r| == 2 + Format.Count(e.description != "")
    ensures r[0] == "  " + Format.FormatTimestamp(e.start, stamp) + "  "
                      + Format.FormatDurationMs(DurationMs(e.duration)) + "  " + e.user.username
    ensures e.description != "" ==> r[1] == "    " + e.description
    ensures r[|r| - 1] == ""
    ensures forall i | 0 <= i < |r| - 1 :: r[i] != ""
  {
    var first := "  " + Format.FormatTimestamp(e.start, stamp) + "  "
                 + Format.FormatDurationMs(DurationMs(e.duration)) + "  " + e.user.username;
    assert first[..2] == "  ";
    [first] + (if e.description != "" then ["    " + e.description] else []) + [""]
  }

  /** The blocks of `es`, one per entry, in order. */
  function EntriesLines(es: seq<TimeEntry>, stamp: int -> string): (r: seq<string>)
    ensures |es| == 0 <==> r == []
    ensures |es| > 0 ==> r[|r| - 1] == ""
  {
    var block := e => EntryLines(e, stamp);
    if |es| == 0 then []
    else
      Seqs.FlatMapAt(es, block, |es| - 1);
      assert es[|es|..] == [];
      Seqs.FlatMap(es, block)
  }

  /** A single entry is printed as exactly its own block. */
  lemma EntriesOne(e: TimeEntry, stamp: int -> string)
    ensures EntriesLines([e], stamp) == EntryLines(e, stamp)
  {
    Seqs.FlatMapOne(e, e => EntryLines(e, stamp));
  }

  /** Printing two runs of entries is printing the first, then the second. */
  lemma EntriesAppend(a: seq<TimeEntry>, b: seq<TimeEntry>, stamp: int -> string)
    ensures EntriesLines(a + b, stamp) == EntriesLines(a, stamp) + EntriesLines(b, stamp)
  {
    Seqs.FlatMapAppend(a, b, e => EntryLines(e, stamp));
  }

  /** Entry `i`'s block appears whole, between the blocks of the entries before and after it. */
  lemma EntriesAt(es: seq<TimeEntry>, stamp: int -> string, i: int)
    requires 0 <= i < |es|
    ensures EntriesLines(es, stamp) == EntriesLines(es[..i], stamp) + EntryLines(es[i], stamp) + EntriesLines(es[i + 1..], stamp)
  {
    Seqs.FlatMapAt(es, e => EntryLines(e, stamp), i);
  }

  /** An entry's block holds exactly one empty line, its last. */
  lemma EntryBlank(e: TimeEntry, stamp: int -> string)
    ensures CountBlank(EntryLines(e, stamp)) == 1
  {
    var block := EntryLines(e, stamp);
    var body := block[..|block| - 1];
    NoBlank(body);
    CountBlankAppend(body, [""]);
    assert body + [""] == block;
  }

  /** Every entry is printed: one block, closed by one empty line, per entry. */
  lemma {:induction false} EntriesBlanks(es: seq<TimeEntry>, stamp: int -> string)
    ensures CountBlank(EntriesLines(es, stamp)) == |es|
    decreases |es|
  {
    if |es| > 0 {
      EntriesAt(es, stamp, 0);
      assert es[..0] == [];
      EntriesBlanks(es[1..], stamp);
      EntryBlank(es[0], stamp);
      CountBlankAppend(EntryLines(es[0], stamp), EntriesLines(es[1..], stamp));
    }
  }

  /**
   * What is printed: one line naming the place when there are no entries;
   * otherwise the count of all entries, an empty line and their blocks.
   */
  function TimeOutput(entries: seq<TimeEntry>, context: string, stamp: int -> string): (r: seq<string>)
    ensures |entries| == 0 ==> r == ["No time entries found for " + context + "."]
    ensures |entries| > 0 ==>
              && |r| > 2
              && r[0] == "Found " + Decimal.IntToString(|entries|) + " time entry/entries for " + context + ":"
              && r[1] == ""
              && r[2..] == EntriesLines(entries, stamp)
              && r[|r| - 1] == ""
  {
    if |entries| == 0 then ["No time entries found for " + context + "."]
    else
      var head := ["Found " + Decimal.IntToString(|entries|) + " time entry/entries for " + context + ":", ""];
      assert (head + EntriesLines(entries, stamp))[2..] == EntriesLines(entries, stamp);
      head + EntriesLines(entries, stamp)
  }

  /**
   * Every entry is printed, in the order received: after the two header
   * lines, entry `i`'s whole block follows the blocks of the entries before
   * it.
   */
  lemma TimeShowsEach(entries: seq<TimeEntry>, context: string, stamp: int -> string, i: int)
    requires 0 <= i < |entries|
    ensures TimeOutput(entries, context, stamp)[2..]
            == EntriesLines(entries[..i], stamp) + EntryLines(entries[i], stamp) + EntriesLines(entries[i + 1..], stamp)
  {
    EntriesAt(entries, stamp, i);
  }

  /**
   * The whole command: exactly one request to the selected endpoint, a
   * failure returned as "getting time entries: ..." with nothing printed, and
   * otherwise the output for the entries received, named by the target.
   */
  function RunTimeGet(args: seq<string>, teamFlag: string, teamId: string, reply: Result<seq<TimeEntry>>,
                      stamp: int -> string): (r: Run)
    ensures r.requests == [Client.Request(Client.Get, TimeTarget(args, teamFlag, teamId).endpoint, map[], None)]
    ensures reply.Err? ==> r.outcome == Err(Wrap("getting time entries", reply.msg))
    ensures reply.Ok? ==> r.outcome == Ok(TimeOutput(reply.value, TimeTarget(args, teamFlag, teamId).context, stamp))
  {
    var target := TimeTarget(args, teamFlag, teamId);
    var req := Client.Request(Client.Get, target.endpoint, map[], None);
    match reply
    case Err(e) => Run([req], Err(Wrap("getting time entries", e)))
    case Ok(es) => Run([req], Ok(TimeOutput(es, target.context, stamp)))
  }
}
