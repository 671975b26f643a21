/**
 * `doc search [query]` (cmd/docSearch.go): one GET of the team's documents;
 * the query is passed to the API, not filtered locally.
 */
module DocSearch {
  import opened Wrappers
  import opened Types
  import opened Commands
  import Client
  import Format
  import Decimal
  import opened Strings

  /** The joined query is sent as the `query` parameter exactly when it is non-empty. */
  function DocParams(query: string): (r: map<string, string>)
    ensures ("query" in r <==> query != "") && r.Keys <= {"query"}
    ensures query != "" ==> r["query"] == query
  {
    if query != "" then map["query" := query] else map[]
  }

  function DocLine(d: Document, stamp: int -> string): string {
    d.id + "  " + d.name + "  (created: " + Format.FormatTimestamp(d.dateCreated, stamp) + ", by: " + d.creator.username + ")"
  }

  /** What is printed: one line when nothing was found; otherwise the count, an empty line and one line per document, in order. */
  function DocSearchOutput(docs: seq<Document>, stamp: int -> string): (r: seq<string>)
    ensures |docs| == 0 ==> r == ["No documents found."]
    ensures |docs| > 0 ==>
              && |r| == 2 + |docs|
              && r[0] == "Found " + Decimal.IntToString(|docs|) + " document(s):" && r[1] == ""
              && forall i | 0 <= i < |docs| :: r[2 + i] == DocLine(docs[i], stamp)
  {
    if |docs| == 0 then ["No documents found."]
    else
      ["Found " + Decimal.IntToString(|docs|) + " document(s):", ""]
        + seq(|docs|, i requires 0 <= i < |docs| => DocLine(docs[i], stamp))
  }

  function DocsRequest(teamId: string, query: string): Client.Request {
    Client.Request(Client.Get, "/team/" + teamId + "/docs", DocParams(query), None)
  }

  /**
   * The whole command: exactly one request carrying the joined arguments, a
   * failure returned as "searching documents: ..." with nothing printed, and
   * otherwise the output for the documents received.
   */
  function RunDocSearch(args: seq<string>, teamId: string, reply: Result<seq<Document>>, stamp: int -> string): (r: Run)
    ensures r.requests == [DocsRequest(teamId, SearchQuery(args))]
    ensures reply.Err? ==> r.outcome == Err(Wrap("searching documents", reply.msg))
    ensures reply.Ok? ==> r.outcome == Ok(DocSearchOutput(reply.value, stamp))
  {
    var req := DocsRequest(teamId, SearchQuery(args));
    match reply
    case Err(e) => Run([req], Err(Wrap("searching documents", e)))
    case Ok(docs) => Run([req], Ok(DocSearchOutput(docs, stamp)))
  }

  /**
   * The request carries a query exactly when the arguments join to a
   * non-empty string, and arguments without spaces can be read back from it
   * by splitting at the spaces.
   */
  lemma DocQueryCarriesArgs(args: seq<string>, teamId: string)
    requires forall i | 0 <= i < |args| :: ' ' !in args[i]
    ensures var p := DocsRequest(teamId, SearchQuery(args)).params;
              && ("query" in p <==> !(|args| == 0 || (|args| == 1 && args[0] == "")))
              && ("query" in p ==> Split(p["query"], ' ') == args)
  {
    if |args| > 0 {
      SearchQuerySplits(args);
    }
  }
}
