/**
 * `space search [query]` (cmd/spaceSearch.go): one GET of the team's spaces,
 * then a case-insensitive substring filter on the space name, done locally.
 */
module SpaceSearch {
  import opened Wrappers
  import opened Strings
  import opened Seqs
  import opened Types
  import opened Commands
  import Client
  import Format
  import Decimal

  const NoSpaces := "No spaces found."
  const NoMatch := "No spaces matching your query."

  /** A space is shown when there is no query or its lower-cased name contains the lower-cased query. */
  predicate SpaceMatches(s: Space, query: string) {
    query == "" || Contains(Lower(s.name), Lower(query))
  }

  function SpaceMatcher(query: string): Space -> bool {
    (s: Space) => SpaceMatches(s, query)
  }

  /**
   * One space: ID and name, then a private marker for a private space only,
   * and how many statuses it defines.
   */
  function SpaceLine(s: Space): (r: string)
    ensures var head := s.id + "  " + s.name;
            && |r| > |head| && r[..|head|] == head
            && r[|head|..] == (if s.isPrivate then " [private]" else "") + "  ("
                              + Decimal.IntToString(|s.statuses|) + " statuses)"
    ensures |r| > 10 && r[|r| - 10..] == " statuses)"
  {
    s.id + "  " + s.name + (if s.isPrivate then " [private]" else "") + "  ("
      + Decimal.IntToString(|s.statuses|) + " statuses)"
  }

  /**
   * What is printed for the spaces received: a fixed line when there are
   * none; otherwise one line per matching space in the order received, and
   * the no-match line exactly when none matched.
   */
  function SpaceSearchOutput(spaces: seq<Space>, query: string): (r: seq<string>)
    ensures |spaces| == 0 ==> r == [NoSpaces]
    ensures |spaces| > 0 ==>
              var shown := Filter(spaces, SpaceMatcher(query));
              && |r| == |shown| + Format.Count(|shown| == 0)
              && (forall i | 0 <= i < |shown| :: r[i] == SpaceLine(shown[i]))
              && (r[|r| - 1] == NoMatch <==> |shown| == 0)
  {
    if |spaces| == 0 then [NoSpaces]
    else
      var shown := Filter(spaces, SpaceMatcher(query));
      var lines := seq(|shown|, i requires 0 <= i < |shown| => SpaceLine(shown[i]));
      if |shown| == 0 then [NoMatch]
      else
        assert lines[|lines| - 1][|lines[|lines| - 1]| - 10..] == " statuses)";
        lines
  }

  /**
   * A space line can be read back: what follows the ID and name starts with
   * " [private]" exactly for a private space, and the number before
   * " statuses)" parses as the number of statuses the space defines.
   */
  lemma SpaceLineReadsBack(s: Space)
    requires |s.statuses| <= Decimal.MaxInt64
    ensures var tail := SpaceLine(s)[|s.id| + 2 + |s.name|..];
            && |tail| >= 13
            && (tail[..10] == " [private]" <==> s.isPrivate)
            && Decimal.ParseInt(tail[10 * Format.Count(s.isPrivate) + 3..|tail| - 10]) == Decimal.Parsed(|s.statuses|)
  {
    var tail := SpaceLine(s)[|s.id| + 2 + |s.name|..];
    var marker := if s.isPrivate then " [private]" else "";
    var count := Decimal.IntToString(|s.statuses|);
    assert tail == marker + "  (" + count + " statuses)";
    if !s.isPrivate {
      assert tail[1] == ' ';
    }
    assert tail[|marker| + 3..|tail| - 10] == count;
    Decimal.ParseIntRoundTrip(|s.statuses|);
  }

  /** Without a query every space is listed, in the order received. */
  lemma EmptyQueryListsAll(spaces: seq<Space>)
    ensures Filter(spaces, SpaceMatcher("")) == spaces
  {
    FilterAll(spaces, SpaceMatcher(""));
  }

  /** A space whose name contains the query, ignoring ASCII case, is listed. */
  lemma NamedSpaceIsListed(spaces: seq<Space>, query: string, i: int)
    requires 0 <= i < |spaces|
    requires Contains(Lower(spaces[i].name), Lower(query))
    ensures spaces[i] in Filter(spaces, SpaceMatcher(query))
  {
    FilterKeeps(spaces, SpaceMatcher(query), i);
  }

  function SpacesRequest(teamId: string): Client.Request {
    Client.Request(Client.Get, "/team/" + teamId + "/space", map[], None)
  }

  /**
   * The whole command: exactly one request, a failure returned as "searching
   * spaces: ..." with nothing printed, and otherwise the output for the
   * spaces received and the joined arguments.
   */
  function RunSpaceSearch(args: seq<string>, teamId: string, reply: Result<seq<Space>>): (r: Run)
    ensures r.requests == [SpacesRequest(teamId)]
    ensures reply.Err? ==> r.outcome == Err(Wrap("searching spaces", reply.msg))
    ensures reply.Ok? ==> r.outcome == Ok(SpaceSearchOutput(reply.value, SearchQuery(args)))
  {
    match reply
    case Err(e) => Run([SpacesRequest(teamId)], Err(Wrap("searching spaces", e)))
    case Ok(spaces) => Run([SpacesRequest(teamId)], Ok(SpaceSearchOutput(spaces, SearchQuery(args))))
  }
}
