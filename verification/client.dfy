/**
 * The decision logic of the HTTP client (internal/api/client.go): the
 * repeated-key query builder SetQueryArray with url.QueryEscape, and what
 * `request` makes of a response once its status and body are read. The
 * transport itself is not modelled; a request is recorded as a value.
 */
module Client {
  import opened Wrappers
  import opened Strings
  import Decimal

  datatype Method = Get | Put | Post

  /** One call to the API: method, endpoint path, query parameters, and JSON object body (None for GET). */
  datatype Request = Request(verb: Method, endpoint: string, params: map<string, string>, body: Option<map<string, string>>)

  // ---------------------------------------------------------------------------
  // url.QueryEscape and its inverse

  /** Bytes QueryEscape leaves as they are. */
  predicate IsUnreserved(c: char) {
    ('a' <= c <= 'z') || ('A' <= c <= 'Z') || ('0' <= c <= '9') || c == '-' || c == '_' || c == '.' || c == '~'
  }

  function HexDigit(d: nat): (c: char)
    requires d < 16
  {
    "0123456789ABCDEF"[d]
  }

  /** The value of a hexadecimal digit of either case. */
  function UnhexDigit(c: char): Option<nat> {
    if '0' <= c <= '9' then Some(c as int - '0' as int)
    else if 'a' <= c <= 'f' then Some(c as int - 'a' as int + 10)
    else if 'A' <= c <= 'F' then Some(c as int - 'A' as int + 10)
    else None
  }

  /** How QueryEscape writes one byte: kept, a space as '+', anything else as %XX. */
  function EscapeByte(c: char): (r: string)
    requires c as int < 256
    ensures forall i | 0 <= i < |r| :: r[i] != '&' && r[i] != '=' && r[i] != '?'
  {
    if IsUnreserved(c) then [c]
    else if c == ' ' then "+"
    else ['%', HexDigit(c as int / 16), HexDigit(c as int % 16)]
  }

  /**
   * url.QueryEscape. Its output never holds the bytes that delimit a query
   * ('&', '=', '?'), so an escaped key or value cannot be confused with the
   * query's structure.
   */
  function QueryEscape(s: string): (r: string)
    requires IsByteString(s)
    ensures forall i | 0 <= i < |r| :: r[i] != '&' && r[i] != '=' && r[i] != '?'
    decreases |s|
  {
    if |s| == 0 then "" else EscapeByte(s[0]) + QueryEscape(s[1..])
  }

  /** url.QueryUnescape: '+' is a space, %XX a byte; a malformed escape is an error. */
  function QueryUnescape(s: string): Option<string>
    decreases |s|
  {
    if |s| == 0 then Some("")
    else if s[0] == '%' then
      if |s| < 3 then None
      else
        match (UnhexDigit(s[1]), UnhexDigit(s[2]), QueryUnescape(s[3..]))
        case (Some(hi), Some(lo), Some(rest)) => Some([(hi * 16 + lo) as char] + rest)
        case _ => None
    else
      match QueryUnescape(s[1..])
      case Some(rest) => Some([if s[0] == '+' then ' ' else s[0]] + rest)
      case None => None
  }

  lemma UnescapeAfterByte(c: char, t: string)
    requires c as int < 256
    ensures QueryUnescape(EscapeByte(c) + t) ==
              match QueryUnescape(t) case Some(rest) => Some([c] + rest) case None => None
  {
    if IsUnreserved(c) || c == ' ' {
      UnescapePlain(c, t);
    } else {
      UnescapeHex(c, t);
    }
  }

  lemma UnescapePlain(c: char, t: string)
    requires IsUnreserved(c) || c == ' '
    ensures QueryUnescape(EscapeByte(c) + t) ==
              match QueryUnescape(t) case Some(rest) => Some([c] + rest) case None => None
  {
    var e := EscapeByte(c) + t;
    assert e[0] != '%' && e[1..] == t;
    assert (if e[0] == '+' then ' ' else e[0]) == c;
  }

  lemma UnescapeHex(c: char, t: string)
    requires c as int < 256 && !IsUnreserved(c) && c != ' '
    ensures QueryUnescape(EscapeByte(c) + t) ==
              match QueryUnescape(t) case Some(rest) => Some([c] + rest) case None => None
  {
    var hi := c as int / 16;
    var lo := c as int % 16;
    var e := EscapeByte(c) + t;
    assert e[0] == '%' && e[1] == HexDigit(hi) && e[2] == HexDigit(lo) && e[3..] == t;
    HexDigitRoundTrip(hi);
    HexDigitRoundTrip(lo);
    assert (hi * 16 + lo) as char == c;
  }

  lemma HexDigitRoundTrip(d: nat)
    requires d < 16
    ensures UnhexDigit(HexDigit(d)) == Some(d)
  {
  }

  /** Unescaping an escaped byte string gives it back. */
  lemma {:induction false} QueryEscapeRoundTrip(s: string)
    requires IsByteString(s)
    ensures QueryUnescape(QueryEscape(s)) == Some(s)
    decreases |s|
  {
    if |s| > 0 {
      QueryEscapeRoundTrip(s[1..]);
      UnescapeAfterByte(s[0], QueryEscape(s[1..]));
      assert [s[0]] + s[1..] == s;
    }
  }

  // ---------------------------------------------------------------------------
  // SetQueryArray

  /** '?' starts the query unless the endpoint already has one, in which case '&' continues it. */
  function QuerySeparator(endpoint: string): (r: char)
    ensures r == '?' <==> '?' !in endpoint
    ensures r == '&' <==> '?' in endpoint
  {
    ContainsOneByte(endpoint, '?');
    if Contains(endpoint, "?") then '&' else '?'
  }

  function QueryPair(key: string, value: string): (r: string)
    requires IsByteString(key) && IsByteString(value)
  {
    QueryEscape(key) + "=" + QueryEscape(value)
  }

  function QueryPairs(key: string, values: seq<string>): (r: seq<string>)
    requires IsByteString(key) && forall i | 0 <= i < |values| :: IsByteString(values[i])
    ensures |r| == |values|
    ensures forall i | 0 <= i < |r| :: r[i] == QueryPair(key, values[i])
  {
    seq(|values|, i requires 0 <= i < |values| => QueryPair(key, values[i]))
  }

  /**
   * SetQueryArray(endpoint, key, values): the endpoint is returned unchanged
   * when there are no values; otherwise it is a prefix of the result, followed
   * by the separator and then one escaped `key=value` pair per value.
   */
  function SetQueryArray(endpoint: string, key: string, values: seq<string>): (r: string)
    requires IsByteString(key) && forall i | 0 <= i < |values| :: IsByteString(values[i])
    ensures |values| == 0 ==> r == endpoint
    ensures |endpoint| <= |r| && r[..|endpoint|] == endpoint
    ensures |values| > 0 ==> |r| > |endpoint| && r[|endpoint|] == QuerySeparator(endpoint)
  {
    if |values| == 0 then endpoint
    else endpoint + [QuerySeparator(endpoint)] + Join(QueryPairs(key, values), "&")
  }

  /** The (key, value) pairs a repeated-key query denotes, in order. */
  function KeyedValues(key: string, values: seq<string>): (r: seq<(string, string)>)
    ensures |r| == |values|
    ensures forall i | 0 <= i < |r| :: r[i] == (key, values[i])
  {
    seq(|values|, i requires 0 <= i < |values| => (key, values[i]))
  }

  /** Read one `key=value` pair back. */
  function ParseQueryPair(p: string): Option<(string, string)> {
    var kv := Split(p, '=');
    if |kv| != 2 then None
    else
      match (QueryUnescape(kv[0]), QueryUnescape(kv[1]))
      case (Some(k), Some(v)) => Some((k, v))
      case _ => None
  }

  function ParsePairs(ps: seq<string>): Option<seq<(string, string)>>
    decreases |ps|
  {
    if |ps| == 0 then Some([])
    else
      match (ParseQueryPair(ps[0]), ParsePairs(ps[1..]))
      case (Some(kv), Some(rest)) => Some([kv] + rest)
      case _ => None
  }

  /** Read a query string back into its (key, value) pairs, in order. */
  function ParseQuery(q: string): Option<seq<(string, string)>> {
    ParsePairs(Split(q, '&'))
  }

  lemma ParseQueryPairRoundTrip(key: string, value: string)
    requires IsByteString(key) && IsByteString(value)
    ensures ParseQueryPair(QueryPair(key, value)) == Some((key, value))
  {
    var a := QueryEscape(key);
    var b := QueryEscape(value);
    assert Join([a, b], "=") == a + "=" + b by {
      JoinCons(a, [b], "=");
    }
    SplitJoin([a, b], '=');
    QueryEscapeRoundTrip(key);
    QueryEscapeRoundTrip(value);
  }

  lemma {:induction false} ParsePairsRoundTrip(key: string, values: seq<string>)
    requires IsByteString(key) && forall i | 0 <= i < |values| :: IsByteString(values[i])
    ensures ParsePairs(QueryPairs(key, values)) == Some(KeyedValues(key, values))
    decreases |values|
  {
    if |values| > 0 {
      PairsTail(key, values);
      ParsePairsRoundTrip(key, values[1..]);
      ParseQueryPairRoundTrip(key, values[0]);
    }
  }

  /** Both the escaped pairs and the (key, value) pairs of a non-empty list split into head and tail. */
  lemma PairsTail(key: string, values: seq<string>)
    requires IsByteString(key) && forall i | 0 <= i < |values| :: IsByteString(values[i])
    requires |values| > 0
    ensures QueryPairs(key, values)[0] == QueryPair(key, values[0])
    ensures QueryPairs(key, values)[1..] == QueryPairs(key, values[1..])
    ensures KeyedValues(key, values) == [(key, values[0])] + KeyedValues(key, values[1..])
  {
  }

  /**
   * What SetQueryArray appends reads back as exactly one (key, value) pair per
   * value, in the order given.
   */
  lemma SetQueryArrayRoundTrip(endpoint: string, key: string, values: seq<string>)
    requires IsByteString(key) && forall i | 0 <= i < |values| :: IsByteString(values[i])
    requires |values| > 0
    ensures ParseQuery(SetQueryArray(endpoint, key, values)[|endpoint| + 1..])
              == Some(KeyedValues(key, values))
  {
    var pairs := QueryPairs(key, values);
    var r := SetQueryArray(endpoint, key, values);
    assert r[|endpoint| + 1..] == Join(pairs, "&");
    forall i | 0 <= i < |pairs|
      ensures '&' !in pairs[i]
    {
      var e1 := QueryEscape(key);
      var e2 := QueryEscape(values[i]);
      assert pairs[i] == e1 + "=" + e2;
    }
    SplitJoin(pairs, '&');
    ParsePairsRoundTrip(key, values);
  }

  // ---------------------------------------------------------------------------
  // request: after the response has been read

  /** A status the client treats as success. */
  predicate IsSuccess(status: int) {
    200 <= status < 300
  }

  /**
   * What `request` reports once the response is read: the decoded value, a
   * success that decoded nothing, or an error message.
   */
  datatype Reply<T> = Decoded(value: T) | NoContent | Failed(msg: string)

  /**
   * The tail of `request`: a non-2xx status is an error carrying the status
   * and the raw body; a 2xx response is decoded only when there is a
   * destination and a non-empty body, and an empty 2xx body is a success that
   * decodes nothing.
   */
  function Finish<T>(status: int, body: string, hasDest: bool, decode: string -> Result<T>): (r: Reply<T>)
    ensures !IsSuccess(status) ==> r == Failed("HTTP " + Decimal.IntToString(status) + ": " + body)
    ensures IsSuccess(status) && (!hasDest || |body| == 0) ==> r == NoContent
    ensures IsSuccess(status) && hasDest && |body| > 0 ==>
              (r.Decoded? <==> decode(body).Ok?) &&
              (r.Decoded? ==> r.value == decode(body).value) &&
              (r.Failed? ==> r.msg == "decoding response: " + decode(body).msg)
  {
    if status < 200 || status >= 300 then Failed("HTTP " + Decimal.IntToString(status) + ": " + body)
    else if hasDest && |body| > 0 then
      match decode(body)
      case Ok(v) => Decoded(v)
      case Err(e) => Failed("decoding response: " + e)
    else NoContent
  }

  /**
   * What the caller's destination holds afterwards: the decoded value, or the
   * untouched zero value when nothing was decoded; errors pass through.
   */
  function Deliver<T>(r: Reply<T>, zero: T): (d: Result<T>)
    ensures r.Decoded? ==> d == Ok(r.value)
    ensures r.NoContent? ==> d == Ok(zero)
    ensures r.Failed? ==> d == Err(r.msg)
  {
    match r
    case Decoded(v) => Ok(v)
    case NoContent => Ok(zero)
    case Failed(m) => Err(m)
  }

  /**
   * The caller ends up with a value exactly when the status is 2xx and either
   * nothing needed decoding or the decoder accepted the body; the value is the
   * decoded one when there was something to decode, else the zero value.
   */
  lemma DeliverOkIff<T>(status: int, body: string, hasDest: bool, decode: string -> Result<T>, zero: T)
    ensures Deliver(Finish(status, body, hasDest, decode), zero).Ok? <==>
              IsSuccess(status) && (!hasDest || |body| == 0 || decode(body).Ok?)
    ensures IsSuccess(status) && hasDest && |body| > 0 && decode(body).Ok? ==>
              Deliver(Finish(status, body, hasDest, decode), zero) == Ok(decode(body).value)
    ensures IsSuccess(status) && (!hasDest || |body| == 0) ==>
              Deliver(Finish(status, body, hasDest, decode), zero) == Ok(zero)
  {
  }

  /** A printed status holds no ':'; it is a sign and digits. */
  lemma StatusHasNoColon(status: int)
    ensures forall i | 0 <= i < |Decimal.IntToString(status)| :: Decimal.IntToString(status)[i] != ':'
  {
    var code := Decimal.IntToString(status);
    forall i | 0 <= i < |code| ensures code[i] != ':' {
      if status < 0 && i > 0 {
        assert code[i] == code[1..][i - 1];
      }
    }
  }

  /** In `code + ": " + rest`, with no ':' in `code`, the first ": " is the one right after `code`. */
  lemma FirstSeparator(code: string, rest: string)
    requires forall i | 0 <= i < |code| :: code[i] != ':'
    ensures Index(code + ": " + rest, ": ") == |code|
  {
    var s := code + ": " + rest;
    forall i | 0 <= i < |code| ensures !OccursAt(s, ": ", i) {
      assert s[i] == code[i];
      if i + 2 <= |s| {
        assert s[i..i + 2][0] == s[i];
      }
    }
    assert s[|code|..|code| + 2] == ": ";
    assert OccursAt(s, ": ", |code|);
    var j := Index(s, ": ");
    assert j != -1;
    assert !(j < |code|);
    assert !(|code| < j);
  }

  /**
   * The error a failing status produces can be taken apart again: after
   * "HTTP ", the first ": " ends the status, which parses back to the status
   * itself, and everything after it is the body verbatim.
   */
  lemma FailureReadsBack<T>(status: int, body: string, hasDest: bool, decode: string -> Result<T>)
    requires !IsSuccess(status) && Decimal.MinInt64 <= status <= Decimal.MaxInt64
    ensures var m := Finish(status, body, hasDest, decode).msg;
              && |m| >= 5 && m[..5] == "HTTP "
              && var j := Index(m[5..], ": ");
                 && 0 <= j
                 && Decimal.ParseInt(m[5..][..j]) == Decimal.Parsed(status)
                 && m[5..][j + 2..] == body
  {
    var m := Finish(status, body, hasDest, decode).msg;
    var code := Decimal.IntToString(status);
    assert m[5..] == code + ": " + body;
    StatusHasNoColon(status);
    FirstSeparator(code, body);
    assert m[5..][..|code|] == code;
    Decimal.ParseIntRoundTrip(status);
  }
}
