/**
  getStartLimit of API v2: the page window a listing or search request asks
  for, read from the `start` and `limit` query parameters. A parameter that
  is absent, does not parse as a decimal 64-bit integer or is not positive
  leaves its default (start 0, limit 50); a limit above 250 is cut to 250.
 */
module Paging {
  import opened Wrappers
  import opened Http
  import opened Strconv

  const DefaultLimit: int := 50
  const MaxLimit: int := 250

  datatype Window = Window(start: int, limit: int)

  /** The positive value `s` parses to, if any. */
  function Positive(s: string): Option<int> {
    match ParseInt(s)
    case Some(n) => if n > 0 then Some(n) else None
    case None => None
  }

  function StartLimit(q: Query): (w: Window)
    ensures w.start >= 0
    ensures 1 <= w.limit <= MaxLimit
  {
    var start := match Positive(QueryGet(q, "start")) case Some(n) => n case None => 0;
    var limit := match Positive(QueryGet(q, "limit")) case Some(n) => (if n > MaxLimit then MaxLimit else n) case None => DefaultLimit;
    Window(start, limit)
  }

  /** An absent, unparseable or non-positive `start` gives 0. */
  lemma StartDefault(q: Query)
    requires ParseInt(QueryGet(q, "start")).None? || ParseInt(QueryGet(q, "start")).value <= 0
    ensures StartLimit(q).start == 0
  {
  }

  /** A `start` that parses to a positive n gives n. */
  lemma StartGiven(q: Query, n: int)
    requires ParseInt(QueryGet(q, "start")) == Some(n) && n > 0
    ensures StartLimit(q).start == n
  {
  }

  /** An absent, unparseable or non-positive `limit` gives 50. */
  lemma LimitDefault(q: Query)
    requires ParseInt(QueryGet(q, "limit")).None? || ParseInt(QueryGet(q, "limit")).value <= 0
    ensures StartLimit(q).limit == DefaultLimit
  {
  }

  /** A `limit` that parses to a positive n gives n, at most 250. */
  lemma LimitGiven(q: Query, n: int)
    requires ParseInt(QueryGet(q, "limit")) == Some(n) && n > 0
    ensures StartLimit(q).limit == if n <= MaxLimit then n else MaxLimit
  {
  }

  /** A request with neither parameter gets the first 50 messages. */
  lemma NoParameters(q: Query)
    requires "start" !in q && "limit" !in q
    ensures StartLimit(q) == Window(0, DefaultLimit)
  {
  }

  /**
    A client that sends both parameters as plain decimal numbers in the 64-bit
    range gets back the start it asked for, when positive, and the limit it
    asked for, when positive, cut to 250.
   */
  lemma DecimalParameters(q: Query, start: int, limit: int)
    requires MinInt64 <= start <= MaxInt64 && MinInt64 <= limit <= MaxInt64
    requires "start" in q && q["start"] != [] && q["start"][0] == FormatInt(start)
    requires "limit" in q && q["limit"] != [] && q["limit"][0] == FormatInt(limit)
    ensures StartLimit(q).start == if start > 0 then start else 0
    ensures StartLimit(q).limit == if limit <= 0 then DefaultLimit else if limit <= MaxLimit then limit else MaxLimit
  {
    ParseFormatInt(start);
    ParseFormatInt(limit);
  }
}
