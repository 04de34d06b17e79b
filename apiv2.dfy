/**
  The listing and search handlers of API v2. Both answer with a result
  envelope for the page window of getStartLimit; search first checks its
  `kind` and `query` parameters and answers 400 without querying storage
  when either is unusable.
 */
module ApiV2 {
  import opened Wrappers
  import opened Data
  import opened Http
  import opened Cors
  import opened CorsHandlers
  import opened ServerConfig
  import opened Paging

  const SearchKinds: set<string> := {"from", "to", "containing"}

  /** The envelope of GET /api/v2/messages: one page of the store, and the store's size. */
  function MessagesPage(st: Storage, q: Query): (r: MessagesResult)
    ensures r.count == |r.items|
    ensures r.start == StartLimit(q).start && r.start >= 0
    ensures r.items == st.list(StartLimit(q).start, StartLimit(q).limit)
    ensures r.total == st.count
  {
    var w := StartLimit(q);
    var items := st.list(w.start, w.limit);
    MessagesResult(st.count, |items|, w.start, items)
  }

  /**
    The envelope of GET /api/v2/search, or None for the 400 reply: an unknown
    `kind`, or an empty `query`.
   */
  function SearchPage(st: Storage, q: Query): (r: Option<MessagesResult>)
    ensures r.None? <==> QueryGet(q, "kind") !in SearchKinds || QueryGet(q, "query") == ""
    ensures r.Some? ==> r.value.count == |r.value.items|
    ensures r.Some? ==> r.value.start == StartLimit(q).start && r.value.start >= 0
    ensures r.Some? ==>
      (r.value.items, r.value.total) == st.search(QueryGet(q, "kind"), QueryGet(q, "query"), StartLimit(q).start, StartLimit(q).limit)
  {
    var w := StartLimit(q);
    var kind := QueryGet(q, "kind");
    if kind != "from" && kind != "to" && kind != "containing" then None
    else
      var query := QueryGet(q, "query");
      if |query| == 0 then None
      else
        var (items, total) := st.search(kind, query, w.start, w.limit);
        Some(MessagesResult(total, |items|, w.start, items))
  }

  /** A rejected search does not depend on what storage holds: storage is never asked. */
  lemma SearchRejectionIgnoresStorage(st1: Storage, st2: Storage, q: Query)
    requires QueryGet(q, "kind") !in SearchKinds || QueryGet(q, "query") == ""
    ensures SearchPage(st1, q) == SearchPage(st2, q) == None
  {
  }

  /** Two stores that agree on the page of matches give the same search reply. */
  lemma SearchDependsOnlyOnPage(st1: Storage, st2: Storage, q: Query)
    requires forall kind, query :: st1.search(kind, query, StartLimit(q).start, StartLimit(q).limit)
                                == st2.search(kind, query, StartLimit(q).start, StartLimit(q).limit)
    ensures SearchPage(st1, q) == SearchPage(st2, q)
  {
  }

  /** GET /api/v2/messages. */
  method Messages(config: Config, q: Query, resp: Response)
    modifies resp`headers, resp`body
    ensures resp.headers == Add(WithCors(old(resp.headers), config.corsOrigin), "Content-Type", "text/json")
    ensures resp.body == old(resp.body) + [Json(MessagesJson(MessagesPage(config.storage, q)))]
  {
    DefaultOptions(config, resp);
    var w := StartLimit(q);
    var messages := config.storage.list(w.start, w.limit);
    var res := MessagesResult(0, 0, 0, []);
    res := res.(count := |messages|);
    res := res.(start := w.start);
    res := res.(items := messages);
    res := res.(total := config.storage.count);
    resp.AddHeader("Content-Type", "text/json");
    resp.Write(Json(MessagesJson(res)));
  }

  /** GET /api/v2/search. */
  method Search(config: Config, q: Query, resp: Response)
    modifies resp`headers, resp`body, resp`status
    ensures var r := SearchPage(config.storage, q);
      && (r.None? ==> resp.status == 400 && resp.body == old(resp.body)
                      && resp.headers == WithCors(old(resp.headers), config.corsOrigin))
      && (r.Some? ==> resp.status == old(resp.status) && resp.body == old(resp.body) + [Json(MessagesJson(r.value))]
                      && resp.headers == Add(WithCors(old(resp.headers), config.corsOrigin), "Content-Type", "application/json"))
  {
    DefaultOptions(config, resp);
    var w := StartLimit(q);
    var kind := QueryGet(q, "kind");
    if kind != "from" && kind != "to" && kind != "containing" {
      resp.status := 400;
      return;
    }
    var query := QueryGet(q, "query");
    if |query| == 0 {
      resp.status := 400;
      return;
    }
    var (messages, total) := config.storage.search(kind, query, w.start, w.limit);
    var res := MessagesResult(0, 0, 0, []);
    res := res.(count := |messages|);
    res := res.(start := w.start);
    res := res.(items := messages);
    res := res.(total := total);
    resp.AddHeader("Content-Type", "application/json");
    resp.Write(Json(MessagesJson(res)));
  }
}
