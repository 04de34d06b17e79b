/**
  The download handler of API v1: the stored message as a file named after
  its id, written one header line per Write and then the empty line and the
  body in one final Write.
 */
module ApiV1 {
  import opened Data
  import opened Http
  import opened Cors
  import opened CorsHandlers
  import opened ServerConfig
  import opened Serialise

  /** The Content-Disposition value naming the download `id.eml`. */
  function Attachment(id: string): (v: string)
    ensures v == "attachment; filename=\"" + EmlName(id) + "\""
  {
    "attachment; filename=\"" + id + ".eml\""
  }

  /** The download's file name: the message id with the extension .eml. */
  function EmlName(id: string): (f: string)
    ensures |f| == |id| + 4 && f[..|id|] == id && f[|id|..] == ".eml"
  {
    id + ".eml"
  }

  /** Writes the line of every value of header `name`, in stored order. */
  method WriteValueLines(resp: Response, name: string, values: seq<string>)
    modifies resp`body
    ensures resp.body == old(resp.body) + BytesParts(ValueLines(name, values))
  {
    var j := 0;
    while j < |values|
      invariant 0 <= j <= |values|
      invariant resp.body == old(resp.body) + BytesParts(ValueLines(name, values[..j]))
    {
      ValueLinesSnoc(name, values, j);
      BytesPartsAppend(ValueLines(name, values[..j]), [HeaderLine(name, values[j])]);
      resp.Write(Bytes(HeaderLine(name, values[j])));
      j := j + 1;
    }
    assert values[..j] == values;
  }

  /**
    After the writes for the names in `order`, writing the lines of one more
    name gives the writes for `order` extended by that name.
   */
  lemma WrittenLinesStep(start: seq<Part>, order: seq<string>, name: string, hs: Header, before: seq<Part>, after: seq<Part>)
    requires before == start + BytesParts(Lines(order, hs))
    requires after == before + BytesParts(ValueLines(name, Values(hs, name)))
    ensures after == start + BytesParts(Lines(order + [name], hs))
  {
    LinesSnoc(order, name, hs);
    BytesPartsAppend(Lines(order, hs), ValueLines(name, Values(hs, name)));
  }

  /**
    Writes one line per value of every header, visiting the header names in
    whatever order the map yields them; returns that order.
   */
  method WriteHeaderLines(resp: Response, hs: Header) returns (order: seq<string>)
    modifies resp`body
    ensures IsKeyOrder(order, hs)
    ensures resp.body == old(resp.body) + BytesParts(Lines(order, hs))
  {
    var remaining := hs.Keys;
    order := [];
    VisitStart(hs);
    while remaining != {}
      invariant Visited(order, hs, remaining)
      invariant resp.body == old(resp.body) + BytesParts(Lines(order, hs))
      decreases remaining
    {
      var name :| name in remaining;
      ghost var before := resp.body;
      WriteValueLines(resp, name, hs[name]);
      WrittenLinesStep(old(resp.body), order, name, hs, before, resp.body);
      VisitStep(order, hs, remaining, name);
      order := order + [name];
      remaining := remaining - {name};
    }
    VisitEnd(order, hs);
  }

  /** Writes the raw form of `c`: the header lines, then the empty line and the body. */
  method WriteMessage(resp: Response, c: Content) returns (order: seq<string>)
    modifies resp`body
    ensures IsKeyOrder(order, c.headers)
    ensures resp.body == old(resp.body) + BytesParts(DownloadChunks(order, c))
  {
    order := WriteHeaderLines(resp, c.headers);
    ghost var last := "\r\n" + c.body;
    assert DownloadChunks(order, c) == Lines(order, c.headers) + [last];
    BytesPartsAppend(Lines(order, c.headers), [last]);
    assert BytesParts([last]) == [Bytes(last)];
    resp.Write(Bytes("\r\n" + c.body));
  }

  /**
    GET /api/v1/messages/{id}/download. On a backend of another type than the
    two it switches on, the reply is 500 with no body. Otherwise the message
    must exist (a missing one makes the handler dereference nil); the order
    in which the map yielded the header names is returned.
   */
  method Download(config: Config, id: string, resp: Response) returns (order: seq<string>)
    requires config.storage.concrete ==> config.storage.load(id).Some?
    modifies resp`headers, resp`body, resp`status
    ensures !config.storage.concrete ==> resp.status == 500 && resp.body == old(resp.body)
    ensures config.storage.concrete ==>
      var c := config.storage.load(id).value.content;
      && resp.status == old(resp.status)
      && IsKeyOrder(order, c.headers)
      && resp.body == old(resp.body) + BytesParts(DownloadChunks(order, c))
    ensures resp.headers == Add(Add(WithCors(old(resp.headers), config.corsOrigin),
                                    "Content-Type", "message/rfc822"), "Content-Disposition", Attachment(id))
  {
    ghost var body0 := resp.body;
    DefaultOptions(config, resp);
    resp.AddHeader("Content-Type", "message/rfc822");
    resp.AddHeader("Content-Disposition", "attachment; filename=\"" + id + ".eml\"");
    if !config.storage.concrete {
      resp.status := 500;
      return [];
    }
    var message := config.storage.load(id).value;
    assert resp.body == body0;
    order := WriteMessage(resp, message.content);
    assert resp.body == body0 + BytesParts(DownloadChunks(order, message.content));
  }
}
