/** The part of an HTTP exchange the handlers touch: query strings and the response. */
module Http {
  import opened Data

  /** Header.Add: appends `value` to the values of `name`, leaving every other header alone. */
  function Add(h: Header, name: string, value: string): (r: Header)
    ensures r.Keys == h.Keys + {name}
    ensures r[name] == Values(h, name) + [value]
    ensures forall k :: k in h && k != name ==> r[k] == h[k]
  {
    h[name := Values(h, name) + [value]]
  }

  /** A parsed URL query: each parameter with its values in order. */
  type Query = map<string, seq<string>>

  /** url.Values.Get: the first value of `key`, or the empty string when there is none. */
  function QueryGet(q: Query, key: string): (v: string)
    ensures key in q && |q[key]| > 0 ==> v == q[key][0]
    ensures key !in q || q[key] == [] ==> v == ""
  {
    if key in q && |q[key]| > 0 then q[key][0] else ""
  }

  /** A value the handlers marshal to JSON; the encoding itself is not modelled. */
  datatype JsonValue = MessagesJson(result: MessagesResult) | JimJson(jim: Jim)

  /** One call of the response's Write: raw bytes, or the JSON encoding of a value. */
  datatype Part = Bytes(data: string) | Json(value: JsonValue)

  /** One Write of raw bytes per string, in order. */
  function BytesParts(ls: seq<string>): (ps: seq<Part>)
    ensures |ps| == |ls|
    ensures forall i :: 0 <= i < |ls| ==> ps[i] == Bytes(ls[i])
  {
    seq(|ls|, i requires 0 <= i < |ls| => Bytes(ls[i]))
  }

  lemma BytesPartsAppend(a: seq<string>, b: seq<string>)
    ensures BytesParts(a + b) == BytesParts(a) + BytesParts(b)
  {
    assert forall i :: 0 <= i < |a + b| ==> BytesParts(a + b)[i] == (BytesParts(a) + BytesParts(b))[i];
  }

  /**
    The response a handler fills in: its status, the headers of the framework's
    response object, the headers of the underlying response writer, and the
    sequence of Writes made to its body.
   */
  class Response {
    var status: int
    var headers: Header
    var writerHeaders: Header
    var body: seq<Part>

    constructor ()
      ensures status == 200 && headers == map[] && writerHeaders == map[] && body == []
    {
      status := 200;
      headers := map[];
      writerHeaders := map[];
      body := [];
    }

    method AddHeader(name: string, value: string)
      modifies this`headers
      ensures headers == Add(old(headers), name, value)
    {
      headers := Add(headers, name, value);
    }

    method AddWriterHeader(name: string, value: string)
      modifies this`writerHeaders
      ensures writerHeaders == Add(old(writerHeaders), name, value)
    {
      writerHeaders := Add(writerHeaders, name, value);
    }

    method Write(p: Part)
      modifies this`body
      ensures body == old(body) + [p]
    {
      body := body + [p];
    }
  }
}
