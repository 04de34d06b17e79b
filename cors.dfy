/**
  The cross-origin headers the API adds to every response when a CORS origin
  is configured: three headers for ordinary handlers (defaultOptions in both
  API versions), two for the event stream.
 */
module Cors {
  import opened Data
  import opened Http

  const AllowOrigin := "Access-Control-Allow-Origin"
  const AllowMethods := "Access-Control-Allow-Methods"
  const AllowHeaders := "Access-Control-Allow-Headers"
  const AllowedMethods := "OPTIONS,GET,POST,DELETE"
  const AllowedHeaders := "Content-Type"

  /**
    The headers after defaultOptions: untouched when no origin is configured;
    otherwise each of the three headers gains exactly one value at its end and
    every other header is as it was.
   */
  function WithCors(h: Header, origin: string): (r: Header)
    ensures r == h <==> origin == ""
    ensures origin != "" ==> r.Keys == h.Keys + {AllowOrigin, AllowMethods, AllowHeaders}
    ensures origin != "" ==> r[AllowOrigin] == Values(h, AllowOrigin) + [origin]
    ensures origin != "" ==> r[AllowMethods] == Values(h, AllowMethods) + [AllowedMethods]
    ensures origin != "" ==> r[AllowHeaders] == Values(h, AllowHeaders) + [AllowedHeaders]
    ensures forall k :: k in h && k !in {AllowOrigin, AllowMethods, AllowHeaders} ==> r[k] == h[k]
  {
    if |origin| > 0 then
      Add(Add(Add(h, AllowOrigin, origin), AllowMethods, AllowedMethods), AllowHeaders, AllowedHeaders)
    else
      h
  }

  /**
    The writer headers after the event stream's own CORS step: as WithCors,
    but without Access-Control-Allow-Headers.
   */
  function WithStreamCors(h: Header, origin: string): (r: Header)
    ensures r == h <==> origin == ""
    ensures origin != "" ==> r.Keys == h.Keys + {AllowOrigin, AllowMethods}
    ensures origin != "" ==> r[AllowOrigin] == Values(h, AllowOrigin) + [origin]
    ensures origin != "" ==> r[AllowMethods] == Values(h, AllowMethods) + [AllowedMethods]
    ensures forall k :: k in h && k !in {AllowOrigin, AllowMethods} ==> r[k] == h[k]
  {
    if |origin| > 0 then Add(Add(h, AllowOrigin, origin), AllowMethods, AllowedMethods) else h
  }
}

/** The CORS steps as the handlers run them on a response. */
module CorsHandlers {
  import opened Data
  import opened Http
  import opened Cors
  import opened ServerConfig

  /**
    defaultOptions (the same in API v1 and v2): adds the three CORS headers
    when an origin is configured; also the whole handler for OPTIONS requests.
   */
  method DefaultOptions(config: Config, resp: Response)
    modifies resp`headers
    ensures resp.headers == WithCors(old(resp.headers), config.corsOrigin)
  {
    if |config.corsOrigin| > 0 {
      resp.AddHeader(AllowOrigin, config.corsOrigin);
      resp.AddHeader(AllowMethods, AllowedMethods);
      resp.AddHeader(AllowHeaders, AllowedHeaders);
    }
  }

  /**
    The event-stream handler of API v1: its own CORS step on the response
    writer's headers. Registering the writer as a stream receiver is not modelled.
   */
  method EventStream(config: Config, resp: Response)
    modifies resp`writerHeaders
    ensures resp.writerHeaders == WithStreamCors(old(resp.writerHeaders), config.corsOrigin)
  {
    if |config.corsOrigin| > 0 {
      resp.AddWriterHeader(AllowOrigin, config.corsOrigin);
      resp.AddWriterHeader(AllowMethods, AllowedMethods);
    }
  }
}
