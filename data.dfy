/**
  The values the API handlers read and produce: stored messages (the part of
  them the handlers look at), the result envelope of API v2, the chaos-monkey
  ("Jim") settings, the outgoing-server records, and the storage backend seen
  only through its query operations.
 */
module Data {
  import opened Wrappers

  /** A header map: every header name carries its values in stored order. */
  type Header = map<string, seq<string>>

  /** The values stored under `name`, or none at all. */
  function Values(h: Header, name: string): (vs: seq<string>)
    ensures name in h ==> vs == h[name]
    ensures name !in h ==> vs == []
  {
    if name in h then h[name] else []
  }

  /** The parsed content of a stored message: its headers and its body text. */
  datatype Content = Content(headers: Header, body: string)

  /** A stored message; fields the handlers never read are not represented. */
  datatype Message = Message(id: string, content: Content)

  /** The JSON envelope API v2 returns for a page of messages. */
  datatype MessagesResult = MessagesResult(total: int, count: int, start: int, items: seq<Message>)

  /** The chaos monkey's settings, by name, as they travel in JSON. */
  datatype Jim = Jim(settings: map<string, real>)

  /** An outgoing mail server record; a release request has the same shape. */
  datatype OutgoingSmtp = OutgoingSmtp(
    name: string,
    save: bool,
    email: string,
    host: string,
    port: string,
    username: string,
    password: string,
    mechanism: string)

  type ReleaseConfig = OutgoingSmtp

  /** The named outgoing servers the process knows. */
  type Registry = map<string, OutgoingSmtp>

  /**
    The storage backend, seen only through the queries the handlers make:
    Load(id), List(start, limit), Count() and Search(kind, query, start, limit)
    (the latter giving one page of matches and the total number of matches).
    `concrete` says whether it is one of the two backend types (MongoDB,
    in-memory) that the API v1 handlers switch on; any other answers 500 there.
   */
  datatype Storage = Storage(
    concrete: bool,
    load: string -> Option<Message>,
    list: (int, int) -> seq<Message>,
    count: int,
    search: (string, string, int, int) -> (seq<Message>, int))
}
