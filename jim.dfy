/**
  The chaos-monkey ("Jim") endpoint of API v2: GET shows the active settings,
  POST switches the monkey on (from the process default, or from the request
  body when it decodes), PUT replaces the active settings from the body,
  DELETE switches the monkey off. A body that decodes also becomes the new
  process default, after being completed from the old default.
 */
module JimApi {
  import opened Wrappers
  import opened Data
  import opened Http
  import opened Cors
  import opened CorsHandlers
  import opened ServerConfig

  /** The active settings (None: monkey off) and the process-wide default. */
  datatype JimState = JimState(active: Option<Jim>, default: Jim)

  datatype Verb = Get | Post | Put | Delete

  /**
    What one request does: the status it assigns (None: left as it was), the
    new state, and the settings it writes back as JSON, if any.
   */
  datatype JimReply = JimReply(status: Option<int>, state: JimState, shown: Option<Jim>)

  /**
    newJimFromBody on the state: a decoded body, completed from the default by
    `configure` (monkey.Jim.ConfigureFrom), becomes both the default and the
    active settings; an undecodable body changes nothing (None).
   */
  function FromBody(s: JimState, body: Option<Jim>, configure: (Jim, Jim) -> Jim): (r: Option<JimState>)
    ensures r.None? <==> body.None?
    ensures r.Some? ==> r.value.active == Some(r.value.default)
    ensures body.Some? ==> r.value.default == configure(body.value, s.default)
  {
    match body
    case None => None
    case Some(j) =>
      var jim := configure(j, s.default);
      Some(JimState(Some(jim), jim))
  }

  function Transition(s: JimState, verb: Verb, body: Option<Jim>, configure: (Jim, Jim) -> Jim): (r: JimReply)
    ensures s.active.None? && verb != Post ==> r == JimReply(Some(404), s, None)
    ensures s.active.Some? && verb == Post ==> r == JimReply(Some(400), s, None)
    ensures verb == Get && s.active.Some? ==> r == JimReply(None, s, s.active)
    ensures verb == Delete && s.active.Some? ==> r == JimReply(None, s.(active := None), None)
    ensures verb == Post && s.active.None? ==> r.status == Some(201) && r.state.active.Some? && r.shown.None?
    ensures verb == Post && s.active.None? && body.None? ==> r.state == s.(active := Some(s.default))
    ensures verb == Put && s.active.Some? && body.None? ==> r == JimReply(Some(400), s, None)
    ensures verb == Put && s.active.Some? && body.Some? ==> r.status.None? && r.shown.None?
    ensures body.Some? && (verb == Put) == s.active.Some? && verb in {Post, Put} ==>
      r.state == FromBody(s, body, configure).value
  {
    match verb
    case Get =>
      if s.active.None? then JimReply(Some(404), s, None) else JimReply(None, s, s.active)
    case Delete =>
      if s.active.None? then JimReply(Some(404), s, None) else JimReply(None, s.(active := None), None)
    case Post =>
      if s.active.Some? then JimReply(Some(400), s, None)
      else
        var on := s.(active := Some(s.default));
        (match FromBody(on, body, configure)
         case Some(t) => JimReply(Some(201), t, None)
         case None => JimReply(Some(201), on, None))
    case Put =>
      if s.active.None? then JimReply(Some(404), s, None)
      else
        (match FromBody(s, body, configure)
         case Some(t) => JimReply(None, t, None)
         case None => JimReply(Some(400), s, None))
  }

  /** The active settings, when there are any, are the process default. */
  predicate ActiveIsDefault(s: JimState) {
    s.active.None? || s.active.value == s.default
  }

  /** Every request keeps the active settings equal to the default. */
  lemma TransitionKeepsActiveDefault(s: JimState, verb: Verb, body: Option<Jim>, configure: (Jim, Jim) -> Jim)
    requires ActiveIsDefault(s)
    ensures ActiveIsDefault(Transition(s, verb, body, configure).state)
  {
  }

  /** One request to the endpoint. */
  datatype Request = Request(verb: Verb, body: Option<Jim>)

  /** The state after a sequence of requests, in order. */
  function Run(s: JimState, reqs: seq<Request>, configure: (Jim, Jim) -> Jim): JimState
    decreases |reqs|
  {
    if reqs == [] then s
    else Run(Transition(s, reqs[0].verb, reqs[0].body, configure).state, reqs[1..], configure)
  }

  /** From a start where the active settings are the default, they stay so. */
  lemma {:induction false} RunKeepsActiveDefault(s: JimState, reqs: seq<Request>, configure: (Jim, Jim) -> Jim)
    requires ActiveIsDefault(s)
    ensures ActiveIsDefault(Run(s, reqs, configure))
    decreases |reqs|
  {
    if reqs != [] {
      TransitionKeepsActiveDefault(s, reqs[0].verb, reqs[0].body, configure);
      RunKeepsActiveDefault(Transition(s, reqs[0].verb, reqs[0].body, configure).state, reqs[1..], configure);
    }
  }

  /** The default is only ever replaced by a decoded body: requests without one keep it. */
  lemma {:induction false} RunWithoutBodiesKeepsDefault(s: JimState, reqs: seq<Request>, configure: (Jim, Jim) -> Jim)
    requires forall i :: 0 <= i < |reqs| ==> reqs[i].body.None?
    ensures Run(s, reqs, configure).default == s.default
    decreases |reqs|
  {
    if reqs != [] {
      RunWithoutBodiesKeepsDefault(Transition(s, reqs[0].verb, reqs[0].body, configure).state, reqs[1..], configure);
    }
  }

  /** Switching the monkey on and then off leaves it off, with 201 and then no error status. */
  lemma PostThenDelete(s: JimState, body: Option<Jim>, configure: (Jim, Jim) -> Jim)
    requires s.active.None?
    ensures var r1 := Transition(s, Post, body, configure);
      var r2 := Transition(r1.state, Delete, None, configure);
      r1.status == Some(201) && r2.status.None? && r2.state.active.None?
  {
  }

  /** After switching the monkey on, GET shows the settings it was switched on with. */
  lemma PostThenGet(s: JimState, body: Option<Jim>, configure: (Jim, Jim) -> Jim)
    requires s.active.None?
    ensures var r1 := Transition(s, Post, body, configure);
      var r2 := Transition(r1.state, Get, None, configure);
      r2.shown == r1.state.active
      && r2.shown == Some(if body.Some? then configure(body.value, s.default) else s.default)
  {
  }

  function StateOf(config: Config): JimState
    reads config
  {
    JimState(config.monkey, config.jim)
  }

  /** The response after a reply: the status assigned, the settings written as JSON. */
  ghost predicate Answered(resp: Response, oldStatus: int, oldHeaders: Header, oldBody: seq<Part>, origin: string, r: JimReply)
    reads resp
  {
    && resp.status == (if r.status.Some? then r.status.value else oldStatus)
    && resp.headers == (if r.shown.Some? then Add(WithCors(oldHeaders, origin), "Content-Type", "application/json")
                        else WithCors(oldHeaders, origin))
    && resp.body == (if r.shown.Some? then oldBody + [Json(JimJson(r.shown.value))] else oldBody)
  }

  /** GET /api/v2/jim. */
  method GetJim(config: Config, resp: Response)
    modifies resp`headers, resp`body, resp`status
    ensures Answered(resp, old(resp.status), old(resp.headers), old(resp.body), config.corsOrigin,
                     Transition(StateOf(config), Get, None, (j, d) => j))
  {
    DefaultOptions(config, resp);
    if config.monkey.None? {
      resp.status := 404;
      return;
    }
    resp.AddHeader("Content-Type", "application/json");
    resp.Write(Json(JimJson(config.monkey.value)));
  }

  /** DELETE /api/v2/jim. */
  method DeleteJim(config: Config, resp: Response)
    modifies config`monkey, resp`headers, resp`status
    ensures var r := Transition(old(StateOf(config)), Delete, None, (j, d) => j);
      StateOf(config) == r.state && Answered(resp, old(resp.status), old(resp.headers), old(resp.body), config.corsOrigin, r)
  {
    DefaultOptions(config, resp);
    if config.monkey.None? {
      resp.status := 404;
      return;
    }
    config.monkey := None;
  }

  /**
    newJimFromBody: reports whether the body decoded; when it did, the decoded
    settings, completed from the old default, are the new default and active settings.
   */
  method NewJimFromBody(config: Config, body: Option<Jim>, configure: (Jim, Jim) -> Jim) returns (ok: bool)
    modifies config`monkey, config`jim
    ensures ok <==> body.Some?
    ensures ok ==> StateOf(config) == FromBody(old(StateOf(config)), body, configure).value
    ensures !ok ==> StateOf(config) == old(StateOf(config))
  {
    if body.None? {
      return false;
    }
    var jim := configure(body.value, config.jim);
    config.jim := jim;
    config.monkey := Some(jim);
    return true;
  }

  /** POST /api/v2/jim. */
  method CreateJim(config: Config, body: Option<Jim>, configure: (Jim, Jim) -> Jim, resp: Response)
    modifies config`monkey, config`jim, resp`headers, resp`status
    ensures var r := Transition(old(StateOf(config)), Post, body, configure);
      StateOf(config) == r.state && Answered(resp, old(resp.status), old(resp.headers), old(resp.body), config.corsOrigin, r)
  {
    DefaultOptions(config, resp);
    if config.monkey.Some? {
      resp.status := 400;
      return;
    }
    config.monkey := Some(config.jim);
    var _ := NewJimFromBody(config, body, configure);
    resp.status := 201;
  }

  /** PUT /api/v2/jim. */
  method UpdateJim(config: Config, body: Option<Jim>, configure: (Jim, Jim) -> Jim, resp: Response)
    modifies config`monkey, config`jim, resp`headers, resp`status
    ensures var r := Transition(old(StateOf(config)), Put, body, configure);
      StateOf(config) == r.state && Answered(resp, old(resp.status), old(resp.headers), old(resp.body), config.corsOrigin, r)
  {
    DefaultOptions(config, resp);
    if config.monkey.None? {
      resp.status := 404;
      return;
    }
    var ok := NewJimFromBody(config, body, configure);
    if !ok {
      resp.status := 400;
    }
  }
}
