/**
  release_one of API v1: sends a stored message to an outgoing SMTP server.
  The request body names the server inline or by a saved name, and may ask
  for the server to be saved under its name first. The handler merges a saved
  server's settings into the request, picks the SMTP authentication, and sends
  the message in its raw form (header lines, empty line, body).
 */
module Release {
  import opened Wrappers
  import opened Data
  import opened Http
  import opened Cors
  import opened CorsHandlers
  import opened ServerConfig
  import opened Serialise

  const DecodeError := "Error decoding request body"

  /** The smtp.Auth the handler builds (NoAuth is Go's nil Auth). */
  datatype Auth =
    | NoAuth
    | CramMd5(username: string, secret: string)
    | PlainAuth(identity: string, username: string, password: string, host: string)

  /** The arguments of the handler's smtp.SendMail call. */
  datatype SendRequest = SendRequest(addr: string, auth: Auth, from: string, to: seq<string>, msg: string)

  /**
    The request completed from a saved server: everything comes from the saved
    entry except the recipient, which stays the request's unless that is empty.
   */
  function UseSaved(req: ReleaseConfig, saved: OutgoingSmtp): (r: ReleaseConfig)
    ensures r.name == saved.name && r.host == saved.host && r.port == saved.port
    ensures r.username == saved.username && r.password == saved.password && r.mechanism == saved.mechanism
    ensures r.email == (if req.email == "" then saved.email else req.email)
    ensures r.save == req.save
  {
    var email := if |req.email| > 0 then req.email else saved.email;
    OutgoingSmtp(saved.name, req.save, email, saved.host, saved.port, saved.username, saved.password, saved.mechanism)
  }

  /** Completing a request twice from the same entry is completing it once. */
  lemma UseSavedIdempotent(req: ReleaseConfig, saved: OutgoingSmtp)
    ensures UseSaved(UseSaved(req, saved), saved) == UseSaved(req, saved)
  {
  }

  /** A request completed from its own saved copy is unchanged. */
  lemma UseSavedSelf(req: ReleaseConfig)
    ensures UseSaved(req, req) == req
  {
  }

  /**
    The authentication for `cfg`, or None for the 400 reply: credentials are
    used only when a user name or password is given, and then only with the
    CRAMMD5 or PLAIN mechanism.
   */
  function SelectAuth(cfg: ReleaseConfig): (r: Option<Auth>)
    ensures r == Some(NoAuth) <==> cfg.username == "" && cfg.password == ""
    ensures r.None? <==> (cfg.username != "" || cfg.password != "") && cfg.mechanism !in {"CRAMMD5", "PLAIN"}
    ensures r.Some? && r.value.CramMd5? ==> r.value == CramMd5(cfg.username, cfg.password) && cfg.mechanism == "CRAMMD5"
    ensures r.Some? && r.value.PlainAuth? ==> r.value == PlainAuth("", cfg.username, cfg.password, cfg.host) && cfg.mechanism == "PLAIN"
  {
    if |cfg.username| > 0 || |cfg.password| > 0 then
      if cfg.mechanism == "CRAMMD5" then Some(CramMd5(cfg.username, cfg.password))
      else if cfg.mechanism == "PLAIN" then Some(PlainAuth("", cfg.username, cfg.password, cfg.host))
      else None
    else Some(NoAuth)
  }

  /** Without credentials the mechanism is never looked at. */
  lemma MechanismIgnoredWithoutCredentials(cfg: ReleaseConfig, mechanism: string)
    requires cfg.username == "" && cfg.password == ""
    ensures SelectAuth(cfg.(mechanism := mechanism)) == SelectAuth(cfg) == Some(NoAuth)
  {
  }

  /**
    The save step (for a request that asks to save): None for the 400 reply
    when the name is taken, otherwise the registry with the request added
    under its name. A request that does not ask to save leaves the registry.
   */
  function SavedRegistry(reg: Registry, req: ReleaseConfig): (r: Option<Registry>)
    ensures r.None? <==> req.save && req.name in reg
    ensures r.Some? && req.save ==> r.value == reg[req.name := req]
    ensures r.Some? && !req.save ==> r.value == reg
  {
    if !req.save then Some(reg)
    else if req.name in reg then None
    else Some(reg[req.name := req])
  }

  /**
    The lookup step: a request without a name is used as it is; a named one is
    completed from the registry entry of that name, or is None for the 400
    reply when there is none.
   */
  function Resolved(reg: Registry, req: ReleaseConfig): (r: Option<ReleaseConfig>)
    ensures r.None? <==> req.name != "" && req.name !in reg
    ensures r.Some? && req.name == "" ==> r.value == req
    ensures r.Some? && req.name != "" ==> r.value == UseSaved(req, reg[req.name])
  {
    if |req.name| == 0 then Some(req)
    else if req.name in reg then Some(UseSaved(req, reg[req.name]))
    else None
  }

  /**
    What a release request comes to: a refusal with its status and the
    registry as it is left, or a delivery with the registry, the server
    settings and the authentication used.
   */
  datatype Plan =
    | Refuse(status: int, registry: Registry)
    | Deliver(registry: Registry, cfg: ReleaseConfig, auth: Auth)

  function PlanRelease(reg: Registry, body: Option<ReleaseConfig>): (p: Plan)
    // an undecodable body is refused with 500 before the registry is touched
    ensures body.None? ==> p == Refuse(500, reg)
    // saving under a name already taken is refused with 400, registry unchanged
    ensures body.Some? && body.value.save && body.value.name in reg ==> p == Refuse(400, reg)
    // saving under a new name adds the request under that name
    ensures body.Some? && body.value.save && body.value.name !in reg ==> p.registry == reg[body.value.name := body.value]
    ensures body.Some? && !body.value.save ==> p.registry == reg
    // a name that is neither saved nor being saved is refused with 400
    ensures body.Some? && !body.value.save && body.value.name != "" && body.value.name !in reg ==> p == Refuse(400, reg)
    // a delivery uses the named entry's settings, and SelectAuth's authentication
    ensures p.Deliver? ==>
      && body.Some?
      && (body.value.name == "" ==> p.cfg == body.value)
      && (body.value.name != "" ==> body.value.name in p.registry && p.cfg == UseSaved(body.value, p.registry[body.value.name]))
      && SelectAuth(p.cfg) == Some(p.auth)
    // a request that passes the save, lookup and mechanism checks is delivered
    ensures p.Deliver? <==>
      && body.Some?
      && SavedRegistry(reg, body.value).Some?
      && Resolved(SavedRegistry(reg, body.value).value, body.value).Some?
      && SelectAuth(Resolved(SavedRegistry(reg, body.value).value, body.value).value).Some?
    ensures p.Refuse? ==> p.status in {400, 500}
  {
    match body
    case None => Refuse(500, reg)
    case Some(req) =>
      match SavedRegistry(reg, req)
      case None => Refuse(400, reg)
      case Some(reg1) =>
        match Resolved(reg1, req)
        case None => Refuse(400, reg1)
        case Some(cfg) =>
          match SelectAuth(cfg)
          case None => Refuse(400, reg1)
          case Some(auth) => Deliver(reg1, cfg, auth)
  }

  /** Settings whose credentials come with an unsupported mechanism are refused with 400. */
  lemma UnsupportedMechanismRefused(reg: Registry, req: ReleaseConfig)
    requires SavedRegistry(reg, req).Some? && Resolved(SavedRegistry(reg, req).value, req).Some?
    requires SelectAuth(Resolved(SavedRegistry(reg, req).value, req).value).None?
    ensures PlanRelease(reg, Some(req)) == Refuse(400, SavedRegistry(reg, req).value)
  {
  }

  /**
    A release never removes or alters a registered server; it adds at most
    one, the request itself under its own name.
   */
  lemma RegistryOnlyGrows(reg: Registry, body: Option<ReleaseConfig>)
    ensures var r := PlanRelease(reg, body).registry;
      && reg.Keys <= r.Keys
      && (forall k :: k in reg ==> r[k] == reg[k])
      && (forall k :: k in r && k !in reg ==> body.Some? && k == body.value.name && r[k] == body.value)
      && |r.Keys - reg.Keys| <= 1
  {
    var r := PlanRelease(reg, body).registry;
    if body.Some? && body.value.save && body.value.name !in reg {
      assert r.Keys - reg.Keys == {body.value.name};
    } else {
      assert r.Keys - reg.Keys == {};
    }
  }

  /** A server saved by the request is then used with exactly the request's settings. */
  lemma SavedServerUsedAsGiven(reg: Registry, req: ReleaseConfig)
    requires req.save && req.name !in reg
    ensures var p := PlanRelease(reg, Some(req));
      && (p.Deliver? ==> p.cfg == req)
      && (p.Refuse? ==> p.status == 400 && SelectAuth(req).None?)
  {
    UseSavedSelf(req);
  }

  /** The save block: saves the request's server under its name when asked to; false for the 400 reply. */
  method SaveServer(config: Config, cfg: ReleaseConfig) returns (ok: bool)
    modifies config`outgoing
    ensures ok <==> SavedRegistry(old(config.outgoing), cfg).Some?
    ensures ok ==> config.outgoing == SavedRegistry(old(config.outgoing), cfg).value
    ensures !ok ==> config.outgoing == old(config.outgoing)
  {
    if cfg.save {
      if cfg.name in config.outgoing {
        return false;
      }
      config.outgoing := config.outgoing[cfg.name := cfg];
    }
    return true;
  }

  /** The lookup block: completes a named request from the registry, field by field; None for the 400 reply. */
  method ResolveServer(config: Config, req: ReleaseConfig) returns (r: Option<ReleaseConfig>)
    ensures r == Resolved(config.outgoing, req)
  {
    var cfg := req;
    if |cfg.name| > 0 {
      if cfg.name in config.outgoing {
        var c := config.outgoing[cfg.name];
        cfg := cfg.(name := c.name);
        if |cfg.email| == 0 {
          cfg := cfg.(email := c.email);
        }
        cfg := cfg.(host := c.host);
        cfg := cfg.(port := c.port);
        cfg := cfg.(username := c.username);
        cfg := cfg.(password := c.password);
        cfg := cfg.(mechanism := c.mechanism);
      } else {
        return None;
      }
    }
    return Some(cfg);
  }

  /** The mechanism switch: the authentication for `cfg`; None for the 400 reply. */
  method ChooseAuth(cfg: ReleaseConfig) returns (auth: Option<Auth>)
    ensures auth == SelectAuth(cfg)
  {
    auth := Some(NoAuth);
    if |cfg.username| > 0 || |cfg.password| > 0 {
      if cfg.mechanism == "CRAMMD5" {
        auth := Some(CramMd5(cfg.username, cfg.password));
      } else if cfg.mechanism == "PLAIN" {
        auth := Some(PlainAuth("", cfg.username, cfg.password, cfg.host));
      } else {
        auth := None;
      }
    }
  }

  /**
    POST /api/v1/messages/{id}/release with the decoded body (None when it
    does not decode). The message must exist when the body decodes (otherwise
    the handler dereferences nil). `sendOk` is whether smtp.SendMail succeeds;
    `sent` is the SendMail call made, if any.
   */
  method ReleaseOne(config: Config, id: string, body: Option<ReleaseConfig>, sendOk: bool, resp: Response)
    returns (sent: Option<SendRequest>)
    requires body.Some? ==> config.storage.load(id).Some?
    modifies config`outgoing, resp`headers, resp`body, resp`status
    ensures var p := PlanRelease(old(config.outgoing), body);
      && config.outgoing == p.registry
      && (p.Refuse? ==> sent.None? && resp.status == p.status)
      && (p.Deliver? ==>
          && sent.Some?
          && sent.value.addr == p.cfg.host + ":" + p.cfg.port
          && sent.value.auth == p.auth
          && sent.value.from == "nobody@" + config.hostname
          && sent.value.to == [p.cfg.email]
          && IsSerialisation(sent.value.msg, config.storage.load(id).value.content)
          && resp.status == (if sendOk then old(resp.status) else 500))
    ensures resp.headers == Add(WithCors(old(resp.headers), config.corsOrigin), "Content-Type", "text/json")
    ensures resp.body == if body.None? then old(resp.body) + [Bytes(DecodeError)] else old(resp.body)
  {
    DefaultOptions(config, resp);
    resp.AddHeader("Content-Type", "text/json");
    var msg := config.storage.load(id);
    if body.None? {
      resp.status := 500;
      resp.Write(Bytes(DecodeError));
      return None;
    }
    var saved := SaveServer(config, body.value);
    if !saved {
      resp.status := 400;
      return None;
    }
    var cfg := ResolveServer(config, body.value);
    if cfg.None? {
      resp.status := 400;
      return None;
    }
    var bytes, order := SerialiseMessage(msg.value.content);
    var auth := ChooseAuth(cfg.value);
    if auth.None? {
      resp.status := 400;
      return None;
    }
    var server := cfg.value;
    sent := Some(SendRequest(server.host + ":" + server.port, auth.value, "nobody@" + config.hostname, [server.email], bytes));
    if !sendOk {
      resp.status := 500;
    }
  }
}
