/**
  The server configuration the API handlers share: the CORS origin, the host
  name used in the release sender address, the storage backend, the registry
  of named outgoing servers, the active chaos-monkey settings and the
  process-wide default settings.
 */
module ServerConfig {
  import opened Wrappers
  import opened Data

  class Config {
    /** Empty when no CORS origin is configured. */
    var corsOrigin: string
    var hostname: string
    var storage: Storage
    /** The named outgoing SMTP servers, updated by release requests that ask to save. */
    var outgoing: Registry
    /** The active chaos-monkey settings; None when the monkey is switched off. */
    var monkey: Option<Jim>
    /** The process-wide default settings a newly enabled monkey starts from. */
    var jim: Jim

    constructor (corsOrigin: string, hostname: string, storage: Storage, outgoing: Registry, monkey: Option<Jim>, jim: Jim)
      ensures this.corsOrigin == corsOrigin && this.hostname == hostname && this.storage == storage
      ensures this.outgoing == outgoing && this.monkey == monkey && this.jim == jim
    {
      this.corsOrigin := corsOrigin;
      this.hostname := hostname;
      this.storage := storage;
      this.outgoing := outgoing;
      this.monkey := monkey;
      this.jim := jim;
    }
  }
}
