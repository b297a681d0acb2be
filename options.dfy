/** The PokéAPI client's options object: every field starts at its
    default and is then overwritten, one by one, from the config object
    when the config's field is truthy. */
module PokeApiOptions {
  import opened Outcomes

  datatype Protocol = Https | Http

  /** The `NodeCache` instance handed to the constructor; what it holds
      is not modelled. */
  datatype CacheHandle = CacheHandle(id: nat)

  /** The `config` argument. `None` is an absent field. JavaScript
      truthiness decides which fields override: a number is falsy when it
      is 0, a string when it is empty; both protocol values are
      non-empty strings, hence truthy. */
  datatype Config = Config(
    protocol: Option<Protocol>,
    hostName: Option<string>,
    versionPath: Option<string>,
    offset: Option<int>,
    limit: Option<int>,
    timeout: Option<int>,
    cacheLimit: Option<int>,
    cache: Option<CacheHandle>)

  const EmptyConfig: Config := Config(None, None, None, None, None, None, None, None)

  predicate TruthyText(v: Option<string>) { v.Some? && v.value != "" }
  predicate TruthyNumber(v: Option<int>) { v.Some? && v.value != 0 }

  const DefaultProtocol: Protocol := Https
  const DefaultHostName: string := "://pokeapi.co"
  const DefaultVersionPath: string := "/api/v2/"
  const DefaultOffset: int := 0
  const DefaultLimit: int := 100000
  const DefaultTimeout: int := 10 * 1000
  const DefaultCacheLimit: int := 1000000 * 1000

  /** The values the options object ends up holding. */
  datatype Settings = Settings(
    protocol: Protocol,
    hostName: string,
    versionPath: string,
    offset: int,
    limit: int,
    timeout: int,
    cacheLimit: int,
    cache: CacheHandle)

  /** Reference definition of the constructor's outcome, field by field. */
  function Merged(config: Config, cache: CacheHandle): Settings {
    Settings(
      if config.protocol.Some? then config.protocol.value else DefaultProtocol,
      if TruthyText(config.hostName) then "://" + config.hostName.value else DefaultHostName,
      if TruthyText(config.versionPath) then config.versionPath.value else DefaultVersionPath,
      if TruthyNumber(config.offset) then config.offset.value - 1 else DefaultOffset,
      if TruthyNumber(config.limit) then config.limit.value else DefaultLimit,
      if TruthyNumber(config.timeout) then config.timeout.value else DefaultTimeout,
      if TruthyNumber(config.cacheLimit) then config.cacheLimit.value else DefaultCacheLimit,
      cache)
  }

  class Options {
    var protocol: Protocol
    var hostName: string
    var versionPath: string
    var offset: int
    var limit: int
    var timeout: int
    var cacheLimit: int
    var cache: CacheHandle

    function Current(): Settings
      reads this
    {
      Settings(protocol, hostName, versionPath, offset, limit, timeout, cacheLimit, cache)
    }

    constructor (config: Config, cache: CacheHandle)
      ensures Current() == Merged(config, cache)
    {
      this.protocol := DefaultProtocol;
      this.hostName := DefaultHostName;
      this.versionPath := DefaultVersionPath;
      this.offset := DefaultOffset;
      this.limit := DefaultLimit;
      this.timeout := DefaultTimeout;
      this.cacheLimit := DefaultCacheLimit;
      this.cache := cache;
      new;
      if config.protocol.Some? {
        protocol := config.protocol.value;
      }
      if TruthyText(config.hostName) {
        hostName := "://" + config.hostName.value;
      }
      if TruthyText(config.versionPath) {
        versionPath := config.versionPath.value;
      }
      if TruthyNumber(config.offset) {
        offset := config.offset.value - 1;
      }
      if TruthyNumber(config.limit) {
        limit := config.limit.value;
      }
      if TruthyNumber(config.timeout) {
        timeout := config.timeout.value;
      }
      if TruthyNumber(config.cacheLimit) {
        cacheLimit := config.cacheLimit.value;
      }
    }
  }

  /** With nothing configured every field holds its documented default. */
  lemma EmptyConfigGivesDefaults(cache: CacheHandle)
    ensures Merged(EmptyConfig, cache)
         == Settings(Https, "://pokeapi.co", "/api/v2/", 0, 100000, 10000, 1000000000, cache)
  {
  }

  /** A truthy offset is stored one lower than given. */
  lemma OffsetStoredMinusOne(config: Config, cache: CacheHandle)
    requires TruthyNumber(config.offset)
    ensures Merged(config, cache).offset + 1 == config.offset.value
  {
  }

  /** A truthy host name is stored behind `://`. */
  lemma HostNamePrefixed(config: Config, cache: CacheHandle)
    requires TruthyText(config.hostName)
    ensures Merged(config, cache).hostName == "://" + config.hostName.value
  {
  }

  /** Falsy values (0, the empty string, absent) keep the defaults: a
      `limit: 0` still yields 100000. */
  lemma FalsyOverridesKeepDefaults(config: Config, cache: CacheHandle)
    requires !TruthyText(config.hostName) && !TruthyText(config.versionPath)
    requires !TruthyNumber(config.offset) && !TruthyNumber(config.limit)
    requires !TruthyNumber(config.timeout) && !TruthyNumber(config.cacheLimit)
    requires config.protocol.None?
    ensures Merged(config, cache) == Merged(EmptyConfig, cache)
  {
  }

  /** Truthy protocol, version path, limit, timeout and cache limit are
      copied as given; `config.cache` is ignored in favour of the
      constructor's own `cache` argument. */
  lemma TruthyOverridesCopied(config: Config, cache: CacheHandle)
    ensures config.protocol.Some? ==> Merged(config, cache).protocol == config.protocol.value
    ensures TruthyText(config.versionPath) ==> Merged(config, cache).versionPath == config.versionPath.value
    ensures TruthyNumber(config.limit) ==> Merged(config, cache).limit == config.limit.value
    ensures TruthyNumber(config.timeout) ==> Merged(config, cache).timeout == config.timeout.value
    ensures TruthyNumber(config.cacheLimit) ==> Merged(config, cache).cacheLimit == config.cacheLimit.value
    ensures Merged(config, cache).cache == cache
  {
  }

  /** Each field depends on its own config field only. */
  lemma FieldsIndependent(a: Config, b: Config, cache: CacheHandle)
    ensures a.protocol == b.protocol ==> Merged(a, cache).protocol == Merged(b, cache).protocol
    ensures a.hostName == b.hostName ==> Merged(a, cache).hostName == Merged(b, cache).hostName
    ensures a.versionPath == b.versionPath ==> Merged(a, cache).versionPath == Merged(b, cache).versionPath
    ensures a.offset == b.offset ==> Merged(a, cache).offset == Merged(b, cache).offset
    ensures a.limit == b.limit ==> Merged(a, cache).limit == Merged(b, cache).limit
    ensures a.timeout == b.timeout ==> Merged(a, cache).timeout == Merged(b, cache).timeout
    ensures a.cacheLimit == b.cacheLimit ==> Merged(a, cache).cacheLimit == Merged(b, cache).cacheLimit
    ensures Merged(a, cache).cache == Merged(b, cache).cache
  {
  }
}
