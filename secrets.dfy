/**
 * The secret manager (src/utils/secrets.py): choosing a backend from the
 * environment, reading a secret from Google Secret Manager or the
 * environment, and the in-memory cache in front of both.
 *
 * The environment and the secrets held by Secret Manager are `Sources`
 * passed to each lookup, so that a secret rotated behind the cache can be
 * stated; a secret the client cannot access is one missing from `remote`.
 */
module Secrets {
  import opened Optional
  import opened PyValue
  import opened Environ

  /** `SecretBackend`. */
  datatype SecretBackend = Environment | GoogleSecretManager | Kubernetes {
    function Value(): string {
      match this
      case Environment => "environment"
      case GoogleSecretManager => "google_secret_manager"
      case Kubernetes => "kubernetes"
    }
  }

  /** `SecretConfig`. */
  datatype SecretConfig = SecretConfig(
    backend: SecretBackend,
    projectId: Option<string>,
    cacheSecrets: bool,
    cacheTtlSeconds: int)

  /** `SecretConfig()` with only the backend and project given. */
  function DefaultConfig(backend: SecretBackend, projectId: Option<string>): SecretConfig {
    SecretConfig(backend, projectId, true, 300)
  }

  /** What a lookup may consult: the environment and the secrets Secret Manager holds. */
  datatype Sources = Sources(env: Environment, remote: map<string, string>)

  /** `os.getenv("GOOGLE_CLOUD_PROJECT") or os.getenv("BQ_PROJECT")`: an empty first value does not count. */
  function ProjectId(env: Environment): (r: Option<string>)
    ensures GetEnvOr(env, "GOOGLE_CLOUD_PROJECT", "") != "" ==> r == Some(env["GOOGLE_CLOUD_PROJECT"])
    ensures GetEnvOr(env, "GOOGLE_CLOUD_PROJECT", "") == "" ==> r == GetEnv(env, "BQ_PROJECT")
  {
    match GetEnv(env, "GOOGLE_CLOUD_PROJECT")
    case Some(p) => if p != "" then Some(p) else GetEnv(env, "BQ_PROJECT")
    case None => GetEnv(env, "BQ_PROJECT")
  }

  /** `_detect_config`: Secret Manager on GKE, the environment otherwise. */
  function DetectConfig(env: Environment): (c: SecretConfig)
    ensures c.cacheSecrets && c.cacheTtlSeconds == 300
    ensures c.backend == GoogleSecretManager <==> ProjectId(env).Some? && "KUBERNETES_SERVICE_HOST" in env
    ensures c.backend == Kubernetes <==> ProjectId(env).None? && "KUBERNETES_SERVICE_HOST" in env
    ensures c.backend == Environment <==> "KUBERNETES_SERVICE_HOST" !in env
    ensures c.projectId == if c.backend == GoogleSecretManager then ProjectId(env) else None
  {
    var projectId := ProjectId(env);
    var inKubernetes := GetEnv(env, "KUBERNETES_SERVICE_HOST").Some?;
    if projectId.Some? && inKubernetes then DefaultConfig(GoogleSecretManager, projectId)
    else if inKubernetes then DefaultConfig(Kubernetes, None)
    else DefaultConfig(Environment, None)
  }

  /** A project id alone, outside Kubernetes, does not select Secret Manager. */
  lemma ProjectAloneIsEnvironment(env: Environment)
    requires "GOOGLE_CLOUD_PROJECT" in env && env["GOOGLE_CLOUD_PROJECT"] != ""
    requires "KUBERNETES_SERVICE_HOST" !in env
    ensures DetectConfig(env).backend == Environment && DetectConfig(env).projectId == None
  {
  }

  /**
   * The backend after `_init_gcp_client`: a client that cannot be created
   * (the package is missing, or creating it raises) drops back to the environment.
   */
  function EffectiveBackend(backend: SecretBackend, clientAvailable: bool): (b: SecretBackend)
    ensures b == GoogleSecretManager <==> backend == GoogleSecretManager && clientAvailable
    ensures backend != GoogleSecretManager ==> b == backend
  {
    if backend == GoogleSecretManager && !clientAvailable then Environment else backend
  }

  /**
   * `_get_from_gcp` and the environment read of `get_secret`: Secret Manager
   * first when it has a client, the environment otherwise or when the
   * secret cannot be accessed.
   */
  function Fetch(backend: SecretBackend, hasClient: bool, name: string, src: Sources): (r: Option<string>)
    ensures backend != GoogleSecretManager || !hasClient ==> r == GetEnv(src.env, name)
    ensures backend == GoogleSecretManager && hasClient && name in src.remote ==> r == Some(src.remote[name])
    ensures r.None? <==> name !in src.env && (backend != GoogleSecretManager || !hasClient || name !in src.remote)
  {
    if backend == GoogleSecretManager then
      if !hasClient then GetEnv(src.env, name)
      else if name in src.remote then Some(src.remote[name])
      else GetEnv(src.env, name)
    else GetEnv(src.env, name)
  }

  /** The message of the `ValueError` for a required secret that is missing. */
  function MissingMessage(name: string, backend: SecretBackend): string {
    "Required secret '" + name + "' not found in " + backend.Value()
  }

  /** What `get_secret` returns, given the cache it starts from. */
  function LookupResult(backend: SecretBackend, hasClient: bool, cacheSecrets: bool, cache: map<string, string>,
                        name: string, required: bool, default: Option<string>, src: Sources): (r: Outcome<Option<string>>)
    ensures cacheSecrets && name in cache ==> r == Ok(Some(cache[name]))
    ensures !(cacheSecrets && name in cache) && Fetch(backend, hasClient, name, src).Some? ==>
      r == Ok(Fetch(backend, hasClient, name, src))
    ensures !(cacheSecrets && name in cache) && Fetch(backend, hasClient, name, src).None? ==>
      r == if required then Raised(Error(ValueError, MissingMessage(name, backend))) else Ok(default)
  {
    if cacheSecrets && name in cache then Ok(Some(cache[name]))
    else
      match Fetch(backend, hasClient, name, src)
      case None => if required then Raised(Error(ValueError, MissingMessage(name, backend))) else Ok(default)
      case Some(v) => Ok(Some(v))
  }

  /** The cache after `get_secret`: only a value fetched from a backend is added, and only when caching is on. */
  function CacheAfter(backend: SecretBackend, hasClient: bool, cacheSecrets: bool, cache: map<string, string>,
                      name: string, src: Sources): (c: map<string, string>)
    ensures cache.Keys <= c.Keys <= cache.Keys + {name}
    ensures forall k :: k in cache ==> c[k] == cache[k]
    ensures name in c && name !in cache <==>
      cacheSecrets && name !in cache && Fetch(backend, hasClient, name, src).Some?
    ensures name in c && name !in cache ==> c[name] == Fetch(backend, hasClient, name, src).value
  {
    if cacheSecrets && name in cache then cache
    else
      match Fetch(backend, hasClient, name, src)
      case None => cache
      case Some(v) => if cacheSecrets then cache[name := v] else cache
  }

  /** A cache hit gives the cached value whatever the environment and Secret Manager now hold. */
  lemma CacheHitIgnoresSources(backend: SecretBackend, hasClient: bool, cache: map<string, string>, name: string,
                               required: bool, default: Option<string>, src1: Sources, src2: Sources)
    requires name in cache
    ensures LookupResult(backend, hasClient, true, cache, name, required, default, src1)
         == LookupResult(backend, hasClient, true, cache, name, required, default, src2)
    ensures CacheAfter(backend, hasClient, true, cache, name, src1) == cache
  {
  }

  /** With caching on, a second lookup returns what the first found, even after the secret was rotated. */
  lemma SecondLookupCached(backend: SecretBackend, hasClient: bool, cache: map<string, string>, name: string,
                           required: bool, default: Option<string>, src1: Sources, src2: Sources)
    requires name in cache || Fetch(backend, hasClient, name, src1).Some?
    ensures var first := LookupResult(backend, hasClient, true, cache, name, required, default, src1);
      var cache' := CacheAfter(backend, hasClient, true, cache, name, src1);
      LookupResult(backend, hasClient, true, cache', name, true, None, src2) == first
  {
  }

  /** A missing optional secret gives the default and caches nothing. */
  lemma OptionalMissingCachesNothing(backend: SecretBackend, hasClient: bool, cacheSecrets: bool,
                                     cache: map<string, string>, name: string, default: Option<string>, src: Sources)
    requires name !in cache && Fetch(backend, hasClient, name, src).None?
    ensures LookupResult(backend, hasClient, cacheSecrets, cache, name, false, default, src) == Ok(default)
    ensures CacheAfter(backend, hasClient, cacheSecrets, cache, name, src) == cache
  {
  }

  /** `SecretManager`. */
  class SecretManager {
    var backend: SecretBackend
    const projectId: Option<string>
    const cacheSecrets: bool
    const cacheTtlSeconds: int
    var cache: map<string, string>
    var hasClient: bool

    /** Secret Manager stays selected only with a client, and nothing is cached when caching is off. */
    predicate Valid()
      reads this
    {
      && (backend == GoogleSecretManager ==> hasClient)
      && (!cacheSecrets ==> cache == map[])
    }

    /**
     * `SecretManager(config)` in environment `env`; `clientAvailable` says
     * whether `SecretManagerServiceClient()` can be created.
     */
    constructor (config: Option<SecretConfig>, env: Environment, clientAvailable: bool)
      ensures Valid()
      ensures var c := if config.Some? then config.value else DetectConfig(env);
        && backend == EffectiveBackend(c.backend, clientAvailable)
        && projectId == c.projectId && cacheSecrets == c.cacheSecrets && cacheTtlSeconds == c.cacheTtlSeconds
        && hasClient == (c.backend == GoogleSecretManager && clientAvailable)
      ensures cache == map[]
    {
      var c := if config.Some? then config.value else DetectConfig(env);
      backend := c.backend;
      projectId := c.projectId;
      cacheSecrets := c.cacheSecrets;
      cacheTtlSeconds := c.cacheTtlSeconds;
      cache := map[];
      hasClient := false;
      if c.backend == GoogleSecretManager {
        if clientAvailable {
          hasClient := true;
        } else {
          backend := Environment;
        }
      }
    }

    /** `get_secret(name, required, default)`. */
    method GetSecret(name: string, required: bool, default: Option<string>, src: Sources)
      returns (r: Outcome<Option<string>>)
      requires Valid()
      modifies this
      ensures Valid()
      ensures r == LookupResult(backend, hasClient, cacheSecrets, old(cache), name, required, default, src)
      ensures cache == CacheAfter(backend, hasClient, cacheSecrets, old(cache), name, src)
      ensures backend == old(backend) && hasClient == old(hasClient)
    {
      if cacheSecrets && name in cache {
        return Ok(Some(cache[name]));
      }
      var value: Option<string>;
      if backend == GoogleSecretManager {
        value := GetFromGcp(name, src);
      } else {
        value := GetEnv(src.env, name);
      }
      if value.None? {
        if required {
          return Raised(Error(ValueError, MissingMessage(name, backend)));
        }
        return Ok(default);
      }
      if cacheSecrets {
        cache := cache[name := value.value];
      }
      r := Ok(value);
    }

    /** `_get_from_gcp`: the environment when there is no client or the access fails. */
    method GetFromGcp(name: string, src: Sources) returns (r: Option<string>)
      ensures r == Fetch(GoogleSecretManager, hasClient, name, src)
    {
      if !hasClient {
        return GetEnv(src.env, name);
      }
      if name in src.remote {
        return Some(src.remote[name]);
      }
      r := GetEnv(src.env, name);
    }

    /** `clear_cache`. */
    method ClearCache()
      requires Valid()
      modifies this
      ensures Valid()
      ensures cache == map[]
      ensures backend == old(backend) && hasClient == old(hasClient)
    {
      cache := map[];
    }

    /** `refresh_secret`: forget `name`, then fetch it again as a required secret. */
    method RefreshSecret(name: string, src: Sources) returns (r: Outcome<Option<string>>)
      requires Valid()
      modifies this
      ensures Valid()
      ensures r == LookupResult(backend, hasClient, cacheSecrets, old(cache) - {name}, name, true, None, src)
      ensures cache == CacheAfter(backend, hasClient, cacheSecrets, old(cache) - {name}, name, src)
      ensures backend == old(backend) && hasClient == old(hasClient)
    {
      if name in cache {
        cache := cache - {name};
      }
      assert cache == old(cache) - {name};
      r := GetSecret(name, true, None, src);
    }
  }

  /** A refresh reads the backend again: the result is the current value, never the cached one. */
  lemma RefreshIsFresh(backend: SecretBackend, hasClient: bool, cacheSecrets: bool, cache: map<string, string>,
                       name: string, src: Sources)
    ensures var r := LookupResult(backend, hasClient, cacheSecrets, cache - {name}, name, true, None, src);
      match Fetch(backend, hasClient, name, src)
      case Some(v) => r == Ok(Some(v))
      case None => r == Raised(Error(ValueError, MissingMessage(name, backend)))
    ensures forall k :: k in cache && k != name ==> k in CacheAfter(backend, hasClient, cacheSecrets, cache - {name}, name, src)
  {
  }
}
