/** `NewStorageProvider`: the base provider the bucket id selects, the
    local-processed middleware when a database path is configured, and
    the logging decorator outermost. */
module Storage {
  import opened Wrappers
  import opened Config
  import Afero
  import GcsBucket
  import BaseProvider
  import LocalProcessed
  import Logging

  /** The environment the providers are built in: the operating system's
      directories, the storage client's view of each bucket, and bolt's
      database files. */
  datatype Environment = Environment(
    mount: string -> Afero.Directory,
    connect: string -> Result<(seq<GcsBucket.StoredObject>, Option<GcsBucket.Outage>, Option<string>), Error>,
    open: string -> Result<LocalProcessed.BoltFile, Error>)
  {
    ghost predicate Valid()
    {
      (forall path :: mount(path).Valid()) &&
      (forall id :: connect(id).Success? ==> GcsBucket.DistinctNames(connect(id).value.0))
    }
  }

  /** Whether `newBaseStorageProvider` picks the afero provider. */
  predicate UsesAfero(cfg: Config)
  {
    HasPrefix(cfg.bucketId, Afero.FileScheme)
  }

  /** The base state `newBaseStorageProvider` starts from, or its error. */
  function BaseOf(cfg: Config, env: Environment): (r: Result<BaseProvider.BaseState, Error>)
    ensures UsesAfero(cfg) ==> r.Success? && r.value.AferoBase?
    ensures !UsesAfero(cfg) ==> (r.Success? <==> env.connect(cfg.bucketId).Success?)
    ensures !UsesAfero(cfg) && r.Failure? ==> r.error == env.connect(cfg.bucketId).error
    ensures !UsesAfero(cfg) && r.Success? ==> r.value.GcsBase? && r.value.gcs.metadataKey == cfg.metadataKey
  {
    if UsesAfero(cfg) then
      Success(BaseProvider.AferoBase(Afero.AferoState(env.mount(Afero.BasePath(cfg.bucketId)), map[])))
    else
      match env.connect(cfg.bucketId)
      case Failure(e) => Failure(e)
      case Success(c) => Success(BaseProvider.GcsBase(GcsBucket.GcsState(c.0, c.1, c.2, cfg.metadataKey)))
  }

  /** The state the whole stack starts from, or the first construction
      error: the base's, then the middleware's. */
  function StackOf(cfg: Config, env: Environment): (r: Result<Logging.InnerState, Error>)
    ensures BaseOf(cfg, env).Failure? ==> r == Failure(BaseOf(cfg, env).error)
    ensures r.Success? ==> (r.value.Tracked? <==> cfg.processedDbPath != "")
    ensures r.Success? && r.value.Plain? ==> r.value.base == BaseOf(cfg, env).value
    ensures r.Success? && r.value.Tracked? ==> r.value.local.inner == BaseOf(cfg, env).value
  {
    match BaseOf(cfg, env)
    case Failure(e) => Failure(e)
    case Success(base) =>
      if cfg.processedDbPath == "" then Success(Logging.Plain(base))
      else
        match env.open(cfg.processedDbPath)
        case Failure(e) => Failure(e)
        case Success(file) =>
          if cfg.metadataKey == "" then Failure(LocalProcessed.BucketNameRequired)
          else
            var db := if cfg.metadataKey in file then file[cfg.metadataKey] else map[];
            Success(Logging.Tracked(LocalProcessed.LocalState(base, db)))
  }

  /** A `file://` bucket id never fails to build a base provider, and a
      configuration without a database path never adds the middleware. */
  lemma AferoNeverFails(cfg: Config, env: Environment)
    requires UsesAfero(cfg) && cfg.processedDbPath == ""
    ensures StackOf(cfg, env).Success? && StackOf(cfg, env).value.Plain?
    ensures StackOf(cfg, env).value.base.AferoBase?
    ensures StackOf(cfg, env).value.base.afero.processed == map[]
  {
  }

  /** `newBaseStorageProvider`. */
  method NewBaseStorageProvider(cfg: Config, env: Environment) returns (r: Result<BaseProvider.Provider, Error>)
    requires env.Valid()
    ensures r.Success? <==> BaseOf(cfg, env).Success?
    ensures r.Failure? ==> r.error == BaseOf(cfg, env).error
    ensures r.Success? ==> fresh(r.value.Repr()) && r.value.Valid() && r.value.State() == BaseOf(cfg, env).value
  {
    if HasPrefix(cfg.bucketId, Afero.FileScheme) {
      var p := Afero.NewAferoBucketProvider(cfg.bucketId, env.mount);
      return Success(BaseProvider.AferoProvider(p));
    }
    var g := GcsBucket.NewGcpStorageProvider(cfg.bucketId, cfg.metadataKey, env.connect);
    match g
    case Failure(e) => r := Failure(e);
    case Success(p) => r := Success(BaseProvider.GcsProvider(p));
  }

  /** `wrapWithMiddleware`. */
  method WrapWithMiddleware(provider: BaseProvider.Provider, cfg: Config, env: Environment)
    returns (r: Result<Logging.LoggingStorageProvider, Error>)
    requires provider.Valid()
    ensures cfg.processedDbPath == "" ==> r.Success? && r.value.wrapped == Logging.BaseWrapped(provider)
    ensures cfg.processedDbPath != "" && env.open(cfg.processedDbPath).Failure? ==> r == Failure(env.open(cfg.processedDbPath).error)
    ensures cfg.processedDbPath != "" && env.open(cfg.processedDbPath).Success? && cfg.metadataKey == "" ==>
      r == Failure(LocalProcessed.BucketNameRequired)
    ensures r.Success? <==> cfg.processedDbPath == "" || (env.open(cfg.processedDbPath).Success? && cfg.metadataKey != "")
    ensures r.Success? ==> r.value.Valid() && fresh(r.value.Repr() - provider.Repr())
    ensures r.Success? ==> (r.value.wrapped.LocalWrapped? <==> cfg.processedDbPath != "")
    ensures r.Success? && r.value.wrapped.LocalWrapped? ==> r.value.wrapped.local.wrapped == provider
    ensures r.Success? && r.value.wrapped.LocalWrapped? ==>
      r.value.State() == Logging.Tracked(LocalProcessed.LocalState(provider.State(),
        var file := env.open(cfg.processedDbPath).value;
        if cfg.metadataKey in file then file[cfg.metadataKey] else map[]))
  {
    if cfg.processedDbPath != "" {
      var m := LocalProcessed.NewLocalProcessedMiddleware(provider, cfg.processedDbPath, cfg.metadataKey, env.open);
      match m
      case Failure(e) =>
        return Failure(e);
      case Success(local) =>
        return Success(Logging.LoggingStorageProvider(Logging.LocalWrapped(local)));
    }
    return Success(Logging.LoggingStorageProvider(Logging.BaseWrapped(provider)));
  }

  /** `NewStorageProvider`: the stack is built base first, middleware
      second, logging last; the first error stops the construction. */
  method NewStorageProvider(cfg: Config, env: Environment) returns (r: Result<Logging.LoggingStorageProvider, Error>)
    requires env.Valid()
    ensures r.Success? <==> StackOf(cfg, env).Success?
    ensures r.Failure? ==> r.error == StackOf(cfg, env).error
    ensures r.Success? ==> fresh(r.value.Repr()) && r.value.Valid() && r.value.State() == StackOf(cfg, env).value
  {
    var base := NewBaseStorageProvider(cfg, env);
    if base.Failure? {
      return Failure(base.error);
    }
    r := WrapWithMiddleware(base.value, cfg, env);
  }
}
