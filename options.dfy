/**
 * The etcd options of the generic API server: the defaults, the validation,
 * the two strategies that turn a resource into the RESTOptions the generic
 * registry uses, and the binders that install a strategy into the server
 * configuration.
 */
module Options {
  import opened Wrappers
  import opened Storage
  import KeyPaths

  /** The media type objects are persisted in unless a flag says otherwise. */
  const DefaultStorageMediaType := "application/json"

  /** The one validation error the options currently report. */
  const EtcdServersRequired := "--etcd-servers must be specified"

  /** Why the override-aware strategy could not resolve a resource: the resource and the factory's error. */
  datatype ResolutionError = ResolutionError(resource: GroupResource, cause: string)

  /**
   * What `GetRESTOptions` returns: the options and an error that is nil (None)
   * on success. On failure the options are the zero value.
   */
  datatype Resolution = Resolution(options: RESTOptions, err: Option<ResolutionError>)

  /** The storage-related options of an API server, as bound to its command-line flags. */
  datatype EtcdOptions = EtcdOptions(
    storageConfig: BackendConfig,
    etcdServersOverrides: seq<string>,  // "group/resource#servers", read only by the storage factory
    defaultStorageMediaType: string,
    deleteCollectionWorkers: int,
    enableGarbageCollection: bool,
    enableWatchCache: bool)
  {
    /**
     * Every configuration error, collected rather than stopping at the first;
     * today the only rule is that at least one etcd server is given.
     */
    function Validate(): (errs: seq<string>)
      ensures errs == [] <==> storageConfig.serverList != []
      ensures errs != [] ==> errs == [EtcdServersRequired]
    {
      var allErrors := [];
      if |storageConfig.serverList| == 0 then allErrors + [EtcdServersRequired] else allErrors
    }

    /** Installs a snapshot of these options, with the simple strategy, as the server's getter. */
    method ApplyTo(c: ServerConfig) returns (err: Option<string>)
      modifies c`restOptionsGetter
      ensures err == None
      ensures c.restOptionsGetter == Some(Simple(SimpleRestOptionsFactory(this)))
    {
      c.restOptionsGetter := Some(Simple(SimpleRestOptionsFactory(this)));
      err := None;
    }

    /** Installs a snapshot of these options, with the factory-backed strategy, as the server's getter. */
    method ApplyWithStorageFactoryTo(factory: StorageFactory, c: ServerConfig) returns (err: Option<string>)
      modifies c`restOptionsGetter
      ensures err == None
      ensures c.restOptionsGetter == Some(FactoryBacked(StorageFactoryRestOptionsFactory(this, factory)))
    {
      c.restOptionsGetter := Some(FactoryBacked(StorageFactoryRestOptionsFactory(this, factory)));
      err := None;
    }
  }

  /** The default options around a given backend configuration. */
  function NewEtcdOptions(backendConfig: BackendConfig): (s: EtcdOptions)
    ensures s.storageConfig == backendConfig && s.etcdServersOverrides == []
    ensures s.defaultStorageMediaType == "application/json"
    ensures s.deleteCollectionWorkers == 1
    ensures s.enableGarbageCollection && s.enableWatchCache
    ensures s.Validate() == [] <==> backendConfig.serverList != []
  {
    EtcdOptions(
      storageConfig := backendConfig,
      etcdServersOverrides := [],
      defaultStorageMediaType := DefaultStorageMediaType,
      deleteCollectionWorkers := 1,
      enableGarbageCollection := true,
      enableWatchCache := true)
  }

  /** The strategy that stores every resource in the one configured backend. */
  datatype SimpleRestOptionsFactory = SimpleRestOptionsFactory(options: EtcdOptions)
  {
    /** Never fails; the key prefix is the configured prefix followed by "/group/resource". */
    function GetRESTOptions(resource: GroupResource): (r: Resolution)
      ensures r.err == None
      ensures r.options.storageConfig == Some(options.storageConfig)
      ensures r.options.resourcePrefix
                == options.storageConfig.prefix + "/" + resource.group + "/" + resource.resource
      ensures r.options.decorator.Some?
      ensures r.options.decorator == Some(StorageWithCacher) <==> options.enableWatchCache
      ensures r.options.enableGarbageCollection == options.enableGarbageCollection
      ensures r.options.deleteCollectionWorkers == options.deleteCollectionWorkers
    {
      var ret := RESTOptions(
        storageConfig := Some(options.storageConfig),
        decorator := Some(UndecoratedStorage),
        enableGarbageCollection := options.enableGarbageCollection,
        deleteCollectionWorkers := options.deleteCollectionWorkers,
        resourcePrefix := KeyPaths.JoinResourcePrefix(options.storageConfig.prefix, resource));
      var ret := if options.enableWatchCache then ret.(decorator := Some(StorageWithCacher)) else ret;
      Resolution(ret, None)
    }
  }

  /** The strategy that asks a storage factory for each resource's backend and key prefix. */
  datatype StorageFactoryRestOptionsFactory = StorageFactoryRestOptionsFactory(
    options: EtcdOptions,
    storageFactory: StorageFactory)
  {
    /**
     * Fails, with the zero options and an error naming the resource, exactly
     * when the factory has no backend for it; otherwise uses the factory's
     * backend and key prefix verbatim.
     */
    function GetRESTOptions(resource: GroupResource): (r: Resolution)
      ensures r.err.Some? <==> storageFactory.newConfig(resource).Failure?
      ensures storageFactory.newConfig(resource).Failure? ==>
        r.options == ZeroRESTOptions &&
        r.err == Some(ResolutionError(resource, storageFactory.newConfig(resource).error))
      ensures storageFactory.newConfig(resource).Success? ==>
        && r.options.storageConfig == storageFactory.newConfig(resource).value
        && r.options.resourcePrefix == storageFactory.resourcePrefix(resource)
        && r.options.decorator.Some?
        && (r.options.decorator == Some(StorageWithCacher) <==> options.enableWatchCache)
        && r.options.enableGarbageCollection == options.enableGarbageCollection
        && r.options.deleteCollectionWorkers == options.deleteCollectionWorkers
    {
      match storageFactory.newConfig(resource)
      case Failure(e) =>
        Resolution(ZeroRESTOptions, Some(ResolutionError(resource, e)))
      case Success(storageConfig) =>
        var ret := RESTOptions(
          storageConfig := storageConfig,
          decorator := Some(UndecoratedStorage),
          enableGarbageCollection := options.enableGarbageCollection,
          deleteCollectionWorkers := options.deleteCollectionWorkers,
          resourcePrefix := storageFactory.resourcePrefix(resource));
        var ret := if options.enableWatchCache then ret.(decorator := Some(StorageWithCacher)) else ret;
        Resolution(ret, None)
    }
  }

  /** The getter the server configuration holds: one of the two strategies. */
  datatype RESTOptionsGetter =
    | Simple(simple: SimpleRestOptionsFactory)
    | FactoryBacked(backed: StorageFactoryRestOptionsFactory)
  {
    /** The options snapshot the getter was built from. */
    function Options(): (s: EtcdOptions)
    {
      match this
      case Simple(f) => f.options
      case FactoryBacked(f) => f.options
    }

    /**
     * Resolves a resource with whichever strategy was installed. The rules
     * both strategies share: a success carries a decorator, the watch cache
     * exactly when the options enable it, and the garbage-collection flag and
     * worker count of the options; the simple strategy always succeeds with
     * the options' own backend; a failure carries the zero options and names
     * the resource.
     */
    function GetRESTOptions(resource: GroupResource): (r: Resolution)
      ensures r.err == None ==>
        && r.options.decorator.Some?
        && (r.options.decorator == Some(StorageWithCacher) <==> Options().enableWatchCache)
        && (r.options.decorator == Some(UndecoratedStorage) <==> !Options().enableWatchCache)
        && r.options.enableGarbageCollection == Options().enableGarbageCollection
        && r.options.deleteCollectionWorkers == Options().deleteCollectionWorkers
      ensures Simple? ==> r.err == None && r.options.storageConfig == Some(Options().storageConfig)
      ensures r.err.Some? ==> FactoryBacked? && r.options == ZeroRESTOptions && r.err.value.resource == resource
    {
      match this
      case Simple(f) => f.GetRESTOptions(resource)
      case FactoryBacked(f) => f.GetRESTOptions(resource)
    }
  }

  /** The server configuration, reduced to the getter the etcd options install. */
  class ServerConfig {
    var restOptionsGetter: Option<RESTOptionsGetter>

    constructor ()
      ensures restOptionsGetter == None
    {
      restOptionsGetter := None;
    }
  }

  /** The simple strategy reads neither the per-resource overrides nor the media type. */
  lemma SimpleIgnoresOverrides(s: EtcdOptions, overrides: seq<string>, mediaType: string, resource: GroupResource)
    ensures SimpleRestOptionsFactory(s).GetRESTOptions(resource)
         == SimpleRestOptionsFactory(s.(etcdServersOverrides := overrides, defaultStorageMediaType := mediaType))
              .GetRESTOptions(resource)
  {
  }

  /** When the factory fails, its ResourcePrefix plays no part in the outcome. */
  lemma FactoryFailureIgnoresPrefix(s: EtcdOptions, factory: StorageFactory, prefixOf: GroupResource -> string,
                                    resource: GroupResource)
    requires factory.newConfig(resource).Failure?
    ensures StorageFactoryRestOptionsFactory(s, factory).GetRESTOptions(resource)
         == StorageFactoryRestOptionsFactory(s, factory.(resourcePrefix := prefixOf)).GetRESTOptions(resource)
  {
  }

  /**
   * The factory-backed strategy reduces to the simple one for a factory that
   * hands every resource the shared backend and the simple key prefix.
   */
  lemma FactoryAgreesWithSimple(s: EtcdOptions, factory: StorageFactory, resource: GroupResource)
    requires factory.newConfig(resource) == Success(Some(s.storageConfig))
    requires factory.resourcePrefix(resource) == KeyPaths.JoinResourcePrefix(s.storageConfig.prefix, resource)
    ensures StorageFactoryRestOptionsFactory(s, factory).GetRESTOptions(resource)
         == SimpleRestOptionsFactory(s).GetRESTOptions(resource)
  {
  }

  /** The simple strategy's key prefix reads back as the resource it was built for. */
  lemma SimplePrefixNamesResource(s: EtcdOptions, resource: GroupResource)
    requires '/' !in resource.group
    ensures KeyPaths.SplitResourcePrefix(s.storageConfig.prefix,
              SimpleRestOptionsFactory(s).GetRESTOptions(resource).options.resourcePrefix) == Some(resource)
  {
    KeyPaths.SplitJoin(s.storageConfig.prefix, resource);
  }

  /** The simple strategy never stores two distinct resources under the same key prefix. */
  lemma SimplePrefixesDistinct(s: EtcdOptions, a: GroupResource, b: GroupResource)
    requires '/' !in a.group && '/' !in b.group && a != b
    ensures SimpleRestOptionsFactory(s).GetRESTOptions(a).options.resourcePrefix
         != SimpleRestOptionsFactory(s).GetRESTOptions(b).options.resourcePrefix
  {
    if KeyPaths.JoinResourcePrefix(s.storageConfig.prefix, a) == KeyPaths.JoinResourcePrefix(s.storageConfig.prefix, b) {
      KeyPaths.JoinInjective(s.storageConfig.prefix, a, b);
    }
  }

  /**
   * Binding twice replaces the first getter; resolving through the server
   * configuration then uses the second strategy with the options as bound.
   */
  method RebindReplacesGetter(s: EtcdOptions, factory: StorageFactory, c: ServerConfig, resource: GroupResource)
    returns (r: Resolution)
    modifies c`restOptionsGetter
    ensures c.restOptionsGetter == Some(FactoryBacked(StorageFactoryRestOptionsFactory(s, factory)))
    ensures r == StorageFactoryRestOptionsFactory(s, factory).GetRESTOptions(resource)
  {
    var _ := s.ApplyTo(c);
    var _ := s.ApplyWithStorageFactoryTo(factory, c);
    r := c.restOptionsGetter.value.GetRESTOptions(resource);
  }
}
