/**
 * The boundary of the etcd options: the values it exchanges with the packages
 * around it (the backend configuration, the resource identifier, the generic
 * registry's RESTOptions and decorators, and the storage factory). Only the
 * parts those packages expose to the options code are modelled here.
 */
module Storage {
  import opened Wrappers

  /** A named API resource type: `schema.GroupResource`. */
  datatype GroupResource = GroupResource(group: string, resource: string)

  /**
   * How to reach the storage backend: `storagebackend.Config`, restricted to
   * the fields the options bind to command-line flags.
   */
  datatype BackendConfig = BackendConfig(
    backendType: string,          // "etcd2" or "etcd3"; empty selects the default
    serverList: seq<string>,
    prefix: string,
    keyFile: string,
    certFile: string,
    caFile: string,
    quorum: bool,
    deserializationCacheSize: int)

  /** The two storage decorators the options can select, as opaque tags. */
  datatype Decorator =
    | UndecoratedStorage   // storage calls go straight to the backend
    | StorageWithCacher    // storage wrapped with the in-memory watch cache

  /**
   * What the generic registry receives for one resource: `generic.RESTOptions`.
   * `storageConfig` is a pointer and `decorator` a func value in the registry,
   * so both may be nil (None) in the zero value.
   */
  datatype RESTOptions = RESTOptions(
    storageConfig: Option<BackendConfig>,
    decorator: Option<Decorator>,
    enableGarbageCollection: bool,
    deleteCollectionWorkers: int,
    resourcePrefix: string)

  /** The zero value `generic.RESTOptions{}`: every field nil, false, 0 or empty. */
  const ZeroRESTOptions := RESTOptions(None, None, false, 0, "")

  /**
   * The storage factory the override-aware strategy consults: its
   * `NewConfig` either gives a pointer to the per-resource backend
   * configuration (which nothing stops from being nil) or fails with an
   * error message; `ResourcePrefix` names the resource's key prefix.
   */
  datatype StorageFactory = StorageFactory(
    newConfig: GroupResource -> Result<Option<BackendConfig>, string>,
    resourcePrefix: GroupResource -> string)
}
