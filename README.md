# Etcd storage options of the generic API server

This project models, in Dafny, the etcd options of the Kubernetes generic API
server (`staging/src/k8s.io/apiserver/pkg/server/options/etcd.go`). These
options decide which storage settings the generic registry receives for each
API resource `(group, resource)`.

- `Options.EtcdOptions` holds the backend configuration, the per-resource
  server overrides, the storage media type, the DeleteCollection worker
  count, and the garbage-collection and watch-cache flags.
  `NewEtcdOptions` builds the defaults. `Validate` collects every
  configuration error. Today its only rule is that `--etcd-servers` must be
  given.
- There are two resolution strategies, each a datatype with a
  `GetRESTOptions` function.
  - `SimpleRestOptionsFactory` cannot fail. It always hands out the single
    backend configuration, under the key prefix `prefix/group/resource`.
  - `StorageFactoryRestOptionsFactory` asks a storage factory for the
    resource's backend and key prefix. It fails, naming the resource, when
    the factory fails.
  
  Both strategies select the watch-cache decorator exactly when the watch
  cache is enabled, and the pass-through decorator otherwise.
- `ApplyTo` and `ApplyWithStorageFactoryTo` install a strategy into a
  `ServerConfig` object. They replace its `restOptionsGetter` field in place.

Go's `(RESTOptions, error)` result is the datatype `Resolution(options, err)`.
On failure the code returns the zero `RESTOptions` together with the error,
and the model does the same (etcd.go:145): every field is nil, false, 0 or
empty. The registry's pointer to the backend configuration and its decorator
func value may be nil, so both are `Option` fields. The storage factory's
`NewConfig` hands back a pointer that etcd.go:149 copies without a check, so
its success value is an `Option` too: a factory that answers a nil
configuration without an error yields options with no backend.

`EtcdOptions` is a value, and a bound getter holds that value. In Go, `*s`
(etcd.go:110, 115) is a shallow copy: reassigning a field of the caller's
options afterwards does not reach the getter, but the slices inside it are
shared (see "## Left out"). Every operation except the binders is a
function, so resolving the same resource twice gives equal results.

`KeyPaths` reads a simple-strategy key prefix back into the resource it was
built from. With it the model proves that distinct resources get distinct
key prefixes, provided their group contains no '/'. API group names are DNS
subdomains, so they never do. Without that condition `("a/b", "c")` and
`("a", "b/c")` would share a prefix.

## Model

| member | source | states |
|---|---|---|
| `Options.NewEtcdOptions` | staging/src/k8s.io/apiserver/pkg/server/options/etcd.go:45-53 | the defaults copy the given backend configuration, use media type "application/json", 1 DeleteCollection worker, garbage collection and watch cache on, and no overrides; they validate exactly when the backend lists a server |
| `Options.EtcdOptions.Validate` | staging/src/k8s.io/apiserver/pkg/server/options/etcd.go:55-62 | no errors if and only if the server list is non-empty; otherwise exactly the one error "--etcd-servers must be specified" |
| `Options.EtcdOptions.ApplyTo` | staging/src/k8s.io/apiserver/pkg/server/options/etcd.go:109-112 | returns no error and changes only the server configuration's getter, which becomes the simple strategy over a copy of the options |
| `Options.EtcdOptions.ApplyWithStorageFactoryTo` | staging/src/k8s.io/apiserver/pkg/server/options/etcd.go:114-117 | returns no error and changes only the getter, which becomes the factory-backed strategy over a copy of the options and the given factory |
| `Options.SimpleRestOptionsFactory.GetRESTOptions` | staging/src/k8s.io/apiserver/pkg/server/options/etcd.go:123-135 | never fails; hands out the options' own backend configuration and the key prefix prefix + "/" + group + "/" + resource; the decorator is set and is the watch cache iff the watch cache is enabled; GC flag and worker count copied |
| `Options.StorageFactoryRestOptionsFactory.GetRESTOptions` | staging/src/k8s.io/apiserver/pkg/server/options/etcd.go:142-160 | fails iff the factory's NewConfig fails, and then returns the zero options with an error carrying the resource and the factory's error; otherwise the backend and key prefix are exactly the factory's, the decorator is the watch cache iff enabled, GC flag and worker count copied |
| `Options.RESTOptionsGetter.GetRESTOptions` | staging/src/k8s.io/apiserver/pkg/server/options/etcd.go:109-160 | resolving through whichever getter the binders installed: a success carries a decorator, cache iff enabled and pass-through iff disabled, GC flag and worker count from the options; the simple getter always succeeds with the options' own backend; a failure comes only from the factory getter, carries the zero options and names the resource |
| `Options.ServerConfig.constructor` | staging/src/k8s.io/apiserver/pkg/server/options/etcd.go:109-117 | the server configuration the binders write to starts with no getter installed |
| `KeyPaths.JoinResourcePrefix` | staging/src/k8s.io/apiserver/pkg/server/options/etcd.go:129 | the simple key prefix has the length of its parts plus two separators, starts with the configured prefix and "/", and ends with "/" and the resource |
| `Options.SimpleIgnoresOverrides` | staging/src/k8s.io/apiserver/pkg/server/options/etcd.go:123-135 | the simple strategy's result does not depend on the per-resource overrides or the media type |
| `Options.FactoryFailureIgnoresPrefix` | staging/src/k8s.io/apiserver/pkg/server/options/etcd.go:143-146 | when NewConfig fails, the outcome does not depend on the factory's ResourcePrefix |
| `Options.FactoryAgreesWithSimple` | staging/src/k8s.io/apiserver/pkg/server/options/etcd.go:123-160 | a factory that returns (a pointer to) the shared backend and the simple key prefix makes the two strategies give equal results |
| `Options.SimplePrefixNamesResource` | staging/src/k8s.io/apiserver/pkg/server/options/etcd.go:129 | the simple key prefix splits back into the resource it was built for (group without '/') |
| `Options.SimplePrefixesDistinct` | staging/src/k8s.io/apiserver/pkg/server/options/etcd.go:129 | distinct resources whose groups contain no '/' get distinct simple key prefixes |
| `Options.RebindReplacesGetter` | staging/src/k8s.io/apiserver/pkg/server/options/etcd.go:109-117 | binding the simple strategy and then the factory strategy leaves the factory strategy installed, and resolving through it gives that strategy's result for the bound options |
| `KeyPaths.SplitJoin` | staging/src/k8s.io/apiserver/pkg/server/options/etcd.go:129 | splitting the joined key prefix returns the resource, when its group contains no '/' |
| `KeyPaths.JoinSplit` | staging/src/k8s.io/apiserver/pkg/server/options/etcd.go:129 | joining a split key prefix rebuilds the key |
| `KeyPaths.JoinInjective` | staging/src/k8s.io/apiserver/pkg/server/options/etcd.go:129 | the join is injective on resources whose groups contain no '/' |
| `Scenarios.SimpleWithWatchCache` | staging/src/k8s.io/apiserver/pkg/server/options/etcd.go:123-135 | default options, prefix "/registry", apps/deployments: key prefix "/registry/apps/deployments", watch-cache decorator, the shared backend |
| `Scenarios.SimpleWithoutWatchCache` | staging/src/k8s.io/apiserver/pkg/server/options/etcd.go:131-133 | turning the watch cache off changes only the decorator, to pass-through |
| `Scenarios.FactoryMissingDestination` | staging/src/k8s.io/apiserver/pkg/server/options/etcd.go:143-146 | a factory with no destination for core/widgets gives an error naming widgets and the zero options |
| `Scenarios.DefaultsWithoutServers` | staging/src/k8s.io/apiserver/pkg/server/options/etcd.go:45-62 | the defaults without servers give exactly the missing-servers error, and with a server no error |

## Left out

- `AddFlags` (etcd.go:65-107) binds command-line flags to fields and makes no decisions. The flag library is not part of this model. The fields it sets are all modelled.
- The storage factory's implementation is not part of this model. That includes its parsing of `group/resource#servers` overrides. The factory is two total functions, `newConfig` and `resourcePrefix`. The model therefore assumes the factory is deterministic.
- `generic.UndecoratedStorage` and `genericregistry.StorageWithCacher` are not part of this model. The two decorators are opaque tags.
- The simple strategy points at the options' own configuration (`&f.Options.StorageConfig`). The model compares that configuration by value, not by pointer identity.
- The message text built by `fmt.Errorf` is not modelled. A `ResolutionError` carries the resource and the factory's error message instead.
- `storagebackend.Config` is reduced to the fields the options bind to flags. Its codec and copier are not part of this model.
- All other fields of `server.Config` are not part of this model, and neither is storage I/O.
- The binders copy the options shallowly in Go, and the model does not capture the sharing this leaves. `EtcdServersOverrides` (etcd.go:35) and `StorageConfig.ServerList` keep their backing arrays. A write into one of those slices after `ApplyTo` or `ApplyWithStorageFactoryTo` is seen by the installed getter. The model's values share nothing.
- The simple strategy returns `&f.Options.StorageConfig` (etcd.go:125) from every call. All its resolutions therefore share one configuration that any caller can write through. The model returns an independent value each time.
- Pointer arguments are assumed non-nil. A nil `backendConfig` (etcd.go:47), a nil receiver `s` or a nil `c` (etcd.go:110, 115) panics in Go, and the model has no such case.
