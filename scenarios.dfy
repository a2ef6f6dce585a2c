/** Worked resolutions for concrete configurations. */
module Scenarios {
  import opened Wrappers
  import opened Storage
  import opened Options

  /** One local etcd server under "/registry", all other backend fields empty. */
  const LocalBackend := BackendConfig("", ["http://localhost:2379"], "/registry", "", "", "", false, 0)

  const Deployments := GroupResource("apps", "deployments")

  /** With the watch cache on, deployments live under /registry/apps/deployments, cached. */
  lemma SimpleWithWatchCache()
    ensures var r := SimpleRestOptionsFactory(NewEtcdOptions(LocalBackend)).GetRESTOptions(Deployments);
      && r.err == None
      && r.options.resourcePrefix == "/registry/apps/deployments"
      && r.options.decorator == Some(StorageWithCacher)
      && r.options.storageConfig == Some(LocalBackend)
  {
  }

  /** With the watch cache off, only the decorator changes: storage is left undecorated. */
  lemma SimpleWithoutWatchCache()
    ensures var on := SimpleRestOptionsFactory(NewEtcdOptions(LocalBackend)).GetRESTOptions(Deployments);
      var off := SimpleRestOptionsFactory(NewEtcdOptions(LocalBackend).(enableWatchCache := false))
                   .GetRESTOptions(Deployments);
      && off.err == None
      && off.options.decorator == Some(UndecoratedStorage)
      && off.options == on.options.(decorator := Some(UndecoratedStorage))
  {
  }

  /** A factory that has a backend for nothing but the core group's pods. */
  function PodsOnlyFactory(): StorageFactory
  {
    StorageFactory(
      (gr: GroupResource) => if gr == GroupResource("", "pods") then Success(Some(LocalBackend)) else Failure("destination not found"),
      (gr: GroupResource) => "/registry/" + gr.resource)
  }

  /** A resource the factory has no destination for is reported, by name, with the zero options. */
  lemma FactoryMissingDestination()
    ensures var r := StorageFactoryRestOptionsFactory(NewEtcdOptions(LocalBackend), PodsOnlyFactory())
                       .GetRESTOptions(GroupResource("core", "widgets"));
      && r.err.Some?
      && r.err.value.resource.resource == "widgets"
      && r.options == ZeroRESTOptions
  {
  }

  /** The default options with no server list fail validation with the one error. */
  lemma DefaultsWithoutServers()
    ensures NewEtcdOptions(LocalBackend.(serverList := [])).Validate() == [EtcdServersRequired]
    ensures NewEtcdOptions(LocalBackend).Validate() == []
  {
  }
}
