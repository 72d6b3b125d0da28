/**
 * The configuration manager: the process-wide holder of the reconciled
 * configuration. Building it reconciles the configured values with the
 * persisted ones; a failed reconciliation means no manager. Each setter
 * persists its value before it publishes it in memory, so the fields always
 * equal what the store holds.
 */
module Manager {
  import opened Wrappers
  import opened Config
  import opened Tasks
  import opened Persistence
  import opened Reconciliation
  import Descriptors

  /** Construction failed: reconciliation stopped with `cause`. */
  datatype InitError = IllegalState(cause: ReconcileError)

  /** The four references are the ones for their keys, and are four distinct
      objects. */
  ghost predicate Wired(cassandraRef: PersistentReference<CassandraConfig>,
                        executorRef: PersistentReference<ExecutorConfig>,
                        serversRef: PersistentReference<int>,
                        seedsRef: PersistentReference<int>)
  {
    && cassandraRef.key == CassandraConfigKey && executorRef.key == ExecutorConfigKey
    && serversRef.key == ServersKey && seedsRef.key == SeedsKey
    && serversRef != seedsRef
    && cassandraRef as object != executorRef as object
    && cassandraRef as object != serversRef as object
    && cassandraRef as object != seedsRef as object
    && executorRef as object != serversRef as object
    && executorRef as object != seedsRef as object
  }

  /** The state of the four references as a value. */
  ghost function StoreOf(cassandraRef: PersistentReference<CassandraConfig>,
                         executorRef: PersistentReference<ExecutorConfig>,
                         serversRef: PersistentReference<int>,
                         seedsRef: PersistentReference<int>): StoreState
    reads cassandraRef, executorRef, serversRef, seedsRef
  {
    StoreState(cassandraRef.State(), executorRef.State(), serversRef.State(), seedsRef.State())
  }

  class ConfigurationManager {
    const cassandraRef: PersistentReference<CassandraConfig>
    const executorRef: PersistentReference<ExecutorConfig>
    const serversRef: PersistentReference<int>
    const seedsRef: PersistentReference<int>
    var cassandraConfig: CassandraConfig
    var executorConfig: ExecutorConfig
    var servers: int
    var seeds: int
    const updateConfig: bool
    const placementStrategy: string
    const planStrategy: string
    const seedsUrl: string

    /** The in-memory configuration. */
    function Fields(): Snapshot
      reads this
    {
      Snapshot(cassandraConfig, executorConfig, servers, seeds)
    }

    /** The persisted configuration. */
    ghost function Store(): StoreState
      reads this, cassandraRef, executorRef, serversRef, seedsRef
    {
      StoreOf(cassandraRef, executorRef, serversRef, seedsRef)
    }

    /** The invariant of a constructed manager: every field equals the value
        its reference holds. */
    ghost predicate Valid()
      reads this, cassandraRef, executorRef, serversRef, seedsRef
    {
      Wired(cassandraRef, executorRef, serversRef, seedsRef) && Holds(Store(), Fields())
    }

    /** Records the configured values and the references; reconciliation
        has not run yet. */
    constructor Init(cassandraConfig: CassandraConfig, executorConfig: ExecutorConfig,
                     servers: int, seeds: int, updateConfig: bool,
                     placementStrategy: string, planStrategy: string, seedsUrl: string,
                     cassandraRef: PersistentReference<CassandraConfig>,
                     executorRef: PersistentReference<ExecutorConfig>,
                     serversRef: PersistentReference<int>,
                     seedsRef: PersistentReference<int>)
      ensures Fields() == Snapshot(cassandraConfig, executorConfig, servers, seeds)
      ensures this.updateConfig == updateConfig && this.placementStrategy == placementStrategy
      ensures this.planStrategy == planStrategy && this.seedsUrl == seedsUrl
      ensures this.cassandraRef == cassandraRef && this.executorRef == executorRef
      ensures this.serversRef == serversRef && this.seedsRef == seedsRef
    {
      this.cassandraRef := cassandraRef;
      this.executorRef := executorRef;
      this.serversRef := serversRef;
      this.seedsRef := seedsRef;
      this.cassandraConfig := cassandraConfig;
      this.executorConfig := executorConfig;
      this.servers := servers;
      this.seeds := seeds;
      this.updateConfig := updateConfig;
      this.placementStrategy := placementStrategy;
      this.planStrategy := planStrategy;
      this.seedsUrl := seedsUrl;
    }

    /** Reconciles the configured fields with the persisted values, in
        update mode or steady-state mode as `updateConfig` says. */
    method ReconcileConfiguration() returns (error: Option<ReconcileError>)
      requires Wired(cassandraRef, executorRef, serversRef, seedsRef)
      modifies this`cassandraConfig, this`executorConfig, this`servers, this`seeds
      modifies cassandraRef`stored, executorRef`stored, serversRef`stored, seedsRef`stored
      ensures var r := Reconciled(updateConfig, old(Fields()), old(Store()));
        Fields() == r.fields && Store() == r.store && error == r.error
    {
      var serversOption := serversRef.Load();
      if serversOption.Failure? {
        return Some(StoreFailed(serversOption.error));
      }
      if updateConfig {
        if serversOption.value.Some? {
          var persisted := serversOption.value.value;
          if persisted > servers {
            return Some(ServersReduced(persisted, servers));
          }
        }
        if seeds > servers {
          return Some(SeedsExceedServers(seeds, servers));
        }
        var o := serversRef.Store(servers);
        // Unreachable in this model: the load above succeeded, and a
        // reference's reachability is fixed for the whole call.
        if o.Fail? { return Some(StoreFailed(PersistenceError(ServersKey))); }
        o := seedsRef.Store(seeds);
        if o.Fail? { return Some(StoreFailed(o.error)); }
        o := cassandraRef.Store(cassandraConfig);
        if o.Fail? { return Some(StoreFailed(o.error)); }
        o := executorRef.Store(executorConfig);
        if o.Fail? { return Some(StoreFailed(o.error)); }
      } else {
        var s := serversRef.PutIfAbsent(servers);
        // Unreachable in this model: the load above succeeded, and a
        // reference's reachability is fixed for the whole call.
        if s.Failure? { return Some(StoreFailed(PersistenceError(ServersKey))); }
        servers := s.value;
        s := seedsRef.PutIfAbsent(seeds);
        if s.Failure? { return Some(StoreFailed(s.error)); }
        seeds := s.value;
        var c := cassandraRef.PutIfAbsent(cassandraConfig);
        if c.Failure? { return Some(StoreFailed(c.error)); }
        cassandraConfig := c.value;
        var e := executorRef.PutIfAbsent(executorConfig);
        if e.Failure? { return Some(StoreFailed(e.error)); }
        executorConfig := e.value;
      }
      return None;
    }

    /** Builds a manager and reconciles; any failure is wrapped into an
        initialisation error and no manager results. The store keeps
        whatever reconciliation wrote before it stopped. */
    static method Create(cassandraConfig: CassandraConfig, executorConfig: ExecutorConfig,
                         servers: int, seeds: int, updateConfig: bool,
                         placementStrategy: string, planStrategy: string, seedsUrl: string,
                         cassandraRef: PersistentReference<CassandraConfig>,
                         executorRef: PersistentReference<ExecutorConfig>,
                         serversRef: PersistentReference<int>,
                         seedsRef: PersistentReference<int>)
      returns (r: Result<ConfigurationManager, InitError>)
      requires Wired(cassandraRef, executorRef, serversRef, seedsRef)
      modifies cassandraRef`stored, executorRef`stored, serversRef`stored, seedsRef`stored
      ensures var rec := Reconciled(updateConfig, Snapshot(cassandraConfig, executorConfig, servers, seeds),
                                    old(StoreOf(cassandraRef, executorRef, serversRef, seedsRef)));
        && StoreOf(cassandraRef, executorRef, serversRef, seedsRef) == rec.store
        && (r.Success? <==> rec.error.None?)
        && (r.Failure? ==> r.error == IllegalState(rec.error.value))
        && (r.Success? ==>
              && fresh(r.value) && r.value.Valid() && r.value.Fields() == rec.fields
              && r.value.cassandraRef == cassandraRef && r.value.executorRef == executorRef
              && r.value.serversRef == serversRef && r.value.seedsRef == seedsRef
              && r.value.updateConfig == updateConfig && r.value.placementStrategy == placementStrategy
              && r.value.planStrategy == planStrategy && r.value.seedsUrl == seedsUrl)
    {
      var m := new ConfigurationManager.Init(cassandraConfig, executorConfig, servers, seeds, updateConfig,
                                             placementStrategy, planStrategy, seedsUrl,
                                             cassandraRef, executorRef, serversRef, seedsRef);
      var error := m.ReconcileConfiguration();
      if error.Some? {
        return Failure(IllegalState(error.value));
      }
      return Success(m);
    }

    /** The current Cassandra configuration, which is the persisted one. */
    function GetCassandraConfig(): (c: CassandraConfig)
      reads this, cassandraRef, executorRef, serversRef, seedsRef
      requires Valid()
      ensures cassandraRef.stored == Some(c)
    {
      cassandraConfig
    }

    /** The current executor configuration, which is the persisted one. */
    function GetExecutorConfig(): (c: ExecutorConfig)
      reads this, cassandraRef, executorRef, serversRef, seedsRef
      requires Valid()
      ensures executorRef.stored == Some(c)
    {
      executorConfig
    }

    /** The current server count, which is the persisted one. */
    function GetServers(): (n: int)
      reads this, cassandraRef, executorRef, serversRef, seedsRef
      requires Valid()
      ensures serversRef.stored == Some(n)
    {
      servers
    }

    /** The current seed count, which is the persisted one. */
    function GetSeeds(): (n: int)
      reads this, cassandraRef, executorRef, serversRef, seedsRef
      requires Valid()
      ensures seedsRef.stored == Some(n)
    {
      seeds
    }

    function GetPlacementStrategy(): string
      reads this
    {
      placementStrategy
    }

    function GetPlanStrategy(): string
      reads this
    {
      planStrategy
    }

    /** Persists `cassandraConfig`, then publishes it; when the store fails
        the error is returned and nothing changes. */
    method SetCassandraConfig(cassandraConfig: CassandraConfig) returns (o: Outcome<PersistenceError>)
      requires Valid()
      modifies this`cassandraConfig, cassandraRef`stored
      ensures Valid()
      ensures o == if cassandraRef.reachable then Pass else Fail(PersistenceError(CassandraConfigKey))
      ensures Fields() == if o.Pass? then old(Fields()).(cassandraConfig := cassandraConfig) else old(Fields())
      ensures Store() == old(Store()).(cassandra := Written(old(Store()).cassandra, cassandraConfig))
    {
      o := cassandraRef.Store(cassandraConfig);
      if o.Pass? {
        this.cassandraConfig := cassandraConfig;
      }
    }

    /** Persists `executorConfig`, then publishes it; when the store fails
        the error is returned and nothing changes. */
    method SetExecutorConfig(executorConfig: ExecutorConfig) returns (o: Outcome<PersistenceError>)
      requires Valid()
      modifies this`executorConfig, executorRef`stored
      ensures Valid()
      ensures o == if executorRef.reachable then Pass else Fail(PersistenceError(ExecutorConfigKey))
      ensures Fields() == if o.Pass? then old(Fields()).(executorConfig := executorConfig) else old(Fields())
      ensures Store() == old(Store()).(executor := Written(old(Store()).executor, executorConfig))
    {
      o := executorRef.Store(executorConfig);
      if o.Pass? {
        this.executorConfig := executorConfig;
      }
    }

    /** Persists the seed count `seeds`, then publishes it; when the store
        fails the error is returned and nothing changes. */
    method SetSeeds(seeds: int) returns (o: Outcome<PersistenceError>)
      requires Valid()
      modifies this`seeds, seedsRef`stored
      ensures Valid()
      ensures o == if seedsRef.reachable then Pass else Fail(PersistenceError(SeedsKey))
      ensures Fields() == if o.Pass? then old(Fields()).(seeds := seeds) else old(Fields())
      ensures Store() == old(Store()).(seeds := Written(old(Store()).seeds, seeds))
    {
      o := seedsRef.Store(seeds);
      if o.Pass? {
        this.seeds := seeds;
      }
    }

    /** Persists the server count `servers`, then publishes it; when the
        store fails the error is returned and nothing changes. */
    method SetServers(servers: int) returns (o: Outcome<PersistenceError>)
      requires Valid()
      modifies this`servers, serversRef`stored
      ensures Valid()
      ensures o == if serversRef.reachable then Pass else Fail(PersistenceError(ServersKey))
      ensures Fields() == if o.Pass? then old(Fields()).(servers := servers) else old(Fields())
      ensures Store() == old(Store()).(servers := Written(old(Store()).servers, servers))
    {
      o := serversRef.Store(servers);
      if o.Pass? {
        this.servers := servers;
      }
    }

    /** The executor descriptor for framework `frameworkId` and executor `id`,
        from the current executor configuration. */
    function CreateExecutor(frameworkId: string, id: string): (t: ExecutorTask)
      reads this, cassandraRef, executorRef, serversRef, seedsRef
      requires Valid()
      ensures t.frameworkId == frameworkId && t.id == id
      ensures Descriptors.ExecutorConfigOf(t) == executorRef.stored
    {
      Descriptors.CreateExecutor(executorConfig, frameworkId, id)
    }

    /** The descriptor of a new daemon from the current configuration;
        `token` stands for the random UUID and `volumeId` for the fresh
        volume identity. */
    function CreateDaemon(frameworkId: string, slaveId: string, hostname: string,
                          name: string, role: string, principal: string,
                          token: string, volumeId: string): (d: DaemonTask)
      reads this, cassandraRef, executorRef, serversRef, seedsRef
      requires Valid()
      ensures d == Descriptors.CreateDaemon(cassandraRef.stored.value, executorRef.stored.value, seedsUrl,
                                            frameworkId, slaveId, hostname, name, role, principal,
                                            token, volumeId)
    {
      Descriptors.CreateDaemon(cassandraConfig, executorConfig, seedsUrl, frameworkId, slaveId, hostname,
                               name, role, principal, token, volumeId)
    }
  }
}
