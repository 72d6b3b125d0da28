/**
 * The reconciliation of configured and persisted configuration that the
 * manager runs once when it is built, as a function of the configured
 * values, the update flag and the state of the four persistent references.
 *
 * Update mode keeps two checks and then overwrites all four persisted
 * values, one store after the other. Steady-state mode adopts whatever is
 * persisted and writes the configured value only under a key that holds
 * nothing. A failing reference stops the sequence where it fails, leaving
 * the stores before it done.
 */
module Reconciliation {
  import opened Wrappers
  import opened Config
  import opened Persistence

  /** The manager's in-memory configuration. */
  datatype Snapshot = Snapshot(
    cassandraConfig: CassandraConfig,
    executorConfig: ExecutorConfig,
    servers: int,
    seeds: int)

  /** The state of the four persistent references. */
  datatype StoreState = StoreState(
    cassandra: Cell<CassandraConfig>,
    executor: Cell<ExecutorConfig>,
    servers: Cell<int>,
    seeds: Cell<int>)

  /** Why reconciliation stopped. */
  datatype ReconcileError =
    | StoreFailed(cause: PersistenceError)
      /** The persisted server count exceeds the configured one. */
    | ServersReduced(persisted: int, configured: int)
      /** The configured seed count exceeds the configured server count. */
    | SeedsExceedServers(seeds: int, servers: int)

  /** The fields and the store after reconciliation, and the error that
      stopped it, if any. */
  datatype Reconciliation = Reconciliation(
    fields: Snapshot,
    store: StoreState,
    error: Option<ReconcileError>)

  /** Whether every reference is reachable. */
  predicate AllReachable(st: StoreState) {
    st.cassandra.reachable && st.executor.reachable && st.servers.reachable && st.seeds.reachable
  }

  /** The store holds exactly the values of `s`. */
  predicate Holds(st: StoreState, s: Snapshot) {
    && st.cassandra.stored == Some(s.cassandraConfig)
    && st.executor.stored == Some(s.executorConfig)
    && st.servers.stored == Some(s.servers)
    && st.seeds.stored == Some(s.seeds)
  }

  /** Reconciliation never changes whether a reference is reachable. */
  predicate SameReachability(a: StoreState, b: StoreState) {
    && a.cassandra.reachable == b.cassandra.reachable
    && a.executor.reachable == b.executor.reachable
    && a.servers.reachable == b.servers.reachable
    && a.seeds.reachable == b.seeds.reachable
  }

  /** The checks of update mode: a persisted server count may not exceed
      the configured one, and seeds may not outnumber configured servers. */
  function UpdateCheck(cfg: Snapshot, persistedServers: Option<int>): (e: Option<ReconcileError>)
    ensures e.None? <==>
      (persistedServers.None? || persistedServers.value <= cfg.servers) && cfg.seeds <= cfg.servers
  {
    if persistedServers.Some? && persistedServers.value > cfg.servers then
      Some(ServersReduced(persistedServers.value, cfg.servers))
    else if cfg.seeds > cfg.servers then
      Some(SeedsExceedServers(cfg.seeds, cfg.servers))
    else
      None
  }

  /** Update mode after its checks: store servers, seeds, the Cassandra
      configuration and the executor configuration, in that order. */
  function Overwritten(cfg: Snapshot, st: StoreState): Reconciliation {
    // Within Reconciled this first branch is never taken: the servers
    // reference was loaded successfully, and reachability does not change.
    if !st.servers.reachable then
      Reconciliation(cfg, st, Some(StoreFailed(PersistenceError(ServersKey))))
    else
      var st1 := st.(servers := Written(st.servers, cfg.servers));
      if !st1.seeds.reachable then
        Reconciliation(cfg, st1, Some(StoreFailed(PersistenceError(SeedsKey))))
      else
        var st2 := st1.(seeds := Written(st1.seeds, cfg.seeds));
        if !st2.cassandra.reachable then
          Reconciliation(cfg, st2, Some(StoreFailed(PersistenceError(CassandraConfigKey))))
        else
          var st3 := st2.(cassandra := Written(st2.cassandra, cfg.cassandraConfig));
          if !st3.executor.reachable then
            Reconciliation(cfg, st3, Some(StoreFailed(PersistenceError(ExecutorConfigKey))))
          else
            Reconciliation(cfg, st3.(executor := Written(st3.executor, cfg.executorConfig)), None)
  }

  /** Steady-state mode: store-if-absent each value in the same order, and
      adopt into the field whatever the store then holds. */
  function Adopted(cfg: Snapshot, st: StoreState): Reconciliation {
    // Within Reconciled this first branch is never taken: the servers
    // reference was loaded successfully, and reachability does not change.
    if !st.servers.reachable then
      Reconciliation(cfg, st, Some(StoreFailed(PersistenceError(ServersKey))))
    else
      var cfg1 := cfg.(servers := Present(st.servers, cfg.servers));
      var st1 := st.(servers := Kept(st.servers, cfg.servers));
      if !st1.seeds.reachable then
        Reconciliation(cfg1, st1, Some(StoreFailed(PersistenceError(SeedsKey))))
      else
        var cfg2 := cfg1.(seeds := Present(st1.seeds, cfg1.seeds));
        var st2 := st1.(seeds := Kept(st1.seeds, cfg1.seeds));
        if !st2.cassandra.reachable then
          Reconciliation(cfg2, st2, Some(StoreFailed(PersistenceError(CassandraConfigKey))))
        else
          var cfg3 := cfg2.(cassandraConfig := Present(st2.cassandra, cfg2.cassandraConfig));
          var st3 := st2.(cassandra := Kept(st2.cassandra, cfg2.cassandraConfig));
          if !st3.executor.reachable then
            Reconciliation(cfg3, st3, Some(StoreFailed(PersistenceError(ExecutorConfigKey))))
          else
            Reconciliation(
              cfg3.(executorConfig := Present(st3.executor, cfg3.executorConfig)),
              st3.(executor := Kept(st3.executor, cfg3.executorConfig)),
              None)
  }

  /** Reconciliation as a whole: load the persisted server count, then run
      update mode or steady-state mode. */
  function Reconciled(update: bool, cfg: Snapshot, st: StoreState): (r: Reconciliation)
    ensures SameReachability(r.store, st)
    ensures r.error.None? ==> AllReachable(st) && Holds(r.store, r.fields)
    ensures update ==> r.fields == cfg
  {
    if !st.servers.reachable then
      Reconciliation(cfg, st, Some(StoreFailed(PersistenceError(ServersKey))))
    else if update then
      var check := UpdateCheck(cfg, st.servers.stored);
      if check.Some? then Reconciliation(cfg, st, check) else Overwritten(cfg, st)
    else
      Adopted(cfg, st)
  }

  /** Update mode rejects a reduction of the server count: it fails on the
      ratchet exactly when a server count is persisted and it exceeds the
      configured one. Growing, keeping the count, or having nothing
      persisted passes this check. */
  lemma ServerRatchet(cfg: Snapshot, st: StoreState)
    requires st.servers.reachable
    ensures var r := Reconciled(true, cfg, st);
      (r.error.Some? && r.error.value.ServersReduced?) <==>
        (st.servers.stored.Some? && st.servers.stored.value > cfg.servers)
  {
  }

  /** Once the ratchet passes, update mode fails on the seed check exactly
      when the configured seeds outnumber the configured servers; the
      persisted value plays no part in it. */
  lemma SeedCheck(cfg: Snapshot, st: StoreState)
    requires st.servers.reachable
    requires st.servers.stored.None? || st.servers.stored.value <= cfg.servers
    ensures var r := Reconciled(true, cfg, st);
      (r.error.Some? && r.error.value.SeedsExceedServers?) <==> cfg.seeds > cfg.servers
  {
  }

  /** A failed check writes nothing. */
  lemma RejectedUpdateWritesNothing(cfg: Snapshot, st: StoreState)
    ensures var r := Reconciled(true, cfg, st);
      r.error.Some? && !r.error.value.StoreFailed? ==> r.store == st
  {
  }

  /** Update mode succeeds exactly when every reference is reachable and both
      checks pass; it then persists the configured values and leaves the
      fields as configured, with no more seeds than servers. */
  lemma UpdateOutcome(cfg: Snapshot, st: StoreState)
    ensures var r := Reconciled(true, cfg, st);
      && (r.error.None? <==>
            AllReachable(st)
            && (st.servers.stored.None? || st.servers.stored.value <= cfg.servers)
            && cfg.seeds <= cfg.servers)
      && (r.error.None? ==> r.fields == cfg && Holds(r.store, cfg) && cfg.seeds <= cfg.servers)
  {
  }

  /** A value under `c` is adopted as it is; an absent one is written with
      the configured value `v`, which the field keeps. */
  ghost predicate AdoptedKey<T>(c: Cell<T>, v: T, after: Cell<T>, field: T) {
    if c.stored.Some? then after.stored == c.stored && field == c.stored.value
    else after.stored == Some(v) && field == v
  }

  /** Steady-state mode succeeds exactly when every reference is reachable;
      it then keeps every persisted value and adopts it into its field, and
      writes the configured value only under a key that held nothing. */
  lemma SteadyStateOutcome(cfg: Snapshot, st: StoreState)
    ensures var r := Reconciled(false, cfg, st);
      && (r.error.None? <==> AllReachable(st))
      && (r.error.None? ==>
            && AdoptedKey(st.cassandra, cfg.cassandraConfig, r.store.cassandra, r.fields.cassandraConfig)
            && AdoptedKey(st.executor, cfg.executorConfig, r.store.executor, r.fields.executorConfig)
            && AdoptedKey(st.servers, cfg.servers, r.store.servers, r.fields.servers)
            && AdoptedKey(st.seeds, cfg.seeds, r.store.seeds, r.fields.seeds))
  {
  }

  /** On a store holding all four values, steady-state mode adopts them and
      writes nothing, whatever values are configured. */
  lemma SteadyStateAdoptsFullStore(cfg: Snapshot, s: Snapshot, st: StoreState)
    requires AllReachable(st) && Holds(st, s)
    ensures Reconciled(false, cfg, st) == Reconciliation(s, st, None)
  {
  }

  /** Steady-state mode is idempotent: reconciling again from what a
      successful run left behind changes neither the store nor the fields,
      whatever values are configured the second time. */
  lemma SteadyStateIdempotent(cfg: Snapshot, st: StoreState, cfg': Snapshot)
    requires Reconciled(false, cfg, st).error.None?
    ensures var r := Reconciled(false, cfg, st);
      Reconciled(false, cfg', r.store) == r
  {
  }

  /** With an empty store, steady-state mode persists and adopts exactly
      the configured values. */
  lemma FirstRunPersistsConfigured(cfg: Snapshot, st: StoreState)
    requires AllReachable(st)
    requires st.cassandra.stored.None? && st.executor.stored.None?
    requires st.servers.stored.None? && st.seeds.stored.None?
    ensures var r := Reconciled(false, cfg, st);
      r.error.None? && r.fields == cfg && Holds(r.store, cfg)
  {
  }

  /** Update mode with a persisted server count of 3 and a configured count
      of 5 succeeds: growing the cluster passes the ratchet. */
  lemma GrowthIsAccepted(cfg: Snapshot, st: StoreState)
    requires AllReachable(st)
    requires st.servers.stored == Some(3) && st.seeds.stored == Some(2)
    requires cfg.servers == 5 && cfg.seeds == 2
    ensures Reconciled(true, cfg, st).error.None?
  {
  }

  /** Update mode with a persisted server count of 5 and a configured count
      of 3 fails: the ratchet rejects the reduction. */
  lemma ReductionIsRejected(cfg: Snapshot, st: StoreState)
    requires st.servers.reachable
    requires st.servers.stored == Some(5)
    requires cfg.servers == 3 && cfg.seeds == 2
    ensures Reconciled(true, cfg, st).error == Some(ServersReduced(5, 3))
  {
  }
}
