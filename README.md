# Cassandra scheduler configuration manager, in Dafny

A model of the scheduler's `ConfigurationManager`: the process-wide holder of
the Cassandra cluster configuration, the executor configuration, the server
count and the seed count.

- **Building a manager reconciles configuration.** The configured values are
  reconciled with the values persisted by an earlier run. In update mode the
  manager checks two rules and then overwrites the four persisted values. The
  first rule is that a persisted server count may not exceed the configured
  one. The second is that seeds may not outnumber configured servers. In
  steady-state mode the manager adopts whatever is persisted and writes a
  configured value only under a key that holds nothing. Any failure, whether
  a broken rule or a failing store, is wrapped into an initialisation error,
  and no manager results.
- **Setters persist, then publish.** Each setter stores its value first and
  updates the in-memory field only after the store succeeds. The fields of a
  built manager therefore always equal what the store holds.
- **Descriptor construction.** The manager builds the descriptor of a new
  daemon and its executor from the current configuration. The identifiers
  are `name + "_" + token` and `name + "_" + token + "_executor"`. The
  daemon's copy of the Cassandra configuration gets a fresh volume identity
  and a seed provider that queries the scheduler's seeds endpoint. The
  daemon starts as staging / starting with no status message. The executor
  fetches exactly three artifacts: the JRE, the executor and Cassandra.

Modules:
- `Wrappers`: `Option`, `Result` and `Outcome`.
- `Config`: the configuration records.
- `Tasks`: the daemon, executor and status descriptors.
- `Persistence`: the persistent references. Each is a class with `load`,
  `store` and `putIfAbsent`. A `reachable` flag, set by the environment,
  decides whether its calls succeed or raise a persistence error.
- `Reconciliation`: reconciliation as a function `Reconciled` of the update
  flag, the configured values and the store state, with the lemmas about it.
- `Descriptors`: descriptor construction as functions of the configuration
  snapshot.
- `Manager`: the `ConfigurationManager` class. Its fields are updated in
  place. `ReconcileConfiguration` and the setters are methods whose
  postconditions tie the new fields and store to `Reconciled` and to the
  store functions.

The model follows the code in three places where a reader might expect
otherwise:
- The ratchet rejects a *reduction* of the server count (persisted greater
  than configured) and accepts growth. `GrowthIsAccepted` shows that a
  persisted count of 3 with a configured count of 5 reconciles.
- The seed check compares the configured seeds with the *configured* server
  count, because the local holding the persisted count is out of scope there.
- Neither steady-state mode nor `setSeeds`/`setServers` checks that seeds do
  not exceed servers. Only a successful update-mode reconciliation guarantees
  it (`UpdateOutcome`).

## Model

| member | source | states |
|---|---|---|
| `Persistence.PersistentReference.Load` | cassandra-scheduler/src/main/java/com/mesosphere/dcos/cassandra/scheduler/config/ConfigurationManager.java:50 | a load succeeds exactly on a reachable reference and returns what it holds; otherwise it fails with a persistence error for its key |
| `Persistence.PersistentReference.Store` | cassandra-scheduler/src/main/java/com/mesosphere/dcos/cassandra/scheduler/config/ConfigurationManager.java:81-84 | a store on a reachable reference replaces the held value and passes; on an unreachable one it fails and changes nothing |
| `Persistence.PersistentReference.PutIfAbsent` | cassandra-scheduler/src/main/java/com/mesosphere/dcos/cassandra/scheduler/config/ConfigurationManager.java:88-91 | store-if-absent writes only into an empty reference and returns the value held afterwards, or fails and changes nothing |
| `Persistence.KeptIsStable` | cassandra-scheduler/src/main/java/com/mesosphere/dcos/cassandra/scheduler/config/ConfigurationManager.java:88-91 | store-if-absent never overwrites, always leaves a value on a reachable reference, and a second call changes nothing and returns the same value |
| `Reconciliation.UpdateCheck` | cassandra-scheduler/src/main/java/com/mesosphere/dcos/cassandra/scheduler/config/ConfigurationManager.java:55-79 | the update-mode checks pass exactly when no persisted server count exceeds the configured one and seeds do not exceed configured servers |
| `Reconciliation.Reconciled` | cassandra-scheduler/src/main/java/com/mesosphere/dcos/cassandra/scheduler/config/ConfigurationManager.java:47-93 | reconciliation never changes reachability; on success every reference was reachable and the store holds exactly the resulting fields; update mode leaves the fields as configured |
| `Reconciliation.ServerRatchet` | cassandra-scheduler/src/main/java/com/mesosphere/dcos/cassandra/scheduler/config/ConfigurationManager.java:50-66 | update mode fails on the ratchet iff a server count is persisted and exceeds the configured count; with none persisted it never does |
| `Reconciliation.SeedCheck` | cassandra-scheduler/src/main/java/com/mesosphere/dcos/cassandra/scheduler/config/ConfigurationManager.java:70-79 | past the ratchet, update mode fails on the seed check iff configured seeds exceed the configured server count, whatever is persisted |
| `Reconciliation.RejectedUpdateWritesNothing` | cassandra-scheduler/src/main/java/com/mesosphere/dcos/cassandra/scheduler/config/ConfigurationManager.java:55-84 | a broken rule stops update mode before any store, so the store is unchanged |
| `Reconciliation.UpdateOutcome` | cassandra-scheduler/src/main/java/com/mesosphere/dcos/cassandra/scheduler/config/ConfigurationManager.java:52-84 | update mode succeeds iff all references are reachable and both rules hold; then the store holds exactly the configured values, the fields are unchanged and seeds do not exceed servers |
| `Reconciliation.SteadyStateOutcome` | cassandra-scheduler/src/main/java/com/mesosphere/dcos/cassandra/scheduler/config/ConfigurationManager.java:86-91 | steady-state mode succeeds iff all references are reachable; then per key a held value is kept and adopted into the field, and an absent one is written with the configured value, which the field keeps |
| `Reconciliation.SteadyStateAdoptsFullStore` | cassandra-scheduler/src/main/java/com/mesosphere/dcos/cassandra/scheduler/config/ConfigurationManager.java:86-91 | on a store holding all four values, steady-state mode adopts them and writes nothing, whatever is configured |
| `Reconciliation.SteadyStateIdempotent` | cassandra-scheduler/src/main/java/com/mesosphere/dcos/cassandra/scheduler/config/ConfigurationManager.java:88-91 | reconciling again in steady-state mode from what a successful run left changes neither the store nor the fields |
| `Reconciliation.FirstRunPersistsConfigured` | cassandra-scheduler/src/main/java/com/mesosphere/dcos/cassandra/scheduler/config/ConfigurationManager.java:88-91 | on an empty store steady-state mode persists and adopts exactly the configured values |
| `Reconciliation.GrowthIsAccepted` | cassandra-scheduler/src/main/java/com/mesosphere/dcos/cassandra/scheduler/config/ConfigurationManager.java:55-66 | persisted servers 3 and seeds 2, configured servers 5 and seeds 2: update mode succeeds |
| `Reconciliation.ReductionIsRejected` | cassandra-scheduler/src/main/java/com/mesosphere/dcos/cassandra/scheduler/config/ConfigurationManager.java:55-66 | persisted servers 5, configured servers 3: update mode fails on the ratchet with both counts |
| `Manager.ConfigurationManager.Init` | cassandra-scheduler/src/main/java/com/mesosphere/dcos/cassandra/scheduler/config/ConfigurationManager.java:121-128 | the fields start as the configured values, with the given references and strategies |
| `Manager.ConfigurationManager.ReconcileConfiguration` | cassandra-scheduler/src/main/java/com/mesosphere/dcos/cassandra/scheduler/config/ConfigurationManager.java:47-93 | the fields, the store and the error afterwards are exactly those `Reconciled` gives for the fields and store before |
| `Manager.ConfigurationManager.Create` | cassandra-scheduler/src/main/java/com/mesosphere/dcos/cassandra/scheduler/config/ConfigurationManager.java:95-137 | a manager results iff reconciliation succeeds, and it is valid with the reconciled fields; otherwise the reconciliation error is wrapped as an illegal-state error; either way the store is what reconciliation left |
| `Manager.ConfigurationManager.GetCassandraConfig` | cassandra-scheduler/src/main/java/com/mesosphere/dcos/cassandra/scheduler/config/ConfigurationManager.java:139-142 | the value returned is the one persisted |
| `Manager.ConfigurationManager.GetExecutorConfig` | cassandra-scheduler/src/main/java/com/mesosphere/dcos/cassandra/scheduler/config/ConfigurationManager.java:144-147 | the value returned is the one persisted |
| `Manager.ConfigurationManager.GetServers` | cassandra-scheduler/src/main/java/com/mesosphere/dcos/cassandra/scheduler/config/ConfigurationManager.java:149-151 | the value returned is the one persisted |
| `Manager.ConfigurationManager.GetSeeds` | cassandra-scheduler/src/main/java/com/mesosphere/dcos/cassandra/scheduler/config/ConfigurationManager.java:153-155 | the value returned is the one persisted |
| `Manager.ConfigurationManager.SetCassandraConfig` | cassandra-scheduler/src/main/java/com/mesosphere/dcos/cassandra/scheduler/config/ConfigurationManager.java:165-172 | on a reachable store both the key and the field become the argument; otherwise it fails and nothing changes; other fields and keys never change; the fields keep equal to the store |
| `Manager.ConfigurationManager.SetExecutorConfig` | cassandra-scheduler/src/main/java/com/mesosphere/dcos/cassandra/scheduler/config/ConfigurationManager.java:174-181 | as for the Cassandra configuration, for the executor configuration |
| `Manager.ConfigurationManager.SetSeeds` | cassandra-scheduler/src/main/java/com/mesosphere/dcos/cassandra/scheduler/config/ConfigurationManager.java:183-189 | as for the Cassandra configuration, for the seed count |
| `Manager.ConfigurationManager.SetServers` | cassandra-scheduler/src/main/java/com/mesosphere/dcos/cassandra/scheduler/config/ConfigurationManager.java:191-197 | as for the Cassandra configuration, for the server count |
| `Manager.ConfigurationManager.CreateExecutor` | cassandra-scheduler/src/main/java/com/mesosphere/dcos/cassandra/scheduler/config/ConfigurationManager.java:199-218 | the executor descriptor carries the given identifiers and is built from the persisted executor configuration, which can be read back from it |
| `Manager.ConfigurationManager.CreateDaemon` | cassandra-scheduler/src/main/java/com/mesosphere/dcos/cassandra/scheduler/config/ConfigurationManager.java:220-261 | the daemon descriptor is the one `Descriptors.CreateDaemon` builds from the persisted Cassandra and executor configurations and the manager's seeds URL |
| `Descriptors.DaemonId` | cassandra-scheduler/src/main/java/com/mesosphere/dcos/cassandra/scheduler/config/ConfigurationManager.java:229 | the daemon identifier is the name, then `_`, then the token, and nothing else |
| `Descriptors.Artifacts` | cassandra-scheduler/src/main/java/com/mesosphere/dcos/cassandra/scheduler/config/ConfigurationManager.java:213-215 | the executor's artifacts are exactly the JRE, executor and Cassandra locations, in that order |
| `Descriptors.CreateExecutor` | cassandra-scheduler/src/main/java/com/mesosphere/dcos/cassandra/scheduler/config/ConfigurationManager.java:199-218 | the executor descriptor carries the given identifiers and the artifact list, and the executor configuration can be read back from it unchanged |
| `Descriptors.ExecutorId` | cassandra-scheduler/src/main/java/com/mesosphere/dcos/cassandra/scheduler/config/ConfigurationManager.java:229-231 | the executor identifier is the daemon identifier followed by `_executor` |
| `Descriptors.TokenOfDaemonId` | cassandra-scheduler/src/main/java/com/mesosphere/dcos/cassandra/scheduler/config/ConfigurationManager.java:227-229 | the token can be read back from a daemon identifier, and a token read back rebuilds the identifier |
| `Descriptors.DistinctTokensDistinctIds` | cassandra-scheduler/src/main/java/com/mesosphere/dcos/cassandra/scheduler/config/ConfigurationManager.java:227-231 | for one name, distinct tokens give distinct daemon identifiers and distinct executor identifiers |
| `Descriptors.Stamp` | cassandra-scheduler/src/main/java/com/mesosphere/dcos/cassandra/scheduler/config/ConfigurationManager.java:245-252 | the daemon's configuration copy has the new volume identity and the seeds-endpoint seed provider, and is otherwise the template |
| `Descriptors.InitialStatus` | cassandra-scheduler/src/main/java/com/mesosphere/dcos/cassandra/scheduler/config/ConfigurationManager.java:253-258 | a new daemon's status is staging, mode starting, with no message, naming the daemon's id, agent and name |
| `Descriptors.CreateDaemon` | cassandra-scheduler/src/main/java/com/mesosphere/dcos/cassandra/scheduler/config/ConfigurationManager.java:220-261 | the daemon descriptor is coherent (executor named after the daemon, status about the same task, resources those of its configuration); its id is `name + "_" + token` and the token can be read back from it; its executor, placement, name, role, principal, resources, stamped configuration and initial status are as built from the current configuration |
| `Descriptors.DistinctDaemons` | cassandra-scheduler/src/main/java/com/mesosphere/dcos/cassandra/scheduler/config/ConfigurationManager.java:227-252 | any two daemons, whatever their names and other arguments, created with distinct tokens of the same length (as UUID strings are) and distinct volume identities have distinct ids, distinct executor ids and distinct volume identities |

## Left out

- The persistence backend and serializers. The four references are passed
  to the manager instead of being created by a persistence factory under
  their key names. Whether a reference succeeds is a flag that stays fixed
  during a call; a store that fails part-way through a write, or that
  changes between calls, is not modelled.
- Atomicity of update mode. The four stores are sequential, and a failure
  part-way leaves the earlier ones done, as in the code; no atomicity is
  claimed.
- Concurrency. The `volatile` fields and the per-reference `synchronized`
  blocks are not modelled; the setters run one at a time.
- Randomness. The UUID token and the new volume identity are supplied by the
  caller. Global uniqueness of tokens cannot be stated. The model proves
  that distinct tokens of one fixed length, as UUID strings have, give
  distinct identifiers across all names. For tokens of different lengths
  two names can collide (`a_b` + `_c` and `a` + `_b_c`), which UUIDs rule out.
- Foreign factories. The seed provider built from the seeds URL is a datatype
  value holding the URL. The descriptor and status factories are records of
  only the fields the manager passes. The status's fifth argument, always
  empty here, is modelled as an optional message.
- Floating point. CPU shares are kept as their bit pattern and only copied.
- Integer width. Server and seed counts are Java `int`s that are only
  compared, never computed with, so they are unbounded integers here.
- Error messages and logging. The formatted texts of the two rule
  violations and all logging are not modelled; the errors carry the counts
  instead.
- Reference names. The factory creates the references under the names
  `cassandraConfig`, `executorConfig`, `servers` and `seeds`; the model
  identifies them by the `Key` constructors only.
- Lifecycle and wiring. The no-op `start`/`stop` hooks and the dependency
  injection are not modelled. `getPlacementStrategy` and `getPlanStrategy`
  return their constants and have no contract.
- Isolation of descriptors from later configuration changes holds because
  descriptors are values, so no lemma states it.
