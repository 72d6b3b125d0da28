/**
 * The configuration records the manager holds and persists: the cluster-wide
 * Cassandra settings and the executor settings. Only the fields the manager
 * reads or rewrites are kept; every other setting of the application
 * configuration travels in one opaque map.
 */
module Config {

  /** CPU shares are a Java double that is only ever copied, never computed
      with, so the model keeps its IEEE-754 bit pattern. */
  datatype Cpus = Cpus(bits: bv64)

  /** The persistent volume a daemon is given; `id` is its identity. */
  datatype Volume = Volume(path: string, sizeMb: int, id: string)

  /** How a Cassandra node discovers its seeds. `DcosSeedProvider` stands for
      the provider built by CassandraApplicationConfig.createDcosSeedProvider,
      which queries the scheduler's seeds endpoint at `seedsUrl`. */
  datatype SeedProvider =
    | DcosSeedProvider(seedsUrl: string)
    | OtherSeedProvider(description: string)

  /** The Cassandra application settings (cassandra.yaml): the seed provider
      the manager replaces, and everything else as an opaque map. */
  datatype ApplicationConfig = ApplicationConfig(
    seedProvider: SeedProvider,
    settings: map<string, string>)

  /** The cluster-wide Cassandra configuration: the resources of each daemon,
      its volume and its application settings. */
  datatype CassandraConfig = CassandraConfig(
    cpus: Cpus,
    memoryMb: int,
    diskMb: int,
    volume: Volume,
    application: ApplicationConfig)

  /** The executor configuration: how to launch the executor process, its
      resources and ports, and where its three artifacts are fetched from. */
  datatype ExecutorConfig = ExecutorConfig(
    command: string,
    arguments: seq<string>,
    cpus: Cpus,
    memoryMb: int,
    diskMb: int,
    heapMb: int,
    apiPort: int,
    adminPort: int,
    jreLocation: string,
    executorLocation: string,
    cassandraLocation: string,
    javaHome: string)
}
