/**
 * The descriptors the manager builds for a new Cassandra daemon and its
 * executor, restricted to the fields the manager passes to their factories.
 */
module Tasks {
  import opened Wrappers
  import opened Config

  /** The Mesos task states a daemon status can report. */
  datatype TaskState =
    | TaskStaging | TaskStarting | TaskRunning | TaskKilling
    | TaskFinished | TaskFailed | TaskKilled | TaskError | TaskLost

  /** The operating mode of a Cassandra node. */
  datatype CassandraMode =
    | Starting | Normal | Joining | Leaving
    | Decommissioned | Moving | Draining | Drained

  /** The status record a daemon task carries. */
  datatype DaemonStatus = DaemonStatus(
    state: TaskState,
    id: string,
    slaveId: string,
    name: string,
    message: Option<string>,
    mode: CassandraMode)

  /** The executor that launches and supervises one daemon. `uris` are the
      artifacts the executor fetches before it starts. */
  datatype ExecutorTask = ExecutorTask(
    frameworkId: string,
    id: string,
    command: string,
    arguments: seq<string>,
    cpus: Cpus,
    memoryMb: int,
    diskMb: int,
    heapMb: int,
    apiPort: int,
    adminPort: int,
    uris: seq<string>,
    javaHome: string)

  /** One Cassandra daemon: its identity and placement, its executor, its
      resources, its own copy of the Cassandra configuration and its status. */
  datatype DaemonTask = DaemonTask(
    id: string,
    slaveId: string,
    hostname: string,
    executor: ExecutorTask,
    name: string,
    role: string,
    principal: string,
    cpus: Cpus,
    memoryMb: int,
    diskMb: int,
    config: CassandraConfig,
    status: DaemonStatus)
}
