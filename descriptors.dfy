/**
 * Building the descriptors of a new daemon and its executor from the
 * manager's current configuration. The random token that makes identifiers
 * unique and the fresh volume identity are supplied by the caller.
 */
module Descriptors {
  import opened Wrappers
  import opened Config
  import opened Tasks

  /** The identifier of the daemon `name` with the unique `token`. */
  function DaemonId(name: string, token: string): (id: string)
    ensures |id| == |name| + 1 + |token|
    ensures id[..|name|] == name && id[|name|] == '_' && id[|name| + 1..] == token
  {
    name + "_" + token
  }

  /** The identifier of that daemon's executor, built from the same parts. */
  function ExecutorId(name: string, token: string): (id: string)
    ensures id == DaemonId(name, token) + "_executor"
  {
    name + "_" + token + "_executor"
  }

  /** The token a daemon identifier carries after `name` and the separator,
      or None when the identifier does not start with them. */
  function TokenOf(name: string, id: string): Option<string> {
    if |name| + 1 <= |id| && id[..|name| + 1] == name + "_" then Some(id[|name| + 1..]) else None
  }

  /** TokenOf recovers the token from a daemon identifier, and a token it
      recovers rebuilds the identifier. */
  lemma TokenOfDaemonId(name: string, token: string, id: string)
    ensures TokenOf(name, DaemonId(name, token)) == Some(token)
    ensures TokenOf(name, id) == Some(token) ==> DaemonId(name, token) == id
  {
  }

  /** For one daemon name, distinct tokens give distinct daemon identifiers
      and distinct executor identifiers. */
  lemma DistinctTokensDistinctIds(name: string, token1: string, token2: string)
    requires token1 != token2
    ensures DaemonId(name, token1) != DaemonId(name, token2)
    ensures ExecutorId(name, token1) != ExecutorId(name, token2)
  {
    TokenOfDaemonId(name, token1, "");
    TokenOfDaemonId(name, token2, "");
    SuffixCancels(DaemonId(name, token1), DaemonId(name, token2), "_executor");
  }

  /** Identifiers that agree after the same suffix was appended agree. */
  lemma SuffixCancels(a: string, b: string, suffix: string)
    ensures a + suffix == b + suffix ==> a == b
  {
    if a + suffix == b + suffix {
      assert a == (a + suffix)[..|a|];
      assert b == (b + suffix)[..|b|];
    }
  }

  /** The executor's artifacts: the JRE, the executor and Cassandra, in that
      order. */
  function Artifacts(ec: ExecutorConfig): (uris: seq<string>)
    ensures |uris| == 3
    ensures uris[0] == ec.jreLocation && uris[1] == ec.executorLocation && uris[2] == ec.cassandraLocation
  {
    [ec.jreLocation, ec.executorLocation, ec.cassandraLocation]
  }

  /** The executor configuration an executor descriptor was built from, or
      None when its artifact list is not three long. */
  function ExecutorConfigOf(t: ExecutorTask): Option<ExecutorConfig> {
    if |t.uris| == 3 then
      Some(ExecutorConfig(t.command, t.arguments, t.cpus, t.memoryMb, t.diskMb, t.heapMb,
                          t.apiPort, t.adminPort, t.uris[0], t.uris[1], t.uris[2], t.javaHome))
    else
      None
  }

  /** The executor descriptor for framework `frameworkId` and executor `id`:
      it carries the identifiers it was given and loses nothing of the
      executor configuration, which it lists its artifacts in. */
  function CreateExecutor(ec: ExecutorConfig, frameworkId: string, id: string): (t: ExecutorTask)
    ensures t.frameworkId == frameworkId && t.id == id
    ensures t.uris == Artifacts(ec)
    ensures ExecutorConfigOf(t) == Some(ec)
  {
    ExecutorTask(frameworkId, id, ec.command, ec.arguments, ec.cpus, ec.memoryMb, ec.diskMb,
                 ec.heapMb, ec.apiPort, ec.adminPort, Artifacts(ec), ec.javaHome)
  }

  /** The daemon's own copy of the Cassandra configuration: the volume gets
      identity `volumeId` and the seed provider becomes the one that queries
      `seedsUrl`; nothing else changes. */
  function Stamp(cc: CassandraConfig, volumeId: string, seedsUrl: string): (c: CassandraConfig)
    ensures c.volume.id == volumeId
    ensures c.application.seedProvider == DcosSeedProvider(seedsUrl)
    ensures c.(volume := cc.volume, application := cc.application) == cc
    ensures c.volume.(id := cc.volume.id) == cc.volume
    ensures c.application.settings == cc.application.settings
  {
    cc.(volume := cc.volume.(id := volumeId),
        application := cc.application.(seedProvider := DcosSeedProvider(seedsUrl)))
  }

  /** The status a new daemon starts in: staging, starting, no message. */
  function InitialStatus(id: string, slaveId: string, name: string): (s: DaemonStatus)
    ensures s.state == TaskStaging && s.mode == Starting && s.message.None?
    ensures s.id == id && s.slaveId == slaveId && s.name == name
  {
    DaemonStatus(TaskStaging, id, slaveId, name, None, Starting)
  }

  /** A daemon descriptor whose parts agree: the executor is named after the
      daemon, the status describes the same task, and the resources are
      those of the daemon's own configuration. */
  predicate Coherent(d: DaemonTask) {
    && d.executor.id == d.id + "_executor"
    && d.status.id == d.id && d.status.slaveId == d.slaveId && d.status.name == d.name
    && d.cpus == d.config.cpus && d.memoryMb == d.config.memoryMb && d.diskMb == d.config.diskMb
  }

  /** The descriptor of a new daemon `name` placed on agent `slaveId` at
      `hostname`, built from the Cassandra configuration `cc` and executor
      configuration `ec`, with the unique `token` and volume identity
      `volumeId`. */
  function CreateDaemon(cc: CassandraConfig, ec: ExecutorConfig, seedsUrl: string,
                        frameworkId: string, slaveId: string, hostname: string,
                        name: string, role: string, principal: string,
                        token: string, volumeId: string): (d: DaemonTask)
    ensures Coherent(d)
    ensures d.id == DaemonId(name, token) && TokenOf(name, d.id) == Some(token)
    ensures d.executor == CreateExecutor(ec, frameworkId, ExecutorId(name, token))
    ensures d.slaveId == slaveId && d.hostname == hostname
    ensures d.name == name && d.role == role && d.principal == principal
    ensures d.cpus == cc.cpus && d.memoryMb == cc.memoryMb && d.diskMb == cc.diskMb
    ensures d.config == Stamp(cc, volumeId, seedsUrl)
    ensures d.status.state == TaskStaging && d.status.mode == Starting && d.status.message.None?
  {
    var id := DaemonId(name, token);
    var executor := ExecutorId(name, token);
    DaemonTask(id, slaveId, hostname, CreateExecutor(ec, frameworkId, executor),
               name, role, principal, cc.cpus, cc.memoryMb, cc.diskMb,
               Stamp(cc, volumeId, seedsUrl),
               InitialStatus(id, slaveId, name))
  }

  /** Two daemons created with distinct tokens of the same length (a UUID's
      text form always has 36 characters) and distinct volume identities
      have distinct identifiers, distinct executor identifiers and distinct
      volume identities, whatever their names and other arguments. */
  lemma DistinctDaemons(cc1: CassandraConfig, ec1: ExecutorConfig, seedsUrl1: string,
                        frameworkId1: string, slaveId1: string, hostname1: string,
                        name1: string, role1: string, principal1: string,
                        token1: string, volumeId1: string,
                        cc2: CassandraConfig, ec2: ExecutorConfig, seedsUrl2: string,
                        frameworkId2: string, slaveId2: string, hostname2: string,
                        name2: string, role2: string, principal2: string,
                        token2: string, volumeId2: string)
    requires |token1| == |token2| && token1 != token2 && volumeId1 != volumeId2
    ensures var d1 := CreateDaemon(cc1, ec1, seedsUrl1, frameworkId1, slaveId1, hostname1,
                                   name1, role1, principal1, token1, volumeId1);
      var d2 := CreateDaemon(cc2, ec2, seedsUrl2, frameworkId2, slaveId2, hostname2,
                             name2, role2, principal2, token2, volumeId2);
      d1.id != d2.id && d1.executor.id != d2.executor.id && d1.config.volume.id != d2.config.volume.id
  {
    var a, b := DaemonId(name1, token1), DaemonId(name2, token2);
    SuffixCancels(a, b, "_executor");
  }
}
