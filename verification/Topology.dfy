/** ClickHouse shards, replicas and keepers: the claims, the StatefulSets and the host lists are built
    by three different pieces of code and have to name the same pods. */
module Topology {
  import opened Trees
  import opened Naming

  const GIB: nat := 0x4000_0000

  datatype VolumeClaim = VolumeClaim(name: string, size: nat, className: Option<string>)

  datatype StatefulSet = StatefulSet(name: string, replicas: int, service: string)

  /** A Go conversion to int32. */
  function Int32(n: int): (r: int)
    ensures -0x8000_0000 <= r < 0x8000_0000
    ensures -0x8000_0000 <= n < 0x8000_0000 ==> r == n
  {
    (n + 0x8000_0000) % 0x1_0000_0000 - 0x8000_0000
  }

  function OrOne(n: int): int { if n == 0 then 1 else n }

  function AtLeastOne(n: int): nat { if n <= 0 then 1 else n }

  function Count(n: int): nat { if n < 0 then 0 else n }

  // The claims.

  function ShardClaim(name: string, size: nat, className: Option<string>, shard: nat, replica: nat): VolumeClaim {
    VolumeClaim(ClaimName(name, Shard(shard, replica)), if size == 0 then 100 * GIB else size, className)
  }

  function ShardRow(name: string, size: nat, className: Option<string>, shard: nat, replicas: nat): (r: seq<VolumeClaim>)
    ensures |r| == replicas
  {
    seq(replicas, replica requires 0 <= replica < replicas => ShardClaim(name, size, className, shard, replica))
  }

  function ShardGrid(name: string, size: nat, className: Option<string>, shards: nat, replicas: nat): seq<VolumeClaim> {
    if shards == 0 then []
    else ShardGrid(name, size, className, shards - 1, replicas) + ShardRow(name, size, className, shards - 1, replicas)
  }

  method ClickhousePVCs(name: string, shardCount: int, replicaCount: int, size: nat, className: Option<string>)
    returns (res: seq<VolumeClaim>)
    ensures res == ShardGrid(name, size, className, Count(OrOne(shardCount)), Count(OrOne(replicaCount)))
  {
    var shards, replicas := shardCount, replicaCount;
    if shards == 0 { shards := 1; }
    if replicas == 0 { replicas := 1; }
    var storage := size;
    if storage == 0 { storage := 100 * GIB; }
    res := [];
    var shard := 0;
    while shard < shards
      invariant 0 <= shard <= Count(shards)
      invariant res == ShardGrid(name, size, className, shard, Count(replicas))
    {
      ghost var before := res;
      ghost var row := ShardRow(name, size, className, shard, Count(replicas));
      var replica := 0;
      while replica < replicas
        invariant 0 <= replica <= Count(replicas)
        invariant res == before + row[..replica]
      {
        hide ClaimName;
        res := res + [VolumeClaim(ClaimName(name, Shard(shard, replica)), storage, className)];
        assert row[..replica + 1] == row[..replica] + [row[replica]];
        replica := replica + 1;
      }
      assert row[..Count(replicas)] == row;
      shard := shard + 1;
    }
  }

  /** Item (s, r) stands at index s * replicas + r. */
  lemma {:induction false} GridAt(name: string, size: nat, className: Option<string>, shards: nat, replicas: nat, s: nat, r: nat)
    requires s < shards && r < replicas
    ensures |ShardGrid(name, size, className, shards, replicas)| == shards * replicas
    ensures 0 <= s * replicas + r < shards * replicas
    ensures ShardGrid(name, size, className, shards, replicas)[s * replicas + r] == ShardClaim(name, size, className, s, r)
    decreases shards
  {
    GridLength(name, size, className, shards - 1, replicas);
    assert shards * replicas == (shards - 1) * replicas + replicas;
    if s < shards - 1 {
      GridAt(name, size, className, shards - 1, replicas, s, r);
    }
  }

  lemma {:induction false} GridLength(name: string, size: nat, className: Option<string>, shards: nat, replicas: nat)
    ensures |ShardGrid(name, size, className, shards, replicas)| == shards * replicas
  {
    if shards > 0 {
      GridLength(name, size, className, shards - 1, replicas);
    }
  }

  // The StatefulSets.

  function ShardSet(name: string, shard: nat, replicas: int): StatefulSet {
    StatefulSet(ShardSetName(name, shard), replicas, name + "-clickhouse-headless")
  }

  function ShardSets(name: string, shards: nat, replicas: int): (r: seq<StatefulSet>)
    ensures |r| == shards
  {
    seq(shards, shard requires 0 <= shard < shards => ShardSet(name, shard, replicas))
  }

  /** None when taking the first claim for the template fails on an empty list. */
  method ClickhouseStatefulSets(name: string, shardCount: int, replicaCount: int, size: nat, className: Option<string>)
    returns (res: Option<seq<StatefulSet>>)
    ensures res == if ShardGrid(name, size, className, Count(OrOne(shardCount)), Count(OrOne(replicaCount))) == [] then None
                   else Some(ShardSets(name, AtLeastOne(shardCount), AtLeastOne(Int32(replicaCount))))
  {
    var shards := shardCount;
    if shards <= 0 { shards := 1; }
    var replicas := Int32(replicaCount);
    if replicas <= 0 { replicas := 1; }
    var sets: seq<StatefulSet> := [];
    var shard := 0;
    while shard < shards
      invariant 0 <= shard <= shards
      invariant sets == ShardSets(name, shards, replicas)[..shard]
      invariant shard > 0 ==>
                  ShardGrid(name, size, className, Count(OrOne(shardCount)), Count(OrOne(replicaCount))) != []
    {
      var claims := ClickhousePVCs(name, shardCount, replicaCount, size, className);
      if claims == [] {
        return None;
      }
      sets := sets + [StatefulSet(ShardSetName(name, shard), replicas, name + "-clickhouse-headless")];
      shard := shard + 1;
    }
    assert sets == ShardSets(name, shards, replicas);
    res := Some(sets);
  }

  /** The claims Kubernetes binds the pods of a StatefulSet to: one per ordinal, by name. */
  function ClaimsOfSet(set_: StatefulSet): (r: seq<string>)
    ensures |r| == Count(set_.replicas)
  {
    seq(Count(set_.replicas), i requires 0 <= i < Count(set_.replicas) => DataClaim(PodName(set_.name, i)))
  }

  function ClaimsOfSets(sets: seq<StatefulSet>): seq<string> {
    if sets == [] then [] else ClaimsOfSets(sets[..|sets| - 1]) + ClaimsOfSet(sets[|sets| - 1])
  }

  function Names(claims: seq<VolumeClaim>): (r: seq<string>)
    ensures |r| == |claims|
  {
    seq(|claims|, i requires 0 <= i < |claims| => claims[i].name)
  }

  lemma SetClaimsTheRow(name: string, size: nat, className: Option<string>, shard: nat, replicas: nat)
    ensures ClaimsOfSet(ShardSet(name, shard, replicas)) == Names(ShardRow(name, size, className, shard, replicas))
  {
  }

  lemma NamesAppend(a: seq<VolumeClaim>, b: seq<VolumeClaim>)
    ensures Names(a + b) == Names(a) + Names(b)
  {
  }

  lemma {:induction false} SetsClaimTheGrid(name: string, size: nat, className: Option<string>, shards: nat, replicas: nat)
    ensures ClaimsOfSets(ShardSets(name, shards, replicas)) == Names(ShardGrid(name, size, className, shards, replicas))
    decreases shards
  {
    if shards > 0 {
      var sets := ShardSets(name, shards, replicas);
      SetsClaimTheGrid(name, size, className, shards - 1, replicas);
      assert sets[..shards - 1] == ShardSets(name, shards - 1, replicas);
      SetClaimsTheRow(name, size, className, shards - 1, replicas);
      NamesAppend(ShardGrid(name, size, className, shards - 1, replicas), ShardRow(name, size, className, shards - 1, replicas));
      hide ClaimsOfSet, Names, ShardRow;
    }
  }

  lemma {:induction false} ClaimsOfSetsLength(name: string, shards: nat, replicas: nat)
    ensures |ClaimsOfSets(ShardSets(name, shards, replicas))| == shards * replicas
    decreases shards
  {
    if shards > 0 {
      var sets := ShardSets(name, shards, replicas);
      assert sets[..shards - 1] == ShardSets(name, shards - 1, replicas);
      ClaimsOfSetsLength(name, shards - 1, replicas);
      assert |ClaimsOfSets(sets)| == |ClaimsOfSets(sets[..shards - 1])| + |ClaimsOfSet(sets[shards - 1])|;
      assert shards * replicas == (shards - 1) * replicas + replicas;
    }
  }

  lemma MulLess(n: nat, a: nat, b: nat)
    requires n > 0 && a < b
    ensures n * a < n * b
  {
  }

  lemma EmptyGrid(name: string, size: nat, className: Option<string>, shards: nat, replicas: nat)
    ensures ShardGrid(name, size, className, shards, replicas) == [] <==> shards == 0 || replicas == 0
  {
    GridLength(name, size, className, shards, replicas);
    if shards > 0 && replicas > 0 {
      MulLess(shards, 0, replicas);
    }
  }

  /** Whether the claims created in advance are the claims of the generated pods, one for one and in
      order. Generating the StatefulSets needs a first claim. */
  predicate ClaimsMatchPods(name: string, size: nat, className: Option<string>, shardCount: int, replicaCount: int) {
    var claims := ShardGrid(name, size, className, Count(OrOne(shardCount)), Count(OrOne(replicaCount)));
    var sets := ShardSets(name, AtLeastOne(shardCount), AtLeastOne(Int32(replicaCount)));
    claims != [] && ClaimsOfSets(sets) == Names(claims)
  }

  /** They do exactly when neither count is negative and the replica count fits an int32. */
  lemma ClaimsMatchPodsIff(name: string, size: nat, className: Option<string>, shardCount: int, replicaCount: int)
    ensures ClaimsMatchPods(name, size, className, shardCount, replicaCount)
            <==> (shardCount >= 0 && 0 <= replicaCount < 0x8000_0000)
  {
    var shards, replicas := Count(OrOne(shardCount)), Count(OrOne(replicaCount));
    EmptyGrid(name, size, className, shards, replicas);
    if shardCount >= 0 && replicaCount >= 0 {
      if replicaCount < 0x8000_0000 {
        SetsClaimTheGrid(name, size, className, shards, replicas);
      } else {
        TooManyReplicas(name, size, className, shards, replicas, AtLeastOne(Int32(replicaCount)));
      }
    }
  }

  lemma TooManyReplicas(name: string, size: nat, className: Option<string>, shards: nat, replicas: nat, fewer: nat)
    requires shards > 0 && fewer < replicas
    ensures ClaimsOfSets(ShardSets(name, shards, fewer)) != Names(ShardGrid(name, size, className, shards, replicas))
  {
    GridLength(name, size, className, shards, replicas);
    ClaimsOfSetsLength(name, shards, fewer);
    MulLess(shards, fewer, replicas);
  }

  // The hosts written into remote_servers.

  function PodHost(pod: string, service: string, namespace: string): string {
    pod + ("." + service + "." + namespace)
  }

  function ShardHost(name: string, namespace: string, shard: nat, replica: nat): string {
    PodHost(PodName(ShardSetName(name, shard), replica), name + "-clickhouse-headless", namespace)
  }

  function ShardHosts(name: string, namespace: string, shard: nat, replicas: nat): (r: seq<string>)
    ensures |r| == replicas
  {
    seq(replicas, replica requires 0 <= replica < replicas => ShardHost(name, namespace, shard, replica))
  }

  method Indices(n: int) returns (ids: seq<nat>)
    ensures |ids| == Count(n) && forall i | 0 <= i < |ids| :: ids[i] == i
  {
    ids := [];
    var i := 0;
    while i < n
      invariant 0 <= i <= Count(n) && |ids| == i
      invariant forall k | 0 <= k < |ids| :: ids[k] == k
    {
      ids := ids + [i];
      i := i + 1;
    }
  }

  /** The hosts of remote_servers, one group per shard. */
  method RemoteServers(name: string, namespace: string, shards: int, replicas: int) returns (groups: seq<seq<string>>)
    ensures |groups| == Count(shards)
    ensures forall s | 0 <= s < |groups| :: groups[s] == ShardHosts(name, namespace, s, Count(replicas))
  {
    var shardIds := Indices(shards);
    var replicaIds := Indices(replicas);
    groups := [];
    for s := 0 to |shardIds|
      invariant |groups| == s
      invariant forall k | 0 <= k < s :: groups[k] == ShardHosts(name, namespace, k, Count(replicas))
    {
      var hosts: seq<string> := [];
      for r := 0 to |replicaIds|
        invariant hosts == ShardHosts(name, namespace, s, Count(replicas))[..r]
      {
        hosts := hosts + [ShardHost(name, namespace, shardIds[s], replicaIds[r])];
      }
      groups := groups + [hosts];
    }
  }

  lemma CancelSuffix(a: string, b: string, suffix: string)
    requires a + suffix == b + suffix
    ensures a == b
  {
    assert |a| == |b|;
    assert (a + suffix)[..|a|] == a && (b + suffix)[..|b|] == b;
  }

  lemma ShardHostsDiffer(name: string, namespace: string, s: nat, r: nat, s': nat, r': nat)
    requires ShardHost(name, namespace, s, r) == ShardHost(name, namespace, s', r')
    ensures s == s' && r == r'
  {
    var pod, pod' := PodName(ShardSetName(name, s), r), PodName(ShardSetName(name, s'), r');
    CancelSuffix(pod, pod', "." + (name + "-clickhouse-headless") + "." + namespace);
    assert ClaimName(name, Shard(s, r)) == DataClaim(pod);
    assert ClaimName(name, Shard(s', r')) == DataClaim(pod');
    ClaimNamesAreInjective(name, Shard(s, r), name, Shard(s', r'));
  }

  /** remote_servers lists every pod of every generated StatefulSet exactly once, and in its own shard. */
  lemma EachPodListedOnce(name: string, namespace: string, groups: seq<seq<string>>, shards: nat, replicas: nat, s: nat, r: nat)
    requires s < shards && r < replicas
    requires |groups| == shards
    requires forall k | 0 <= k < |groups| :: |groups[k]| == replicas && groups[k] == ShardHosts(name, namespace, k, replicas)
    ensures var set_ := ShardSets(name, shards, replicas)[s];
            groups[s][r] == PodHost(PodName(set_.name, r), set_.service, namespace)
    ensures forall i, j | 0 <= i < |groups| && 0 <= j < |groups[i]| && groups[i][j] == groups[s][r] :: i == s && j == r
  {
    forall i, j | 0 <= i < |groups| && 0 <= j < |groups[i]| && groups[i][j] == groups[s][r] ensures i == s && j == r {
      ShardHostsDiffer(name, namespace, i, j, s, r);
    }
  }

  // The keepers.

  function KeeperReplicas(replicas: int): (r: nat)
    ensures r > 0
  {
    if replicas > 0 then replicas else 3
  }

  function KeeperHost(name: string, namespace: string, ordinal: nat): string {
    PodHost(PodName(KeeperSetName(name), ordinal), name + "-clickhouse-keeper-headless", namespace)
  }

  function KeeperHosts(name: string, namespace: string, keepers: nat): (r: seq<string>)
    ensures |r| == keepers
  {
    seq(keepers, i requires 0 <= i < keepers => KeeperHost(name, namespace, i))
  }

  method KeeperPVCs(name: string, replicas: int, size: nat, className: Option<string>) returns (res: seq<VolumeClaim>)
    ensures |res| == KeeperReplicas(replicas)
    ensures forall i | 0 <= i < |res| ::
              res[i] == VolumeClaim(DataClaim(PodName(KeeperSetName(name), i)), if size == 0 then 10 * GIB else size, className)
  {
    var storage := size;
    if storage == 0 { storage := 10 * GIB; }
    res := [];
    var replica := 0;
    while replica < KeeperReplicas(replicas)
      invariant 0 <= replica <= KeeperReplicas(replicas) && |res| == replica
      invariant forall i | 0 <= i < replica ::
                  res[i] == VolumeClaim(DataClaim(PodName(KeeperSetName(name), i)), storage, className)
    {
      res := res + [VolumeClaim(ClaimName(name, Keeper(replica)), storage, className)];
      replica := replica + 1;
    }
  }

  /** The claims of the telemetry pods themselves. */
  method TelemetryPVCs(name: string, replicaCount: int, size: nat, className: Option<string>) returns (res: seq<VolumeClaim>)
    ensures |res| == Count(OrOne(replicaCount))
    ensures forall i | 0 <= i < |res| ::
              res[i] == VolumeClaim(DataClaim(PodName(TelemetrySetName(name), i)), if size == 0 then 10 * GIB else size, className)
  {
    var storage := size;
    if storage == 0 { storage := 10 * GIB; }
    var replicas := replicaCount;
    if replicas == 0 { replicas := 1; }
    res := [];
    var replica := 0;
    while replica < replicas
      invariant 0 <= replica <= Count(replicas) && |res| == replica
      invariant forall i | 0 <= i < replica ::
                  res[i] == VolumeClaim(DataClaim(PodName(TelemetrySetName(name), i)), storage, className)
    {
      res := res + [VolumeClaim(ClaimName(name, Telemetry(replica)), storage, className)];
      replica := replica + 1;
    }
  }

  /** The node list of the ClickHouse zookeeper section. */
  method ZookeeperNodes(name: string, namespace: string, keepers: int) returns (hosts: seq<string>)
    ensures hosts == KeeperHosts(name, namespace, Count(keepers))
  {
    var ids := Indices(keepers);
    hosts := [];
    for k := 0 to |ids|
      invariant hosts == KeeperHosts(name, namespace, Count(keepers))[..k]
    {
      hosts := hosts + [KeeperHost(name, namespace, ids[k])];
    }
  }

  datatype RaftServer = RaftServer(id: string, hostname: string)

  /** The servers of the keepers' own raft configuration. */
  method RaftServers(name: string, namespace: string, replicas: int) returns (servers: seq<RaftServer>)
    ensures |servers| == Count(replicas)
    ensures forall i | 0 <= i < |servers| :: servers[i] == RaftServer(Decimal(i), KeeperHost(name, namespace, i))
  {
    var ids := Indices(replicas);
    servers := [];
    for k := 0 to |ids|
      invariant |servers| == k
      invariant forall i | 0 <= i < k :: servers[i] == RaftServer(Decimal(i), KeeperHost(name, namespace, i))
    {
      servers := servers + [RaftServer(Decimal(ids[k]), KeeperHost(name, namespace, ids[k]))];
    }
  }

  /** sed -E 's/.*-([0-9]+)$/\1/' on one line: the digits behind the last dash, if that is how it ends. */
  function ServerId(hostname: string): string {
    var i := DigitsFrom(hostname);
    if i == |hostname| || i == 0 || hostname[i - 1] != '-' then hostname else hostname[i..]
  }

  lemma ServerIdOfPod(set_: string, ordinal: nat)
    ensures ServerId(PodName(set_, ordinal)) == Decimal(ordinal)
  {
    SplitNumberOf(set_, ordinal);
    DigitsStart(set_, Decimal(ordinal));
    assert PodName(set_, ordinal)[|set_| + 1..] == Decimal(ordinal);
    hide DigitsFrom, Decimal, SplitNumber;
  }

  /** Each keeper pod finds exactly one server with the id it gives itself, and that server is the pod;
      and that is the host ClickHouse looks for it under. */
  lemma KeeperFindsItself(name: string, namespace: string, replicas: nat, servers: seq<RaftServer>, i: nat)
    requires i < replicas
    requires |servers| == replicas
    requires forall k | 0 <= k < |servers| :: servers[k] == RaftServer(Decimal(k), KeeperHost(name, namespace, k))
    ensures var pod := PodName(KeeperSetName(name), i);
            && servers[i].id == ServerId(pod)
            && servers[i].hostname == PodHost(pod, name + "-clickhouse-keeper-headless", namespace)
            && servers[i].hostname == KeeperHosts(name, namespace, replicas)[i]
            && forall j | 0 <= j < |servers| && servers[j].id == ServerId(pod) :: j == i
  {
    var pod := PodName(KeeperSetName(name), i);
    ServerIdOfPod(KeeperSetName(name), i);
    forall j | 0 <= j < |servers| && servers[j].id == ServerId(pod) ensures j == i {
      DecimalRoundTrip(i);
      DecimalRoundTrip(j);
    }
  }
}
