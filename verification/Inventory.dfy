/** The objects one resource owns, and their keys in the store. */
module Inventory {
  import opened Naming
  import opened Spec
  import opened Objects
  import I = Instances

  datatype Component = NodeAgents | ClusterAgents | Telemetries | Prometheuses | Keepers | Clickhouses

  function Label(c: Component): string {
    match c
    case NodeAgents => "node-agent"
    case ClusterAgents => "cluster-agent"
    case Telemetries => "telemetry"
    case Prometheuses => "prometheus"
    case Keepers => "clickhouse-keeper"
    case Clickhouses => "clickhouse"
  }

  /** The objects of one resource. */
  datatype Id =
    | SccRole(privileged: bool)
    | Account(component: Component)
    | Binding(component: Component)
    | NodeAgent | ClusterAgent | AgentRole | AgentRoleBinding
    | Volume(id: ClaimId)
    | Config
    | TelemetrySet | KeeperSet | ShardSet(shard: nat)
    | TelemetryService | PrometheusService | KeeperService | ShardService | ClickhouseService
    | OldDeployment | PrometheusServer
    | Route
    | SecretOf(name: string)

  datatype Cr = Cr(name: string, namespace: string, uid: string, spec: TelemetrySpec)

  function RequestOf(cr: Cr): I.Request { I.Request(cr.namespace, cr.name) }

  function OwnerOf(cr: Cr): Owner { Owner("Telemetry", cr.name, cr.uid) }

  function KindOf(id: Id): Kind {
    match id
    case SccRole(_) => Role
    case Account(_) => ServiceAccount
    case Binding(_) => RoleBinding
    case NodeAgent => DaemonSet
    case AgentRole => ClusterRole
    case AgentRoleBinding => ClusterRoleBinding
    case ClusterAgent => Deployment
    case OldDeployment => Deployment
    case PrometheusServer => Deployment
    case Volume(_) => PersistentVolumeClaim
    case Config => ConfigMap
    case TelemetrySet => StatefulSet
    case KeeperSet => StatefulSet
    case ShardSet(_) => StatefulSet
    case TelemetryService => Kind.Service
    case PrometheusService => Kind.Service
    case KeeperService => Kind.Service
    case ShardService => Kind.Service
    case ClickhouseService => Kind.Service
    case Route => Kind.Ingress
    case SecretOf(_) => Secret
  }

  /** What a name adds to the resource's own, where it is not numbered. */
  function Suffix(id: Id): string {
    match id
    case SccRole(privileged) => if privileged then "-privileged" else "-nonroot"
    case Account(c) => "-" + Label(c)
    case Binding(c) => "-" + Label(c) + (if c.NodeAgents? then "-privileged" else "-nonroot")
    case NodeAgent => "-node-agent"
    case AgentRole => "-cluster-agent"
    case AgentRoleBinding => "-cluster-agent"
    case ClusterAgent => "-cluster-agent"
    case OldDeployment => "-telemetry"
    case PrometheusServer => "-prometheus"
    case Config => "-telemetry"
    case TelemetrySet => "-telemetry"
    case KeeperSet => "-clickhouse-keeper"
    case TelemetryService => "-telemetry"
    case PrometheusService => "-prometheus"
    case KeeperService => "-clickhouse-keeper-headless"
    case ShardService => "-clickhouse-headless"
    case ClickhouseService => "-clickhouse"
    case _ => ""
  }

  function NameOf(name: string, id: Id): string {
    match id
    case Volume(v) => ClaimName(name, v)
    case ShardSet(n) => ShardSetName(name, n)
    case SecretOf(n) => n
    case _ => name + Suffix(id)
  }

  function KeyOf(cr: Cr, id: Id): Key {
    var kind := KindOf(id);
    Key(kind, if kind.ClusterRole? || kind.ClusterRoleBinding? then "" else cr.namespace, NameOf(cr.name, id))
  }

  // What a key says.

  predicate Suffixed(id: Id) { !id.Volume? && !id.SecretOf? && !id.ShardSet? }

  lemma EndAlike(x: string, s: string, y: string, t: string)
    requires x + s == y + t && |s| <= |t|
    ensures t[|t| - |s|..] == s
    ensures s == t ==> x == y
  {
    assert (x + s)[|x|..] == s && (y + t)[|x|..] == t[|t| - |s|..];
    assert (x + s)[..|x|] == x && (y + t)[..|y|] == y;
  }

  /** How long suffixes are, and what begins at a dash inside of one. */
  predicate Shaped(s: string, binding: bool) {
    && s != "" && s[0] == '-'
    && (if binding then |s| in {18, 19, 22, 26} else |s| in {8, 10, 11, 14, 18, 20, 27})
    && forall i | 0 < i < |s| && s[i] == '-' ::
         if binding then |s| - i in {8, 11, 14, 15, 17} else |s| - i in {6, 7, 9, 16}
  }

  lemma LabelIsShaped(c: Component)
    ensures Shaped("-" + Label(c), false)
  {
    match c
    case NodeAgents => TwoWordsShaped("node", "agent");
    case ClusterAgents => TwoWordsShaped("cluster", "agent");
    case Keepers => TwoWordsShaped("clickhouse", "keeper");
    case _ =>
  }

  lemma TwoWordsShaped(a: string, b: string)
    requires (forall i | 0 <= i < |a| :: a[i] != '-') && (forall i | 0 <= i < |b| :: b[i] != '-')
    requires |b| + 1 in {6, 7} && |a| + |b| + 2 in {11, 14, 18}
    ensures Shaped("-" + (a + "-" + b), false)
  {
  }

  lemma BindingIsShaped(c: Component)
    ensures Shaped(Suffix(Binding(c)), true)
  {
    LabelIsShaped(c);
    var front, end := "-" + Label(c), if c.NodeAgents? then "-privileged" else "-nonroot";
    var s := front + end;
    assert |front| == 11 <==> c.NodeAgents? || c.Prometheuses? || c.Clickhouses?;
    hide Label;
    forall i | 0 < i < |s| && s[i] == '-' ensures |s| - i in {8, 11, 14, 15, 17} {
      if i < |front| {
        assert s[i] == front[i];
      } else {
        assert s[i] == end[i - |front|];
      }
    }
  }

  lemma ServiceIsShaped(id: Id)
    requires KindOf(id).Service?
    ensures Shaped(Suffix(id), false)
  {
  }

  lemma OtherIsShaped(id: Id)
    requires Suffixed(id) && !id.Route? && !KindOf(id).Service? && !id.Account? && !id.Binding? && !id.KeeperSet?
    ensures Shaped(Suffix(id), false)
  {
  }

  lemma LabelledIsShaped(id: Id)
    requires id.Account? || id.KeeperSet?
    ensures Shaped(Suffix(id), false)
  {
    hide Shaped;
    var c := if id.Account? then id.component else Keepers;
    LabelIsShaped(c);
    assert Suffix(id) == "-" + Label(c);
  }

  lemma SuffixIsShaped(id: Id)
    requires Suffixed(id) && !id.Route?
    ensures Shaped(Suffix(id), id.Binding?)
  {
    hide Suffix, Shaped;
    if id.Account? || id.KeeperSet? {
      LabelledIsShaped(id);
    } else if id.Binding? {
      BindingIsShaped(id.component);
    } else if KindOf(id).Service? {
      ServiceIsShaped(id);
    } else {
      OtherIsShaped(id);
    }
  }

  lemma SameSuffix(a: Id, b: Id)
    requires Suffixed(a) && Suffixed(b) && KindOf(a) == KindOf(b) && Suffix(a) == Suffix(b)
    ensures a == b
  {
    assert |Suffix(a)| == |Suffix(b)|;
    match a
    case Account(c) =>
      assert Suffix(a)[1..] == Label(c) && Suffix(b)[1..] == Label(b.component);
      LabelsDiffer(c, b.component);
    case Binding(c) =>
      assert Suffix(a)[1] == Label(c)[0] && Suffix(b)[1] == Label(b.component)[0];
    case _ =>
  }

  lemma LabelsDiffer(a: Component, b: Component)
    requires Label(a) == Label(b)
    ensures a == b
  {
    assert |Label(a)| == |Label(b)|;
    assert Label(a)[0] == Label(b)[0];
  }

  /** No suffix ends in another of its kind: that would begin at a dash, where nothing so long begins. */
  lemma SuffixesDiffer(a: Id, b: Id)
    requires Suffixed(a) && Suffixed(b) && KindOf(a) == KindOf(b)
    requires |Suffix(a)| <= |Suffix(b)| && Suffix(b)[|Suffix(b)| - |Suffix(a)|..] == Suffix(a)
    ensures a == b
  {
    hide Suffix;
    if !a.Route? {
      SuffixIsShaped(a);
      SuffixIsShaped(b);
      assert Suffix(b)[|Suffix(b)| - |Suffix(a)|..][0] == Suffix(a)[0];
      SameSuffix(a, b);
    }
  }

  lemma SuffixedTellResources(x: string, a: Id, y: string, b: Id)
    requires Suffixed(a) && Suffixed(b) && KindOf(a) == KindOf(b) && x + Suffix(a) == y + Suffix(b)
    ensures a == b && x == y
  {
    hide Suffix;
    if |Suffix(a)| <= |Suffix(b)| {
      EndAlike(x, Suffix(a), y, Suffix(b));
      SuffixesDiffer(a, b);
    } else {
      EndAlike(y, Suffix(b), x, Suffix(a));
      SuffixesDiffer(b, a);
    }
  }

  /** A name that ends in a number is a shard's. */
  lemma ShardSetsTellResources(x: string, n: nat, y: string, b: Id)
    requires KindOf(b).StatefulSet? && ShardSetName(x, n) == NameOf(y, b)
    ensures b == ShardSet(n) && x == y
  {
    SplitNumberOf(x + "-clickhouse-shard", n);
    if b.ShardSet? {
      SplitNumberOf(y + "-clickhouse-shard", b.shard);
      StripSuffixOf(x, "-clickhouse-shard");
      StripSuffixOf(y, "-clickhouse-shard");
    } else {
      NoNumber(NameOf(y, b));
    }
  }

  predicate ClusterWide(id: Id) { id.AgentRole? || id.AgentRoleBinding? }

  /** A key tells the object and the resource it is of, whatever the resources are called. Only a secret
      can belong to anybody, and what is cluster-wide to any namespace. */
  lemma KeysTellResources(cr: Cr, a: Id, cr': Cr, b: Id)
    requires KeyOf(cr, a) == KeyOf(cr', b) && !a.SecretOf?
    ensures a == b && cr.name == cr'.name
    ensures !ClusterWide(a) ==> cr.namespace == cr'.namespace
  {
    hide Suffix;
    if a.Volume? {
      ClaimNamesAreInjective(cr.name, a.id, cr'.name, b.id);
    } else if a.ShardSet? || b.ShardSet? {
      if a.ShardSet? {
        ShardSetsTellResources(cr.name, a.shard, cr'.name, b);
      } else {
        ShardSetsTellResources(cr'.name, b.shard, cr.name, a);
      }
    } else {
      SuffixedTellResources(cr.name, a, cr'.name, b);
    }
  }

  /** Different objects of one resource have different keys. */
  lemma KeysDiffer(cr: Cr, a: Id, b: Id)
    requires KeyOf(cr, a) == KeyOf(cr, b)
    ensures a == b
  {
    if !a.SecretOf? {
      KeysTellResources(cr, a, cr, b);
    }
  }
}
