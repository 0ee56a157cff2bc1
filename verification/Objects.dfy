/** The CreateOrUpdate family: what each mutate function does to a live object, and how the store
    changes. Calls to the API server succeed; admission may fill in what is absent. */
module Objects {
  import opened Trees
  import opened ThreeWayMerge
  import opened LastApplied
  import opened Validate

  datatype Kind =
    | Role | RoleBinding | ServiceAccount | ClusterRole | ClusterRoleBinding
    | DaemonSet | Deployment | StatefulSet | PersistentVolumeClaim | ConfigMap | Service | Ingress | Secret

  datatype Key = Key(kind: Kind, namespace: string, name: string)

  /** A controller reference. */
  datatype Owner = Owner(kind: string, name: string, uid: string)

  datatype Resource = Resource(controller: Option<Owner>, annotations: Annotations, spec: Tree, data: map<string, string>)

  type Store = map<Key, Resource>

  type Target = t: Tree | t.Node? witness Empty

  datatype Port = Port(port: int, targetPort: string, nodePort: int)

  /** What a pass wants of an object. */
  datatype Desired =
    | Rules(rules: Tree)
    | AsBuilt(built: Tree)
    | ConfigData(data: map<string, string>)
    | SecretKeys(keys: seq<string>)
    | Workload(target: Target)
    | Replicated(target: Target)
    | Claimed(base: Target, size: nat)
    | Exposed(base: Target, ports: map<string, Port>)

  // Controller references.

  /** References are matched by kind and name, whatever the uid: a resource that was deleted and created
      again takes its objects over. */
  predicate SameOwner(a: Owner, b: Owner) { a.kind == b.kind && a.name == b.name }

  /** SetControllerReference fails on somebody else's object, RemoveControllerReference likewise; both
      failures are ignored. */
  function Own(o: Resource, owner: Owner, retain: bool): Resource {
    var mine := o.controller.Some? && SameOwner(o.controller.value, owner);
    if retain then (if mine then o.(controller := None) else o)
    else if mine || o.controller.None? then o.(controller := Some(owner))
    else o
  }

  // Claims.

  function SizeTree(size: int): Tree {
    Node(map["requests" := Node(map["storage" := Leaf(Number(size))])])
  }

  function ClaimSpec(base: Target, size: nat): Target { Node(base.members["resources" := SizeTree(size)]) }

  /** The storage request of a claim; zero when there is none. */
  function StorageOf(spec: Tree): int {
    match Member(Member(Member(Some(spec), "resources"), "requests"), "storage")
    case Some(Leaf(Number(n))) => n
    case _ => 0
  }

  function TargetSize(live: Tree, size: nat): nat {
    if StorageOf(live) != 0 && StorageOf(live) > size then StorageOf(live) else size
  }

  lemma CoveredStorage(d: Tree, base: Target, size: nat)
    requires Covers(d, ClaimSpec(base, size))
    ensures StorageOf(d) == size
  {
    var resources := SizeTree(size);
    assert "resources" in ClaimSpec(base, size).members;
    assert Covers(d.members["resources"], resources);
    assert Covers(d.members["resources"].members["requests"], resources.members["requests"]);
    assert Covers(d.members["resources"].members["requests"].members["storage"], Leaf(Number(size)));
  }

  // Services.

  function PortTree(p: Port): Tree {
    var m := map["port" := Leaf(Number(p.port)), "targetPort" := Leaf(Text(p.targetPort)), "protocol" := Leaf(Text("TCP"))];
    Node(if p.nodePort == 0 then m else m["nodePort" := Leaf(Number(p.nodePort))])
  }

  function PortsTree(ports: map<string, Port>): Tree { Node(map n | n in ports :: PortTree(ports[n])) }

  function ServiceSpec(base: Target, ports: map<string, Port>): Target { Node(base.members["ports" := PortsTree(ports)]) }

  function NodePortIn(spec: Tree, name: string): int {
    match Member(Member(Member(Some(spec), "ports"), name), "nodePort")
    case Some(Leaf(Number(n))) => n
    case _ => 0
  }

  function KeepNodePorts(live: Tree, ports: map<string, Port>): map<string, Port> {
    map n | n in ports :: if ports[n].nodePort == 0 then ports[n].(nodePort := NodePortIn(live, n)) else ports[n]
  }

  function WithMember(t: Target, key: string, value: Option<Tree>): Target {
    if value.Some? then Node(t.members[key := value.value]) else Node(t.members - {key})
  }

  lemma WithMemberAt(t: Target, key: string, value: Option<Tree>, k: string)
    ensures Member(Some(WithMember(t, key, value)), k) == if k == key then value else Member(Some(t), k)
  {
  }

  // Mutate.

  function Merged(o: Resource, target: Target, annotations: Annotations): Option<Resource> {
    var m := Update(Managed(o.annotations, o.spec), target, annotations);
    if m.None? then None else Some(o.(annotations := m.value.annotations, spec := m.value.spec))
  }

  lemma MergedIsNode(o: Resource, target: Target, annotations: Annotations)
    ensures Merged(o, target, annotations).Some? ==> Merged(o, target, annotations).value.spec.Node?
  {
    if OriginalOf(o.annotations).Known? {
      PipelineIsOverlay(OriginalOf(o.annotations).tree, target, o.spec);
    }
  }

  /** The result of a merge, with one member then overwritten. */
  function MergedExcept(o: Resource, target: Target, annotations: Annotations, key: string, value: Option<Tree>): Option<Resource> {
    var m := Merged(o, target, annotations);
    if m.None? then None
    else
      MergedIsNode(o, target, annotations);
      Some(m.value.(spec := WithMember(m.value.spec, key, value)))
  }

  /** The mutate function of each CreateOrUpdate method; None is its error. */
  function Mutate(o: Resource, name: string, desired: Desired, annotations: Annotations, generate: Generator): Option<Resource> {
    match desired
    case Rules(rules) => Some(o.(spec := rules))
    case AsBuilt(_) => Some(o)
    case ConfigData(data) => Some(o.(data := data))
    case SecretKeys(keys) => Some(o.(data := AddKeys(o.data, name, keys, generate)))
    case Workload(target) => Merged(o, target, annotations)
    case Replicated(target) =>
      MergedExcept(o, target, annotations, "volumeClaimTemplates", Member(Some(o.spec), "volumeClaimTemplates"))
    case Claimed(base, size) => Merged(o, ClaimSpec(base, TargetSize(o.spec, size)), annotations)
    case Exposed(base, ports) =>
      var kept := KeepNodePorts(o.spec, ports);
      MergedExcept(o, ServiceSpec(base, kept), annotations, "ports", Some(PortsTree(kept)))
  }

  /** The object a builder makes, before it is mutated and created. */
  function Built(desired: Desired, annotations: Annotations): Resource {
    match desired
    case Rules(rules) => Resource(None, map[], rules, map[])
    case AsBuilt(built) => Resource(None, map[], built, map[])
    case ConfigData(data) => Resource(None, map[], Empty, data)
    case SecretKeys(_) => Resource(None, map[], Empty, map[])
    case Workload(target) => Resource(None, annotations, target, map[])
    case Replicated(target) => Resource(None, annotations, target, map[])
    case Claimed(base, size) => Resource(None, annotations, ClaimSpec(base, size), map[])
    case Exposed(base, ports) => Resource(None, annotations, ServiceSpec(base, ports), map[])
  }

  /** On a create the object's annotation map is the target's: what the record there owns is dropped
      from both before it is added. */
  function SeenOnCreate(annotations: Annotations): Annotations { annotations - Owned(annotations) }

  type Admission = (Key, Resource) -> Resource

  /** One CreateOrUpdate, as far as one object goes. */
  function Ensured(live: Option<Resource>, key: Key, desired: Desired, annotations: Annotations, owner: Owner, retain: bool,
                   generate: Generator, admit: Admission): Option<Resource> {
    match live
    case Some(o) =>
      var m := Mutate(Own(o, owner, retain), key.name, desired, annotations, generate);
      if m.None? || m.value == o then live else Some(admit(key, m.value))
    case None =>
      var m := Mutate(Own(Built(desired, annotations), owner, retain), key.name, desired, SeenOnCreate(annotations), generate);
      if m.None? then None else Some(admit(key, m.value))
  }

  // Admission.

  function WithoutNodePort(port: Tree): Tree {
    if port.Node? then Node(port.members - {"nodePort"}) else port
  }

  predicate NodePortIfAny(port: Tree) {
    port.Node? && "nodePort" in port.members ==>
      port.members["nodePort"].Leaf? && port.members["nodePort"].value.Number? && port.members["nodePort"].value.number != 0
  }

  /** The ports of an admitted service: those written, some of them now with a node port. */
  predicate PortsFilled(written: Tree, admitted: Tree) {
    var (a, b) := (Member(Some(written), "ports"), Member(Some(admitted), "ports"));
    a.Some? && a.value.Node? ==>
      && b.Some? && b.value.Node? && b.value.members.Keys == a.value.members.Keys
      && forall n | n in a.value.members ::
           WithoutNodePort(b.value.members[n]) == WithoutNodePort(a.value.members[n])
           && (NodePortIfAny(a.value.members[n]) ==> NodePortIfAny(b.value.members[n]))
  }

  /** Admission adds what is absent from a spec, but nothing to rules, to a secret, or to the entries of
      a service's ports other than a node port. */
  predicate Filled(key: Key, written: Resource, admitted: Resource) {
    && admitted.controller == written.controller
    && admitted.annotations == written.annotations
    && admitted.data == written.data
    && Covers(admitted.spec, written.spec)
    && (key.kind.Role? || key.kind.ClusterRole? || key.kind.Secret? ==> admitted.spec == written.spec)
    && (key.kind.Service? ==> PortsFilled(written.spec, admitted.spec))
  }

  function PortsIn(o: Resource): Option<Tree> { Member(Some(o.spec), "ports") }

  /** ... and a service written with a spec that has been through admission keeps its ports. Which ports
      get a node port may depend on all of the spec. */
  ghost predicate OnlyFills(admit: Admission) {
    && (forall k: Key, o: Resource :: Filled(k, o, admit(k, o)))
    && (forall k: Key, a: Resource, b: Resource ::
          k.kind.Service? && b.spec == admit(k, a).spec ==> PortsIn(admit(k, b)) == PortsIn(b))
  }

  // A second pass over the same object finds nothing to do.

  lemma CoveredMergeKeeps(target: Tree, current: Tree)
    requires Covers(current, target)
    ensures Overlay(Some(target), target, Some(current)) == current
  {
    CoveredDelta(current, target);
    NothingToDelete(target);
    PipelineIsOverlay(Some(target), target, current);
  }

  /** Everything of target but one member. */
  predicate CoversExcept(d: Tree, t: Target, key: string) {
    d.Node? && forall k | k in t.members && k != key :: k in d.members && Covers(d.members[k], t.members[k])
  }

  /** Two specs that agree on all but one member. */
  predicate SameExcept(a: Target, b: Target, key: string) {
    a.members - {key} == b.members - {key}
  }

  lemma MergeKeepsExcept(original: Target, target: Target, current: Tree, key: string)
    requires CoversExcept(current, target, key) && SameExcept(original, target, key)
    ensures var merged := Merge(Some(original), target, current);
            && merged.Some? && merged.value.Node?
            && WithMember(merged.value, key, Member(Some(current), key)) == current
  {
    PipelineIsOverlay(Some(original), target, current);
    var merged := Merge(Some(original), target, current).value;
    var result := WithMember(merged, key, Member(Some(current), key));
    forall k: string ensures Member(Some(result), k) == Member(Some(current), k) {
      WithMemberAt(merged, key, Member(Some(current), key), k);
      OverlayAtMember(Some(original), target, Some(current), k);
      if k != key {
        MemberExcept(original, target, key, k);
        if k in target.members {
          CoveredMergeKeeps(target.members[k], current.members[k]);
        }
      }
    }
    SameMembers(result, current);
  }

  lemma MemberExcept(a: Target, b: Target, key: string, k: string)
    requires SameExcept(a, b, key) && k != key
    ensures Member(Some(a), k) == Member(Some(b), k)
  {
    assert k in a.members <==> k in a.members - {key};
    assert k in b.members <==> k in b.members - {key};
    assert k in a.members ==> (a.members - {key})[k] == a.members[k];
    assert k in b.members ==> (b.members - {key})[k] == b.members[k];
  }

  lemma MergedCoversExcept(o: Resource, target: Target, annotations: Annotations, key: string, value: Option<Tree>, d: Tree)
    requires MergedExcept(o, target, annotations, key, value).Some?
    requires Covers(d, MergedExcept(o, target, annotations, key, value).value.spec)
    ensures CoversExcept(d, target, key)
  {
    var original := OriginalOf(o.annotations).tree;
    PipelineIsOverlay(original, target, o.spec);
    OverlayCoversTarget(original, target, Some(o.spec));
    var merged := Overlay(original, target, Some(o.spec));
    var m := WithMember(merged, key, value);
    forall k | k in target.members && k != key ensures k in d.members && Covers(d.members[k], target.members[k]) {
      WithMemberAt(merged, key, value, k);
      assert k in merged.members && Covers(merged.members[k], target.members[k]);
      assert k in m.members && m.members[k] == merged.members[k];
      CoversIsTransitive(d.members[k], m.members[k], target.members[k]);
    }
  }

  lemma RemergedExcept(o: Resource, target: Target, annotations: Annotations, key: string, value: Option<Tree>, y: Resource)
    requires MergedExcept(o, target, annotations, key, value).Some?
    requires var m := MergedExcept(o, target, annotations, key, value).value;
             y.annotations == m.annotations && Covers(y.spec, m.spec)
    ensures MergedExcept(y, target, annotations, key, Member(Some(y.spec), key)) == Some(y)
  {
    RecordRoundTrip(Managed(o.annotations, o.spec), target, annotations);
    MergedCoversExcept(o, target, annotations, key, value, y.spec);
    MergeKeepsExcept(target, target, y.spec, key);
    assert Annotate(y.annotations, target, annotations) == y.annotations;
  }

  lemma Remerged(o: Resource, target: Target, annotations: Annotations, y: Resource)
    requires Merged(o, target, annotations).Some?
    requires y.annotations == Merged(o, target, annotations).value.annotations
    requires Covers(y.spec, Merged(o, target, annotations).value.spec)
    ensures Merged(y, target, annotations) == Some(y)
  {
    UpdateIsAFixpoint(Managed(o.annotations, o.spec), target, annotations, y.spec);
  }

  lemma MergedCovers(o: Resource, target: Target, annotations: Annotations)
    requires Merged(o, target, annotations).Some?
    ensures Covers(Merged(o, target, annotations).value.spec, target)
  {
    var original := OriginalOf(o.annotations).tree;
    PipelineIsOverlay(original, target, o.spec);
    OverlayCoversTarget(original, target, Some(o.spec));
  }

  lemma AddKeysAgain(data: map<string, string>, name: string, keys: seq<string>, g: Generator, g': Generator)
    ensures var d := AddKeys(data, name, keys, g); AddKeys(d, name, keys, g') == d
  {
    var d := AddKeys(data, name, keys, g);
    assert forall k | k in keys :: k in d;
    assert (map k | k in keys && k !in d :: g'(name, k)) == map[];
  }

  /** A desired state whose mutate function undoes nothing of what admission adds. */
  predicate FitsKind(key: Key, desired: Desired) {
    && (desired.Rules? ==> key.kind.Role? || key.kind.ClusterRole?)
    && (desired.Exposed? ==> key.kind.Service?)
  }

  /** Mutating an admitted result again gives it back, for everything but services. */
  lemma MutateAdmitted(o: Resource, key: Key, desired: Desired, annotations: Annotations, g: Generator, g': Generator, y: Resource)
    requires FitsKind(key, desired) && !desired.Exposed?
    requires Mutate(o, key.name, desired, annotations, g).Some?
    requires Filled(key, Mutate(o, key.name, desired, annotations, g).value, y)
    ensures Mutate(y, key.name, desired, annotations, g') == Some(y)
  {
    match desired
    case Rules(_) =>
    case AsBuilt(_) =>
    case ConfigData(_) =>
    case SecretKeys(keys) => AddKeysAgain(o.data, key.name, keys, g, g');
    case Workload(target) => Remerged(o, target, annotations, y);
    case Replicated(target) =>
      RemergedExcept(o, target, annotations, "volumeClaimTemplates", Member(Some(o.spec), "volumeClaimTemplates"), y);
    case Claimed(base, size) =>
      var target := ClaimSpec(base, TargetSize(o.spec, size));
      Remerged(o, target, annotations, y);
      MergedCovers(o, target, annotations);
      CoversIsTransitive(y.spec, Merged(o, target, annotations).value.spec, target);
      CoveredStorage(y.spec, base, TargetSize(o.spec, size));
  }

  lemma OwnTwice(o: Resource, owner: Owner, retain: bool)
    ensures Own(Own(o, owner, retain), owner, retain) == Own(o, owner, retain)
  {
  }

  lemma MutateKeepsController(o: Resource, name: string, desired: Desired, annotations: Annotations, g: Generator)
    ensures Mutate(o, name, desired, annotations, g).Some? ==>
              Mutate(o, name, desired, annotations, g).value.controller == o.controller
  {
  }

  /** One CreateOrUpdate makes the next one with the same wishes a no-op, whatever was there before,
      for everything but services. */
  lemma EnsuredTwice(o: Resource, key: Key, desired: Desired, annotations: Annotations, owner: Owner, retain: bool,
                     g: Generator, g': Generator, admit: Admission)
    requires OnlyFills(admit) && FitsKind(key, desired) && !desired.Exposed?
    ensures var y := Ensured(Some(o), key, desired, annotations, owner, retain, g, admit);
            y.Some? && Ensured(y, key, desired, annotations, owner, retain, g', admit) == y
  {
    var owned := Own(o, owner, retain);
    var m := Mutate(owned, key.name, desired, annotations, g);
    OwnTwice(o, owner, retain);
    if m.None? {
      assert Mutate(owned, key.name, desired, annotations, g').None?;
    } else {
      var y := if m.value == o then o else admit(key, m.value);
      assert Filled(key, m.value, admit(key, m.value));
      CoversItself(m.value.spec);
      MutateKeepsController(owned, key.name, desired, annotations, g);
      assert Own(y, owner, retain) == y;
      MutateAdmitted(owned, key, desired, annotations, g, g', y);
    }
  }

  lemma CoversItself(t: Tree)
    ensures Covers(t, t)
  {
    CoversIsPathwise(t, t);
  }

  /** An API server that stores objects as they are written is one that only fills. */
  lemma StoringAsWrittenOnlyFills()
    ensures OnlyFills((key: Key, o: Resource) => o)
  {
    forall key: Key, o: Resource ensures Filled(key, o, o) {
      CoversItself(o.spec);
    }
  }
}
