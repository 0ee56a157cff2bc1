/** An API server as the operator meets it: it allocates node ports to services of the types that have
    them, and stores everything else as it is written. */
module ApiServer {
  import opened Trees
  import opened LastApplied
  import opened Validate
  import opened Objects
  import S = Stability

  type Allocator = string -> int

  function WithNodePort(port: Tree, nodePort: int): Tree {
    if port.Node? && "nodePort" !in port.members then Node(port.members["nodePort" := Leaf(Number(nodePort))]) else port
  }

  function AllocateAll(ports: Tree, allocate: Allocator): Tree {
    if ports.Leaf? then ports else Node(map n | n in ports.members :: WithNodePort(ports.members[n], allocate(n)))
  }

  predicate HasNodePorts(spec: Tree) {
    && spec.Node? && "type" in spec.members && "ports" in spec.members
    && (spec.members["type"] == Leaf(Text("NodePort")) || spec.members["type"] == Leaf(Text("LoadBalancer")))
  }

  function Admitted(key: Key, o: Resource, allocate: Allocator): Resource {
    if key.kind.Service? && HasNodePorts(o.spec)
    then o.(spec := Node(o.spec.members["ports" := AllocateAll(o.spec.members["ports"], allocate)]))
    else o
  }

  function Allocating(allocate: Allocator): Admission { (key: Key, o: Resource) => Admitted(key, o, allocate) }

  lemma PortCovered(port: Tree, nodePort: int)
    ensures Covers(WithNodePort(port, nodePort), port)
  {
    CoversItself(port);
    if port.Node? {
      forall k | k in port.members ensures Covers(WithNodePort(port, nodePort).members[k], port.members[k]) {
        CoversItself(port.members[k]);
      }
    }
  }

  lemma PortsCovered(ports: Tree, allocate: Allocator)
    ensures Covers(AllocateAll(ports, allocate), ports)
  {
    CoversItself(ports);
    if ports.Node? {
      forall n | n in ports.members ensures Covers(AllocateAll(ports, allocate).members[n], ports.members[n]) {
        PortCovered(ports.members[n], allocate(n));
      }
    }
  }

  lemma AdmittedCovers(key: Key, o: Resource, allocate: Allocator)
    ensures Covers(Admitted(key, o, allocate).spec, o.spec)
  {
    CoversItself(o.spec);
    if key.kind.Service? && HasNodePorts(o.spec) {
      var spec := Admitted(key, o, allocate).spec;
      forall k | k in o.spec.members ensures Covers(spec.members[k], o.spec.members[k]) {
        CoversItself(o.spec.members[k]);
        PortsCovered(o.spec.members["ports"], allocate);
      }
    }
  }

  lemma PortFilled(port: Tree, nodePort: int)
    requires nodePort != 0
    ensures WithoutNodePort(WithNodePort(port, nodePort)) == WithoutNodePort(port)
    ensures NodePortIfAny(port) ==> NodePortIfAny(WithNodePort(port, nodePort))
  {
  }

  lemma AllocatedTwice(ports: Tree, allocate: Allocator)
    ensures AllocateAll(AllocateAll(ports, allocate), allocate) == AllocateAll(ports, allocate)
  {
    if ports.Node? {
      assert AllocateAll(AllocateAll(ports, allocate), allocate).members == AllocateAll(ports, allocate).members;
    }
  }

  lemma AdmittedFills(key: Key, o: Resource, allocate: Allocator)
    requires forall n: string :: allocate(n) != 0
    ensures Filled(key, o, Admitted(key, o, allocate))
  {
    AdmittedCovers(key, o, allocate);
    if key.kind.Service? && HasNodePorts(o.spec) {
      var ports := o.spec.members["ports"];
      forall n | ports.Node? && n in ports.members
        ensures WithoutNodePort(AllocateAll(ports, allocate).members[n]) == WithoutNodePort(ports.members[n])
                && (NodePortIfAny(ports.members[n]) ==> NodePortIfAny(AllocateAll(ports, allocate).members[n]))
      {
        PortFilled(ports.members[n], allocate(n));
      }
    }
  }

  /** Such a server only fills, though what it gives a port depends on the type of the service. */
  lemma AllocatingOnlyFills(allocate: Allocator)
    requires forall n: string :: allocate(n) != 0
    ensures OnlyFills(Allocating(allocate))
  {
    hide Filled;
    forall key: Key, o: Resource ensures Filled(key, o, Allocating(allocate)(key, o)) {
      AdmittedFills(key, o, allocate);
    }
    forall key: Key, a: Resource, b: Resource | key.kind.Service? && b.spec == Allocating(allocate)(key, a).spec
      ensures PortsIn(Allocating(allocate)(key, b)) == PortsIn(b)
    {
      SpecAdmittedTwice(key, a, b, allocate);
    }
  }

  lemma SpecAdmittedTwice(key: Key, a: Resource, b: Resource, allocate: Allocator)
    requires b.spec == Admitted(key, a, allocate).spec
    ensures Admitted(key, b, allocate).spec == b.spec
  {
    if key.kind.Service? && HasNodePorts(b.spec) {
      assert HasNodePorts(a.spec);
      AllocatedTwice(a.spec.members["ports"], allocate);
      assert b.spec.members["ports" := b.spec.members["ports"]] == b.spec.members;
    }
  }

  /** On such a server a service of type NodePort with a port to allocate needs its two passes. */
  lemma NodePortServiceNeedsTwoPasses(key: Key, base: Target, ports: map<string, Port>, annotations: Annotations,
                                      owner: Owner, retain: bool, g: Generator, g': Generator, allocate: Allocator, n: string)
    requires key.kind.Service? && LAST_APPLIED !in annotations && forall m: string :: allocate(m) != 0
    requires Member(Some(base), "type") == Some(Leaf(Text("NodePort")))
    requires n in ports && ports[n].nodePort == 0
    ensures var y := Ensured(None, key, Exposed(base, ports), annotations, owner, retain, g, Allocating(allocate));
            && y.Some? && NodePortIn(y.value.spec, n) == allocate(n)
            && Ensured(y, key, Exposed(base, ports), annotations, owner, retain, g', Allocating(allocate)) != y
  {
    AllocatingOnlyFills(allocate);
    FirstWriteAllocates(key, base, ports, annotations, owner, retain, g, allocate, n);
    S.OnePassIsNotEnough(key, base, ports, annotations, owner, retain, g, g', Allocating(allocate), n);
  }

  lemma FirstWriteAllocates(key: Key, base: Target, ports: map<string, Port>, annotations: Annotations,
                            owner: Owner, retain: bool, g: Generator, allocate: Allocator, n: string)
    requires key.kind.Service? && LAST_APPLIED !in annotations
    requires Member(Some(base), "type") == Some(Leaf(Text("NodePort")))
    requires n in ports && ports[n].nodePort == 0
    ensures var y := Ensured(None, key, Exposed(base, ports), annotations, owner, retain, g, Allocating(allocate));
            y.Some? && NodePortIn(y.value.spec, n) == allocate(n)
  {
    hide Merged, MergedExcept, PortTree, KeepNodePorts, PortsTree, ServiceSpec, Admitted, NodePortIn, HasNodePorts;
    var built := Own(Built(Exposed(base, ports), annotations), owner, retain);
    var seen := SeenOnCreate(annotations);
    var kept := KeepNodePorts(built.spec, ports);
    S.MergedReadable(built, ServiceSpec(base, kept), seen);
    MutateExposes(built, key.name, base, ports, seen, g);
    S.MutatedPorts(built, key.name, base, ports, seen, g);
    S.BuiltHasNone(base, ports, n);
    TypeStays(built, base, kept, seen);
    var m := Mutate(built, key.name, Exposed(base, ports), seen, g).value;
    KeptAt(built.spec, ports, n);
    AdmittedAllocates(key, m, kept, allocate, n);
  }

  lemma MutateExposes(o: Resource, name: string, base: Target, ports: map<string, Port>, annotations: Annotations, g: Generator)
    ensures var kept := KeepNodePorts(o.spec, ports);
            && Mutate(o, name, Exposed(base, ports), annotations, g)
               == MergedExcept(o, ServiceSpec(base, kept), annotations, "ports", Some(PortsTree(kept)))
            && (Merged(o, ServiceSpec(base, kept), annotations).Some? ==> Mutate(o, name, Exposed(base, ports), annotations, g).Some?)
  {
  }

  lemma KeptAt(live: Tree, ports: map<string, Port>, n: string)
    requires n in ports && ports[n].nodePort == 0 && NodePortIn(live, n) == 0
    ensures n in KeepNodePorts(live, ports) && KeepNodePorts(live, ports)[n] == ports[n]
  {
  }

  lemma AdmittedAllocates(key: Key, o: Resource, ports: map<string, Port>, allocate: Allocator, n: string)
    requires key.kind.Service? && Member(Some(o.spec), "type") == Some(Leaf(Text("NodePort")))
    requires Member(Some(o.spec), "ports") == Some(PortsTree(ports))
    requires n in ports && ports[n].nodePort == 0
    ensures NodePortIn(Admitted(key, o, allocate).spec, n) == allocate(n)
  {
    assert HasNodePorts(o.spec);
    assert AllocateAll(PortsTree(ports), allocate).members[n] == WithNodePort(PortTree(ports[n]), allocate(n));
  }

  lemma TypeStays(o: Resource, base: Target, ports: map<string, Port>, annotations: Annotations)
    requires "type" in base.members && Merged(o, ServiceSpec(base, ports), annotations).Some?
    requires base.members["type"].Leaf?
    ensures var m := MergedExcept(o, ServiceSpec(base, ports), annotations, "ports", Some(PortsTree(ports)));
            m.Some? && Member(Some(m.value.spec), "type") == Some(base.members["type"])
  {
    var value := Some(PortsTree(ports));
    var m := MergedExcept(o, ServiceSpec(base, ports), annotations, "ports", value).value;
    CoversItself(m.spec);
    MergedCoversExcept(o, ServiceSpec(base, ports), annotations, "ports", value, m.spec);
    assert "type" in ServiceSpec(base, ports).members;
    assert Covers(m.spec.members["type"], base.members["type"]);
  }
}
