/** What passes never take away from a live object: a claim's size, an allocated node port, a
    StatefulSet's claim templates; and when a service is settled. */
module Stability {
  import opened Trees
  import opened ThreeWayMerge
  import opened LastApplied
  import opened Validate
  import opened Objects

  /** What a pass does to one live object: it ensures it. */
  datatype Event = Pass(desired: Desired, annotations: Annotations, retain: bool)

  datatype Setting = Setting(key: Key, owner: Owner, generate: Generator, admit: Admission)

  function Next(s: Setting, o: Resource, e: Event): Resource {
    Ensured(Some(o), s.key, e.desired, e.annotations, s.owner, e.retain, s.generate, s.admit).value
  }

  function Run(s: Setting, o: Resource, events: seq<Event>): Resource {
    if events == [] then o else Next(s, Run(s, o, events[..|events| - 1]), events[|events| - 1])
  }

  // Claims.

  function Larger(a: int, b: int): int { if a >= b then a else b }

  lemma MergedReadable(o: Resource, target: Target, annotations: Annotations)
    requires OriginalOf(o.annotations).Known?
    ensures Merged(o, target, annotations).Some?
    ensures OriginalOf(Merged(o, target, annotations).value.annotations).Known?
  {
    UpdateAtPath(Managed(o.annotations, o.spec), target, annotations, []);
    RecordRoundTrip(Managed(o.annotations, o.spec), target, annotations);
  }

  lemma ClaimMutated(o: Resource, name: string, base: Target, size: nat, annotations: Annotations, g: Generator)
    requires OriginalOf(o.annotations).Known?
    ensures var m := Mutate(o, name, Claimed(base, size), annotations, g);
            && m.Some? && OriginalOf(m.value.annotations).Known?
            && Covers(m.value.spec, ClaimSpec(base, TargetSize(o.spec, size)))
  {
    MergedReadable(o, ClaimSpec(base, TargetSize(o.spec, size)), annotations);
    MergedCovers(o, ClaimSpec(base, TargetSize(o.spec, size)), annotations);
  }

  lemma ClaimStep(s: Setting, o: Resource, base: Target, size: nat, annotations: Annotations, retain: bool)
    requires OnlyFills(s.admit) && StorageOf(o.spec) >= 0 && OriginalOf(o.annotations).Known?
    ensures var y := Next(s, o, Pass(Claimed(base, size), annotations, retain));
            StorageOf(y.spec) == Larger(StorageOf(o.spec), size) && OriginalOf(y.annotations).Known?
  {
    var owned := Own(o, s.owner, retain);
    ClaimMutated(owned, s.key.name, base, size, annotations, s.generate);
    var m := Mutate(owned, s.key.name, Claimed(base, size), annotations, s.generate).value;
    CoveredStorage(m.spec, base, TargetSize(o.spec, size));
    var y := s.admit(s.key, m);
    assert Filled(s.key, m, y);
    CoversIsTransitive(y.spec, m.spec, ClaimSpec(base, TargetSize(o.spec, size)));
    CoveredStorage(y.spec, base, TargetSize(o.spec, size));
  }

  /** A claim is created with exactly the size wanted. */
  lemma ClaimCreated(key: Key, base: Target, size: nat, annotations: Annotations, owner: Owner, retain: bool,
                     g: Generator, admit: Admission)
    requires OnlyFills(admit) && OriginalOf(annotations).Known?
    ensures var y := Ensured(None, key, Claimed(base, size), annotations, owner, retain, g, admit);
            y.Some? && StorageOf(y.value.spec) == size && OriginalOf(y.value.annotations).Known?
  {
    var built := Own(Built(Claimed(base, size), annotations), owner, retain);
    CoversItself(ClaimSpec(base, size));
    CoveredStorage(ClaimSpec(base, size), base, size);
    ClaimMutated(built, key.name, base, size, SeenOnCreate(annotations), g);
    var m := Mutate(built, key.name, Claimed(base, size), SeenOnCreate(annotations), g).value;
    assert Filled(key, m, admit(key, m));
    CoversIsTransitive(admit(key, m).spec, m.spec, ClaimSpec(base, size));
    CoveredStorage(admit(key, m).spec, base, size);
  }

  // Node ports.

  lemma PortTreeNodePort(spec: Tree, ports: map<string, Port>, n: string)
    requires n in ports && Member(Some(spec), "ports") == Some(PortsTree(ports))
    ensures NodePortIn(spec, n) == ports[n].nodePort
  {
    assert Member(Some(PortsTree(ports)), n) == Some(PortTree(ports[n]));
  }

  lemma CoveredNodePort(d: Tree, t: Tree, n: string)
    requires Covers(d, t) && NodePortIn(t, n) != 0
    ensures NodePortIn(d, n) == NodePortIn(t, n)
  {
    var ports := t.members["ports"];
    assert Covers(d.members["ports"], ports);
    assert Covers(d.members["ports"].members[n], ports.members[n]);
    assert Covers(d.members["ports"].members[n].members["nodePort"], ports.members[n].members["nodePort"]);
  }

  lemma MutatedPorts(o: Resource, name: string, base: Target, ports: map<string, Port>, annotations: Annotations, g: Generator)
    requires Mutate(o, name, Exposed(base, ports), annotations, g).Some?
    ensures Member(Some(Mutate(o, name, Exposed(base, ports), annotations, g).value.spec), "ports")
            == Some(PortsTree(KeepNodePorts(o.spec, ports)))
  {
    MergedIsNode(o, ServiceSpec(base, KeepNodePorts(o.spec, ports)), annotations);
  }

  lemma ServiceMutated(o: Resource, name: string, base: Target, ports: map<string, Port>, annotations: Annotations, g: Generator, n: string)
    requires OriginalOf(o.annotations).Known? && n in ports
    ensures var m := Mutate(o, name, Exposed(base, ports), annotations, g);
            && m.Some? && OriginalOf(m.value.annotations).Known?
            && NodePortIn(m.value.spec, n) == KeepNodePorts(o.spec, ports)[n].nodePort
  {
    var kept := KeepNodePorts(o.spec, ports);
    MergedReadable(o, ServiceSpec(base, kept), annotations);
    MutatedPorts(o, name, base, ports, annotations, g);
    PortTreeNodePort(Mutate(o, name, Exposed(base, ports), annotations, g).value.spec, kept, n);
  }

  /** One pass: an explicit node port is set, an allocated one is kept. */
  lemma ServiceStep(s: Setting, o: Resource, base: Target, ports: map<string, Port>, annotations: Annotations, retain: bool, n: string)
    requires OnlyFills(s.admit) && n in ports && OriginalOf(o.annotations).Known?
    ensures var y := Next(s, o, Pass(Exposed(base, ports), annotations, retain));
            && (ports[n].nodePort != 0 ==> NodePortIn(y.spec, n) == ports[n].nodePort)
            && (ports[n].nodePort == 0 && NodePortIn(o.spec, n) != 0 ==> NodePortIn(y.spec, n) == NodePortIn(o.spec, n))
            && OriginalOf(y.annotations).Known?
  {
    var owned := Own(o, s.owner, retain);
    ServiceMutated(owned, s.key.name, base, ports, annotations, s.generate, n);
    var m := Mutate(owned, s.key.name, Exposed(base, ports), annotations, s.generate).value;
    var y := s.admit(s.key, m);
    assert Filled(s.key, m, y);
    if NodePortIn(m.spec, n) != 0 {
      CoveredNodePort(y.spec, m.spec, n);
    }
  }

  /** Reading the node ports of an admitted service back and printing the ports gives its ports. */
  lemma KeptPortsReprint(live: Tree, ports: map<string, Port>, written: Tree, admitted: Tree)
    requires Member(Some(written), "ports") == Some(PortsTree(KeepNodePorts(live, ports)))
    requires Covers(admitted, written) && PortsFilled(written, admitted)
    ensures Member(Some(admitted), "ports") == Some(PortsTree(KeepNodePorts(admitted, ports)))
  {
    var kept := KeepNodePorts(live, ports);
    var a, b := PortsTree(kept), Member(Some(admitted), "ports").value;
    var again := PortsTree(KeepNodePorts(admitted, ports));
    forall n: string ensures Member(Some(b), n) == Member(Some(again), n) {
      if n in ports {
        KeptPortReprint(live, ports, written, admitted, n);
      }
    }
    SameMembers(b, again);
  }

  lemma PortsOf(t: Tree, ports: map<string, Port>, n: string)
    requires n in ports && Member(Some(t), "ports") == Some(PortsTree(ports))
    ensures Member(Member(Some(t), "ports"), n) == Some(PortTree(ports[n]))
  {
  }

  lemma AdmittedPort(written: Tree, admitted: Tree, n: string)
    requires PortsFilled(written, admitted)
    requires Member(Member(Some(written), "ports"), n).Some?
    ensures var (a, b) := (Member(Member(Some(written), "ports"), n), Member(Member(Some(admitted), "ports"), n));
            && b.Some? && WithoutNodePort(b.value) == WithoutNodePort(a.value)
            && (NodePortIfAny(a.value) ==> NodePortIfAny(b.value))
            && (a.value.Node? <==> b.value.Node?)
  {
    assert n in Member(Some(written), "ports").value.members;
  }

  lemma KeptPortReprint(live: Tree, ports: map<string, Port>, written: Tree, admitted: Tree, n: string)
    requires n in ports
    requires Member(Some(written), "ports") == Some(PortsTree(KeepNodePorts(live, ports)))
    requires Covers(admitted, written) && PortsFilled(written, admitted)
    ensures Member(Member(Some(admitted), "ports"), n) == Some(PortTree(KeepNodePorts(admitted, ports)[n]))
  {
    hide Covers, PortsTree;
    var kept := KeepNodePorts(live, ports);
    PortsOf(written, kept, n);
    AdmittedPort(written, admitted, n);
    var after := Member(Member(Some(admitted), "ports"), n).value;
    PortTreeNodePort(written, kept, n);
    if kept[n].nodePort != 0 {
      CoveredNodePort(admitted, written, n);
    }
    SamePort(after, kept[n], NodePortIn(admitted, n));
  }

  lemma SamePort(after: Tree, p: Port, nodePort: int)
    requires after.Node? && WithoutNodePort(after) == WithoutNodePort(PortTree(p)) && NodePortIfAny(after)
    requires nodePort == match Member(Some(after), "nodePort") case Some(Leaf(Number(n))) => n case _ => 0
    ensures after == PortTree(p.(nodePort := nodePort))
  {
    var q := PortTree(p.(nodePort := nodePort));
    forall k: string ensures Member(Some(after), k) == Member(Some(q), k) {
      if k != "nodePort" {
        assert Member(Some(after), k) == Member(Some(WithoutNodePort(after)), k);
        assert Member(Some(PortTree(p)), k) == Member(Some(WithoutNodePort(PortTree(p))), k);
      }
    }
    SameMembers(after, q);
  }

  /** A service that one pass has written is settled by the next: the third finds nothing to do. Node
      ports allocated on the first write enter the record on the second. */
  lemma ServiceSettles(o: Option<Resource>, key: Key, base: Target, ports: map<string, Port>, annotations: Annotations,
                       owner: Owner, retain: bool, g: Generator, g': Generator, g'': Generator, admit: Admission)
    requires OnlyFills(admit) && key.kind.Service?
    requires Ensured(o, key, Exposed(base, ports), annotations, owner, retain, g, admit).Some?
    ensures var y := Ensured(o, key, Exposed(base, ports), annotations, owner, retain, g, admit);
            var z := Ensured(y, key, Exposed(base, ports), annotations, owner, retain, g', admit);
            z.Some? && Ensured(z, key, Exposed(base, ports), annotations, owner, retain, g'', admit) == z
  {
    var desired := Exposed(base, ports);
    var y := Ensured(o, key, desired, annotations, owner, retain, g, admit).value;
    var m2 := Mutate(Own(y, owner, retain), key.name, desired, annotations, g');
    if m2.None? || m2.value == y {
      assert Mutate(Own(y, owner, retain), key.name, desired, annotations, g'') == m2;
    } else {
      var live, m1, seen := FirstWrite(o, key, base, ports, annotations, owner, retain, g, g', admit);
      assert Filled(key, m1, admit(key, m1));
      KeptPortsReprint(live.spec, ports, m1.spec, y.spec);
      SecondWriteKeepsSpec(live, key, base, ports, seen, annotations, owner, retain, g', m1, y);
      MutatedPorts(Own(y, owner, retain), key.name, base, ports, annotations, g');
      var z := admit(key, m2.value);
      assert Filled(key, m2.value, z);
      assert m2.value.spec == admit(key, m1).spec;
      assert PortsIn(z) == PortsIn(m2.value);
      SettledService(y, key, base, ports, annotations, owner, retain, g', g'', z);
    }
  }

  lemma SpecsSameExceptPorts(base: Target, a: map<string, Port>, b: map<string, Port>)
    ensures SameExcept(ServiceSpec(base, a), ServiceSpec(base, b), "ports")
  {
    assert ServiceSpec(base, a).members - {"ports"} == base.members - {"ports"};
    assert ServiceSpec(base, b).members - {"ports"} == base.members - {"ports"};
  }

  /** All the second write changes is the record: the node ports that were allocated enter it. */
  lemma SecondWriteKeepsSpec(live: Resource, key: Key, base: Target, ports: map<string, Port>, seen: Annotations,
                             annotations: Annotations, owner: Owner, retain: bool, g: Generator, m: Resource, y: Resource)
    requires var kept := KeepNodePorts(live.spec, ports);
             MergedExcept(live, ServiceSpec(base, kept), seen, "ports", Some(PortsTree(kept))) == Some(m)
    requires y.annotations == m.annotations && Covers(y.spec, m.spec)
    requires PortsIn(y) == Some(PortsTree(KeepNodePorts(y.spec, ports)))
    requires Mutate(Own(y, owner, retain), key.name, Exposed(base, ports), annotations, g).Some?
    ensures Mutate(Own(y, owner, retain), key.name, Exposed(base, ports), annotations, g).value.spec == y.spec
  {
    hide Covers, KeepNodePorts, PortsTree, ServiceSpec;
    var first, second := KeepNodePorts(live.spec, ports), KeepNodePorts(y.spec, ports);
    RecordRoundTrip(Managed(live.annotations, live.spec), ServiceSpec(base, first), seen);
    MergedCoversExcept(live, ServiceSpec(base, first), seen, "ports", Some(PortsTree(first)), y.spec);
    SpecsSameExceptPorts(base, first, second);
    CoversExceptAlike(y.spec, ServiceSpec(base, first), ServiceSpec(base, second), "ports");
    MergeKeepsExcept(ServiceSpec(base, first), ServiceSpec(base, second), y.spec, "ports");
  }

  lemma CoversExceptAlike(d: Tree, a: Target, b: Target, key: string)
    requires CoversExcept(d, a, key) && SameExcept(a, b, key)
    ensures CoversExcept(d, b, key)
  {
    hide Covers;
    forall k | k in b.members && k != key ensures k in d.members && Covers(d.members[k], b.members[k]) {
      MemberExcept(a, b, key, k);
    }
  }

  /** The object a pass wrote, if the next pass is to write it again. */
  lemma FirstWrite(o: Option<Resource>, key: Key, base: Target, ports: map<string, Port>, annotations: Annotations,
                   owner: Owner, retain: bool, g: Generator, g': Generator, admit: Admission)
    returns (live: Resource, m: Resource, seen: Annotations)
    requires Ensured(o, key, Exposed(base, ports), annotations, owner, retain, g, admit).Some?
    requires var y := Ensured(o, key, Exposed(base, ports), annotations, owner, retain, g, admit).value;
             var again := Mutate(Own(y, owner, retain), key.name, Exposed(base, ports), annotations, g');
             again.Some? && again.value != y
    ensures Ensured(o, key, Exposed(base, ports), annotations, owner, retain, g, admit) == Some(admit(key, m))
    ensures Member(Some(m.spec), "ports") == Some(PortsTree(KeepNodePorts(live.spec, ports)))
    ensures var kept := KeepNodePorts(live.spec, ports);
            MergedExcept(live, ServiceSpec(base, kept), seen, "ports", Some(PortsTree(kept))) == Some(m)
  {
    hide MergedExcept, PortTree, KeepNodePorts;
    var desired := Exposed(base, ports);
    match o
    case Some(x) =>
      seen := annotations;
      live := Own(x, owner, retain);
      m := Mutate(live, key.name, desired, annotations, g).value;
      MutatedPorts(live, key.name, base, ports, annotations, g);
    case None =>
      seen := SeenOnCreate(annotations);
      live := Own(Built(desired, annotations), owner, retain);
      m := Mutate(live, key.name, desired, seen, g).value;
      MutatedPorts(live, key.name, base, ports, SeenOnCreate(annotations), g);
  }

  lemma SettledService(y: Resource, key: Key, base: Target, ports: map<string, Port>, annotations: Annotations,
                       owner: Owner, retain: bool, g: Generator, g': Generator, z: Resource)
    requires Mutate(Own(y, owner, retain), key.name, Exposed(base, ports), annotations, g).Some?
    requires var m := Mutate(Own(y, owner, retain), key.name, Exposed(base, ports), annotations, g).value;
             && z.controller == m.controller && z.annotations == m.annotations && Covers(z.spec, m.spec)
             && PortsIn(z) == PortsIn(m)
    ensures Own(z, owner, retain) == z
    ensures Mutate(z, key.name, Exposed(base, ports), annotations, g') == Some(z)
  {
    hide Merged, Covers;
    var owned := Own(y, owner, retain);
    var kept := KeepNodePorts(y.spec, ports);
    MutatedPorts(owned, key.name, base, ports, annotations, g);
    MutateKeepsController(owned, key.name, Exposed(base, ports), annotations, g);
    forall n | n in ports ensures KeepNodePorts(z.spec, ports)[n] == kept[n] {
      PortTreeNodePort(z.spec, kept, n);
    }
    assert KeepNodePorts(z.spec, ports) == kept;
    RemergedExcept(owned, ServiceSpec(base, kept), annotations, "ports", Some(PortsTree(kept)), z);
  }

  lemma RecordOf(o: Resource, target: Target, annotations: Annotations, key: string, value: Option<Tree>)
    requires MergedExcept(o, target, annotations, key, value).Some?
    ensures MergedExcept(o, target, annotations, key, value).value.annotations[LAST_APPLIED] == Record(annotations, Some(target))
  {
  }

  lemma TreesTellNodePorts(base: Target, a: map<string, Port>, b: map<string, Port>, n: string)
    requires n in a && n in b && a[n].nodePort != b[n].nodePort
    ensures ServiceSpec(base, a) != ServiceSpec(base, b)
  {
    PortTreeNodePort(ServiceSpec(base, a), a, n);
    PortTreeNodePort(ServiceSpec(base, b), b, n);
  }

  /** One pass is not enough: where the API server allocates a node port on the first write, the second
      pass writes again, to enter it in the record. */
  lemma OnePassIsNotEnough(key: Key, base: Target, ports: map<string, Port>, annotations: Annotations,
                           owner: Owner, retain: bool, g: Generator, g': Generator, admit: Admission, n: string)
    requires OnlyFills(admit) && key.kind.Service? && LAST_APPLIED !in annotations
    requires n in ports && ports[n].nodePort == 0
    requires var y := Ensured(None, key, Exposed(base, ports), annotations, owner, retain, g, admit);
             y.Some? && NodePortIn(y.value.spec, n) != 0
    ensures var y := Ensured(None, key, Exposed(base, ports), annotations, owner, retain, g, admit);
            Ensured(y, key, Exposed(base, ports), annotations, owner, retain, g', admit) != y
  {
    hide Merged, PortTree, ServiceSpec, PortsTree, NodePortIn;
    var desired := Exposed(base, ports);
    var built := Own(Built(desired, annotations), owner, retain);
    var m1 := Mutate(built, key.name, desired, SeenOnCreate(annotations), g).value;
    var y := admit(key, m1);
    assert Filled(key, m1, y);
    var first, second := KeepNodePorts(built.spec, ports), KeepNodePorts(y.spec, ports);
    BuiltHasNone(base, ports, n);
    RecordOf(built, ServiceSpec(base, first), SeenOnCreate(annotations), "ports", Some(PortsTree(first)));
    TreesTellNodePorts(base, first, second, n);
    var m2 := Mutate(Own(y, owner, retain), key.name, desired, annotations, g');
    if m2.Some? {
      RecordOf(Own(y, owner, retain), ServiceSpec(base, second), annotations, "ports", Some(PortsTree(second)));
      assert Filled(key, m2.value, admit(key, m2.value));
    } else {
      MergedReadable(Own(y, owner, retain), ServiceSpec(base, second), annotations);
    }
  }

  lemma BuiltHasNone(base: Target, ports: map<string, Port>, n: string)
    requires n in ports
    ensures NodePortIn(ServiceSpec(base, ports), n) == ports[n].nodePort
  {
    PortTreeNodePort(ServiceSpec(base, ports), ports, n);
  }

  // Claim templates.

  /** A pass writes a StatefulSet with the claim templates it found, never with its own. */
  lemma ClaimTemplatesStay(s: Setting, o: Resource, target: Target, annotations: Annotations, retain: bool)
    requires OnlyFills(s.admit)
    requires Member(Some(o.spec), "volumeClaimTemplates").Some?
    ensures var y := Next(s, o, Pass(Replicated(target), annotations, retain));
            Member(Some(y.spec), "volumeClaimTemplates").Some?
            && Covers(Member(Some(y.spec), "volumeClaimTemplates").value, Member(Some(o.spec), "volumeClaimTemplates").value)
  {
    var owned := Own(o, s.owner, retain);
    var m := Mutate(owned, s.key.name, Replicated(target), annotations, s.generate);
    CoversItself(Member(Some(o.spec), "volumeClaimTemplates").value);
    if m.Some? {
      assert Filled(s.key, m.value, s.admit(s.key, m.value));
      assert Member(Some(m.value.spec), "volumeClaimTemplates") == Member(Some(o.spec), "volumeClaimTemplates");
    }
  }
}
