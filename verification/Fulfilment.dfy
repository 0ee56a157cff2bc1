/** After one pass, everything the operator wants is there and is as the spec wants it. */
module Fulfilment {
  import opened Trees
  import opened ThreeWayMerge
  import opened LastApplied
  import opened Validate
  import opened Objects
  import opened Inventory
  import opened Reconcile
  import opened Settling
  import opened Passes
  import opened Installation
  import opened StoreRuns
  import S = Stability
  import C = Convergence

  /** The wanted ports and no others, with the node ports that were asked for. */
  predicate PortsMeet(spec: Tree, ports: map<string, Port>) {
    var live := Member(Some(spec), "ports");
    && live.Some? && live.value.Node? && live.value.members.Keys == ports.Keys
    && forall n | n in ports ::
         && WithoutNodePort(live.value.members[n]) == WithoutNodePort(PortTree(ports[n]))
         && (ports[n].nodePort != 0 ==> NodePortIn(spec, n) == ports[n].nodePort)
  }

  /** An object is what it should be, whatever else it holds. */
  predicate Meets(desired: Desired, o: Resource) {
    match desired
    case Rules(rules) => o.spec == rules
    case AsBuilt(_) => true
    case ConfigData(data) => o.data == data
    case SecretKeys(keys) => forall k | k in keys :: k in o.data
    case Workload(target) => Covers(o.spec, target)
    case Replicated(target) => CoversExcept(o.spec, target, "volumeClaimTemplates")
    case Claimed(base, size) => CoversExcept(o.spec, base, "resources") && StorageOf(o.spec) >= size
    case Exposed(base, ports) => CoversExcept(o.spec, base, "ports") && PortsMeet(o.spec, ports)
  }

  /** An object the operator can work on: its record is readable, its size is one. */
  predicate Workable(desired: Desired, o: Resource) {
    OriginalOf(o.annotations).Known? && (desired.Claimed? ==> StorageOf(o.spec) >= 0)
  }

  // Mutating establishes it, admission keeps it.

  lemma WithinCovers(d: Tree, m: Tree, t: Target, key: string)
    requires Covers(d, m) && CoversExcept(m, t, key)
    ensures CoversExcept(d, t, key)
  {
    hide Covers;
    CoversMembers(d, m);
    forall k | k in t.members && k != key ensures k in d.members && Covers(d.members[k], t.members[k]) {
      CoversIsTransitive(d.members[k], m.members[k], t.members[k]);
    }
  }

  lemma CoversMembers(d: Tree, t: Tree)
    requires Covers(d, t) && t.Node?
    ensures d.Node? && forall k | k in t.members :: k in d.members && Covers(d.members[k], t.members[k])
  {
  }

  lemma ClaimMeets(d: Tree, base: Target, size: nat, target: nat)
    requires Covers(d, ClaimSpec(base, target)) && target >= size
    ensures CoversExcept(d, base, "resources") && StorageOf(d) == target
  {
    CoveredStorage(d, base, target);
    CoversMembers(d, ClaimSpec(base, target));
  }

  lemma CoversBase(t: Tree, base: Target, ports: map<string, Port>)
    requires CoversExcept(t, ServiceSpec(base, ports), "ports")
    ensures CoversExcept(t, base, "ports")
  {
  }

  lemma MutatedMeets(o: Resource, name: string, desired: Desired, annotations: Annotations, g: Generator)
    requires Workable(desired, o)
    ensures var m := Mutate(o, name, desired, annotations, g);
            m.Some? && Meets(desired, m.value) && Workable(desired, m.value)
  {
    match desired
    case Rules(_) =>
    case AsBuilt(_) =>
    case ConfigData(_) =>
    case SecretKeys(_) =>
    case Workload(target) =>
      S.MergedReadable(o, target, annotations);
      MergedCovers(o, target, annotations);
    case Replicated(target) =>
      S.MergedReadable(o, target, annotations);
      var key := "volumeClaimTemplates";
      var m := MergedExcept(o, target, annotations, key, Member(Some(o.spec), key)).value;
      CoversItself(m.spec);
      MergedCoversExcept(o, target, annotations, key, Member(Some(o.spec), key), m.spec);
    case Claimed(base, size) =>
      S.ClaimMutated(o, name, base, size, annotations, g);
      ClaimMeets(Mutate(o, name, desired, annotations, g).value.spec, base, size, TargetSize(o.spec, size));
    case Exposed(base, ports) => MutatedServiceMeets(o, name, base, ports, annotations, g);
  }

  lemma MutatedServiceMeets(o: Resource, name: string, base: Target, ports: map<string, Port>, annotations: Annotations, g: Generator)
    requires OriginalOf(o.annotations).Known?
    ensures var m := Mutate(o, name, Exposed(base, ports), annotations, g);
            m.Some? && Meets(Exposed(base, ports), m.value) && OriginalOf(m.value.annotations).Known?
  {
    var kept := KeepNodePorts(o.spec, ports);
    S.MergedReadable(o, ServiceSpec(base, kept), annotations);
    S.MutatedPorts(o, name, base, ports, annotations, g);
    var m := Mutate(o, name, Exposed(base, ports), annotations, g).value;
    CoversItself(m.spec);
    MergedCoversExcept(o, ServiceSpec(base, kept), annotations, "ports", Some(PortsTree(kept)), m.spec);
    CoversBase(m.spec, base, kept);
    forall n | n in ports
      ensures WithoutNodePort(PortsTree(kept).members[n]) == WithoutNodePort(PortTree(ports[n]))
              && (ports[n].nodePort != 0 ==> NodePortIn(m.spec, n) == ports[n].nodePort)
    {
      SameButNodePort(kept[n], ports[n]);
      S.PortTreeNodePort(m.spec, kept, n);
    }
  }

  lemma SameButNodePort(p: Port, q: Port)
    requires p.(nodePort := 0) == q.(nodePort := 0)
    ensures WithoutNodePort(PortTree(p)) == WithoutNodePort(PortTree(q))
  {
    assert p.port == q.port && p.targetPort == q.targetPort by {
      assert p.(nodePort := 0).port == p.port && p.(nodePort := 0).targetPort == p.targetPort;
    }
    assert WithoutNodePort(PortTree(p)).members == PortTree(p.(nodePort := 0)).members;
    assert WithoutNodePort(PortTree(q)).members == PortTree(q.(nodePort := 0)).members;
  }

  lemma AdmittedMeets(key: Key, desired: Desired, m: Resource, y: Resource)
    requires FitsKind(key, desired) && Filled(key, m, y) && Meets(desired, m) && Workable(desired, m)
    requires desired.Claimed? ==> desired.size > 0
    ensures Meets(desired, y) && Workable(desired, y)
  {
    match desired
    case Rules(_) =>
    case AsBuilt(_) =>
    case ConfigData(_) =>
    case SecretKeys(_) =>
    case Workload(target) => CoversIsTransitive(y.spec, m.spec, target);
    case Replicated(target) => WithinCovers(y.spec, m.spec, target, "volumeClaimTemplates");
    case Claimed(base, size) =>
      WithinCovers(y.spec, m.spec, base, "resources");
      StorageCovered(y.spec, m.spec);
    case Exposed(base, ports) =>
      WithinCovers(y.spec, m.spec, base, "ports");
      forall n | n in ports && ports[n].nodePort != 0 ensures NodePortIn(y.spec, n) == ports[n].nodePort {
        S.CoveredNodePort(y.spec, m.spec, n);
      }
  }

  lemma StorageCovered(d: Tree, t: Tree)
    requires Covers(d, t) && StorageOf(t) != 0
    ensures StorageOf(d) == StorageOf(t)
  {
    CoversMembers(d, t);
    CoversMembers(d.members["resources"], t.members["resources"]);
    CoversMembers(d.members["resources"].members["requests"], t.members["resources"].members["requests"]);
  }

  lemma OwnKeepsWorkable(desired: Desired, o: Resource, owner: Owner, retain: bool)
    ensures Workable(desired, Own(o, owner, retain)) <==> Workable(desired, o)
  {
  }

  lemma BuiltIsWorkable(desired: Desired, annotations: Annotations)
    requires OriginalOf(annotations).Known?
    ensures Workable(desired, Built(desired, annotations))
  {
    if desired.Claimed? {
      CoversItself(ClaimSpec(desired.base, desired.size));
      CoveredStorage(ClaimSpec(desired.base, desired.size), desired.base, desired.size);
    }
  }

  /** One CreateOrUpdate makes the object what it should be, whatever it was before. */
  lemma EnsuredMeets(live: Option<Resource>, key: Key, desired: Desired, annotations: Annotations, owner: Owner, retain: bool,
                     g: Generator, admit: Admission)
    requires OnlyFills(admit) && FitsKind(key, desired) && (desired.Claimed? ==> desired.size > 0)
    requires if live.Some? then Workable(desired, live.value) else OriginalOf(annotations).Known?
    ensures var y := Ensured(live, key, desired, annotations, owner, retain, g, admit);
            y.Some? && Meets(desired, y.value) && Workable(desired, y.value)
  {
    var o := Own(if live.Some? then live.value else Built(desired, annotations), owner, retain);
    var wanted := if live.Some? then annotations else SeenOnCreate(annotations);
    if live.None? {
      BuiltIsWorkable(desired, annotations);
    }
    OwnKeepsWorkable(desired, if live.Some? then live.value else Built(desired, annotations), owner, retain);
    MutatedMeets(o, key.name, desired, wanted, g);
    var m := Mutate(o, key.name, desired, wanted, g).value;
    assert Filled(key, m, admit(key, m));
    AdmittedMeets(key, desired, m, admit(key, m));
  }

  // Over the items of a plan.

  /** An object of a store that the operator can work on, if it is there at all. */
  predicate Begins(id: Id, o: Option<Resource>) {
    o.Some? ==> OriginalOf(o.value.annotations).Known? && (id.Volume? ==> StorageOf(o.value.spec) >= 0)
  }

  predicate Done(t: Turn, id: Id, o: Option<Resource>) {
    o.Some? && Meets(DesiredFor(t, id), o.value) && Workable(DesiredFor(t, id), o.value)
  }

  lemma DesiredHasSize(t: Turn, id: Id)
    ensures DesiredFor(t, id).Claimed? ==> DesiredFor(t, id).size > 0
    ensures DesiredFor(t, id).Claimed? <==> id.Volume?
  {
  }

  lemma StepIsDone(t: Turn, id: Id, annotations: Annotations, o: Option<Resource>)
    requires OnlyFills(t.setup.admit) && Begins(id, o) && (o.None? ==> OriginalOf(annotations).Known?)
    ensures Done(t, id, EnsuredAs(t, id, annotations, o))
  {
    DesiredFits(t, id);
    DesiredHasSize(t, id);
    EnsuredMeets(o, KeyOf(t.cr, id), DesiredFor(t, id), annotations, OwnerOf(t.cr), Retained(t.after, id), t.generate, t.setup.admit);
  }

  lemma DoneBegins(t: Turn, id: Id, o: Option<Resource>)
    requires Done(t, id, o)
    ensures Begins(id, o) && o.Some?
  {
    DesiredHasSize(t, id);
  }

  lemma {:induction false} RunIsDone(t: Turn, id: Id, o: Resource, events: seq<S.Event>)
    requires OnlyFills(t.setup.admit) && PassesFor(t, id, events) && Begins(id, Some(o))
    requires events != [] || Done(t, id, Some(o))
    ensures Done(t, id, Some(S.Run(SettingOf(t, id), o, events)))
    decreases |events|
  {
    hide S.Next, EnsuredAs, Done, Begins;
    if events != [] {
      var prior, e := events[..|events| - 1], events[|events| - 1];
      var before := S.Run(SettingOf(t, id), o, prior);
      assert IsPassFor(t, id, e);
      if prior != [] {
        RunIsDone(t, id, o, prior);
        DoneBegins(t, id, Some(before));
      }
      StepIsDone(t, id, e.annotations, Some(before));
      EnsuredIsEvent(t, id, e.annotations, before);
    }
  }

  lemma KeyPassHasPassword(cr: Cr, g: Generator, n: string, o: Option<Resource>)
    requires n == cr.name + "-clickhouse" && HasPassword(cr.spec) && Begins(SecretOf(n), o)
    ensures var y := KeyPass(cr, g, n, o);
            y.Some? && "password" in y.value.data && OriginalOf(y.value.annotations).Known?
  {
    assert "password" in ["password"];
  }

  lemma SecretIsDone(t: Turn, n: string, o: Option<Resource>)
    requires o.Some? && "password" in o.value.data && OriginalOf(o.value.annotations).Known?
    ensures Done(t, SecretOf(n), o)
  {
  }

  /** After any pass, from any store, every object of the installation exists and is what the validated
      spec makes of it, provided the operator could work on what it found under that name. Secrets of API
      keys hold what the projects refer to. */
  lemma PassFulfils(u: Setup, c: Chance, cr: Cr, w: World, id: Id)
    requires OnlyFills(u.admit) && Orders(c, cr) && NoRecords(cr.spec) && Counted(cr.spec)
    requires if id.SecretOf? then OwnClickhouse(cr.spec) && id.name == cr.name + "-clickhouse" else Belongs(cr, id)
    requires Begins(id, Live(w.store, KeyOf(cr, id)))
    ensures Done(TurnOf(u, c, cr, w.store), id, Live(Pass(u, c, cr, w).store, KeyOf(cr, id)))
  {
    hide Done, Begins, Pass, Orders, KeyOf, Belongs;
    var t := TurnOf(u, c, cr, w.store);
    if id.SecretOf? {
      PassOnSecret(u, c, cr, w, id.name);
      KeyPassHasPassword(cr, c.generate, id.name, Live(w.store, KeyOf(cr, id)));
      SecretIsDone(t, id.name, Live(Pass(u, c, cr, w).store, KeyOf(cr, id)));
    } else {
      PassFulfilsOthers(u, c, cr, w, id);
    }
  }

  lemma StoryIsDone(t: Turn, id: Id, before: Option<Resource>, after: Option<Resource>, annotations: Annotations, events: seq<S.Event>)
    requires OnlyFills(t.setup.admit) && Story(t, id, before, after, annotations, events) && Begins(id, before)
    ensures Done(t, id, after)
  {
    hide Done, Begins, EnsuredAs;
    if before.Some? {
      RunIsDone(t, id, before.value, events);
    } else {
      var created := EnsuredAs(t, id, annotations, None);
      StepIsDone(t, id, annotations, None);
      DoneBegins(t, id, created);
      RunIsDone(t, id, created.value, events);
    }
  }

  lemma PassFulfilsOthers(u: Setup, c: Chance, cr: Cr, w: World, id: Id)
    requires OnlyFills(u.admit) && Orders(c, cr) && NoRecords(cr.spec) && Counted(cr.spec) && !id.SecretOf?
    requires Belongs(cr, id) && Begins(id, Live(w.store, KeyOf(cr, id)))
    ensures Done(TurnOf(u, c, cr, w.store), id, Live(Pass(u, c, cr, w).store, KeyOf(cr, id)))
  {
    hide Done, Begins, Pass, TurnOf, Orders, KeyOf, Belongs, Story;
    TurnFacts(u, c, cr, w.store);
    var annotations, events := PassStory(u, c, cr, w, id);
    StoryIsDone(TurnOf(u, c, cr, w.store), id, Live(w.store, KeyOf(cr, id)), Live(Pass(u, c, cr, w).store, KeyOf(cr, id)),
                annotations, events);
  }
}
