/** Who controls the objects of an installation, and so what goes away with the resource. */
module Ownership {
  import opened Trees
  import opened LastApplied
  import opened Spec
  import opened Validate
  import opened Objects
  import opened Inventory
  import opened Reconcile
  import opened Passes
  import opened Installation
  import opened StoreRuns
  import opened Fulfilment
  import N = Normalised
  import S = Stability

  /** The controller of an object once the operator has written it: somebody else's stays; otherwise it is
      the resource, or nobody if the object is to outlive it. */
  function ControllerAfter(owner: Owner, before: Option<Owner>, kept: bool): Option<Owner> {
    if before.Some? && (before.value.kind != owner.kind || before.value.name != owner.name) then before
    else if kept then None
    else Some(owner)
  }

  function ControllerOf(o: Option<Resource>): Option<Owner> { if o.None? then None else o.value.controller }

  lemma MutateKeepsController(o: Resource, name: string, desired: Desired, annotations: Annotations, g: Generator)
    ensures var m := Mutate(o, name, desired, annotations, g); m.Some? ==> m.value.controller == o.controller
  {
  }

  /** One CreateOrUpdate: with retain the resource's own reference is taken off, without it is put on. */
  lemma EnsuredControls(live: Option<Resource>, key: Key, desired: Desired, annotations: Annotations, owner: Owner, retain: bool,
                        g: Generator, admit: Admission)
    requires OnlyFills(admit) && (live.Some? ==> Workable(desired, live.value))
    ensures var y := Ensured(live, key, desired, annotations, owner, retain, g, admit);
            y.Some? ==> y.value.controller == ControllerAfter(owner, ControllerOf(live), retain)
  {
    var start := if live.Some? then live.value else Built(desired, annotations);
    var o := Own(start, owner, retain);
    var wanted := if live.Some? then annotations else SeenOnCreate(annotations);
    MutateKeepsController(o, key.name, desired, wanted, g);
    if live.Some? {
      OwnKeepsWorkable(desired, live.value, owner, retain);
      MutatedMeets(o, key.name, desired, wanted, g);
    }
    var m := Mutate(o, key.name, desired, wanted, g);
    assert o.controller == ControllerAfter(owner, start.controller, retain);
    if m.Some? {
      assert Filled(key, m.value, admit(key, m.value));
    }
    hide Mutate, Workable, Meets, Built;
  }

  // Over a pass.

  /** What outlives the resource: the cluster-wide role, claims whose policy says so, and the secrets of
      API keys. */
  predicate Outlives(cr: Cr, id: Id) {
    match id
    case AgentRole => true
    case AgentRoleBinding => true
    case Volume(Telemetry(_)) => cr.spec.storage.retain
    case Volume(Shard(_, _)) => cr.spec.clickhouse.storage.retain
    case Volume(Keeper(_)) => cr.spec.clickhouse.keeperStorage.retain
    case Volume(Prometheus) => cr.spec.prometheusStorage.retain
    case SecretOf(n) => !(OwnClickhouse(cr.spec) && n == cr.name + "-clickhouse")
    case _ => false
  }

  lemma RetainedIff(cr: Cr, after: TelemetrySpec, id: Id)
    requires N.SameShape(cr.spec, after) && !id.SecretOf?
    ensures Retained(after, id) <==> Outlives(cr, id)
  {
    assert after.clickhouse.(s3 := None).storage == cr.spec.clickhouse.(s3 := None).storage;
    assert after.clickhouse.(s3 := None).keeperStorage == cr.spec.clickhouse.(s3 := None).keeperStorage;
  }

  lemma StepControls(t: Turn, id: Id, annotations: Annotations, o: Option<Resource>)
    requires OnlyFills(t.setup.admit) && Begins(id, o)
    ensures var y := EnsuredAs(t, id, annotations, o);
            y.Some? ==> y.value.controller == ControllerAfter(OwnerOf(t.cr), ControllerOf(o), Retained(t.after, id))
  {
    hide Ensured, ControllerAfter;
    DesiredHasSize(t, id);
    EnsuredControls(o, KeyOf(t.cr, id), DesiredFor(t, id), annotations, OwnerOf(t.cr), Retained(t.after, id), t.generate,
                    t.setup.admit);
  }

  lemma {:induction false} RunControls(t: Turn, id: Id, o: Resource, events: seq<S.Event>)
    requires OnlyFills(t.setup.admit) && PassesFor(t, id, events) && Begins(id, Some(o))
    ensures S.Run(SettingOf(t, id), o, events).controller
            == if events == [] then o.controller else ControllerAfter(OwnerOf(t.cr), o.controller, Retained(t.after, id))
    decreases |events|
  {
    hide S.Next, EnsuredAs, Done, Begins, Retained, DesiredFor;
    if events != [] {
      var prior, e := events[..|events| - 1], events[|events| - 1];
      var before := S.Run(SettingOf(t, id), o, prior);
      assert IsPassFor(t, id, e);
      RunControls(t, id, o, prior);
      if prior != [] {
        RunIsDone(t, id, o, prior);
        DoneBegins(t, id, Some(before));
      }
      StepControls(t, id, e.annotations, Some(before));
      EnsuredIsEvent(t, id, e.annotations, before);
    }
  }

  lemma StoryControls(t: Turn, id: Id, before: Option<Resource>, after: Option<Resource>, annotations: Annotations, events: seq<S.Event>)
    requires OnlyFills(t.setup.admit) && Story(t, id, before, after, annotations, events) && Begins(id, before)
    ensures after.Some?
    ensures after.value.controller == ControllerAfter(OwnerOf(t.cr), ControllerOf(before), Retained(t.after, id))
  {
    hide Done, Begins, EnsuredAs, Retained;
    if before.Some? {
      RunControls(t, id, before.value, events);
    } else {
      var created := EnsuredAs(t, id, annotations, None);
      StepIsDone(t, id, annotations, None);
      DoneBegins(t, id, created);
      StepControls(t, id, annotations, None);
      RunControls(t, id, created.value, events);
    }
  }

  lemma PassControlsOthers(u: Setup, c: Chance, cr: Cr, w: World, id: Id)
    requires OnlyFills(u.admit) && Orders(c, cr) && NoRecords(cr.spec) && Counted(cr.spec) && !id.SecretOf?
    requires Belongs(cr, id) && Begins(id, Live(w.store, KeyOf(cr, id)))
    ensures var before, after := Live(w.store, KeyOf(cr, id)), Live(Pass(u, c, cr, w).store, KeyOf(cr, id));
            after.Some? && after.value.controller == ControllerAfter(OwnerOf(cr), ControllerOf(before), Outlives(cr, id))
  {
    hide Begins, Pass, TurnOf, Orders, KeyOf, Belongs, Story, Retained, Outlives;
    TurnFacts(u, c, cr, w.store);
    RetainedIff(cr, TurnOf(u, c, cr, w.store).after, id);
    var annotations, events := PassStory(u, c, cr, w, id);
    StoryControls(TurnOf(u, c, cr, w.store), id, Live(w.store, KeyOf(cr, id)), Live(Pass(u, c, cr, w).store, KeyOf(cr, id)),
                  annotations, events);
  }

  lemma SecretControls(cr: Cr, g: Generator, n: string, o: Option<Resource>)
    requires Belongs(cr, SecretOf(n))
    ensures var y := KeyPass(cr, g, n, o);
            y.Some? && y.value.controller == ControllerAfter(OwnerOf(cr), ControllerOf(o), Outlives(cr, SecretOf(n)))
  {
    hide KeepsApiKey, N.WantProjects, AddKeys;
    KeepsApiKeyIff(cr.spec, n);
  }

  /** After any pass every object of the installation is controlled as it should be: by the resource, or by
      nobody if it is to outlive it; an object that somebody else controls stays theirs. */
  lemma PassControls(u: Setup, c: Chance, cr: Cr, w: World, id: Id)
    requires OnlyFills(u.admit) && Orders(c, cr) && NoRecords(cr.spec) && Counted(cr.spec)
    requires Belongs(cr, id) && Begins(id, Live(w.store, KeyOf(cr, id)))
    ensures var before, after := Live(w.store, KeyOf(cr, id)), Live(Pass(u, c, cr, w).store, KeyOf(cr, id));
            && after.Some?
            && after.value.controller
               == ControllerAfter(Owner("Telemetry", cr.name, cr.uid), ControllerOf(before), Outlives(cr, id))
  {
    hide Pass, Orders, KeyOf, Belongs, ControllerAfter, Outlives;
    if id.SecretOf? {
      PassOnSecret(u, c, cr, w, id.name);
      SecretControls(cr, c.generate, id.name, Live(w.store, KeyOf(cr, id)));
    } else {
      PassControlsOthers(u, c, cr, w, id);
    }
  }

  /** What is left of a store once Kubernetes has collected what a deleted resource controlled. */
  function Collected(store: Store, uid: string): Store {
    map k | k in store && !(store[k].controller.Some? && store[k].controller.value.uid == uid) :: store[k]
  }

  /** When the resource is deleted after a first pass, of all the pass made there stays what outlives it. */
  lemma DeletionLeaves(u: Setup, c: Chance, cr: Cr, w: World, id: Id)
    requires OnlyFills(u.admit) && Orders(c, cr) && NoRecords(cr.spec) && Counted(cr.spec)
    requires Belongs(cr, id) && KeyOf(cr, id) !in w.store
    ensures KeyOf(cr, id) in Collected(Pass(u, c, cr, w).store, cr.uid) <==> Outlives(cr, id)
  {
    hide Pass, Orders, KeyOf, Belongs, Outlives;
    PassControls(u, c, cr, w, id);
  }
}
