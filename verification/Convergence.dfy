/** Convergence: with the resource and the outside world unchanged, the third pass of Reconcile leaves
    the store exactly as the second did, and so does every later one. */
module Convergence {
  import opened Trees
  import opened Naming
  import opened Spec
  import opened Validate
  import opened Objects
  import opened Inventory
  import opened Reconcile
  import opened SecretsInPass
  import opened Settling
  import opened Passes
  import N = Normalised

  // Validation resolves the same from the second pass on.

  predicate Present(secrets: Secrets, wanted: map<string, seq<string>>) {
    forall n | n in wanted :: n in secrets && forall k | k in wanted[n] :: k in secrets[n]
  }

  lemma KeyPassPresent(cr: Cr, g: Generator, n: string, o: Option<Resource>)
    ensures var wanted := N.WantProjects(map[], cr.spec.projects);
            n in wanted ==> KeyPass(cr, g, n, o).Some? && forall k | k in wanted[n] :: k in KeyPass(cr, g, n, o).value.data
  {
  }

  lemma WantedArePresent(u: Setup, c: Chance, cr: Cr, w: World)
    requires OnlyFills(u.admit) && Orders(c, cr) && NoRecords(cr.spec) && Counted(cr.spec)
    ensures Present(SecretsOf(cr, Pass(u, c, cr, w).store), N.WantProjects(map[], cr.spec.projects))
  {
    var wanted := N.WantProjects(map[], cr.spec.projects);
    var store := Pass(u, c, cr, w).store;
    forall n | n in wanted ensures n in SecretsOf(cr, store) && forall k | k in wanted[n] :: k in SecretsOf(cr, store)[n] {
      PassOnSecret(u, c, cr, w, n);
      KeyPassPresent(cr, c.generate, n, Live(w.store, SecretKey(cr, n)));
      SecretsOfAt(cr, store, n);
    }
  }

  function ContextOf(u: Setup, cr: Cr, secrets: Secrets): Context { Context(secrets, u.crc, u.samlValid) }

  /** What a pass validates to, once the secrets it wants are there. */
  lemma TurnFromSecrets(u: Setup, c: Chance, cr: Cr, store: Store, g: Generator)
    requires OnlyFills(u.admit) && Orders(c, cr)
    requires Present(SecretsOf(cr, store), N.WantProjects(map[], cr.spec.projects))
    ensures var (after, log) := Normalise(ContextOf(u, cr, SecretsOf(cr, store)), cr.spec, g);
            TurnOf(u, c, cr, store) == Turn(u, cr, after, log.envs, c.generate)
  {
    hide Validation, Normalise, SecretsOf, Orders;
    ValidationIs(u, c, cr, store);
    GeneratorIdle(ContextOf(u, cr, SecretsOf(cr, store)), cr.spec, c.generate, g);
  }

  lemma GeneratorIdle(ctx: Context, spec: TelemetrySpec, g: Generator, g': Generator)
    requires Present(ctx.secrets, N.WantProjects(map[], spec.projects))
    ensures Normalise(ctx, spec, g) == Normalise(ctx, spec, g')
  {
    N.WantedDependsOnSpecOnly(ctx, spec, g);
    NormaliseInTwo(ctx, spec, g);
    NormaliseInTwo(ctx, spec, g');
    AllPresent(ctx.secrets, N.WantProjects(map[], spec.projects), g);
    AllPresent(ctx.secrets, N.WantProjects(map[], spec.projects), g');
  }

  lemma SecretsStayTheSame(u: Setup, c1: Chance, c2: Chance, cr: Cr, w: World)
    requires OnlyFills(u.admit) && Orders(c1, cr) && Orders(c2, cr) && NoRecords(cr.spec) && Counted(cr.spec)
    ensures var w1 := Pass(u, c1, cr, w);
            SecretsOf(cr, Pass(u, c2, cr, w1).store) == SecretsOf(cr, w1.store)
  {
    var w1 := Pass(u, c1, cr, w);
    forall n: string ensures Live(Pass(u, c2, cr, w1).store, SecretKey(cr, n)) == Live(w1.store, SecretKey(cr, n)) {
      SecretsSettle(u, c1, c2, cr, w, SecretKey(cr, n));
    }
    SameSecrets(cr, Pass(u, c2, cr, w1).store, w1.store);
  }

  /** The third pass validates to what the second did. */
  lemma SameTurn(u: Setup, c1: Chance, c2: Chance, c3: Chance, cr: Cr, w: World)
    requires OnlyFills(u.admit) && Orders(c1, cr) && Orders(c2, cr) && Orders(c3, cr) && NoRecords(cr.spec) && Counted(cr.spec)
    ensures var w1 := Pass(u, c1, cr, w);
            TurnOf(u, c3, cr, Pass(u, c2, cr, w1).store) == TurnOf(u, c2, cr, w1.store).(generate := c3.generate)
  {
    var w1 := Pass(u, c1, cr, w);
    WantedArePresent(u, c1, cr, w);
    SecretsStayTheSame(u, c1, c2, cr, w);
    TurnFromSecrets(u, c2, cr, w1.store, c2.generate);
    TurnFromSecrets(u, c3, cr, Pass(u, c2, cr, w1).store, c2.generate);
  }

  // Everything else.

  lemma ReadyAcross(t: Turn, t': Turn, id: Id, o: Option<Resource>)
    requires t.setup == t'.setup && t.cr == t'.cr && Ready(t, id, o)
    requires N.SameShape(t.cr.spec, t.after) && N.SameShape(t.cr.spec, t'.after)
    ensures Ready(t', id, o)
  {
    if KindOf(id).Service? {
      var x, g :| o == Refreshed(t.(generate := g), id, x);
      StepOn(t, g, id, x);
      StepOn(t', g, id, x);
      SameService(t, t', id);
      assert o == Refreshed(t'.(generate := g), id, x);
    }
  }

  /** What is wanted of a service does not hang on what validation could resolve. */
  lemma SameService(t: Turn, t': Turn, id: Id)
    requires t.setup == t'.setup && t.cr == t'.cr && KindOf(id).Service?
    requires N.SameShape(t.cr.spec, t.after) && N.SameShape(t.cr.spec, t'.after)
    ensures DesiredFor(t, id) == DesiredFor(t', id)
    ensures AnnotationsFor(t, id) == AnnotationsFor(t', id) && Retained(t.after, id) == Retained(t'.after, id)
  {
  }

  lemma EnsuredInPlan(name: string, spec: TelemetrySpec, d: bool, d': bool, id: Id)
    ensures Ensure(id) in Expand(Plan(name, spec, d)) ==> Ensure(id) in Expand(Plan(name, spec, d'))
  {
    hide AgentItems, TelemetryItems, RouteItems, PrometheusItems, ClickhouseItems;
    if spec.agentsOnly.None? {
      var front := AgentItems() + TelemetryItems(spec);
      var rest := RouteItems(spec) + PrometheusItems(spec) + ClickhouseItems(name, spec);
      PlanInThree(name, spec, d, front, rest);
      PlanInThree(name, spec, d', front, rest);
      assert [Remove(OldDeployment)][..0] == [];
      assert Expand([Remove(OldDeployment)]) == [Remove(OldDeployment)];
    }
  }

  lemma PlanInThree(name: string, spec: TelemetrySpec, d: bool, front: seq<Item>, rest: seq<Item>)
    requires spec.agentsOnly.None? && front == AgentItems() + TelemetryItems(spec)
    requires rest == RouteItems(spec) + PrometheusItems(spec) + ClickhouseItems(name, spec)
    ensures Expand(Plan(name, spec, d)) == Expand(front) + Expand(OldDeploymentItems(d)) + Expand(rest)
  {
    hide Expand, AgentItems, TelemetryItems, OldDeploymentItems, RouteItems, PrometheusItems, ClickhouseItems;
    assert Plan(name, spec, d) == front + OldDeploymentItems(d) + rest;
    ExpandAppend(front + OldDeploymentItems(d), rest);
    ExpandAppend(front, OldDeploymentItems(d));
  }

  lemma {:induction false} ExpandedFrom(items: seq<Item>, item: Item) returns (i: nat)
    requires item in Expand(items)
    ensures i < |items| && item in Singles(items[i])
    decreases |items|
  {
    var front, last := items[..|items| - 1], items[|items| - 1];
    if item in Singles(last) {
      i := |items| - 1;
    } else {
      i := ExpandedFrom(front, item);
    }
  }

  lemma WantedIsSound(cr: Cr, deleted: bool)
    ensures AllSound(cr.name, Capped(cr.spec), deleted, Wanted(cr, deleted))
  {
    PlanIsSound(cr.name, Capped(cr.spec), deleted);
    SmallItemsSound(cr.name, Capped(cr.spec), deleted);
    SoundAppend(cr.name, Capped(cr.spec), deleted, RoleItems(), Plan(cr.name, Capped(cr.spec), deleted));
  }

  lemma EnsuredIsSound(cr: Cr, deleted: bool, id: Id)
    requires Ensure(id) in Expand(Wanted(cr, deleted))
    ensures !id.OldDeployment? && (id.Route? ==> cr.spec.ingress.Some?)
  {
    WantedIsSound(cr, deleted);
    var i := ExpandedFrom(Wanted(cr, deleted), Ensure(id));
    SinglesHave(Wanted(cr, deleted)[i], id);
    assert Sound(cr.name, Capped(cr.spec), deleted, Wanted(cr, deleted)[i]);
  }

  lemma RemovedIsSound(cr: Cr, deleted: bool, id: Id)
    ensures Remove(id) in Wanted(cr, deleted) ==> (id.OldDeployment? && !deleted) || (id.Route? && cr.spec.ingress.None?)
  {
    WantedIsSound(cr, deleted);
    var items := Wanted(cr, deleted);
    if Remove(id) in items {
      var i :| 0 <= i < |items| && items[i] == Remove(id);
      assert Sound(cr.name, Capped(cr.spec), deleted, items[i]);
    }
  }

  lemma EnsuredNotRemoved(cr: Cr, d: bool, d': bool, id: Id)
    requires Ensure(id) in Expand(Wanted(cr, d))
    ensures Remove(id) !in Wanted(cr, d') && Remove(id) !in Expand(Wanted(cr, d'))
  {
    EnsuredIsSound(cr, d, id);
    ExpandKeepsRemoves(Wanted(cr, d'), id);
    if Remove(id) in Wanted(cr, d') {
      RemovedIsSound(cr, d', id);
    }
  }

  lemma EnsuredBefore(cr: Cr, d: bool, d': bool, id: Id)
    ensures Ensure(id) in Expand(Wanted(cr, d)) ==>
              Ensure(id) in Expand(Wanted(cr, d')) && Remove(id) !in Wanted(cr, d') && Remove(id) !in Expand(Wanted(cr, d'))
  {
    if Ensure(id) in Expand(Wanted(cr, d)) {
      var spec := Capped(cr.spec);
      EnsuredInPlan(cr.name, spec, d, d', id);
      ExpandAppend(RoleItems(), Plan(cr.name, spec, d));
      ExpandAppend(RoleItems(), Plan(cr.name, spec, d'));
      EnsuredNotRemoved(cr, d, d', id);
    }
  }

  lemma ReadyAfterFirst(u: Setup, c1: Chance, c2: Chance, cr: Cr, w: World, d: bool, id: Id)
    requires OnlyFills(u.admit) && Orders(c1, cr) && Orders(c2, cr) && NoRecords(cr.spec) && Counted(cr.spec)
    requires Ensure(id) in Expand(Wanted(cr, d))
    ensures var w1 := Pass(u, c1, cr, w);
            Ready(TurnOf(u, c2, cr, w1.store), id, Live(w1.store, KeyOf(cr, id)))
  {
    var w1 := Pass(u, c1, cr, w);
    TurnFacts(u, c1, cr, w.store);
    TurnFacts(u, c2, cr, w1.store);
    EnsuredBefore(cr, d, w.deploymentDeleted, id);
    PassMakesReady(u, c1, cr, w, id);
    ReadyAcross(TurnOf(u, c1, cr, w.store), TurnOf(u, c2, cr, w1.store), id, Live(w1.store, KeyOf(cr, id)));
  }

  lemma ClaimsLiveAfterFirst(u: Setup, c1: Chance, c2: Chance, cr: Cr, w: World, d: bool)
    requires OnlyFills(u.admit) && Orders(c1, cr) && Orders(c2, cr) && NoRecords(cr.spec) && Counted(cr.spec)
    ensures var w1 := Pass(u, c1, cr, w);
            ClaimsLive(cr, Wanted(cr, d), w1.store)
  {
    var w1 := Pass(u, c1, cr, w);
    forall claim: ClaimId | Ensure(Volume(claim)) in Expand(Wanted(cr, d))
      ensures Live(w1.store, KeyOf(cr, Volume(claim))).Some?
    {
      ReadyAfterFirst(u, c1, c2, cr, w, d, Volume(claim));
    }
  }

  lemma StillAfterSecond(u: Setup, c1: Chance, c2: Chance, cr: Cr, w: World, key: Key)
    requires OnlyFills(u.admit) && Orders(c1, cr) && Orders(c2, cr) && NoRecords(cr.spec) && Counted(cr.spec)
    requires !key.kind.Secret?
    ensures var w1 := Pass(u, c1, cr, w);
            var t := TurnOf(u, c2, cr, w1.store);
            Still(t, Expand(Wanted(cr, w1.deploymentDeleted)), key, Live(Pass(u, c2, cr, w1).store, key))
  {
    hide Pass, TurnOf, DoAll, Expand, KeyOf, Ready, Settled, Orders, NoRecords;
    var w1 := Pass(u, c1, cr, w);
    var t := TurnOf(u, c2, cr, w1.store);
    var items := Wanted(cr, w1.deploymentDeleted);
    var flat := Expand(items);
    TurnFacts(u, c2, cr, w1.store);
    ClaimsLiveAfterFirst(u, c1, c2, cr, w, w1.deploymentDeleted);
    PassIsFlat(u, c2, cr, w1, key);
    ExpandIsFlat(items);
    forall i | 0 <= i < |flat| && KeyOf(cr, flat[i].id) == key
      ensures if flat[i].Ensure? then Settled(t, flat[i].id, Live(DoAll(t, flat, w1.store), key))
              else Live(DoAll(t, flat, w1.store), key).None?
    {
      var id := flat[i].id;
      assert flat[i] in flat;
      if flat[i].Ensure? {
        ReadyAfterFirst(u, c1, c2, cr, w, w1.deploymentDeleted, id);
        EnsuredNotRemoved(cr, w1.deploymentDeleted, w1.deploymentDeleted, id);
        BecomesSettled(t, flat, w1.store, id);
      } else {
        RemovedNotEnsured(cr, w1.deploymentDeleted, id);
        BecomesAbsent(t, flat, w1.store, id);
      }
    }
  }

  /** Settled for one pass, settled for the next: only the random strings differ. */
  lemma StillForNext(t: Turn, g: Generator, items: seq<Item>, key: Key, o: Option<Resource>)
    requires Flat(items) && Still(t, items, key, o)
    ensures Still(t.(generate := g), items, key, o)
  {
    var t' := t.(generate := g);
    forall i | 0 <= i < |items| && KeyOf(t.cr, items[i].id) == key && items[i].Ensure?
      ensures Settled(t', items[i].id, o)
    {
      assert Settled(t, items[i].id, o);
      forall h: Generator ensures Refreshed(t'.(generate := h), items[i].id, o) == o {
        assert t'.(generate := h) == t.(generate := h);
      }
    }
  }

  lemma DeletedOnce(u: Setup, c1: Chance, c2: Chance, cr: Cr, w: World)
    requires OnlyFills(u.admit) && Orders(c1, cr) && Orders(c2, cr) && NoRecords(cr.spec) && Counted(cr.spec)
    ensures Pass(u, c2, cr, Pass(u, c1, cr, w)).deploymentDeleted == Pass(u, c1, cr, w).deploymentDeleted
  {
    TurnFacts(u, c1, cr, w.store);
    TurnFacts(u, c2, cr, Pass(u, c1, cr, w).store);
  }

  lemma ThirdPassAt(u: Setup, c1: Chance, c2: Chance, c3: Chance, cr: Cr, w: World, key: Key)
    requires OnlyFills(u.admit) && Orders(c1, cr) && Orders(c2, cr) && Orders(c3, cr) && NoRecords(cr.spec) && Counted(cr.spec)
    requires !key.kind.Secret?
    ensures var w2 := Pass(u, c2, cr, Pass(u, c1, cr, w));
            Live(Pass(u, c3, cr, w2).store, key) == Live(w2.store, key)
  {
    var w1 := Pass(u, c1, cr, w);
    var w2 := Pass(u, c2, cr, w1);
    var t := TurnOf(u, c2, cr, w1.store);
    var items := Wanted(cr, w1.deploymentDeleted);
    DeletedOnce(u, c1, c2, cr, w);
    SameTurn(u, c1, c2, c3, cr, w);
    TurnFacts(u, c2, cr, w1.store);
    ExpandIsFlat(items);
    ClaimsLiveAfterFirst(u, c2, c3, cr, w1, w2.deploymentDeleted);
    PassIsFlat(u, c3, cr, w2, key);
    StillAfterSecond(u, c1, c2, cr, w, key);
    StillForNext(t, c3.generate, Expand(items), key, Live(w2.store, key));
    NothingToDo(t.(generate := c3.generate), Expand(items), w2.store, key);
  }

  lemma SameStores(a: Store, b: Store)
    requires forall k: Key :: Live(a, k) == Live(b, k)
    ensures a == b
  {
    forall k: Key ensures (k in a <==> k in b) && (k in a ==> a[k] == b[k]) {
      assert Live(a, k) == Live(b, k);
    }
    assert a.Keys == b.Keys;
  }

  /** From any store whatever, the third pass leaves everything as the second left it: every object of
      every kind, secrets included. */
  lemma ThirdPassChangesNothing(u: Setup, c1: Chance, c2: Chance, c3: Chance, cr: Cr, w: World)
    requires OnlyFills(u.admit) && Orders(c1, cr) && Orders(c2, cr) && Orders(c3, cr) && NoRecords(cr.spec) && Counted(cr.spec)
    ensures var w2 := Pass(u, c2, cr, Pass(u, c1, cr, w));
            Pass(u, c3, cr, w2) == w2
  {
    var w1 := Pass(u, c1, cr, w);
    var w2 := Pass(u, c2, cr, w1);
    forall key: Key ensures Live(Pass(u, c3, cr, w2).store, key) == Live(w2.store, key) {
      if key.kind.Secret? {
        SecretsSettle(u, c2, c3, cr, w1, key);
      } else {
        ThirdPassAt(u, c1, c2, c3, cr, w, key);
      }
    }
    SameStores(Pass(u, c3, cr, w2).store, w2.store);
    DeletedOnce(u, c2, c3, cr, w1);
  }

  lemma RemovedNotEnsured(cr: Cr, d: bool, id: Id)
    requires Remove(id) in Expand(Wanted(cr, d))
    ensures Ensure(id) !in Expand(Wanted(cr, d))
  {
    if Ensure(id) in Expand(Wanted(cr, d)) {
      EnsuredNotRemoved(cr, d, d, id);
    }
  }

  predicate AllOrder(chances: seq<Chance>, cr: Cr) { forall i | 0 <= i < |chances| :: Orders(chances[i], cr) }

  lemma TailOrders(chances: seq<Chance>, cr: Cr)
    requires chances != [] && AllOrder(chances, cr)
    ensures Orders(chances[0], cr) && AllOrder(chances[1..], cr)
  {
    hide Orders;
  }

  /** Passes in a row, each with its own random strings and map order. */
  function Run(u: Setup, chances: seq<Chance>, cr: Cr, w: World): World
    requires Counted(cr.spec) && AllOrder(chances, cr)
    decreases |chances|
  {
    if chances == [] then w
    else
      TailOrders(chances, cr);
      Run(u, chances[1..], cr, Pass(u, chances[0], cr, w))
  }

  ghost predicate IsFixpoint(u: Setup, cr: Cr, w: World)
    requires Counted(cr.spec)
  {
    forall c: Chance :: Orders(c, cr) ==> Pass(u, c, cr, w) == w
  }

  lemma {:induction false} FixpointStays(u: Setup, chances: seq<Chance>, cr: Cr, w: World)
    requires Counted(cr.spec) && AllOrder(chances, cr) && IsFixpoint(u, cr, w)
    ensures Run(u, chances, cr, w) == w
    decreases |chances|
  {
    if chances != [] {
      assert Pass(u, chances[0], cr, w) == w;
      FixpointStays(u, chances[1..], cr, w);
    }
  }

  /** Whatever was there before, two passes reach a state that no further pass changes. */
  lemma TwoPassesReachAFixpoint(u: Setup, c1: Chance, c2: Chance, cr: Cr, w: World)
    requires OnlyFills(u.admit) && NoRecords(cr.spec) && Counted(cr.spec)
    requires Orders(c1, cr) && Orders(c2, cr)
    ensures IsFixpoint(u, cr, Pass(u, c2, cr, Pass(u, c1, cr, w)))
  {
    forall c: Chance | Orders(c, cr)
      ensures Pass(u, c, cr, Pass(u, c2, cr, Pass(u, c1, cr, w))) == Pass(u, c2, cr, Pass(u, c1, cr, w))
    {
      ThirdPassChangesNothing(u, c1, c2, c, cr, w);
    }
  }

  /** However many passes there are, two are enough. */
  lemma ConvergesInTwoPasses(u: Setup, chances: seq<Chance>, cr: Cr, w: World)
    requires OnlyFills(u.admit) && NoRecords(cr.spec) && Counted(cr.spec)
    requires |chances| >= 2 && AllOrder(chances, cr)
    ensures Run(u, chances, cr, w) == Pass(u, chances[1], cr, Pass(u, chances[0], cr, w))
  {
    hide Pass, Orders;
    var w1 := Pass(u, chances[0], cr, w);
    assert Run(u, chances, cr, w) == Run(u, chances[1..], cr, w1);
    assert Run(u, chances[1..], cr, w1) == Run(u, chances[1..][1..], cr, Pass(u, chances[1], cr, w1));
    TwoPassesReachAFixpoint(u, chances[0], chances[1], cr, w);
    FixpointStays(u, chances[1..][1..], cr, Pass(u, chances[1], cr, w1));
  }
}
