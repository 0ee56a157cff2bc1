/** What happens to one object of the store over runs of whole passes, of whatever version of the
    resource, with anybody's edits between them. */
module StoreRuns {
  import opened Trees
  import opened LastApplied
  import opened Naming
  import opened Objects
  import opened Inventory
  import opened Reconcile
  import opened Settling
  import opened Passes
  import opened Neighbours
  import opened Installation
  import C = Convergence
  import N = Normalised
  import S = Stability

  // A pass, seen from one object, is a few identical events.

  function SettingOf(t: Turn, id: Id): S.Setting {
    S.Setting(KeyOf(t.cr, id), OwnerOf(t.cr), t.generate, t.setup.admit)
  }

  predicate IsPassFor(t: Turn, id: Id, e: S.Event) {
    && e.desired == DesiredFor(t, id) && e.retain == Retained(t.after, id)
    && (!id.Volume? ==> e.annotations == AnnotationsFor(t, id))
  }

  predicate PassesFor(t: Turn, id: Id, events: seq<S.Event>) {
    forall i | 0 <= i < |events| :: IsPassFor(t, id, events[i])
  }

  lemma EnsuredIsEvent(t: Turn, id: Id, annotations: Annotations, o: Resource)
    ensures EnsuredAs(t, id, annotations, Some(o))
            == Some(S.Next(SettingOf(t, id), o, S.Pass(DesiredFor(t, id), annotations, Retained(t.after, id))))
  {
  }

  lemma {:induction false} RunAppend(s: S.Setting, o: Resource, a: seq<S.Event>, b: seq<S.Event>)
    ensures S.Run(s, o, a + b) == S.Run(s, S.Run(s, o, a), b)
    decreases |b|
  {
    hide S.Next;
    if b == [] {
      assert a + b == a;
    } else {
      RunAppend(s, o, a, b[..|b| - 1]);
      assert (a + b)[..|a + b| - 1] == a + b[..|b| - 1];
    }
  }

  lemma RunOne(s: S.Setting, o: Resource, e: S.Event)
    ensures S.Run(s, o, [e]) == S.Next(s, o, e)
  {
    hide S.Next;
    assert [e][..0] == [];
  }

  /** The object under a key, before and after, with the events between. */
  predicate History(t: Turn, id: Id, before: Option<Resource>, after: Option<Resource>, events: seq<S.Event>) {
    && before.Some? && after.Some?
    && PassesFor(t, id, events)
    && after.value == S.Run(SettingOf(t, id), before.value, events)
  }

  lemma NoHistory(t: Turn, id: Id, o: Option<Resource>)
    requires o.Some?
    ensures History(t, id, o, o, [])
  {
  }

  lemma HistoryOfStep(t: Turn, id: Id, annotations: Annotations, o: Option<Resource>) returns (events: seq<S.Event>)
    requires o.Some? && (!id.Volume? ==> annotations == AnnotationsFor(t, id))
    ensures events != [] && History(t, id, o, EnsuredAs(t, id, annotations, o), events)
  {
    var e := S.Pass(DesiredFor(t, id), annotations, Retained(t.after, id));
    EnsuredIsEvent(t, id, annotations, o.value);
    RunOne(SettingOf(t, id), o.value, e);
    events := [e];
  }

  lemma HistoryTrans(t: Turn, id: Id, a: Option<Resource>, b: Option<Resource>, c: Option<Resource>,
                     e: seq<S.Event>, f: seq<S.Event>)
    requires History(t, id, a, b, e) && History(t, id, b, c, f)
    ensures History(t, id, a, c, e + f)
  {
    RunAppend(SettingOf(t, id), a.value, e, f);
    hide S.Run, IsPassFor;
  }

  lemma {:induction false} LoopHistory(t: Turn, claims: seq<ClaimId>, shared: Option<Annotations>, store: Store, c: ClaimId)
    returns (events: seq<S.Event>)
    requires Live(store, KeyOf(t.cr, Volume(c))).Some?
    ensures History(t, Volume(c), Live(store, KeyOf(t.cr, Volume(c))),
                    Live(DoClaims(t, claims, shared, store), KeyOf(t.cr, Volume(c))), events)
    ensures events != [] <==> c in claims
    decreases |claims|
  {
    hide EnsuredAs, KeyOf, History;
    var key := KeyOf(t.cr, Volume(c));
    if claims == [] {
      events := [];
      NoHistory(t, Volume(c), Live(store, key));
    } else {
      var k := KeyOf(t.cr, Volume(claims[0]));
      var after := Write(store, k, EnsuredAs(t, Volume(claims[0]), OrEmpty(shared), Live(store, k)));
      var first;
      if c == claims[0] {
        first := HistoryOfStep(t, Volume(c), OrEmpty(shared), Live(store, k));
        HistoryIsLive(t, Volume(c), Live(store, k), EnsuredAs(t, Volume(c), OrEmpty(shared), Live(store, k)), first);
      } else {
        first := [];
        if k == key {
          KeysDiffer(t.cr, Volume(claims[0]), Volume(c));
        }
        NoHistory(t, Volume(c), Live(store, key));
      }
      var rest := LoopHistory(t, claims[1..], SharedNext(t, claims[0], shared, Live(store, k)), after, c);
      HistoryTrans(t, Volume(c), Live(store, key), Live(after, key), Live(DoClaims(t, claims, shared, store), key), first, rest);
      events := first + rest;
      assert c in claims <==> c == claims[0] || c in claims[1..];
    }
  }

  lemma HistoryIsLive(t: Turn, id: Id, a: Option<Resource>, b: Option<Resource>, events: seq<S.Event>)
    requires History(t, id, a, b, events)
    ensures a.Some? && b.Some?
  {
  }

  lemma ItemHistory(t: Turn, item: Item, store: Store, id: Id) returns (events: seq<S.Event>)
    requires Live(store, KeyOf(t.cr, id)).Some? && item != Remove(id)
    ensures History(t, id, Live(store, KeyOf(t.cr, id)), Live(Do(t, item, store), KeyOf(t.cr, id)), events)
    ensures events != [] <==> Ensure(id) in Singles(item)
  {
    hide EnsuredAs, KeyOf, History;
    var key := KeyOf(t.cr, id);
    SinglesHave(item, id);
    if !Touches(t.cr, item, key) {
      DoFrame(t, item, store, key);
      NoHistory(t, id, Live(store, key));
      events := [];
    } else {
      match item
      case Ensure(other) =>
        KeysDiffer(t.cr, id, other);
        DoEnsure(t, id, store);
        events := HistoryOfStep(t, id, AnnotationsFor(t, id), Live(store, key));
      case Remove(other) =>
        KeysDiffer(t.cr, id, other);
      case Claims(claims) =>
        var c :| c in claims && key == KeyOf(t.cr, Volume(c));
        KeysDiffer(t.cr, id, Volume(c));
        events := LoopHistory(t, claims, StorageFor(t.after, claims[0]).annotations, store, c);
    }
  }

  lemma {:induction false} ItemsHistory(t: Turn, items: seq<Item>, store: Store, id: Id) returns (events: seq<S.Event>)
    requires Live(store, KeyOf(t.cr, id)).Some? && Remove(id) !in items
    ensures History(t, id, Live(store, KeyOf(t.cr, id)), Live(DoAll(t, items, store), KeyOf(t.cr, id)), events)
    ensures events != [] <==> Ensure(id) in Expand(items)
    decreases |items|
  {
    hide Do, KeyOf, History, Singles;
    var key := KeyOf(t.cr, id);
    if items == [] {
      events := [];
      NoHistory(t, id, Live(store, key));
    } else {
      var front, last := items[..|items| - 1], items[|items| - 1];
      assert items == front + [last];
      var before := DoAll(t, front, store);
      var a := ItemsHistory(t, front, store, id);
      HistoryIsLive(t, id, Live(store, key), Live(before, key), a);
      var b := ItemHistory(t, last, before, id);
      HistoryTrans(t, id, Live(store, key), Live(before, key), Live(DoAll(t, items, store), key), a, b);
      events := a + b;
    }
  }

  lemma NotRemoved(t: Turn, deleted: bool, id: Id)
    requires N.SameShape(t.cr.spec, t.after) && !Removes(t.cr, deleted, KeyOf(t.cr, id))
    ensures Remove(id) !in RoleItems() && Remove(id) !in Plan(t.cr.name, t.after, deleted)
  {
    hide Plan, KeyOf, Removes;
    PlanRemoves(t, deleted, KeyOf(t.cr, id));
  }

  /** A pass is, for each object that is there and that it does not remove, a run of identical events:
      none if the object does not belong to the installation, some if it does. */
  lemma PassHistory(u: Setup, c: Chance, cr: Cr, w: World, id: Id) returns (events: seq<S.Event>)
    requires OnlyFills(u.admit) && Orders(c, cr) && NoRecords(cr.spec) && Counted(cr.spec) && !id.SecretOf?
    requires Live(w.store, KeyOf(cr, id)).Some? && !Removes(cr, w.deploymentDeleted, KeyOf(cr, id))
    ensures History(TurnOf(u, c, cr, w.store), id, Live(w.store, KeyOf(cr, id)), Live(Pass(u, c, cr, w).store, KeyOf(cr, id)), events)
    ensures events != [] <==> Belongs(cr, id)
  {
    hide History, Validation, Expand, DoAll, Plan, Belongs, Removes;
    var t := TurnOf(u, c, cr, w.store);
    TurnFacts(u, c, cr, w.store);
    WantedIff(cr, w.deploymentDeleted, id);
    SplitWanted(cr, t, w.deploymentDeleted, id);
    NotRemoved(t, w.deploymentDeleted, id);
    RolesAlike(StartOf(u, c.generate, cr), t, w.store);
    SecretPhaseFrame(u, c, cr, w.store, KeyOf(cr, id));
    var key, created := KeyOf(cr, id), Validation(u, c, cr, w.store).0;
    var plan := Plan(cr.name, t.after, w.deploymentDeleted);
    var a := ItemsHistory(t, RoleItems(), w.store, id);
    HistoryIsLive(t, id, Live(w.store, key), Live(created, key), a);
    var b := ItemsHistory(t, plan, created, id);
    HistoryTrans(t, id, Live(w.store, key), Live(created, key), Live(Pass(u, c, cr, w).store, key), a, b);
    events := a + b;
  }

  // The pass that creates an object.

  /** An object that is not there is created, once, and then what happens to any live one happens to it. */
  predicate Creation(t: Turn, id: Id, annotations: Annotations, after: Option<Resource>, events: seq<S.Event>) {
    && OriginalOf(annotations).Known? && (!id.Volume? ==> annotations == AnnotationsFor(t, id))
    && History(t, id, EnsuredAs(t, id, annotations, None), after, events)
  }

  lemma CreatedNow(t: Turn, id: Id, annotations: Annotations)
    requires OriginalOf(annotations).Known? && (!id.Volume? ==> annotations == AnnotationsFor(t, id))
    ensures Creation(t, id, annotations, EnsuredAs(t, id, annotations, None), [])
  {
    CreateSucceeds(t, id, annotations);
    hide EnsuredAs;
    NoHistory(t, id, EnsuredAs(t, id, annotations, None));
  }

  lemma CreationGoesOn(t: Turn, id: Id, annotations: Annotations, o: Option<Resource>, after: Option<Resource>,
                       e: seq<S.Event>, f: seq<S.Event>)
    requires Creation(t, id, annotations, o, e) && History(t, id, o, after, f)
    ensures Creation(t, id, annotations, after, e + f)
  {
    hide EnsuredAs, History;
    HistoryTrans(t, id, EnsuredAs(t, id, annotations, None), o, after, e, f);
  }

  lemma CreationIsLive(t: Turn, id: Id, annotations: Annotations, o: Option<Resource>, events: seq<S.Event>)
    requires Creation(t, id, annotations, o, events)
    ensures o.Some?
  {
  }

  lemma {:induction false} LoopCreates(t: Turn, claims: seq<ClaimId>, shared: Option<Annotations>, store: Store, c: ClaimId)
    returns (annotations: Annotations, events: seq<S.Event>)
    requires c in claims && Readable(shared) && Live(store, KeyOf(t.cr, Volume(c))).None?
    ensures Creation(t, Volume(c), annotations, Live(DoClaims(t, claims, shared, store), KeyOf(t.cr, Volume(c))), events)
    decreases |claims|
  {
    hide EnsuredAs, KeyOf, Creation, History;
    var key, k, rest := KeyOf(t.cr, Volume(c)), KeyOf(t.cr, Volume(claims[0])), claims[1..];
    var after := Write(store, k, EnsuredAs(t, Volume(claims[0]), OrEmpty(shared), Live(store, k)));
    var shared' := SharedNext(t, claims[0], shared, Live(store, k));
    if c == claims[0] {
      annotations := OrEmpty(shared);
      CreatedNow(t, Volume(c), annotations);
      CreationIsLive(t, Volume(c), annotations, Live(after, key), []);
      events := LoopHistory(t, rest, shared', after, c);
      CreationGoesOn(t, Volume(c), annotations, Live(after, key), Live(DoClaims(t, rest, shared', after), key), [], events);
      assert [] + events == events;
    } else {
      if k == key {
        KeysDiffer(t.cr, Volume(claims[0]), Volume(c));
      }
      SharedStaysReadable(t, claims[0], shared, Live(store, k));
      assert c in rest;
      annotations, events := LoopCreates(t, rest, shared', after, c);
    }
  }

  lemma ItemCreates(t: Turn, item: Item, store: Store, id: Id) returns (annotations: Annotations, events: seq<S.Event>)
    requires Ensure(id) in Singles(item) && NoRecord(t, id) && Live(store, KeyOf(t.cr, id)).None?
    requires item.Claims? && item.claims != [] ==> Readable(StorageFor(t.after, item.claims[0]).annotations)
    ensures Creation(t, id, annotations, Live(Do(t, item, store), KeyOf(t.cr, id)), events)
  {
    hide EnsuredAs, KeyOf, Creation;
    SinglesHave(item, id);
    match item
    case Ensure(_) =>
      annotations, events := AnnotationsFor(t, id), [];
      CreatedNow(t, id, annotations);
      DoEnsure(t, id, store);
      CreationIsLive(t, id, annotations, EnsuredAs(t, id, annotations, None), []);
    case Claims(claims) =>
      annotations, events := LoopCreates(t, claims, StorageFor(t.after, claims[0]).annotations, store, id.id);
    case _ =>
  }

  lemma {:induction false} ItemsCreate(t: Turn, items: seq<Item>, store: Store, id: Id)
    returns (annotations: Annotations, events: seq<S.Event>)
    requires ReadableItems(t, items) && Remove(id) !in items && NoRecord(t, id)
    requires Ensure(id) in Expand(items) && Live(store, KeyOf(t.cr, id)).None?
    ensures Creation(t, id, annotations, Live(DoAll(t, items, store), KeyOf(t.cr, id)), events)
    decreases |items|
  {
    hide Do, KeyOf, Creation, Singles, NoRecord;
    var key := KeyOf(t.cr, id);
    var front, last := items[..|items| - 1], items[|items| - 1];
    assert items == front + [last];
    var before := DoAll(t, front, store);
    if Ensure(id) in Expand(front) {
      var e, f;
      annotations, e := ItemsCreate(t, front, store, id);
      CreationIsLive(t, id, annotations, Live(before, key), e);
      f := ItemHistory(t, last, before, id);
      CreationGoesOn(t, id, annotations, Live(before, key), Live(DoAll(t, items, store), key), e, f);
      events := e + f;
    } else {
      if Live(before, key).Some? {
        var made := ItemsMakeOnly(t, front, store, key);
        KeysDiffer(t.cr, id, made);
      }
      annotations, events := ItemCreates(t, last, before, id);
    }
  }

  /** A pass creates what it wants and does not find, and from then on does what it does to live objects. */
  lemma PassCreates(u: Setup, c: Chance, cr: Cr, w: World, id: Id) returns (annotations: Annotations, events: seq<S.Event>)
    requires OnlyFills(u.admit) && Orders(c, cr) && NoRecords(cr.spec) && Counted(cr.spec) && !id.SecretOf?
    requires Live(w.store, KeyOf(cr, id)).None? && Belongs(cr, id)
    ensures Creation(TurnOf(u, c, cr, w.store), id, annotations, Live(Pass(u, c, cr, w).store, KeyOf(cr, id)), events)
  {
    hide Creation, Validation, Expand, DoAll, Plan, Belongs, NoRecord;
    SecretPhaseFrame(u, c, cr, w.store, KeyOf(cr, id));
    hide KeyOf;
    var t, key := TurnOf(u, c, cr, w.store), KeyOf(cr, id);
    TurnFacts(u, c, cr, w.store);
    NoRecordFor(t, id);
    PlanFacts(t, w.deploymentDeleted);
    WantedIff(cr, w.deploymentDeleted, id);
    SplitWanted(cr, t, w.deploymentDeleted, id);
    C.EnsuredNotRemoved(cr, w.deploymentDeleted, w.deploymentDeleted, id);
    ItemsAreWanted(t, w.deploymentDeleted);
    RolesAlike(StartOf(u, c.generate, cr), t, w.store);
    var plan, created := Plan(cr.name, t.after, w.deploymentDeleted), Validation(u, c, cr, w.store).0;
    if Makes(RoleItems(), id) {
      var e, f;
      annotations, e := ItemsCreate(t, RoleItems(), w.store, id);
      CreationIsLive(t, id, annotations, Live(created, key), e);
      f := ItemsHistory(t, plan, created, id);
      CreationGoesOn(t, id, annotations, Live(created, key), Live(Pass(u, c, cr, w).store, key), e, f);
      events := e + f;
    } else {
      if Live(created, key).Some? {
        var made := ItemsMakeOnly(t, RoleItems(), w.store, key);
        KeysDiffer(cr, id, made);
      }
      annotations, events := ItemsCreate(t, plan, created, id);
    }
  }

  /** What a pass does to an object of the installation. */
  predicate Story(t: Turn, id: Id, before: Option<Resource>, after: Option<Resource>, annotations: Annotations, events: seq<S.Event>) {
    if before.Some? then events != [] && History(t, id, before, after, events) else Creation(t, id, annotations, after, events)
  }

  lemma PassStory(u: Setup, c: Chance, cr: Cr, w: World, id: Id) returns (annotations: Annotations, events: seq<S.Event>)
    requires OnlyFills(u.admit) && Orders(c, cr) && NoRecords(cr.spec) && Counted(cr.spec) && !id.SecretOf?
    requires Belongs(cr, id)
    ensures Story(TurnOf(u, c, cr, w.store), id, Live(w.store, KeyOf(cr, id)), Live(Pass(u, c, cr, w).store, KeyOf(cr, id)),
                  annotations, events)
  {
    BelongsStays(cr, w.deploymentDeleted, id);
    hide Pass, TurnOf, Orders, KeyOf, Belongs, Removes, Creation, History;
    if Live(w.store, KeyOf(cr, id)).Some? {
      annotations := map[];
      events := PassHistory(u, c, cr, w, id);
    } else {
      annotations, events := PassCreates(u, c, cr, w, id);
    }
  }

  // Objects with an unreadable record.

  predicate Merges(id: Id) {
    var kind := KindOf(id);
    kind.Deployment? || kind.DaemonSet? || kind.StatefulSet? || kind.Service? || kind.Ingress? || kind.PersistentVolumeClaim?
  }

  predicate MergesInto(desired: Desired) {
    desired.Workload? || desired.Replicated? || desired.Claimed? || desired.Exposed?
  }

  lemma {:induction false} UnreadableRunStays(s: S.Setting, o: Resource, events: seq<S.Event>)
    requires OriginalOf(o.annotations).Unreadable?
    requires forall i | 0 <= i < |events| :: MergesInto(events[i].desired)
    ensures S.Run(s, o, events) == o
    decreases |events|
  {
    if events != [] {
      UnreadableRunStays(s, o, events[..|events| - 1]);
    }
  }

  lemma DesiredMerges(t: Turn, id: Id)
    requires Merges(id)
    ensures MergesInto(DesiredFor(t, id))
  {
  }

  /** An object whose record is no JSON object is left alone by every pass, while it is wanted. */
  lemma UnreadableStays(u: Setup, c: Chance, cr: Cr, w: World, id: Id)
    requires OnlyFills(u.admit) && Orders(c, cr) && NoRecords(cr.spec) && Counted(cr.spec)
    requires Merges(id) && !Removes(cr, w.deploymentDeleted, KeyOf(cr, id))
    requires var live := Live(w.store, KeyOf(cr, id)); live.Some? && OriginalOf(live.value.annotations).Unreadable?
    ensures Live(Pass(u, c, cr, w).store, KeyOf(cr, id)) == Live(w.store, KeyOf(cr, id))
  {
    hide Pass, TurnOf, DesiredFor, Removes;
    var t := TurnOf(u, c, cr, w.store);
    var events := PassHistory(u, c, cr, w, id);
    DesiredMerges(t, id);
    forall i | 0 <= i < |events| ensures MergesInto(events[i].desired) {
      assert IsPassFor(t, id, events[i]);
    }
    UnreadableRunStays(SettingOf(t, id), Live(w.store, KeyOf(cr, id)).value, events);
  }

  // Claims.

  /** A claim the operator can work on, or none yet. */
  predicate Usable(o: Option<Resource>) {
    o.Some? ==> OriginalOf(o.value.annotations).Known? && StorageOf(o.value.spec) >= 0
  }

  function Requested(o: Option<Resource>): int { if o.None? then 0 else StorageOf(o.value.spec) }

  /** From before to after: created or grown to the size if that is wanted, otherwise left alone. */
  predicate Grows(before: Option<Resource>, after: Option<Resource>, size: nat, wanted: bool) {
    Usable(before) ==>
      && Usable(after)
      && (after.Some? <==> before.Some? || wanted)
      && Requested(after) == if wanted then S.Larger(Requested(before), size) else Requested(before)
  }

  lemma GrowsTrans(a: Option<Resource>, b: Option<Resource>, c: Option<Resource>, size: nat, now: bool, later: bool)
    requires Grows(a, b, size, now) && Grows(b, c, size, later)
    ensures Grows(a, c, size, now || later)
  {
    hide StorageOf;
  }

  lemma ClaimEnsured(t: Turn, claim: ClaimId, annotations: Annotations, o: Option<Resource>)
    requires OnlyFills(t.setup.admit) && OriginalOf(annotations).Known?
    ensures Grows(o, EnsuredAs(t, Volume(claim), annotations, o), SizeFor(t.after, claim), true)
  {
    hide StorageOf;
    var id, base, size := Volume(claim), ClaimBase(StorageFor(t.after, claim).className), SizeFor(t.after, claim);
    match o
    case None =>
      S.ClaimCreated(KeyOf(t.cr, id), base, size, annotations, OwnerOf(t.cr), Retained(t.after, id), t.generate, t.setup.admit);
    case Some(live) =>
      EnsuredIsEvent(t, id, annotations, live);
      if Usable(o) {
        S.ClaimStep(SettingOf(t, id), live, base, size, annotations, Retained(t.after, id));
      }
  }

  lemma {:induction false} RunGrows(t: Turn, claim: ClaimId, o: Resource, events: seq<S.Event>)
    requires OnlyFills(t.setup.admit) && PassesFor(t, Volume(claim), events)
    ensures Grows(Some(o), Some(S.Run(SettingOf(t, Volume(claim)), o, events)), SizeFor(t.after, claim), events != [])
    decreases |events|
  {
    hide S.Next, StorageOf;
    var s, size := SettingOf(t, Volume(claim)), SizeFor(t.after, claim);
    if events != [] {
      var prior, e := events[..|events| - 1], events[|events| - 1];
      assert IsPassFor(t, Volume(claim), e);
      RunGrows(t, claim, o, prior);
      if Usable(Some(o)) {
        S.ClaimStep(s, S.Run(s, o, prior), ClaimBase(StorageFor(t.after, claim).className), size, e.annotations, e.retain);
      }
    }
  }

  lemma ClaimSizeFor(t: Turn, claim: ClaimId)
    requires N.SameShape(t.cr.spec, t.after)
    ensures SizeFor(t.after, claim) == SizeFor(t.cr.spec, claim)
  {
    assert t.after.clickhouse.(s3 := None).storage == t.cr.spec.clickhouse.(s3 := None).storage;
    assert t.after.clickhouse.(s3 := None).keeperStorage == t.cr.spec.clickhouse.(s3 := None).keeperStorage;
  }

  /** One pass creates a claim it wants with the size wanted, or leaves it at the larger of its own
      request and that. */
  lemma PassOnClaim(u: Setup, c: Chance, cr: Cr, w: World, claim: ClaimId)
    requires OnlyFills(u.admit) && Orders(c, cr) && NoRecords(cr.spec) && Counted(cr.spec)
    ensures var key := KeyOf(cr, Volume(claim));
            Grows(Live(w.store, key), Live(Pass(u, c, cr, w).store, key), SizeFor(cr.spec, claim), ClaimBelongs(cr.spec, claim))
  {
    hide Pass, Orders, TurnOf, EnsuredAs, Grows, SizeFor, ClaimBelongs;
    var t, id, key := TurnOf(u, c, cr, w.store), Volume(claim), KeyOf(cr, Volume(claim));
    TurnFacts(u, c, cr, w.store);
    ClaimSizeFor(t, claim);
    var before, after, size := Live(w.store, key), Live(Pass(u, c, cr, w).store, key), SizeFor(cr.spec, claim);
    if before.Some? {
      var events := PassHistory(u, c, cr, w, id);
      RunGrows(t, claim, before.value, events);
    } else if ClaimBelongs(cr.spec, claim) {
      var annotations, events := PassCreates(u, c, cr, w, id);
      var created := EnsuredAs(t, id, annotations, None);
      ClaimEnsured(t, claim, annotations, None);
      RunGrows(t, claim, created.value, events);
      GrowsTrans(before, created, after, size, true, events != []);
    } else {
      if after.Some? {
        var made := PassMakesOnly(u, c, cr, w, key);
        KeysDiffer(cr, id, made);
      }
      Unmoved(before, size);
    }
  }

  lemma Unmoved(o: Option<Resource>, size: nat)
    ensures Grows(o, o, size, false)
  {
  }

  // Runs.

  /** A pass over some resource, or anybody's edit of the store. */
  datatype Step = Over(c: Chance, cr: Cr) | Edit(store: Store)

  /** Versions of one resource: the spec may change, and so may the uid, on a deletion and a creation. */
  predicate VersionOf(version: Cr, cr: Cr) { version.name == cr.name && version.namespace == cr.namespace }

  predicate Runs(steps: seq<Step>) {
    forall i | 0 <= i < |steps| && steps[i].Over? ::
      Orders(steps[i].c, steps[i].cr) && NoRecords(steps[i].cr.spec) && Counted(steps[i].cr.spec)
  }

  function After(u: Setup, steps: seq<Step>, w: World): World
    requires Runs(steps)
    decreases |steps|
  {
    if steps == [] then w
    else
      var before := After(u, steps[..|steps| - 1], w);
      match steps[|steps| - 1]
      case Over(c, cr) => Pass(u, c, cr, before)
      case Edit(store) => World(store, before.deploymentDeleted)
  }

  lemma SameKeys(a: Cr, b: Cr, id: Id)
    requires VersionOf(a, b)
    ensures KeyOf(a, id) == KeyOf(b, id)
  {
  }

  /** Nobody deletes the claim, shrinks it or touches the operator's record on it, or creates it in a
      state the operator cannot work on. */
  predicate LeavesClaim(u: Setup, cr: Cr, steps: seq<Step>, w: World, claim: ClaimId)
    requires Runs(steps)
    decreases |steps|
  {
    steps == [] ||
    (var (prior, step) := (steps[..|steps| - 1], steps[|steps| - 1]);
     && LeavesClaim(u, cr, prior, w, claim)
     && (step.Edit? ==>
           var (before, edited) := (ClaimIn(cr, After(u, prior, w).store, claim), ClaimIn(cr, step.store, claim));
           if before.None? then Usable(edited)
           else edited.Some? && SameRecord(before.value.annotations, edited.value.annotations)
                && Requested(edited) >= Requested(before)))
  }

  function ClaimIn(cr: Cr, store: Store, claim: ClaimId): Option<Resource> { Live(store, KeyOf(cr, Volume(claim))) }

  predicate WantedIn(step: Step, cr: Cr, claim: ClaimId) {
    step.Over? && VersionOf(step.cr, cr) && ClaimBelongs(step.cr.spec, claim)
  }

  /** The largest request so far: the one at the start, of any pass that wanted the claim, or of any edit. */
  function LargestWanted(cr: Cr, steps: seq<Step>, w: World, claim: ClaimId): int
    decreases |steps|
  {
    if steps == [] then Requested(ClaimIn(cr, w.store, claim))
    else
      var (sofar, step) := (LargestWanted(cr, steps[..|steps| - 1], w, claim), steps[|steps| - 1]);
      if step.Edit? then S.Larger(sofar, Requested(ClaimIn(cr, step.store, claim)))
      else if WantedIn(step, cr, claim) then S.Larger(sofar, SizeFor(step.cr.spec, claim))
      else sofar
  }

  /** In the store, over any run of passes over any resources, with edits between them: a claim requests
      the largest size any pass wanted of it or anybody grew it to, from the pass on that creates it. No
      pass ever shrinks a claim. */
  lemma {:induction false} ClaimsNeverShrink(u: Setup, cr: Cr, steps: seq<Step>, w: World, claim: ClaimId)
    requires OnlyFills(u.admit) && Runs(steps) && LeavesClaim(u, cr, steps, w, claim)
    requires Usable(ClaimIn(cr, w.store, claim))
    ensures var end := ClaimIn(cr, After(u, steps, w).store, claim);
            Usable(end) && Requested(end) == LargestWanted(cr, steps, w, claim)
    decreases |steps|
  {
    hide Pass, ClaimBelongs, KeyOf, SizeFor, StorageOf;
    if steps != [] {
      var prior, step := steps[..|steps| - 1], steps[|steps| - 1];
      ClaimsNeverShrink(u, cr, prior, w, claim);
      if step.Over? {
        StepOnClaim(u, cr, step, After(u, prior, w), claim);
      }
    }
  }

  lemma StepOnClaim(u: Setup, cr: Cr, step: Step, w: World, claim: ClaimId)
    requires OnlyFills(u.admit) && step.Over?
    requires Orders(step.c, step.cr) && NoRecords(step.cr.spec) && Counted(step.cr.spec)
    ensures Grows(ClaimIn(cr, w.store, claim), ClaimIn(cr, Pass(u, step.c, step.cr, w).store, claim), SizeFor(step.cr.spec, claim),
                  WantedIn(step, cr, claim))
  {
    hide Pass, ClaimBelongs, KeyOf, SizeFor;
    if VersionOf(step.cr, cr) {
      SameKeys(step.cr, cr, Volume(claim));
      PassOnClaim(u, step.c, step.cr, w, claim);
    } else {
      PassLeavesOthers(u, step.c, step.cr, w, cr, Volume(claim));
    }
  }

  // Node ports.

  predicate GoodService(o: Option<Resource>, n: string) {
    o.Some? && OriginalOf(o.value.annotations).Known? && NodePortIn(o.value.spec, n) != 0
  }

  lemma {:induction false} ServiceEvents(s: S.Setting, o: Resource, events: seq<S.Event>, base: Target, ports: map<string, Port>, n: string)
    requires OnlyFills(s.admit) && n in ports && GoodService(Some(o), n)
    requires forall i | 0 <= i < |events| :: events[i].desired == Exposed(base, ports)
    ensures var y := S.Run(s, o, events);
            && GoodService(Some(y), n)
            && NodePortIn(y.spec, n) == if events != [] && ports[n].nodePort != 0 then ports[n].nodePort else NodePortIn(o.spec, n)
    decreases |events|
  {
    hide S.Next, NodePortIn;
    if events != [] {
      var prior, e := events[..|events| - 1], events[|events| - 1];
      ServiceEvents(s, o, prior, base, ports, n);
      S.ServiceStep(s, S.Run(s, o, prior), base, ports, e.annotations, e.retain, n);
    }
  }

  /** The ports a version of the resource gives a service; validation only adds default numbers. */
  function PortsWanted(cr: Cr, id: Id): map<string, Port> { PortsFor(cr.spec.(service := N.ServiceThen(cr.spec)), id) }

  function BaseWanted(u: Setup, cr: Cr, id: Id): Target { ServiceBase(u, RequestOf(cr), cr.spec.service, id) }

  lemma ServiceWantedFor(t: Turn, id: Id)
    requires N.SameShape(t.cr.spec, t.after) && KindOf(id).Service?
    ensures DesiredFor(t, id) == Exposed(BaseWanted(t.setup, t.cr, id), PortsWanted(t.cr, id))
  {
  }

  /** One pass sets an explicit node port and keeps any other. */
  lemma PassOnNodePort(u: Setup, c: Chance, cr: Cr, w: World, id: Id, n: string)
    requires OnlyFills(u.admit) && Orders(c, cr) && NoRecords(cr.spec) && Counted(cr.spec)
    requires KindOf(id).Service? && GoodService(Live(w.store, KeyOf(cr, id)), n)
    requires Belongs(cr, id) ==> n in PortsWanted(cr, id)
    ensures var before, after := Live(w.store, KeyOf(cr, id)), Live(Pass(u, c, cr, w).store, KeyOf(cr, id));
            && GoodService(after, n)
            && NodePortIn(after.value.spec, n)
               == if Belongs(cr, id) && PortsWanted(cr, id)[n].nodePort != 0 then PortsWanted(cr, id)[n].nodePort
                  else NodePortIn(before.value.spec, n)
  {
    hide Pass, TurnOf, DesiredFor, Belongs, PortsWanted, NodePortIn;
    var t := TurnOf(u, c, cr, w.store);
    TurnFacts(u, c, cr, w.store);
    var events := PassHistory(u, c, cr, w, id);
    ServiceWantedFor(t, id);
    var o := Live(w.store, KeyOf(cr, id)).value;
    if Belongs(cr, id) {
      forall i | 0 <= i < |events|
        ensures events[i].desired == Exposed(BaseWanted(u, cr, id), PortsWanted(cr, id))
      {
        assert IsPassFor(t, id, events[i]);
      }
      ServiceEvents(SettingOf(t, id), o, events, BaseWanted(u, cr, id), PortsWanted(cr, id), n);
    }
  }

  predicate OffersIn(step: Step, cr: Cr, id: Id) {
    step.Over? && VersionOf(step.cr, cr) && Belongs(step.cr, id)
  }

  /** The port stays in the service, and nobody else touches its node port, the record or the service's
      existence. */
  predicate LeavesPort(u: Setup, cr: Cr, steps: seq<Step>, w: World, id: Id, n: string)
    requires Runs(steps)
    decreases |steps|
  {
    steps == [] ||
    (var (prior, step) := (steps[..|steps| - 1], steps[|steps| - 1]);
     && LeavesPort(u, cr, prior, w, id, n)
     && (OffersIn(step, cr, id) ==> n in PortsWanted(step.cr, id))
     && (step.Edit? ==>
           var (before, edited) := (Live(After(u, prior, w).store, KeyOf(cr, id)), Live(step.store, KeyOf(cr, id)));
           before.Some? ==>
             && edited.Some? && SameRecord(before.value.annotations, edited.value.annotations)
             && NodePortIn(edited.value.spec, n) == NodePortIn(before.value.spec, n)))
  }

  /** The last explicit node port of a run, or the one given. */
  function LastExplicit(cr: Cr, steps: seq<Step>, id: Id, n: string, atStart: int): int
    decreases |steps|
  {
    if steps == [] then atStart
    else
      var (sofar, step) := (LastExplicit(cr, steps[..|steps| - 1], id, n, atStart), steps[|steps| - 1]);
      if OffersIn(step, cr, id) && n in PortsWanted(step.cr, id) && PortsWanted(step.cr, id)[n].nodePort != 0
      then PortsWanted(step.cr, id)[n].nodePort else sofar
  }

  /** In the store, over any run in which the port stays in its service, whatever else changes in it, the
      type of the service included: its node port is the last explicit one, and without any the one the
      API server allocated. */
  lemma {:induction false} NodePortsStay(u: Setup, cr: Cr, steps: seq<Step>, w: World, id: Id, n: string)
    requires OnlyFills(u.admit) && Runs(steps) && KindOf(id).Service? && LeavesPort(u, cr, steps, w, id, n)
    requires GoodService(Live(w.store, KeyOf(cr, id)), n)
    ensures var start, end := Live(w.store, KeyOf(cr, id)), Live(After(u, steps, w).store, KeyOf(cr, id));
            GoodService(end, n) && NodePortIn(end.value.spec, n) == LastExplicit(cr, steps, id, n, NodePortIn(start.value.spec, n))
    decreases |steps|
  {
    hide Pass, Belongs, PortsWanted, KeyOf, NodePortIn;
    if steps != [] {
      var prior, step := steps[..|steps| - 1], steps[|steps| - 1];
      NodePortsStay(u, cr, prior, w, id, n);
      if step.Over? {
        if VersionOf(step.cr, cr) {
          SameKeys(step.cr, cr, id);
          PassOnNodePort(u, step.c, step.cr, After(u, prior, w), id, n);
        } else {
          PassLeavesOthers(u, step.c, step.cr, After(u, prior, w), cr, id);
        }
      }
    }
  }
}
