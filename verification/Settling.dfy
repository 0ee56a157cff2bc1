/** How objects settle under repeated items of a plan. */
module Settling {
  import opened Trees
  import opened LastApplied
  import opened Naming
  import opened Validate
  import opened Objects
  import opened Inventory
  import opened Reconcile
  import S = Stability

  // One object.

  /** Some earlier application of this very step. */
  ghost predicate Applied(t: Turn, id: Id, o: Option<Resource>) {
    exists x: Option<Resource>, g: Generator :: o == Refreshed(t.(generate := g), id, x)
  }

  /** Far enough that one more application settles it: services need two. */
  ghost predicate Ready(t: Turn, id: Id, o: Option<Resource>) {
    o.Some? && (KindOf(id).Service? ==> Applied(t, id, o))
  }

  ghost predicate Settled(t: Turn, id: Id, o: Option<Resource>) {
    o.Some? && forall g: Generator :: Refreshed(t.(generate := g), id, o) == o
  }

  lemma DesiredFits(t: Turn, id: Id)
    ensures FitsKind(KeyOf(t.cr, id), DesiredFor(t, id))
    ensures DesiredFor(t, id).Exposed? <==> KindOf(id).Service?
    ensures forall g: Generator :: DesiredFor(t.(generate := g), id) == DesiredFor(t, id)
  {
  }

  lemma StepOn(t: Turn, g: Generator, id: Id, o: Option<Resource>)
    ensures Refreshed(t.(generate := g), id, o)
            == Ensured(o, KeyOf(t.cr, id), DesiredFor(t, id), AnnotationsFor(t, id), OwnerOf(t.cr), Retained(t.after, id), g, t.setup.admit)
  {
    DesiredFits(t, id);
  }

  lemma OneMoreSettles(t: Turn, id: Id, o: Option<Resource>, g: Generator)
    requires OnlyFills(t.setup.admit) && Ready(t, id, o)
    ensures Refreshed(t, id, o).Some? && Refreshed(t.(generate := g), id, Refreshed(t, id, o)) == Refreshed(t, id, o)
  {
    DesiredFits(t, id);
    StepOn(t, g, id, Refreshed(t, id, o));
    var key, desired := KeyOf(t.cr, id), DesiredFor(t, id);
    var annotations, retain := AnnotationsFor(t, id), Retained(t.after, id);
    if desired.Exposed? {
      var x, first :| o == Refreshed(t.(generate := first), id, x);
      StepOn(t, first, id, x);
      S.ServiceSettles(x, key, desired.base, desired.ports, annotations, OwnerOf(t.cr), retain, first, t.generate, g, t.setup.admit);
    } else {
      EnsuredTwice(o.value, key, desired, annotations, OwnerOf(t.cr), retain, t.generate, g, t.setup.admit);
    }
  }

  lemma StepSettles(t: Turn, id: Id, o: Option<Resource>)
    requires OnlyFills(t.setup.admit) && Ready(t, id, o)
    ensures Settled(t, id, Refreshed(t, id, o))
  {
    forall g: Generator ensures Refreshed(t, id, o).Some? && Refreshed(t.(generate := g), id, Refreshed(t, id, o)) == Refreshed(t, id, o) {
      OneMoreSettles(t, id, o, g);
    }
    OneMoreSettles(t, id, o, t.generate);
  }

  lemma IsApplied(t: Turn, id: Id, x: Option<Resource>)
    ensures Applied(t, id, Refreshed(t, id, x))
  {
    assert t.(generate := t.generate) == t;
  }

  lemma CreateSucceeds(t: Turn, id: Id, annotations: Annotations)
    requires OriginalOf(annotations).Known?
    ensures EnsuredAs(t, id, annotations, None).Some?
  {
    var desired := DesiredFor(t, id);
    var o := Own(Built(desired, annotations), OwnerOf(t.cr), Retained(t.after, id));
    MutateSucceeds(o, KeyOf(t.cr, id).name, desired, SeenOnCreate(annotations), t.generate);
  }

  lemma MutateSucceeds(o: Resource, name: string, desired: Desired, annotations: Annotations, g: Generator)
    requires OriginalOf(o.annotations).Known?
    ensures Mutate(o, name, desired, annotations, g).Some?
  {
    match desired
    case Rules(_) =>
    case AsBuilt(_) =>
    case ConfigData(_) =>
    case SecretKeys(_) =>
    case Workload(target) => S.MergedReadable(o, target, annotations);
    case Replicated(target) => S.MergedReadable(o, target, annotations);
    case Claimed(base, size) => S.MergedReadable(o, ClaimSpec(base, TargetSize(o.spec, size)), annotations);
    case Exposed(base, ports) => S.MergedReadable(o, ServiceSpec(base, KeepNodePorts(o.spec, ports)), annotations);
  }

  /** The operator's own record is not among the annotations a user asks for. */
  predicate NoRecord(t: Turn, id: Id) { LAST_APPLIED !in AnnotationsFor(t, id) }

  lemma StepMakesReady(t: Turn, id: Id, o: Option<Resource>)
    requires NoRecord(t, id)
    ensures Ready(t, id, Refreshed(t, id, o))
  {
    IsApplied(t, id, o);
    if o.None? {
      CreateSucceeds(t, id, AnnotationsFor(t, id));
    }
  }

  lemma StepStaysReady(t: Turn, id: Id, o: Option<Resource>)
    requires Ready(t, id, o)
    ensures Ready(t, id, Refreshed(t, id, o))
  {
    IsApplied(t, id, o);
  }

  // Items.

  predicate Touches(cr: Cr, item: Item, key: Key) {
    match item
    case Ensure(id) => key == KeyOf(cr, id)
    case Remove(id) => key == KeyOf(cr, id)
    case Claims(claims) => exists c | c in claims :: key == KeyOf(cr, Volume(c))
  }

  lemma {:induction false} DoClaimsFrame(t: Turn, claims: seq<ClaimId>, shared: Option<Annotations>, store: Store, key: Key)
    requires forall c | c in claims :: key != KeyOf(t.cr, Volume(c))
    ensures Live(DoClaims(t, claims, shared, store), key) == Live(store, key)
    decreases |claims|
  {
    if claims != [] {
      var k := KeyOf(t.cr, Volume(claims[0]));
      assert claims[0] in claims;
      DoClaimsFrame(t, claims[1..], SharedNext(t, claims[0], shared, Live(store, k)),
                    Write(store, k, EnsuredAs(t, Volume(claims[0]), OrEmpty(shared), Live(store, k))), key);
    }
  }

  lemma DoFrame(t: Turn, item: Item, store: Store, key: Key)
    requires !Touches(t.cr, item, key)
    ensures Live(Do(t, item, store), key) == Live(store, key)
  {
    match item
    case Claims(claims) =>
      if claims != [] {
        DoClaimsFrame(t, claims, StorageFor(t.after, claims[0]).annotations, store, key);
      }
    case _ =>
  }

  lemma {:induction false} DoAllFrame(t: Turn, items: seq<Item>, store: Store, key: Key)
    requires forall i | 0 <= i < |items| :: !Touches(t.cr, items[i], key)
    ensures Live(DoAll(t, items, store), key) == Live(store, key)
    decreases |items|
  {
    hide Do, Touches;
    if items != [] {
      DoAllFrame(t, items[..|items| - 1], store, key);
      DoFrame(t, items[|items| - 1], DoAll(t, items[..|items| - 1], store), key);
    }
  }

  predicate Readable(shared: Option<Annotations>) { shared.Some? ==> OriginalOf(shared.value).Known? }

  lemma SharedStaysReadable(t: Turn, claim: ClaimId, shared: Option<Annotations>, live: Option<Resource>)
    requires Readable(shared)
    ensures Readable(SharedNext(t, claim, shared, live))
  {
  }

  /** A loop over claims leaves them all in the store, and takes none away. */
  lemma {:induction false} DoClaimsMakesLive(t: Turn, claims: seq<ClaimId>, shared: Option<Annotations>, store: Store, c: ClaimId)
    requires Readable(shared)
    requires c in claims || Live(store, KeyOf(t.cr, Volume(c))).Some?
    ensures Live(DoClaims(t, claims, shared, store), KeyOf(t.cr, Volume(c))).Some?
    decreases |claims|
  {
    if claims != [] {
      var k := KeyOf(t.cr, Volume(claims[0]));
      var after := Write(store, k, EnsuredAs(t, Volume(claims[0]), OrEmpty(shared), Live(store, k)));
      if Live(store, k).None? {
        CreateSucceeds(t, Volume(claims[0]), OrEmpty(shared));
      }
      assert Live(after, k).Some?;
      SharedStaysReadable(t, claims[0], shared, Live(store, k));
      assert c in claims ==> c == claims[0] || c in claims[1..];
      DoClaimsMakesLive(t, claims[1..], SharedNext(t, claims[0], shared, Live(store, k)), after, c);
    }
  }

  /** The items, with every loop over claims written out. */
  function Singles(item: Item): seq<Item> {
    match item
    case Claims(claims) => seq(|claims|, i requires 0 <= i < |claims| => Ensure(Volume(claims[i])))
    case _ => [item]
  }

  function Expand(items: seq<Item>): seq<Item>
    decreases |items|
  {
    if items == [] then [] else Expand(items[..|items| - 1]) + Singles(items[|items| - 1])
  }

  predicate Flat(items: seq<Item>) { forall i | 0 <= i < |items| :: !items[i].Claims? }

  lemma {:induction false} ExpandIsFlat(items: seq<Item>)
    ensures Flat(Expand(items))
    decreases |items|
  {
    if items != [] {
      ExpandIsFlat(items[..|items| - 1]);
    }
  }

  lemma SinglesHave(item: Item, id: Id)
    ensures Ensure(id) in Singles(item) <==> item == Ensure(id) || (item.Claims? && id.Volume? && id.id in item.claims)
    ensures Remove(id) in Singles(item) <==> item == Remove(id)
  {
    if item.Claims? {
      forall i | 0 <= i < |item.claims| ensures item.claims[i] in item.claims && Singles(item)[i] == Ensure(Volume(item.claims[i])) {
      }
      if id.Volume? && id.id in item.claims {
        var i :| 0 <= i < |item.claims| && item.claims[i] == id.id;
        assert Singles(item)[i] == Ensure(id);
      }
    }
  }

  // The first pass: every wanted object is there afterwards.

  lemma DoKeepsReady(t: Turn, item: Item, store: Store, id: Id)
    requires Ready(t, id, Live(store, KeyOf(t.cr, id))) && item != Remove(id)
    requires item.Claims? && item.claims != [] ==> Readable(StorageFor(t.after, item.claims[0]).annotations)
    ensures Ready(t, id, Live(Do(t, item, store), KeyOf(t.cr, id)))
  {
    var key := KeyOf(t.cr, id);
    if !Touches(t.cr, item, key) {
      DoFrame(t, item, store, key);
    } else {
      match item
      case Ensure(other) =>
        KeysDiffer(t.cr, id, other);
        StepStaysReady(t, id, Live(store, key));
      case Remove(other) => KeysDiffer(t.cr, id, other);
      case Claims(claims) =>
        var c :| c in claims && key == KeyOf(t.cr, Volume(c));
        KeysDiffer(t.cr, id, Volume(c));
        DoClaimsMakesLive(t, claims, StorageFor(t.after, claims[0]).annotations, store, c);
    }
  }

  lemma DoMakesReady(t: Turn, item: Item, store: Store, id: Id)
    requires Ensure(id) in Singles(item) && NoRecord(t, id)
    requires item.Claims? && item.claims != [] ==> Readable(StorageFor(t.after, item.claims[0]).annotations)
    ensures Ready(t, id, Live(Do(t, item, store), KeyOf(t.cr, id)))
  {
    SinglesHave(item, id);
    match item
    case Ensure(_) => StepMakesReady(t, id, Live(store, KeyOf(t.cr, id)));
    case Claims(claims) => DoClaimsMakesLive(t, claims, StorageFor(t.after, claims[0]).annotations, store, id.id);
    case _ =>
  }

  predicate ReadableItems(t: Turn, items: seq<Item>) {
    forall i | 0 <= i < |items| :: items[i].Claims? && items[i].claims != [] ==>
      Readable(StorageFor(t.after, items[i].claims[0]).annotations)
  }

  lemma {:induction false} ReadyStays(t: Turn, items: seq<Item>, store: Store, id: Id)
    requires ReadableItems(t, items) && Remove(id) !in items
    requires Ready(t, id, Live(store, KeyOf(t.cr, id)))
    ensures Ready(t, id, Live(DoAll(t, items, store), KeyOf(t.cr, id)))
    decreases |items|
  {
    if items != [] {
      var front, last := items[..|items| - 1], items[|items| - 1];
      assert items == front + [last];
      ReadyStays(t, front, store, id);
      DoKeepsReady(t, last, DoAll(t, front, store), id);
    }
  }

  lemma {:induction false} MakesReady(t: Turn, items: seq<Item>, store: Store, id: Id)
    requires ReadableItems(t, items) && Ensure(id) in Expand(items) && Remove(id) !in items && NoRecord(t, id)
    ensures Ready(t, id, Live(DoAll(t, items, store), KeyOf(t.cr, id)))
    decreases |items|
  {
    var front, last := items[..|items| - 1], items[|items| - 1];
    assert items == front + [last];
    if Ensure(id) in Singles(last) {
      DoMakesReady(t, last, DoAll(t, front, store), id);
    } else {
      MakesReady(t, front, store, id);
      DoKeepsReady(t, last, DoAll(t, front, store), id);
    }
  }

  // Once the claims are there, a loop over them is the claims one by one.

  lemma {:induction false} DoAllAppend(t: Turn, a: seq<Item>, b: seq<Item>, store: Store)
    ensures DoAll(t, a + b, store) == DoAll(t, b, DoAll(t, a, store))
    decreases |b|
  {
    if b == [] {
      assert a + b == a;
    } else {
      DoAllAppend(t, a, b[..|b| - 1], store);
      assert (a + b)[..|a + b| - 1] == a + b[..|b| - 1];
    }
  }

  predicate Uniform(t: Turn, claims: seq<ClaimId>, shared: Option<Annotations>) {
    forall c | c in claims :: StorageFor(t.after, c).annotations == shared
  }

  predicate AllLive(cr: Cr, claims: seq<ClaimId>, store: Store) {
    forall c | c in claims :: Live(store, KeyOf(cr, Volume(c))).Some?
  }

  lemma DoAllOne(t: Turn, item: Item, store: Store)
    ensures DoAll(t, [item], store) == Do(t, item, store)
  {
    assert [item][..0] == [];
  }

  lemma DoAllSnoc(t: Turn, items: seq<Item>, item: Item, store: Store)
    ensures DoAll(t, items + [item], store) == Do(t, item, DoAll(t, items, store))
  {
    assert (items + [item])[..|items + [item]| - 1] == items;
  }

  lemma DoEnsure(t: Turn, id: Id, store: Store)
    ensures Do(t, Ensure(id), store)
            == Write(store, KeyOf(t.cr, id), EnsuredAs(t, id, AnnotationsFor(t, id), Live(store, KeyOf(t.cr, id))))
    ensures Live(store, KeyOf(t.cr, id)).Some? ==>
              EnsuredAs(t, id, AnnotationsFor(t, id), Live(store, KeyOf(t.cr, id))).Some?
  {
  }

  lemma SinglesFirst(claims: seq<ClaimId>)
    requires claims != []
    ensures Singles(Claims(claims)) == [Ensure(Volume(claims[0]))] + Singles(Claims(claims[1..]))
  {
  }

  lemma StillLive(t: Turn, claims: seq<ClaimId>, store: Store)
    requires claims != [] && AllLive(t.cr, claims, store)
    ensures AllLive(t.cr, claims[1..], Do(t, Ensure(Volume(claims[0])), store))
  {
    hide KeyOf, EnsuredAs;
    assert claims[0] in claims;
    DoEnsure(t, Volume(claims[0]), store);
    forall c | c in claims[1..] ensures c in claims {
    }
  }

  lemma {:induction false} LoopIsSingles(t: Turn, claims: seq<ClaimId>, shared: Option<Annotations>, store: Store)
    requires Uniform(t, claims, shared) && AllLive(t.cr, claims, store)
    ensures DoClaims(t, claims, shared, store) == DoAll(t, Singles(Claims(claims)), store)
    decreases |claims|
  {
    hide Do, KeyOf, EnsuredAs, Singles;
    if claims == [] {
      NoSingles(t, store);
    } else {
      hide DoAll;
      var id, rest := Volume(claims[0]), claims[1..];
      assert claims[0] in claims;
      assert Uniform(t, rest, shared) by {
        forall c | c in rest ensures c in claims {
        }
      }
      DoEnsure(t, id, store);
      StillLive(t, claims, store);
      LoopIsSingles(t, rest, shared, Do(t, Ensure(id), store));
      SinglesFirst(claims);
      DoAllAppend(t, [Ensure(id)], Singles(Claims(rest)), store);
      DoAllOne(t, Ensure(id), store);
    }
  }

  lemma NoSingles(t: Turn, store: Store)
    ensures DoAll(t, Singles(Claims([])), store) == store
  {
  }

  predicate UniformItems(t: Turn, items: seq<Item>) {
    forall i | 0 <= i < |items| :: items[i].Claims? && items[i].claims != [] ==>
      Uniform(t, items[i].claims, StorageFor(t.after, items[i].claims[0]).annotations)
  }

  ghost predicate ClaimsLive(cr: Cr, items: seq<Item>, store: Store) {
    forall c: ClaimId :: Ensure(Volume(c)) in Expand(items) ==> Live(store, KeyOf(cr, Volume(c))).Some?
  }

  predicate NoClaimRemoved(items: seq<Item>) {
    forall i | 0 <= i < |items| :: items[i].Remove? ==> !items[i].id.Volume?
  }

  lemma {:induction false} ExpandSame(t: Turn, items: seq<Item>, store: Store)
    requires ReadableItems(t, items) && UniformItems(t, items) && NoClaimRemoved(items)
    requires ClaimsLive(t.cr, items, store)
    ensures DoAll(t, items, store) == DoAll(t, Expand(items), store)
    decreases |items|
  {
    if items != [] {
      var front, last := items[..|items| - 1], items[|items| - 1];
      ExpandSame(t, front, store);
      var before := DoAll(t, front, store);
      DoAllAppend(t, Expand(front), Singles(last), store);
      if last.Claims? && last.claims != [] {
        forall c | c in last.claims ensures Live(before, KeyOf(t.cr, Volume(c))).Some? {
          SinglesHave(last, Volume(c));
          assert Ensure(Volume(c)) in Expand(items);
          ReadyStays(t, front, store, Volume(c));
        }
        LoopIsSingles(t, last.claims, StorageFor(t.after, last.claims[0]).annotations, before);
      } else if last.Claims? {
        assert Singles(last) == [];
      } else {
        DoAllOne(t, last, before);
      }
    }
  }

  // Written out, a second pass settles what the first has left ready ...

  lemma DoKeepsSettled(t: Turn, item: Item, store: Store, id: Id)
    requires !item.Claims? && item != Remove(id)
    requires Settled(t, id, Live(store, KeyOf(t.cr, id)))
    ensures Settled(t, id, Live(Do(t, item, store), KeyOf(t.cr, id)))
  {
    var key := KeyOf(t.cr, id);
    if !Touches(t.cr, item, key) {
      DoFrame(t, item, store, key);
    } else {
      KeysDiffer(t.cr, id, item.id);
      assert t.(generate := t.generate) == t;
    }
  }

  lemma {:induction false} BecomesSettled(t: Turn, items: seq<Item>, store: Store, id: Id)
    requires OnlyFills(t.setup.admit) && Flat(items)
    requires Ensure(id) in items && Remove(id) !in items && Ready(t, id, Live(store, KeyOf(t.cr, id)))
    ensures Settled(t, id, Live(DoAll(t, items, store), KeyOf(t.cr, id)))
    decreases |items|
  {
    var front, last := items[..|items| - 1], items[|items| - 1];
    assert items == front + [last];
    var before := DoAll(t, front, store);
    if last == Ensure(id) {
      ReadyStays(t, front, store, id);
      StepSettles(t, id, Live(before, KeyOf(t.cr, id)));
    } else {
      BecomesSettled(t, front, store, id);
      DoKeepsSettled(t, last, before, id);
    }
  }

  lemma {:induction false} BecomesAbsent(t: Turn, items: seq<Item>, store: Store, id: Id)
    requires Flat(items) && Remove(id) in items && Ensure(id) !in items
    ensures Live(DoAll(t, items, store), KeyOf(t.cr, id)).None?
    decreases |items|
  {
    var front, last := items[..|items| - 1], items[|items| - 1];
    assert items == front + [last];
    if last != Remove(id) {
      BecomesAbsent(t, front, store, id);
      if Touches(t.cr, last, KeyOf(t.cr, id)) {
        KeysDiffer(t.cr, id, last.id);
      } else {
        DoFrame(t, last, DoAll(t, front, store), KeyOf(t.cr, id));
      }
    }
  }

  // ... and a third finds nothing to do.

  /** Every item with this key leaves the object as it is. */
  ghost predicate Still(t: Turn, items: seq<Item>, key: Key, o: Option<Resource>) {
    forall i | 0 <= i < |items| ::
      !items[i].Claims? && KeyOf(t.cr, items[i].id) == key ==>
        if items[i].Ensure? then Settled(t, items[i].id, o) else o.None?
  }

  lemma {:induction false} NothingToDo(t: Turn, items: seq<Item>, store: Store, key: Key)
    requires Flat(items) && Still(t, items, key, Live(store, key))
    ensures Live(DoAll(t, items, store), key) == Live(store, key)
    decreases |items|
  {
    if items != [] {
      var front, last := items[..|items| - 1], items[|items| - 1];
      NothingToDo(t, front, store, key);
      assert t.(generate := t.generate) == t;
      if !Touches(t.cr, last, key) {
        DoFrame(t, last, DoAll(t, front, store), key);
      }
    }
  }

  /** What becomes of an object depends on that object alone. */
  lemma {:induction false} Pointwise(t: Turn, items: seq<Item>, a: Store, b: Store, key: Key)
    requires Flat(items) && Live(a, key) == Live(b, key)
    ensures Live(DoAll(t, items, a), key) == Live(DoAll(t, items, b), key)
    decreases |items|
  {
    if items != [] {
      var front, last := items[..|items| - 1], items[|items| - 1];
      Pointwise(t, front, a, b, key);
      if !Touches(t.cr, last, key) {
        DoFrame(t, last, DoAll(t, front, a), key);
        DoFrame(t, last, DoAll(t, front, b), key);
      }
    }
  }

  lemma {:induction false} ExpandAppend(a: seq<Item>, b: seq<Item>)
    ensures Expand(a + b) == Expand(a) + Expand(b)
    decreases |b|
  {
    hide Singles;
    if b == [] {
      assert a + b == a;
    } else {
      ExpandAppend(a, b[..|b| - 1]);
      assert (a + b)[..|a + b| - 1] == a + b[..|b| - 1];
    }
  }

  lemma {:induction false} ExpandKeepsRemoves(items: seq<Item>, id: Id)
    ensures Remove(id) in Expand(items) <==> Remove(id) in items
    decreases |items|
  {
    if items != [] {
      var front, last := items[..|items| - 1], items[|items| - 1];
      assert items == front + [last];
      ExpandKeepsRemoves(front, id);
      SinglesHave(last, id);
    }
  }
}
