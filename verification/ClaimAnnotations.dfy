/** Which annotations the claims of a pass end up with: the loops of Reconcile annotate as the claims
    pass of MergeSpecs does, aliasing included. */
module ClaimAnnotations {
  import opened Trees
  import opened LastApplied
  import opened Naming
  import opened ThreeWayMerge
  import opened Topology
  import opened Spec
  import opened Objects
  import opened Inventory
  import opened Reconcile
  import opened Settling
  import M = MergeSpecs

  /** A claim of the plan, as MergeSpecs gets to see it. */
  function ClaimFor(t: Turn, c: ClaimId, store: Store): M.Claim {
    var live := Live(store, KeyOf(t.cr, Volume(c)));
    var base, size := ClaimBase(StorageFor(t.after, c).className), SizeFor(t.after, c);
    match live
    case None => M.Claim(ClaimSpec(base, size), None)
    case Some(o) => M.Claim(ClaimSpec(base, TargetSize(o.spec, size)), Some(Managed(o.annotations, o.spec)))
  }

  function ClaimsFor(t: Turn, claims: seq<ClaimId>, store: Store): (r: seq<M.Claim>)
    ensures |r| == |claims|
  {
    seq(|claims|, i requires 0 <= i < |claims| => ClaimFor(t, claims[i], store))
  }

  predicate Distinct(claims: seq<ClaimId>) { forall i, j | 0 <= i < j < |claims| :: claims[i] != claims[j] }

  lemma UpdateAnnotates(t: Turn, c: ClaimId, shared: Annotations, o: Resource, store: Store)
    requires OnlyFills(t.setup.admit) && Live(store, KeyOf(t.cr, Volume(c))) == Some(o)
    ensures var y := EnsuredAs(t, Volume(c), shared, Some(o));
            y.Some? && y.value.annotations == M.Persisted(shared, ClaimFor(t, c, store)).annotations
  {
    hide Merge, Annotate, TargetSize, ClaimSpec;
    var id := Volume(c);
    var owned := Own(o, OwnerOf(t.cr), Retained(t.after, id));
    var m := Mutate(owned, KeyOf(t.cr, id).name, DesiredFor(t, id), shared, t.generate);
    if m.Some? {
      assert Filled(KeyOf(t.cr, id), m.value, t.setup.admit(KeyOf(t.cr, id), m.value));
    }
  }

  lemma CreateAnnotates(t: Turn, c: ClaimId, shared: Annotations, store: Store)
    requires OnlyFills(t.setup.admit) && OriginalOf(shared).Known? && Live(store, KeyOf(t.cr, Volume(c))).None?
    ensures var y := EnsuredAs(t, Volume(c), shared, None);
            y.Some? && y.value.annotations == M.Persisted(shared, ClaimFor(t, c, store)).annotations
  {
    var id := Volume(c);
    var base, size := ClaimBase(StorageFor(t.after, c).className), SizeFor(t.after, c);
    var built := Own(Built(Claimed(base, size), shared), OwnerOf(t.cr), Retained(t.after, id));
    CoversItself(ClaimSpec(base, size));
    CoveredStorage(ClaimSpec(base, size), base, size);
    CreateSucceeds(t, id, shared);
    hide Merge, Annotate, StorageOf, ClaimSpec, Covers;
    var m := Mutate(built, KeyOf(t.cr, id).name, Claimed(base, size), SeenOnCreate(shared), t.generate);
    assert Filled(KeyOf(t.cr, id), m.value, t.setup.admit(KeyOf(t.cr, id), m.value));
  }

  lemma EnsuredAnnotates(t: Turn, c: ClaimId, shared: Annotations, store: Store)
    requires OnlyFills(t.setup.admit) && OriginalOf(shared).Known?
    ensures var y := EnsuredAs(t, Volume(c), shared, Live(store, KeyOf(t.cr, Volume(c))));
            y.Some? && y.value.annotations == M.Persisted(shared, ClaimFor(t, c, store)).annotations
  {
    hide M.Persisted, ClaimFor, EnsuredAs;
    match Live(store, KeyOf(t.cr, Volume(c)))
    case None => CreateAnnotates(t, c, shared, store);
    case Some(o) => UpdateAnnotates(t, c, shared, o, store);
  }

  lemma SharedAlike(t: Turn, c: ClaimId, shared: Annotations, store: Store)
    requires OriginalOf(shared).Known?
    ensures SharedNext(t, c, Some(shared), Live(store, KeyOf(t.cr, Volume(c)))) == Some(M.SharedAfter(shared, ClaimFor(t, c, store)))
    ensures OriginalOf(M.SharedAfter(shared, ClaimFor(t, c, store))).Known?
  {
  }

  lemma OthersAlike(t: Turn, claims: seq<ClaimId>, c: ClaimId, o: Option<Resource>, store: Store)
    requires c !in claims
    ensures ClaimsFor(t, claims, Write(store, KeyOf(t.cr, Volume(c)), o)) == ClaimsFor(t, claims, store)
  {
    hide KeyOf;
    forall i | 0 <= i < |claims|
      ensures Live(Write(store, KeyOf(t.cr, Volume(c)), o), KeyOf(t.cr, Volume(claims[i]))) == Live(store, KeyOf(t.cr, Volume(claims[i])))
    {
      if KeyOf(t.cr, Volume(c)) == KeyOf(t.cr, Volume(claims[i])) {
        KeysDiffer(t.cr, Volume(c), Volume(claims[i]));
      }
    }
  }

  /** Claim by claim, the loop of a pass annotates as the claims pass on their shared map. */
  lemma {:induction false} LoopAnnotates(t: Turn, claims: seq<ClaimId>, shared: Annotations, store: Store, i: nat)
    requires OnlyFills(t.setup.admit) && OriginalOf(shared).Known? && Distinct(claims) && i < |claims|
    ensures var y := Live(DoClaims(t, claims, Some(shared), store), KeyOf(t.cr, Volume(claims[i])));
            y.Some? && y.value.annotations == M.ClaimsPass(shared, ClaimsFor(t, claims, store))[i].annotations
    decreases |claims|
  {
    hide KeyOf, EnsuredAs, M.Persisted, M.SharedAfter, SharedNext, ClaimFor;
    var c, rest := claims[0], claims[1..];
    var k := KeyOf(t.cr, Volume(c));
    var stored := EnsuredAs(t, Volume(c), shared, Live(store, k));
    var after := Write(store, k, stored);
    EnsuredAnnotates(t, c, shared, store);
    SharedAlike(t, c, shared, store);
    OthersAlike(t, rest, c, stored, store);
    assert ClaimsFor(t, claims, store)[1..] == ClaimsFor(t, rest, store);
    if i == 0 {
      forall d | d in rest ensures k != KeyOf(t.cr, Volume(d)) {
        if k == KeyOf(t.cr, Volume(d)) {
          KeysDiffer(t.cr, Volume(c), Volume(d));
        }
      }
      DoClaimsFrame(t, rest, Some(M.SharedAfter(shared, ClaimFor(t, c, store))), after, k);
    } else {
      LoopAnnotates(t, rest, M.SharedAfter(shared, ClaimFor(t, c, store)), after, i - 1);
    }
  }

  /** How many claims of a loop are not in the store yet. */
  function Missing(cr: Cr, claims: seq<ClaimId>, store: Store): nat {
    if claims == [] then 0
    else (if Live(store, KeyOf(cr, Volume(claims[0]))).None? then 1 else 0) + Missing(cr, claims[1..], store)
  }

  lemma {:induction false} MissingAreCreated(t: Turn, claims: seq<ClaimId>, store: Store)
    ensures M.Created(ClaimsFor(t, claims, store)) == Missing(t.cr, claims, store)
    decreases |claims|
  {
    hide KeyOf;
    if claims != [] {
      MissingAreCreated(t, claims[1..], store);
      assert ClaimsFor(t, claims, store)[1..] == ClaimsFor(t, claims[1..], store);
    }
  }

  predicate RecordReadable(o: Option<Resource>) { o.Some? ==> OriginalOf(o.value.annotations).Known? }

  predicate AllAnnotated(cr: Cr, claims: seq<ClaimId>, store: Store, annotations: Annotations) {
    forall i | 0 <= i < |claims| ::
      var o := Live(store, KeyOf(cr, Volume(claims[i])));
      o.Some? && M.Carries(o.value.annotations, annotations)
  }

  /** The loop over a component's claims leaves them all in the store with the wanted annotations if and
      only if there are none to set or at most one claim was missing. */
  lemma LoopAnnotatesIff(t: Turn, claims: seq<ClaimId>, wanted: Annotations, store: Store)
    requires OnlyFills(t.setup.admit) && Distinct(claims) && LAST_APPLIED !in wanted
    requires forall c | c in claims :: RecordReadable(Live(store, KeyOf(t.cr, Volume(c))))
    ensures AllAnnotated(t.cr, claims, DoClaims(t, claims, Some(wanted), store), wanted)
            <==> wanted == map[] || Missing(t.cr, claims, store) <= 1
  {
    hide KeyOf, DoClaims, M.ClaimsPass, M.Carries;
    var seen := ClaimsFor(t, claims, store);
    MissingAreCreated(t, claims, store);
    forall i | 0 <= i < |claims| ensures claims[i] in claims {
    }
    M.ClaimsAnnotatedIffOneCreate(wanted, seen);
    forall i | 0 <= i < |claims|
      ensures var y := Live(DoClaims(t, claims, Some(wanted), store), KeyOf(t.cr, Volume(claims[i])));
              y.Some? && y.value.annotations == M.ClaimsPass(wanted, seen)[i].annotations
    {
      LoopAnnotates(t, claims, wanted, store, i);
    }
  }

  /** So the next pass, which finds them all, annotates them all. */
  lemma NextLoopRepairs(t: Turn, claims: seq<ClaimId>, wanted: Annotations, store: Store)
    requires OnlyFills(t.setup.admit) && Distinct(claims) && LAST_APPLIED !in wanted
    requires AllLive(t.cr, claims, store)
    requires forall c | c in claims :: RecordReadable(Live(store, KeyOf(t.cr, Volume(c))))
    ensures AllAnnotated(t.cr, claims, DoClaims(t, claims, Some(wanted), store), wanted)
  {
    hide KeyOf, DoClaims;
    NoneMissing(t.cr, claims, store);
    LoopAnnotatesIff(t, claims, wanted, store);
  }

  lemma {:induction false} NoneMissing(cr: Cr, claims: seq<ClaimId>, store: Store)
    requires AllLive(cr, claims, store)
    ensures Missing(cr, claims, store) == 0
    decreases |claims|
  {
    if claims != [] {
      assert claims[0] in claims;
      NoneMissing(cr, claims[1..], store);
    }
  }

  // The loops of the plan have distinct claims.

  lemma {:induction false} ShardClaimsDistinct(shards: nat, replicas: nat)
    ensures Distinct(ShardClaims(shards, replicas))
    ensures forall c | c in ShardClaims(shards, replicas) :: c.Shard? && c.shard < shards
    decreases shards
  {
    if shards > 0 {
      ShardClaimsDistinct(shards - 1, replicas);
      var front, row := ShardClaims(shards - 1, replicas), ShardRowClaims(shards - 1, replicas);
      forall i, j | 0 <= i < j < |front + row| ensures (front + row)[i] != (front + row)[j] {
        if i < |front| <= j {
          assert front[i] in front;
        }
      }
    }
  }

  lemma LoopsAreDistinct(spec: TelemetrySpec)
    ensures Distinct(TelemetryClaims(spec)) && Distinct(KeeperClaims(spec)) && Distinct(ClickhouseClaims(spec))
    ensures forall c | c in ClickhouseClaims(spec) :: c.Shard?
  {
    ShardClaimsDistinct(Count(OrOne(spec.clickhouse.shards)), Count(OrOne(spec.clickhouse.replicas)));
  }
}
