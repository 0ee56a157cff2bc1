/** MergeSpecs on the heap. Annotation maps are objects: on an update the live object's map and the
    target's map are two maps, on a create they are the same one, and the claims built in one loop
    all share it. */
module MergeSpecs {
  import opened Trees
  import opened ThreeWayMerge
  import opened LastApplied

  class AnnotationMap {
    var entries: Annotations

    constructor (entries: Annotations)
      ensures this.entries == entries
    {
      this.entries := entries;
    }
  }

  class ApiObject {
    var annotations: AnnotationMap?
    var spec: Tree

    constructor (annotations: AnnotationMap?, spec: Tree)
      ensures this.annotations == annotations && this.spec == spec
    {
      this.annotations := annotations;
      this.spec := spec;
    }
  }

  function Entries(m: AnnotationMap?): Annotations
    reads m
  {
    if m == null then map[] else m.entries
  }

  /** The target annotations as the second loop finds them: when they are the live object's own map,
      the first loop has already taken the owned ones out. */
  function TargetsSeen(live: Annotations, targets: Annotations, shared: bool): Annotations {
    if shared then live - Owned(live) else targets
  }

  /** The first loop: the annotations the record owns leave the live map. */
  method DropOwned(annotations: AnnotationMap)
    modifies annotations
    ensures annotations.entries == old(annotations.entries) - Owned(old(annotations.entries))
  {
    ghost var live := annotations.entries;
    var owned := Owned(annotations.entries);
    var todo := owned;
    while todo != {}
      invariant todo <= owned
      invariant annotations.entries == live - (owned - todo)
      decreases |todo|
    {
      var k :| k in todo;
      annotations.entries := annotations.entries - {k};
      todo := todo - {k};
    }
    assert owned - todo == owned;
  }

  lemma OneMore(kept: Annotations, wanted: Annotations, todo: set<string>, k: string)
    requires k in todo && todo <= wanted.Keys
    ensures (kept + (wanted - todo))[k := wanted[k]] == kept + (wanted - (todo - {k}))
    ensures wanted[k := wanted[k]] == wanted
  {
  }

  /** The second loop, in any order, whether or not the two maps are one. */
  method AddTargets(annotations: AnnotationMap, targets: AnnotationMap)
    modifies annotations
    ensures annotations.entries == old(annotations.entries) + old(targets.entries)
    ensures targets != annotations ==> targets.entries == old(targets.entries)
  {
    ghost var kept := annotations.entries;
    ghost var wanted := targets.entries;
    var todo := targets.entries.Keys;
    assert annotations.entries == kept + (wanted - todo);
    while todo != {}
      invariant todo <= wanted.Keys
      invariant annotations.entries == kept + (wanted - todo)
      invariant targets.entries == wanted
      decreases |todo|
    {
      var k :| k in todo;
      OneMore(kept, wanted, todo, k);
      var updated := annotations.entries[k := targets.entries[k]];
      todo := todo - {k};
      assert updated == kept + (wanted - todo);
      assert annotations == targets ==> updated == wanted;
      annotations.entries := updated;
    }
    assert wanted - todo == wanted;
  }

  method MergeSpecs(obj: ApiObject, target: Tree, targetAnnotations: AnnotationMap?) returns (ok: bool)
    modifies obj, if obj.annotations == null then {} else {obj.annotations}
    ensures obj.annotations != null
    ensures old(obj.annotations) != null ==> obj.annotations == old(obj.annotations)
    ensures old(obj.annotations) == null ==> fresh(obj.annotations)
    ensures var live := old(Entries(obj.annotations));
            var shared := targetAnnotations != null && targetAnnotations == old(obj.annotations);
            var targets := TargetsSeen(live, old(Entries(targetAnnotations)), shared);
            && obj.annotations.entries == Annotate(live, target, targets)
            && (ok ==> Update(Managed(live, old(obj.spec)), target, targets)
                       == Some(Managed(obj.annotations.entries, obj.spec)))
            && (!ok ==> Update(Managed(live, old(obj.spec)), target, targets) == None && obj.spec == old(obj.spec))
    ensures targetAnnotations != null && targetAnnotations != old(obj.annotations) ==>
              targetAnnotations.entries == old(targetAnnotations.entries)
  {
    var annotations := obj.annotations;
    if annotations == null {
      annotations := new AnnotationMap(map[]);
    }
    ghost var live := annotations.entries;
    ghost var targets := TargetsSeen(live, Entries(targetAnnotations), targetAnnotations == annotations);
    var original := OriginalOf(annotations.entries);
    DropOwned(annotations);
    if targetAnnotations != null {
      AddTargets(annotations, targetAnnotations);
    }
    assert annotations.entries == live - Owned(live) + targets;
    assert Entries(targetAnnotations) == targets;
    var record := Record(Entries(targetAnnotations), Some(target));
    annotations.entries := annotations.entries[LAST_APPLIED := record];
    obj.annotations := annotations;

    if original.Unreadable? {
      return false;
    }
    PipelineIsOverlay(original.tree, target, obj.spec);
    var patch := CreatePatch(original.tree, target, obj.spec);
    if patch.None? {
      return true;
    }
    obj.spec := MergePatch(Some(obj.spec), patch.value).value;
    return true;
  }

  // One pass over the claims of a component. All of them were built with the same annotation map.

  /** A claim's desired spec, and the live claim if there is one. */
  datatype Claim = Claim(target: Tree, live: Option<Managed>)

  /** The shared map after one more claim: creating a claim writes the record into it. */
  function SharedAfter(shared: Annotations, claim: Claim): Annotations {
    if claim.live.Some? then shared
    else Annotate(shared, claim.target, shared - Owned(shared))
  }

  /** What the API server holds for the claim afterwards. */
  function Persisted(shared: Annotations, claim: Claim): Managed {
    match claim.live
    case Some(live) => Next(live, Apply(claim.target, shared))
    case None => Managed(SharedAfter(shared, claim), claim.target)
  }

  function ClaimsPass(shared: Annotations, claims: seq<Claim>): (r: seq<Managed>)
    ensures |r| == |claims|
    decreases |claims|
  {
    if claims == [] then []
    else [Persisted(shared, claims[0])] + ClaimsPass(SharedAfter(shared, claims[0]), claims[1..])
  }

  predicate Carries(annotations: Annotations, targets: Annotations) {
    forall k | k in targets :: k in annotations && annotations[k] == targets[k]
  }

  function Created(claims: seq<Claim>): nat {
    if claims == [] then 0 else (if claims[0].live.None? then 1 else 0) + Created(claims[1..])
  }

  predicate Readable(claims: seq<Claim>) {
    forall i | 0 <= i < |claims| :: claims[i].target.Node?
      && (claims[i].live.Some? ==> OriginalOf(claims[i].live.value.annotations).Known?)
  }

  predicate AllCarry(objects: seq<Managed>, targets: Annotations) {
    forall i | 0 <= i < |objects| :: Carries(objects[i].annotations, targets)
  }

  /** As written, a pass does not always annotate the claims it should. It does so exactly when there
      is nothing to annotate or at most one claim is created: the second create finds its
      annotations listed as owned in the shared map, and deletes them. */
  lemma ClaimsAnnotatedIffOneCreate(targets: Annotations, claims: seq<Claim>)
    requires LAST_APPLIED !in targets && Readable(claims)
    ensures AllCarry(ClaimsPass(targets, claims), targets) <==> targets == map[] || Created(claims) <= 1
  {
    if targets == map[] || Created(claims) <= 1 {
      FewCreates(targets, targets, claims);
    } else {
      ManyCreates(targets, targets, claims);
    }
  }

  lemma {:induction false} FewCreates(targets: Annotations, shared: Annotations, claims: seq<Claim>)
    requires LAST_APPLIED !in targets && Readable(claims)
    requires Carries(shared, targets)
    requires targets == map[] || Created(claims) == 0 || (Created(claims) == 1 && LAST_APPLIED !in shared)
    ensures AllCarry(ClaimsPass(shared, claims), targets)
    decreases |claims|
  {
    if claims != [] {
      var claim := claims[0];
      if claim.live.Some? {
        UpdateAtPath(claim.live.value, claim.target, shared, []);
      }
      assert Carries(Persisted(shared, claim).annotations, targets);
      FewCreates(targets, SharedAfter(shared, claim), claims[1..]);
    }
  }

  lemma {:induction false} ManyCreates(targets: Annotations, shared: Annotations, claims: seq<Claim>)
    requires LAST_APPLIED !in targets && targets != map[]
    requires Created(claims) >= 1
    requires Owned(shared) == targets.Keys || (shared == targets && Created(claims) >= 2)
    ensures !AllCarry(ClaimsPass(shared, claims), targets)
    decreases |claims|
  {
    var claim := claims[0];
    var pass := ClaimsPass(shared, claims);
    if claim.live.None? && Owned(shared) == targets.Keys {
      var k :| k in targets;
      assert k !in pass[0].annotations;
    } else {
      ManyCreates(targets, SharedAfter(shared, claim), claims[1..]);
      assert pass[1..] == ClaimsPass(SharedAfter(shared, claim), claims[1..]);
      var i :| 0 <= i < |pass[1..]| && !Carries(pass[1..][i].annotations, targets);
      assert pass[i + 1] == pass[1..][i];
    }
  }

  function AsLive(targets: seq<Tree>, objects: seq<Managed>): seq<Claim>
    requires |targets| == |objects|
  {
    seq(|targets|, i requires 0 <= i < |targets| => Claim(targets[i], Some(objects[i])))
  }

  function Targets(claims: seq<Claim>): (r: seq<Tree>)
    ensures |r| == |claims|
  {
    seq(|claims|, i requires 0 <= i < |claims| => claims[i].target)
  }

  /** The next pass, which creates nothing, puts every annotation in place. */
  lemma NextPassRepairs(targets: Annotations, claims: seq<Claim>)
    requires LAST_APPLIED !in targets && Readable(claims)
    ensures var after := ClaimsPass(targets, claims);
            AllCarry(ClaimsPass(targets, AsLive(Targets(claims), after)), targets)
  {
    var after := ClaimsPass(targets, claims);
    PassLeavesReadable(targets, claims);
    var again := AsLive(Targets(claims), after);
    NothingCreated(again);
    FewCreates(targets, targets, again);
  }

  lemma {:induction false} NothingCreated(claims: seq<Claim>)
    requires forall i | 0 <= i < |claims| :: claims[i].live.Some?
    ensures Created(claims) == 0
    decreases |claims|
  {
    if claims != [] {
      NothingCreated(claims[1..]);
    }
  }

  lemma {:induction false} PassLeavesReadable(shared: Annotations, claims: seq<Claim>)
    requires Readable(claims)
    ensures forall i | 0 <= i < |claims| :: OriginalOf(ClaimsPass(shared, claims)[i].annotations).Known?
    decreases |claims|
  {
    if claims != [] {
      var claim := claims[0];
      if claim.live.Some? {
        UpdateAtPath(claim.live.value, claim.target, shared, []);
      }
      PassLeavesReadable(SharedAfter(shared, claim), claims[1..]);
    }
  }
}
