/** The patch pipeline of MergeSpecs: what the operator set and no longer sets is deleted, what it
    sets now is set, and everything else in the live object stays. */
module ThreeWayMerge {
  import opened Trees

  /** A merge patch (section 2 of RFC 7396): null, a scalar, or an object of patches. */
  datatype Patch = Drop | Put(value: Scalar) | Edit(members: map<string, Patch>)

  function Lift(t: Tree): Patch {
    match t
    case Leaf(v) => Put(v)
    case Node(m) => Edit(map k | k in m :: Lift(m[k]))
  }

  /** The difference from current to target without deletions; None when there is nothing to say. */
  function Delta(current: Tree, target: Tree): Option<Patch>
    decreases target
  {
    match (current, target)
    case (Leaf(a), Leaf(b)) => if a == b then None else Some(Put(b))
    case (Node(c), Node(t)) =>
      var changes := map k | k in t && (k in c ==> Delta(c[k], t[k]).Some?) ::
        if k in c then Delta(c[k], t[k]).value else Lift(t[k]);
      if changes == map[] then None else Some(Edit(changes))
    case _ => Some(Lift(target))
  }

  /** The deletions from original to target, and nothing else. */
  function Deletions(original: Option<Tree>, target: Tree): Option<Patch>
    decreases target
  {
    if original.Some? && original.value.Node? && target.Node? then
      var (o, t) := (original.value.members, target.members);
      var drops := map k | k in o && (k in t ==> Deletions(Some(o[k]), t[k]).Some?) ::
        if k in t then Deletions(Some(o[k]), t[k]).value else Drop;
      if drops == map[] then None else Some(Edit(drops))
    else None
  }

  /** A second patch laid over a first; the second wins where they are not both objects. */
  function LayOver(first: Patch, second: Patch): Patch
    decreases second
  {
    if first.Edit? && second.Edit? then
      var (a, b) := (first.members, second.members);
      Edit(map k | k in a.Keys + b.Keys ::
        if k !in b then a[k]
        else if k !in a then b[k]
        else LayOver(a[k], b[k]))
    else second
  }

  /** The three-way patch: the delta laid over the deletions. None is the empty patch. */
  function CreatePatch(original: Option<Tree>, target: Tree, current: Tree): Option<Patch> {
    Combine(Deletions(original, target), Delta(current, target))
  }

  function Combine(deletions: Option<Patch>, delta: Option<Patch>): Option<Patch> {
    if deletions.None? then delta
    else if delta.None? then deletions
    else Some(LayOver(deletions.value, delta.value))
  }

  /** MergePatch of section 2 of RFC 7396; None is an absent member. */
  function MergePatch(current: Option<Tree>, patch: Patch): Option<Tree>
    decreases patch
  {
    match patch
    case Drop => None
    case Put(v) => Some(Leaf(v))
    case Edit(m) =>
      var base := if current.Some? && current.value.Node? then current.value.members else map[];
      Some(Node(map k | k in base.Keys + m.Keys && (k in m ==> MergePatch(Member(current, k), m[k]).Some?) ::
        if k in m then MergePatch(Member(current, k), m[k]).value else base[k]))
  }

  /** The whole pipeline: an empty patch leaves the object alone. */
  function Merge(original: Option<Tree>, target: Tree, current: Tree): Option<Tree> {
    var patch := CreatePatch(original, target, current);
    if patch.None? then Some(current) else MergePatch(Some(current), patch.value)
  }

  /** The same result said directly, member by member. */
  function Overlay(original: Option<Tree>, target: Tree, current: Option<Tree>): Tree
    decreases target
  {
    match target
    case Leaf(_) => target
    case Node(t) =>
      var c := if current.Some? && current.value.Node? then current.value.members else map[];
      var kept := set k | k in c && k !in t && Member(original, k).None?;
      Node(map k | k in t.Keys + kept ::
        if k in t then Overlay(Member(original, k), t[k], Member(current, k)) else c[k])
  }

  // Each stage of the pipeline, one member at a time.

  function Part(p: Option<Patch>, key: string): Option<Patch> {
    if p.Some? && p.value.Edit? && key in p.value.members then Some(p.value.members[key]) else None
  }

  predicate IsObjectPatch(p: Option<Patch>) {
    p.Some? ==> p.value.Edit?
  }

  lemma DeletionsAtMember(original: Option<Tree>, target: Tree, key: string)
    requires target.Node?
    ensures IsObjectPatch(Deletions(original, target))
    ensures Part(Deletions(original, target), key) ==
            if key in target.members then Deletions(Member(original, key), target.members[key])
            else if Member(original, key).Some? then Some(Drop)
            else None
  {
    if original.Some? && original.value.Node? {
      var (o, t) := (original.value.members, target.members);
      var drops := map k | k in o && (k in t ==> Deletions(Some(o[k]), t[k]).Some?) ::
        if k in t then Deletions(Some(o[k]), t[k]).value else Drop;
      assert Deletions(original, target) == if drops == map[] then None else Some(Edit(drops));
      assert key in drops <==> key in o && (key in t ==> Deletions(Some(o[key]), t[key]).Some?);
    }
  }

  lemma DeltaAtMember(current: Tree, target: Tree, key: string)
    requires current.Node? && target.Node?
    ensures IsObjectPatch(Delta(current, target))
    ensures Part(Delta(current, target), key) ==
            if key !in target.members then None
            else if key in current.members then Delta(current.members[key], target.members[key])
            else Some(Lift(target.members[key]))
  {
    var (c, t) := (current.members, target.members);
    var changes := map k | k in t && (k in c ==> Delta(c[k], t[k]).Some?) ::
      if k in c then Delta(c[k], t[k]).value else Lift(t[k]);
    assert Delta(current, target) == if changes == map[] then None else Some(Edit(changes));
    assert key in changes <==> key in t && (key in c ==> Delta(c[key], t[key]).Some?);
  }

  lemma CombineAtMember(deletions: Option<Patch>, delta: Option<Patch>, key: string)
    requires IsObjectPatch(deletions) && IsObjectPatch(delta)
    ensures IsObjectPatch(Combine(deletions, delta))
    ensures Part(Combine(deletions, delta), key) == Combine(Part(deletions, key), Part(delta, key))
  {
  }

  function ApplyOption(current: Option<Tree>, patch: Option<Patch>): Option<Tree> {
    if patch.None? then current else MergePatch(current, patch.value)
  }

  lemma ApplyAtMember(current: Option<Tree>, patch: Patch, key: string)
    requires patch.Edit?
    ensures MergePatch(current, patch).Some? && MergePatch(current, patch).value.Node?
    ensures Member(MergePatch(current, patch), key) == ApplyOption(Member(current, key), Part(Some(patch), key))
  {
  }

  lemma OverlayAtMember(original: Option<Tree>, target: Tree, current: Option<Tree>, key: string)
    requires target.Node?
    ensures Overlay(original, target, current).Node?
    ensures Member(Some(Overlay(original, target, current)), key) ==
            if key in target.members then
              Some(Overlay(Member(original, key), target.members[key], Member(current, key)))
            else if Member(original, key).Some? then None
            else Member(current, key)
  {
  }

  lemma SameMembers(a: Tree, b: Tree)
    requires a.Node? && b.Node?
    requires forall k: string :: Member(Some(a), k) == Member(Some(b), k)
    ensures a == b
  {
    forall k: string ensures k in a.members <==> k in b.members
      ensures k in a.members ==> a.members[k] == b.members[k]
    {
      assert Member(Some(a), k) == Member(Some(b), k);
    }
    assert a.members == b.members;
  }

  lemma {:induction false} OverlayOnNothing(original: Option<Tree>, target: Tree, current: Option<Tree>)
    requires current.Some? ==> current.value.Leaf?
    ensures Overlay(original, target, current) == target
    decreases target
  {
    if target.Node? {
      forall k: string ensures Member(Some(Overlay(original, target, current)), k) == Member(Some(target), k) {
        OverlayAtMember(original, target, current, k);
        if k in target.members {
          OverlayOnNothing(Member(original, k), target.members[k], Member(current, k));
        }
      }
      SameMembers(Overlay(original, target, current), target);
    }
  }

  lemma LiftAtMember(target: Tree, key: string)
    requires target.Node?
    ensures Lift(target).Edit?
    ensures Part(Some(Lift(target)), key) ==
            if key in target.members then Some(Lift(target.members[key])) else None
  {
  }

  /** A lifted tree, laid over any deletions from its own target, applies to a member that holds no
      object as that tree. */
  lemma {:induction false} ApplyLifted(original: Option<Tree>, target: Tree, current: Option<Tree>)
    requires current.Some? ==> current.value.Leaf?
    ensures MergePatch(current, Combine(Deletions(original, target), Some(Lift(target))).value) == Some(target)
    decreases target
  {
    if target.Node? {
      var deletions, delta := Deletions(original, target), Some(Lift(target));
      var patch := Combine(deletions, delta).value;
      DeletionsAtMember(original, target, "");
      CombineAtMember(deletions, delta, "");
      ApplyAtMember(current, patch, "");
      forall k: string ensures Member(MergePatch(current, patch), k) == Member(Some(target), k) {
        DeletionsAtMember(original, target, k);
        LiftAtMember(target, k);
        CombineAtMember(deletions, delta, k);
        ApplyAtMember(current, patch, k);
        if k in target.members {
          ApplyLifted(Member(original, k), target.members[k], Member(current, k));
        }
      }
      SameMembers(MergePatch(current, patch).value, target);
    }
  }

  /** Diffing, deleting, combining and applying a patch is the direct overlay, for all three trees. */
  lemma {:induction false} PipelineIsOverlay(original: Option<Tree>, target: Tree, current: Tree)
    ensures Merge(original, target, current) == Some(Overlay(original, target, Some(current)))
    decreases target, 1
  {
    if target.Node? && current.Node? {
      var deletions, delta := Deletions(original, target), Delta(current, target);
      var patch := CreatePatch(original, target, current);
      DeletionsAtMember(original, target, "");
      DeltaAtMember(current, target, "");
      CombineAtMember(deletions, delta, "");
      if patch.Some? {
        ApplyAtMember(Some(current), patch.value, "");
      }
      var merged := Merge(original, target, current).value;
      var overlay := Overlay(original, target, Some(current));
      forall k: string ensures Member(Some(merged), k) == Member(Some(overlay), k) {
        MergeAtMember(original, target, current, k);
      }
      SameMembers(merged, overlay);
    } else if target.Node? {
      OverlayOnNothing(original, target, Some(current));
      ApplyLifted(original, target, Some(current));
    }
  }

  lemma {:induction false} MergeAtMember(original: Option<Tree>, target: Tree, current: Tree, key: string)
    requires target.Node? && current.Node?
    ensures Member(Merge(original, target, current), key) ==
            Member(Some(Overlay(original, target, Some(current))), key)
    decreases target, 0
  {
    var deletions, delta := Deletions(original, target), Delta(current, target);
    var patch := CreatePatch(original, target, current);
    DeletionsAtMember(original, target, key);
    DeltaAtMember(current, target, key);
    CombineAtMember(deletions, delta, key);
    if patch.Some? {
      ApplyAtMember(Some(current), patch.value, key);
    }
    OverlayAtMember(original, target, Some(current), key);
    if key in target.members {
      if key in current.members {
        PipelineIsOverlay(Member(original, key), target.members[key], current.members[key]);
      } else {
        OverlayOnNothing(Member(original, key), target.members[key], None);
        ApplyLifted(Member(original, key), target.members[key], None);
      }
    }
  }

  // The path-wise specification.

  /** How far into p the target goes: the length of its longest prefix present in target. */
  function Reach(target: Tree, p: Path): (n: nat)
    ensures n <= |p|
    ensures At(target, p[..n]).Some?
    ensures n < |p| ==> At(target, p[..n + 1]).None?
    decreases |p|
  {
    if p == [] || target.Leaf? || p[0] !in target.members then 0
    else
      var n := Reach(target.members[p[0]], p[1..]);
      assert p[..n + 1][1..] == p[1..][..n];
      assert n + 1 < |p| ==> p[..n + 2][1..] == p[1..][..n + 1];
      n + 1
  }

  /** What a merge must leave at p, given what the live object held there:
      the target's own entry; nothing under a scalar of the target; nothing below the first key that
      leaves the target, when the original had that key; and otherwise what was there. */
  function Settled(original: Option<Tree>, target: Tree, p: Path, before: Option<Entry>): Option<Entry> {
    var n := Reach(target, p);
    if n == |p| then At(target, p)
    else if At(target, p[..n]).value.Scalar? then None
    else if AtOption(original, p[..n + 1]).Some? then None
    else before
  }

  lemma OneStep(t: Option<Tree>, key: string)
    ensures AtOption(t, [key]).Some? <==> Member(t, key).Some?
  {
    if Member(t, key).Some? {
      RootPresent(Member(t, key).value);
      assert At(t.value, [key]) == At(Member(t, key).value, []);
    }
  }

  lemma {:induction false} OverlayMeetsPathSpec(original: Option<Tree>, target: Tree, current: Option<Tree>, p: Path)
    ensures At(Overlay(original, target, current), p)
         == Settled(original, target, p, AtOption(current, p))
    decreases |p|
  {
    if p != [] && target.Node? {
      var k, rest := p[0], p[1..];
      OverlayAtMember(original, target, current, k);
      if k in target.members {
        OverlayMeetsPathSpec(Member(original, k), target.members[k], Member(current, k), rest);
        var n := Reach(target.members[k], rest);
        assert p[..n + 1][1..] == rest[..n];
        assert n < |rest| ==> p[..n + 2][1..] == rest[..n + 1];
      } else {
        assert p[..0] == [];
        assert p[..1] == [k];
        OneStep(original, k);
      }
    }
  }

  /** Main result: what the patch pipeline leaves at every path, for every three trees. */
  lemma MergeMeetsPathSpec(original: Option<Tree>, target: Tree, current: Tree, p: Path)
    ensures Merge(original, target, current).Some?
    ensures At(Merge(original, target, current).value, p)
         == Settled(original, target, p, At(current, p))
  {
    PipelineIsOverlay(original, target, current);
    OverlayMeetsPathSpec(original, target, Some(current), p);
  }

  /** ... and nothing else meets it. */
  lemma PathSpecDeterminesMerge(original: Option<Tree>, target: Tree, current: Tree, result: Tree)
    requires forall p: Path :: At(result, p) == Settled(original, target, p, At(current, p))
    ensures Merge(original, target, current) == Some(result)
  {
    PipelineIsOverlay(original, target, current);
    var merged := Merge(original, target, current).value;
    forall p: Path ensures At(merged, p) == At(result, p) {
      MergeMeetsPathSpec(original, target, current, p);
    }
    PathsDetermineTree(merged, result);
  }

  lemma {:induction false} CoveredDelta(current: Tree, target: Tree)
    requires Covers(current, target)
    ensures Delta(current, target) == None
    decreases target
  {
    if target.Node? {
      forall k: string ensures Part(Delta(current, target), k) == None {
        DeltaAtMember(current, target, k);
        if k in target.members {
          CoveredDelta(current.members[k], target.members[k]);
        }
      }
      DeltaSaysSomething(current, target);
    }
  }

  lemma DeltaSaysSomething(current: Tree, target: Tree)
    requires current.Node? && target.Node?
    ensures Delta(current, target).Some? ==> exists k: string :: Part(Delta(current, target), k).Some?
  {
    var d := Delta(current, target);
    if d.Some? {
      assert d.value.Edit? && d.value.members != map[];
      var k :| k in d.value.members;
      assert Part(d, k).Some?;
    }
  }

  lemma {:induction false} NothingToDelete(target: Tree)
    ensures Deletions(Some(target), target) == None
  {
    if target.Node? {
      forall k: string ensures Part(Deletions(Some(target), target), k) == None {
        DeletionsAtMember(Some(target), target, k);
        if k in target.members {
          NothingToDelete(target.members[k]);
        }
      }
      DeletionsSaySomething(Some(target), target);
    }
  }

  lemma DeletionsSaySomething(original: Option<Tree>, target: Tree)
    ensures Deletions(original, target).Some? ==>
              exists k: string :: Part(Deletions(original, target), k).Some?
  {
    var d := Deletions(original, target);
    if d.Some? {
      assert d.value.Edit? && d.value.members != map[];
      var k :| k in d.value.members;
      assert Part(d, k).Some?;
    }
  }

  lemma OverlayCoversTarget(original: Option<Tree>, target: Tree, current: Option<Tree>)
    ensures Covers(Overlay(original, target, current), target)
  {
    var merged := Overlay(original, target, current);
    forall p: Path | At(target, p).Some? ensures At(merged, p) == At(target, p) {
      OverlayMeetsPathSpec(original, target, current, p);
      ReachOfPresent(target, p);
    }
    CoversIsPathwise(merged, target);
  }

  lemma {:induction false} ReachOfPresent(target: Tree, p: Path)
    requires At(target, p).Some?
    ensures Reach(target, p) == |p|
    decreases |p|
  {
    if p != [] {
      ReachOfPresent(target.members[p[0]], p[1..]);
    }
  }

  lemma {:induction false} CoversIsTransitive(a: Tree, b: Tree, c: Tree)
    requires Covers(a, b) && Covers(b, c)
    ensures Covers(a, c)
  {
    CoversIsPathwise(a, b);
    CoversIsPathwise(b, c);
    CoversIsPathwise(a, c);
    forall p: Path | At(c, p).Some? ensures At(a, p) == At(c, p) {
      assert At(b, p) == At(c, p);
    }
  }

  /** Merging the same target again changes nothing, even after the API server or anybody else has
      filled in absent paths: the patch is empty. */
  lemma MergeIsAFixpoint(original: Option<Tree>, target: Tree, current: Tree, filled: Tree)
    requires Merge(original, target, current).Some? && Covers(filled, Merge(original, target, current).value)
    ensures CreatePatch(Some(target), target, filled) == None
    ensures Merge(Some(target), target, filled) == Some(filled)
  {
    PipelineIsOverlay(original, target, current);
    OverlayCoversTarget(original, target, Some(current));
    CoversIsTransitive(filled, Merge(original, target, current).value, target);
    CoveredDelta(filled, target);
    NothingToDelete(target);
  }
}
